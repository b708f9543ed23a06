/** The listener callbacks of `FloatingBubble.Listener` and the composite
    listener `Builder.addFloatingBubbleListener` builds (FloatingBubble.kt:56-68,
    272-304). Listeners are named by identifiers; calling one is recorded as a
    `Call`. */
module Listeners {

  /** The five callbacks of `FloatingBubble.Listener`. */
  datatype Event = OnDown(x: int, y: int) | OnUp(x: int, y: int) | OnMove(x: int, y: int) | OnClick | OnDestroy

  /** A registered listener: one of the host's, or the `CustomBubbleListener`
      of a bubble, named by its slot: the number of listeners the builder
      already had when that bubble was built and registered it. */
  datatype ListenerId = User(n: int) | Own(slot: nat)

  /** One callback invoked on one listener. */
  datatype Call = Call(listener: ListenerId, event: Event)

  /** The builder's `listener: Listener?`: nothing yet, or the anonymous
      wrapper an `addFloatingBubbleListener` call created around the previous
      value (`tempListener`) and the incoming listener. */
  datatype Listener = NoListener | Composite(previous: Listener, incoming: ListenerId)

  /** The listeners a composite reaches, in registration order. */
  function Registered(l: Listener): (r: seq<ListenerId>)
    // nothing is reached before the first registration; the newest one is reached last
    ensures l.NoListener? <==> r == []
    ensures l.Composite? ==> |r| > 0 && r[|r| - 1] == l.incoming
  {
    match l
    case NoListener => []
    case Composite(previous, incoming) => Registered(previous) + [incoming]
  }

  /** The calls one callback on the composite makes: each wrapper first calls
      `tempListener?.onX(...)` (nothing when it is null), then `listener.onX(...)`. */
  function Calls(l: Listener, e: Event): (r: seq<Call>)
    // every registered listener, in registration order, exactly once each
    ensures |r| == |Registered(l)|
    ensures forall i :: 0 <= i < |r| ==> r[i] == Call(Registered(l)[i], e)
    // the first wrapper skips the null previous listener
    ensures l.Composite? && l.previous.NoListener? ==> r == [Call(l.incoming, e)]
  {
    match l
    case NoListener => []
    case Composite(previous, incoming) => Calls(previous, e) + [Call(incoming, e)]
  }

  /** Adding `ids` one after another, as successive `addFloatingBubbleListener`
      calls do: they are appended, in order, after the listeners already there. */
  function RegisterAll(l: Listener, ids: seq<ListenerId>): (r: Listener)
    ensures Registered(r) == Registered(l) + ids
    decreases |ids|
  {
    if ids == [] then l
    else
      var r := RegisterAll(Composite(l, ids[0]), ids[1..]);
      assert Registered(l) + ids == (Registered(l) + [ids[0]]) + ids[1..];
      r
  }

  /** After registering L1 .. Ln on a fresh builder, every callback reaches
      L1 first and Ln last, each of them once, in registration order. */
  lemma RegisteredInOrderAreCalledInOrder(ids: seq<ListenerId>, e: Event)
    ensures |Calls(RegisterAll(NoListener, ids), e)| == |ids|
    ensures forall i :: 0 <= i < |ids| ==> Calls(RegisterAll(NoListener, ids), e)[i] == Call(ids[i], e)
    ensures |ids| > 0 ==> Calls(RegisterAll(NoListener, ids), e)[0] == Call(ids[0], e)
    ensures |ids| > 0 ==> Calls(RegisterAll(NoListener, ids), e)[|ids| - 1] == Call(ids[|ids| - 1], e)
  {
  }

  /** The calls of one callback `e` made on each of `ids`, in order. */
  function CallsTo(ids: seq<ListenerId>, e: Event): seq<Call> {
    seq(|ids|, i requires 0 <= i < |ids| => Call(ids[i], e))
  }

  /** Composing over further registrations keeps the earlier calls as a prefix:
      later registrations can only add calls after them. */
  lemma {:induction false} CallsExtend(l: Listener, ids: seq<ListenerId>, e: Event)
    ensures Calls(RegisterAll(l, ids), e) == Calls(l, e) + CallsTo(ids, e)
    decreases |ids|
  {
    if ids != [] {
      CallsToOfFirst(ids, e);
      CallsExtend(Composite(l, ids[0]), ids[1..], e);
      var first := [Call(ids[0], e)];
      var rest := CallsTo(ids[1..], e);
      assert (Calls(l, e) + first) + rest == Calls(l, e) + (first + rest);
    }
  }

  /** Splitting off the first of the calls to `ids`. */
  lemma CallsToOfFirst(ids: seq<ListenerId>, e: Event)
    requires ids != []
    ensures CallsTo(ids, e) == [Call(ids[0], e)] + CallsTo(ids[1..], e)
  {
  }

  // ---------------------------------------------------------------------------
  // Which bubble a listener belongs to

  /** Every bubble's listener sits at its own slot: the registrations a
      builder can only receive, since `CustomBubbleListener` is private to
      `FloatingBubble` and the host can register only its own listeners. */
  predicate Slotted(l: Listener) {
    forall i :: 0 <= i < |Registered(l)| && Registered(l)[i].Own? ==> Registered(l)[i].slot == i
  }

  /** A registration keeps the listeners slotted exactly when it is a host
      listener or the listener of a bubble built now, at the next slot. */
  lemma SlottedRegistration(l: Listener, incoming: ListenerId)
    requires Slotted(l)
    ensures Slotted(Composite(l, incoming)) <==> incoming.User? || incoming.slot == |Registered(l)|
  {
    var r := Registered(Composite(l, incoming));
    assert r == Registered(l) + [incoming];
    assert r[|Registered(l)|] == incoming;
  }

  /** In a slotted composite no bubble's listener is registered twice, and the
      listener of a bubble built next is not there yet. */
  lemma SlottedBubblesAreDistinct(l: Listener)
    requires Slotted(l)
    ensures forall i, j :: 0 <= i < |Registered(l)| && 0 <= j < |Registered(l)| && Registered(l)[i].Own? && Registered(l)[i] == Registered(l)[j] ==> i == j
    ensures Own(|Registered(l)|) !in Registered(l)
  {
    var r := Registered(l);
    forall i, j | 0 <= i < |r| && 0 <= j < |r| && r[i].Own? && r[i] == r[j]
      ensures i == j
    {
      assert r[i].slot == i && r[j].slot == j;
    }
  }
}
