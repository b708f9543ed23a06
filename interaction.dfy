/** What the bubble's own listener (`CustomBubbleListener`, FloatingBubble.kt:92-123)
    does on each callback, and what a callback on the composite listener does
    as a whole, as functions of the state before it. The classes in
    `Bubbles` are proved to change their state exactly as these say. */
module Interaction {
  import opened Wrappers
  import opened CloseZone
  import opened Listeners

  datatype Overlay = BubbleOverlay | CloseOverlay | BackgroundOverlay

  /** What the bubble's collaborators observe, in order. */
  datatype Effect =
    | Notified(call: Call)             // a listener's callback ran
    | Shown(overlay: Overlay)          // `show()` on an overlay
    | Removed(overlay: Overlay)        // `remove()` on an overlay
    | PulledCloseIcon(x: int, y: int)  // `animateCloseIconByBubble(x, y)`
    | AnimatedToEdge                   // `bubbleView.animateIconToEdge()`

  /** What the callbacks read and never change: the builder's switches, read at
      each callback; the close bubble's layout and whether the background
      exists, both fixed at construction; the bubble's size and position; the
      composite listener; and which of its listeners is this bubble's own. */
  datatype Wiring = Wiring(
    closeBubbleEnabled: bool,
    animateToEdgeEnabled: bool,
    close: Option<CloseLayout>,
    hasBackground: bool,
    bubbleSizePx: Size,
    bubbleX: int, bubbleY: int,
    listener: Listener,
    own: ListenerId)

  /** What the callbacks change: the `isBubbleMoving` flag, the two overlays
      and the record of effects. */
  datatype Status = Status(moving: bool, closeShown: bool, closeAt: Point, backgroundShown: bool, trace: seq<Effect>)

  /** The effect record of a sequence of calls. */
  function Notifications(calls: seq<Call>): seq<Effect> {
    seq(|calls|, i requires 0 <= i < |calls| => Notified(calls[i]))
  }

  /** `tryShowCloseBubbleAndBackground` (FloatingBubble.kt:80-83): each overlay that exists is shown, the background first. */
  function ShowOverlays(w: Wiring, s: Status): (r: Status)
    // each overlay that exists ends up shown; a missing one is untouched
    ensures w.hasBackground ==> r.backgroundShown
    ensures w.close.Some? ==> r.closeShown
    ensures !w.hasBackground ==> r.backgroundShown == s.backgroundShown
    ensures w.close.None? ==> r.closeShown == s.closeShown
    // the flag and the close bubble's position stay; the record only grows
    ensures r.moving == s.moving && r.closeAt == s.closeAt
    ensures |s.trace| <= |r.trace| && r.trace[..|s.trace|] == s.trace
  {
    var bg := if w.hasBackground then [Shown(BackgroundOverlay)] else [];
    var cl := if w.close.Some? then [Shown(CloseOverlay)] else [];
    s.(backgroundShown := w.hasBackground || s.backgroundShown,
       closeShown := w.close.Some? || s.closeShown,
       trace := s.trace + bg + cl)
  }

  /** `tryRemoveCloseBubbleAndBackground` (FloatingBubble.kt:85-88): each overlay that exists is removed, the background first. */
  function RemoveOverlays(w: Wiring, s: Status): (r: Status)
    // each overlay that exists ends up removed; a missing one is untouched
    ensures w.hasBackground ==> !r.backgroundShown
    ensures w.close.Some? ==> !r.closeShown
    ensures !w.hasBackground ==> r.backgroundShown == s.backgroundShown
    ensures w.close.None? ==> r.closeShown == s.closeShown
    // the flag and the close bubble's position stay; the record only grows
    ensures r.moving == s.moving && r.closeAt == s.closeAt
    ensures |s.trace| <= |r.trace| && r.trace[..|s.trace|] == s.trace
  {
    var bg := if w.hasBackground then [Removed(BackgroundOverlay)] else [];
    var cl := if w.close.Some? then [Removed(CloseOverlay)] else [];
    s.(backgroundShown := !w.hasBackground && s.backgroundShown,
       closeShown := w.close.None? && s.closeShown,
       trace := s.trace + bg + cl)
  }

  /** Removing undoes showing: from a state with both overlays hidden,
      showing them and then removing them hides them again and leaves the
      flag and the close bubble's position as they were. */
  lemma RemoveUndoesShow(w: Wiring, s: Status)
    requires !s.closeShown && !s.backgroundShown
    ensures var t := RemoveOverlays(w, ShowOverlays(w, s));
      !t.closeShown && !t.backgroundShown && t.moving == s.moving && t.closeAt == s.closeAt
  {
  }

  /** `isBubbleInsideCloseView` (FloatingBubble.kt:125-130): the close bubble's
      ratio for the bubble's position is 0.0f; a missing close bubble gives
      `null == 0.0f`, which is false. `d` is the bubble's distance to the baseline. */
  function IsBubbleInsideCloseView(close: Option<CloseLayout>, x: int, y: int, d: real): (inside: bool)
    requires close.Some? ==> IsDistance(close.value, x, y, d)
    ensures inside <==> close.Some? && Captured(close.value, x, y)
  {
    if close.Some? then RatioZeroIffCaptured(close.value, x, y, d); DistanceRatio(close.value, x, y, d) == Num(0.0)
    else false
  }

  /** `CustomBubbleListener.onMove(x, y)` (FloatingBubble.kt:96-109). `d` is
      the distance from (x, y) to the close bubble's baseline. */
  function AfterMove(w: Wiring, s: Status, x: int, y: int, d: real): (r: Status)
    requires w.close.Some? ==> IsDistance(w.close.value, x, y, d)
    // after a move the flag is up exactly when it was, or when the close bubble is switched on
    ensures r.moving == (s.moving || w.closeBubbleEnabled)
    // the close bubble moves only during a drag
    ensures !s.moving ==> r.closeAt == s.closeAt
    ensures |s.trace| <= |r.trace| && r.trace[..|s.trace|] == s.trace
  {
    if s.moving then
      if w.close.Some? then
        s.(closeAt := CloseIconTarget(w.close.value, w.bubbleSizePx, x, y, d), trace := s.trace + [PulledCloseIcon(x, y)])
      else s
    else if !w.closeBubbleEnabled then s
    else ShowOverlays(w, s).(moving := true)
  }

  /** `CustomBubbleListener.onUp(x, y)` (FloatingBubble.kt:111-122). `d` is
      the distance from the bubble's position to the close bubble's baseline. */
  function AfterUp(w: Wiring, s: Status, d: real): (r: Status)
    requires w.close.Some? ==> IsDistance(w.close.value, w.bubbleX, w.bubbleY, d)
    // a release always ends the drag and leaves the close bubble where it was
    ensures !r.moving && r.closeAt == s.closeAt
    ensures |s.trace| <= |r.trace| && r.trace[..|s.trace|] == s.trace
  {
    var r := RemoveOverlays(w, s.(moving := false));
    if IsBubbleInsideCloseView(w.close, w.bubbleX, w.bubbleY, d) then
      r.(trace := r.trace + Notifications(Calls(w.listener, OnDestroy)))
    else if w.animateToEdgeEnabled then
      r.(trace := r.trace + [AnimatedToEdge])
    else r
  }

  /** `d` is the distance the bubble's listener measures for `e`: from the
      pointer for a move, from the bubble's position for a release. */
  predicate Measured(w: Wiring, e: Event, d: real) {
    w.close.Some? ==>
      match e
      case OnMove(x, y) => IsDistance(w.close.value, x, y, d)
      case OnUp(_, _) => IsDistance(w.close.value, w.bubbleX, w.bubbleY, d)
      case _ => true
  }

  /** The bubble's own listener handles `e`; it overrides only `onMove` and `onUp`. */
  function Handle(w: Wiring, s: Status, e: Event, d: real): (r: Status)
    requires Measured(w, e, d)
    // every other callback leaves the state as it is
    ensures !e.OnMove? && !e.OnUp? ==> r == s
    ensures e.OnUp? ==> !r.moving
    ensures |s.trace| <= |r.trace| && r.trace[..|s.trace|] == s.trace
  {
    match e
    case OnMove(x, y) => AfterMove(w, s, x, y, d)
    case OnUp(_, _) => AfterUp(w, s, d)
    case _ => s
  }

  /** Calling one listener: the call is recorded, and the bubble's own
      listener `own` then runs its handler `internal`. Any other listener,
      another bubble's included, acts on state outside this bubble. */
  function Invoke(s: Status, id: ListenerId, e: Event, own: ListenerId, internal: Status -> Status): Status {
    var s1 := s.(trace := s.trace + [Notified(Call(id, e))]);
    if id == own then internal(s1) else s1
  }

  /** A callback on composite `l` (FloatingBubble.kt:274-301): the previous
      listener first, then the incoming one. */
  function Dispatch(l: Listener, s: Status, e: Event, own: ListenerId, internal: Status -> Status): (r: Status)
    // through a composite the bubble's own listener is not part of, a
    // callback only records one call per listener, in registration order
    ensures own !in Registered(l) ==> r == s.(trace := s.trace + Notifications(Calls(l, e)))
  {
    match l
    case NoListener =>
      assert s.trace + [] == s.trace;
      s
    case Composite(previous, incoming) =>
      NotificationsOfLast(previous, incoming, e);
      Invoke(Dispatch(previous, s, e, own, internal), incoming, e, own, internal)
  }

  /** A callback `e` on the composite `l`, with the bubble's own listener
      handling it as `Handle` says. */
  function Deliver(w: Wiring, l: Listener, s: Status, e: Event, d: real): (r: Status)
    requires Measured(w, e, d)
    // `onDown`, `onClick` and `onDestroy` are not overridden by the bubble's
    // own listener, so through any composite they only record the calls
    ensures e.OnDown? || e.OnClick? || e.OnDestroy? ==> r == s.(trace := s.trace + Notifications(Calls(l, e)))
  {
    var handler := t => Handle(w, t, e, d);
    if e.OnDown? || e.OnClick? || e.OnDestroy? then
      DispatchWithIdleHandler(l, s, e, w.own, handler);
      Dispatch(l, s, e, w.own, handler)
    else
      Dispatch(l, s, e, w.own, handler)
  }

  // ---------------------------------------------------------------------------
  // The drag state machine

  /** A move while the bubble is moving only pulls the close bubble: nothing is shown or removed and the flag stays up. */
  lemma MoveWhileMovingOnlyPulls(w: Wiring, s: Status, x: int, y: int, d: real)
    requires w.close.Some? ==> IsDistance(w.close.value, x, y, d)
    requires s.moving
    ensures var t := AfterMove(w, s, x, y, d);
      && t.moving && t.closeShown == s.closeShown && t.backgroundShown == s.backgroundShown
      && t.trace == s.trace + (if w.close.Some? then [PulledCloseIcon(x, y)] else [])
      && (w.close.Some? ==> t.closeAt == CloseIconTarget(w.close.value, w.bubbleSizePx, x, y, d))
  {
  }

  /** With the close bubble switched off, a move of a bubble at rest changes nothing. */
  lemma MoveWithCloseBubbleDisabled(w: Wiring, s: Status, x: int, y: int, d: real)
    requires w.close.Some? ==> IsDistance(w.close.value, x, y, d)
    requires !s.moving && !w.closeBubbleEnabled
    ensures AfterMove(w, s, x, y, d) == s
  {
  }

  /** The first move with the close bubble switched on shows the background,
      then the close bubble, raises the flag, and pulls nothing. */
  lemma FirstMoveShowsOverlays(w: Wiring, s: Status, x: int, y: int, d: real)
    requires w.close.Some? ==> IsDistance(w.close.value, x, y, d)
    requires !s.moving && w.closeBubbleEnabled
    ensures var t := AfterMove(w, s, x, y, d);
      && t.moving && t.closeAt == s.closeAt
      && t.trace == s.trace + (if w.hasBackground then [Shown(BackgroundOverlay)] else [])
                            + (if w.close.Some? then [Shown(CloseOverlay)] else [])
      && (w.close.Some? ==> t.closeShown)
      && (w.hasBackground ==> t.backgroundShown)
  {
  }

  /** A release, whatever the state before it, lowers the flag and removes
      the background, then the close bubble; then it either calls `onDestroy`
      on every listener, exactly when the bubble is inside the close zone, or,
      otherwise and only when switched on, animates the bubble to the edge. */
  lemma ReleaseEndsTheDrag(w: Wiring, s: Status, d: real)
    requires w.close.Some? ==> IsDistance(w.close.value, w.bubbleX, w.bubbleY, d)
    ensures var t := AfterUp(w, s, d);
      var removals := (if w.hasBackground then [Removed(BackgroundOverlay)] else [])
                    + (if w.close.Some? then [Removed(CloseOverlay)] else []);
      var inside := w.close.Some? && Captured(w.close.value, w.bubbleX, w.bubbleY);
      && !t.moving
      && (w.close.Some? ==> !t.closeShown)
      && (w.hasBackground ==> !t.backgroundShown)
      && t.closeAt == s.closeAt
      && t.trace == s.trace + removals
                    + (if inside then Notifications(Calls(w.listener, OnDestroy))
                       else if w.animateToEdgeEnabled then [AnimatedToEdge] else [])
  {
  }

  /** `trace` holds a call of `onDestroy`. */
  predicate Destroys(trace: seq<Effect>) {
    exists i :: 0 <= i < |trace| && trace[i].Notified? && trace[i].call.event == OnDestroy
  }

  /** The removals of a release, then either the destroy calls or the edge animation. */
  lemma ReleaseTailOutcome(removals: seq<Effect>, tail: seq<Effect>, notes: seq<Effect>, destroy: bool, animate: bool)
    requires forall i :: 0 <= i < |removals| ==> removals[i].Removed?
    requires forall i :: 0 <= i < |notes| ==> notes[i].Notified? && notes[i].call.event == OnDestroy
    requires tail == if destroy then notes else if animate then [AnimatedToEdge] else []
    ensures !(Destroys(removals + tail) && AnimatedToEdge in removals + tail)
    ensures Destroys(removals + tail) <==> destroy && |notes| > 0
    ensures AnimatedToEdge in removals + tail <==> !destroy && animate
  {
    var added := removals + tail;
    if destroy {
      if |notes| > 0 {
        assert added[|removals|] == notes[0];
      }
      assert forall i :: 0 <= i < |added| ==> added[i].Removed? || added[i].Notified?;
    } else {
      assert forall i :: 0 <= i < |added| ==> added[i].Removed? || added[i] == AnimatedToEdge;
      assert animate ==> added[|removals|] == AnimatedToEdge;
    }
  }

  /** A release never both destroys and animates to the edge. It calls
      `onDestroy` exactly when the bubble is inside the close zone (so never
      without a close bubble) and some listener is registered; otherwise it
      animates to the edge exactly when that is switched on. */
  lemma DestroyXorAnimate(w: Wiring, s: Status, d: real)
    requires w.close.Some? ==> IsDistance(w.close.value, w.bubbleX, w.bubbleY, d)
    ensures var added := AfterUp(w, s, d).trace[|s.trace|..];
      var inside := w.close.Some? && Captured(w.close.value, w.bubbleX, w.bubbleY);
      && !(Destroys(added) && AnimatedToEdge in added)
      && (Destroys(added) <==> inside && Registered(w.listener) != [])
      && (AnimatedToEdge in added <==> !inside && w.animateToEdgeEnabled)
  {
    ReleaseEndsTheDrag(w, s, d);
    var removals := (if w.hasBackground then [Removed(BackgroundOverlay)] else [])
                  + (if w.close.Some? then [Removed(CloseOverlay)] else []);
    var notes := Notifications(Calls(w.listener, OnDestroy));
    var inside := w.close.Some? && Captured(w.close.value, w.bubbleX, w.bubbleY);
    var tail := if inside then notes else if w.animateToEdgeEnabled then [AnimatedToEdge] else [];
    assert AfterUp(w, s, d).trace[|s.trace|..] == removals + tail;
    ReleaseTailOutcome(removals, tail, notes, inside, w.animateToEdgeEnabled);
  }

  // ---------------------------------------------------------------------------
  // Dispatch through the composite listener

  /** Splitting off the call to the last listener of a composite. */
  lemma NotificationsOfLast(previous: Listener, incoming: ListenerId, e: Event)
    ensures forall tr: seq<Effect> ::
              tr + Notifications(Calls(Composite(previous, incoming), e))
              == (tr + Notifications(Calls(previous, e))) + [Notified(Call(incoming, e))]
  {
    assert Notifications(Calls(Composite(previous, incoming), e))
      == Notifications(Calls(previous, e)) + [Notified(Call(incoming, e))];
  }

  /** A callback whose handler does nothing only records the calls, one per listener, in registration order. */
  lemma {:induction false} DispatchWithIdleHandler(l: Listener, s: Status, e: Event, own: ListenerId, internal: Status -> Status)
    requires forall t :: internal(t) == t
    ensures Dispatch(l, s, e, own, internal) == s.(trace := s.trace + Notifications(Calls(l, e)))
  {
    match l
    case NoListener =>
      assert s.trace + [] == s.trace;
    case Composite(previous, incoming) =>
      DispatchWithIdleHandler(previous, s, e, own, internal);
      NotificationsOfLast(previous, incoming, e);
  }

  /** Listeners registered after the composite `l` run, in order, after everything `l` does. */
  lemma {:induction false} DispatchAfterLater(l: Listener, ids: seq<ListenerId>, s: Status, e: Event, own: ListenerId, internal: Status -> Status)
    requires own !in ids
    ensures var t := Dispatch(l, s, e, own, internal);
      Dispatch(RegisterAll(l, ids), s, e, own, internal) == t.(trace := t.trace + Notifications(CallsTo(ids, e)))
    decreases |ids|
  {
    var t := Dispatch(l, s, e, own, internal);
    if ids == [] {
      assert Notifications(CallsTo(ids, e)) == [];
      assert t.trace + [] == t.trace;
    } else {
      assert ids[0] != own && own !in ids[1..] by {
        assert ids == [ids[0]] + ids[1..];
      }
      NotificationsOfFirst(ids, e);
      DispatchAfterLater(Composite(l, ids[0]), ids[1..], s, e, own, internal);
      var first := [Notified(Call(ids[0], e))];
      var rest := Notifications(CallsTo(ids[1..], e));
      assert Dispatch(Composite(l, ids[0]), s, e, own, internal) == t.(trace := t.trace + first);
      assert RegisterAll(l, ids) == RegisterAll(Composite(l, ids[0]), ids[1..]);
      assert (t.trace + first) + rest == t.trace + (first + rest);
    }
  }

  /** Splitting off the first of the calls to `ids`. */
  lemma NotificationsOfFirst(ids: seq<ListenerId>, e: Event)
    requires ids != []
    ensures Notifications(CallsTo(ids, e)) == [Notified(Call(ids[0], e))] + Notifications(CallsTo(ids[1..], e))
  {
    CallsToOfFirst(ids, e);
    NotificationsAppend([Call(ids[0], e)], CallsTo(ids[1..], e));
  }

  /** The record of two runs of calls is the record of the first, then that of the second. */
  lemma NotificationsAppend(a: seq<Call>, b: seq<Call>)
    ensures Notifications(a + b) == Notifications(a) + Notifications(b)
  {
  }

  /** A callback on the composite the bubble ends up with: the listeners
      registered before the bubble's own are called first and only recorded,
      then the bubble's own listener runs its handler, then the listeners
      registered after it are called and recorded. */
  lemma BubbleListenerRunsInRegistrationOrder(before: Listener, own: ListenerId, after: seq<ListenerId>, s: Status, e: Event, internal: Status -> Status)
    requires own !in Registered(before) && own !in after
    ensures var s1 := s.(trace := s.trace + Notifications(Calls(before, e)) + [Notified(Call(own, e))]);
      var s2 := internal(s1);
      Dispatch(RegisterAll(Composite(before, own), after), s, e, own, internal)
        == s2.(trace := s2.trace + Notifications(CallsTo(after, e)))
  {
    DispatchAfterLater(Composite(before, own), after, s, e, own, internal);
  }

  /** On a builder whose listeners are slotted, as every builder's are, a
      bubble built on it and any registrations after it: each callback runs
      that bubble's handler exactly once, between the listeners registered
      before it and those registered after it, another bubble built on the
      same builder included. */
  lemma EachBubbleHandlesOnce(before: Listener, after: seq<ListenerId>, s: Status, e: Event, internal: Status -> Status)
    requires Slotted(RegisterAll(Composite(before, Own(|Registered(before)|)), after))
    ensures var own := Own(|Registered(before)|);
      var s1 := s.(trace := s.trace + Notifications(Calls(before, e)) + [Notified(Call(own, e))]);
      var s2 := internal(s1);
      Dispatch(RegisterAll(Composite(before, own), after), s, e, own, internal)
        == s2.(trace := s2.trace + Notifications(CallsTo(after, e)))
  {
    var own := Own(|Registered(before)|);
    var all := Registered(RegisterAll(Composite(before, own), after));
    var n := |Registered(before)|;
    assert all == Registered(before) + [own] + after;
    SlottedBubblesAreDistinct(RegisterAll(Composite(before, own), after));
    assert all[n] == own;
    forall k | 0 <= k < n
      ensures Registered(before)[k] != own
    {
      assert all[k] == Registered(before)[k];
    }
    forall k | 0 <= k < |after|
      ensures after[k] != own
    {
      assert all[n + 1 + k] == after[k];
    }
    BubbleListenerRunsInRegistrationOrder(before, own, after, s, e, internal);
  }
}
