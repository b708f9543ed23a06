/** The objects of FloatingBubble.kt whose fields change in place: the
    `Builder` and its setters, the bubble's overlays, the
    `CustomBubbleListener` flag and the `FloatingBubble` that wires them
    together. Each callback is proved to change this state exactly as the
    corresponding function of `Interaction` says. */
module Bubbles {
  import opened Wrappers
  import opened CloseZone
  import opened Listeners
  import opened Interaction

  /** `DEFAULT_BUBBLE_SIZE_PX`, the default width and height of both bubbles. */
  const DefaultBubbleSizePx: int := 160

  /** A style resource: one of the library's two defaults or one the host names. */
  datatype Style = DefaultBubbleStyle | DefaultCloseBubbleStyle | StyleRes(id: int)

  /** A host `View` used as an icon, by identity. */
  datatype ViewRef = ViewRef(id: nat)

  /** Every field of `FloatingBubble.Builder` (FloatingBubble.kt:138-158). */
  datatype BuilderState = BuilderState(
    iconView: Option<ViewRef>,
    iconBitmap: Option<Image>,
    bubbleStyle: Option<Style>,
    bubbleSizePx: Size,
    closeIconView: Option<ViewRef>,
    closeIconBitmap: Option<Image>,
    closeBubbleStyle: Option<Style>,
    closeBubbleSizePx: Size,
    startPoint: Point,
    elevation: int,
    opacity: real,
    isCloseBubbleEnabled: bool,
    isAnimateToEdgeEnabled: bool,
    isBottomBackgroundEnabled: bool,
    listener: Listener)

  /** The builder as it is created: no icons, the default styles, both sizes
      160 px by 160 px, start at (0, 0), elevation 0, fully opaque, close
      bubble and edge animation on, bottom background off, no listener. */
  function InitialBuilderState(): (b: BuilderState)
    // the default close-bubble size is set, so it does not fall back to the bubble's
    ensures NotZero(b.closeBubbleSizePx) && b.closeBubbleSizePx == b.bubbleSizePx
    ensures Registered(b.listener) == [] && Slotted(b.listener)
  {
    BuilderState(
      None, None, Some(DefaultBubbleStyle), Size(DefaultBubbleSizePx, DefaultBubbleSizePx),
      None, None, Some(DefaultCloseBubbleStyle), Size(DefaultBubbleSizePx, DefaultBubbleSizePx),
      Point(0, 0), 0, 1.0,
      true, true, false,
      NoListener)
  }

  /** `FloatingBubble.Builder` (FloatingBubble.kt:134-339). Every setter
      assigns its fields and returns the builder itself. */
  class Builder {
    /** `Int.toPx`, the platform's dp-to-px conversion. */
    const toPx: int -> int

    var iconView: Option<ViewRef>
    var iconBitmap: Option<Image>
    var bubbleStyle: Option<Style>
    var bubbleSizePx: Size
    var closeIconView: Option<ViewRef>
    var closeIconBitmap: Option<Image>
    var closeBubbleStyle: Option<Style>
    var closeBubbleSizePx: Size
    var startPoint: Point
    var elevation: int
    var opacity: real
    var isCloseBubbleEnabled: bool
    var isAnimateToEdgeEnabled: bool
    var isBottomBackgroundEnabled: bool
    var listener: Listener

    function State(): BuilderState
      reads this
    {
      BuilderState(
        iconView, iconBitmap, bubbleStyle, bubbleSizePx,
        closeIconView, closeIconBitmap, closeBubbleStyle, closeBubbleSizePx,
        startPoint, elevation, opacity,
        isCloseBubbleEnabled, isAnimateToEdgeEnabled, isBottomBackgroundEnabled,
        listener)
    }

    constructor (toPx: int -> int)
      ensures this.toPx == toPx
      ensures State() == InitialBuilderState()
      ensures Slotted(listener)
    {
      this.toPx := toPx;
      iconView := None;
      iconBitmap := None;
      bubbleStyle := Some(DefaultBubbleStyle);
      bubbleSizePx := Size(DefaultBubbleSizePx, DefaultBubbleSizePx);
      closeIconView := None;
      closeIconBitmap := None;
      closeBubbleStyle := Some(DefaultCloseBubbleStyle);
      closeBubbleSizePx := Size(DefaultBubbleSizePx, DefaultBubbleSizePx);
      startPoint := Point(0, 0);
      elevation := 0;
      opacity := 1.0;
      isCloseBubbleEnabled := true;
      isAnimateToEdgeEnabled := true;
      isBottomBackgroundEnabled := false;
      listener := NoListener;
    }

    /** `bottomBackground(enabled)`. */
    method BottomBackground(enabled: bool) returns (r: Builder)
      modifies this
      ensures r == this && State() == old(State()).(isBottomBackgroundEnabled := enabled)
    {
      isBottomBackgroundEnabled := enabled;
      r := this;
    }

    /** `enableAnimateToEdge(enabled)`. */
    method EnableAnimateToEdge(enabled: bool) returns (r: Builder)
      modifies this
      ensures r == this && State() == old(State()).(isAnimateToEdgeEnabled := enabled)
    {
      isAnimateToEdgeEnabled := enabled;
      r := this;
    }

    /** `enableCloseBubble(enabled)`. */
    method EnableCloseBubble(enabled: bool) returns (r: Builder)
      modifies this
      ensures r == this && State() == old(State()).(isCloseBubbleEnabled := enabled)
    {
      isCloseBubbleEnabled := enabled;
      r := this;
    }

    /** `bubble(view: View)`. */
    method BubbleFromView(view: ViewRef) returns (r: Builder)
      modifies this
      ensures r == this && State() == old(State()).(iconView := Some(view))
    {
      iconView := Some(view);
      r := this;
    }

    /** `bubble(drawable)`: the drawable's bitmap, at the current size. */
    method BubbleFromDrawable(drawable: int) returns (r: Builder)
      modifies this
      ensures r == this && State() == old(State()).(iconBitmap := Some(Decoded(drawable)))
    {
      iconBitmap := Some(Decoded(drawable));
      r := this;
    }

    /** `bubble(drawable, widthDp, heightDp)`: the size first, then `bubble(drawable)`. */
    method BubbleFromDrawableSized(drawable: int, widthDp: int, heightDp: int) returns (r: Builder)
      modifies this
      ensures r == this
      ensures State() == old(State()).(bubbleSizePx := Size(toPx(widthDp), toPx(heightDp)), iconBitmap := Some(Decoded(drawable)))
    {
      bubbleSizePx := Size(toPx(widthDp), toPx(heightDp));
      r := BubbleFromDrawable(drawable);
    }

    /** `bubble(bitmap)`. */
    method BubbleFromBitmap(bitmap: Image) returns (r: Builder)
      modifies this
      ensures r == this && State() == old(State()).(iconBitmap := Some(bitmap))
    {
      iconBitmap := Some(bitmap);
      r := this;
    }

    /** `bubble(bitmap, widthDp, heightDp)`: the size first, then `bubble(bitmap)`. */
    method BubbleFromBitmapSized(bitmap: Image, widthDp: int, heightDp: int) returns (r: Builder)
      modifies this
      ensures r == this
      ensures State() == old(State()).(bubbleSizePx := Size(toPx(widthDp), toPx(heightDp)), iconBitmap := Some(bitmap))
    {
      bubbleSizePx := Size(toPx(widthDp), toPx(heightDp));
      r := BubbleFromBitmap(bitmap);
    }

    /** `bubbleStyle(style)`; `None` clears it. */
    method BubbleStyle(style: Option<Style>) returns (r: Builder)
      modifies this
      ensures r == this && State() == old(State()).(bubbleStyle := style)
    {
      bubbleStyle := style;
      r := this;
    }

    /** `closeBubble(view: View)`. */
    method CloseBubbleFromView(view: ViewRef) returns (r: Builder)
      modifies this
      ensures r == this && State() == old(State()).(closeIconView := Some(view))
    {
      closeIconView := Some(view);
      r := this;
    }

    /** `closeBubble(drawable)`. */
    method CloseBubbleFromDrawable(drawable: int) returns (r: Builder)
      modifies this
      ensures r == this && State() == old(State()).(closeIconBitmap := Some(Decoded(drawable)))
    {
      closeIconBitmap := Some(Decoded(drawable));
      r := this;
    }

    /** `closeBubble(drawable, widthDp, heightDp)`: the size first, then `closeBubble(drawable)`. */
    method CloseBubbleFromDrawableSized(drawable: int, widthDp: int, heightDp: int) returns (r: Builder)
      modifies this
      ensures r == this
      ensures State() == old(State()).(closeBubbleSizePx := Size(toPx(widthDp), toPx(heightDp)), closeIconBitmap := Some(Decoded(drawable)))
    {
      closeBubbleSizePx := Size(toPx(widthDp), toPx(heightDp));
      r := CloseBubbleFromDrawable(drawable);
    }

    /** `closeBubble(bitmap)`. */
    method CloseBubbleFromBitmap(bitmap: Image) returns (r: Builder)
      modifies this
      ensures r == this && State() == old(State()).(closeIconBitmap := Some(bitmap))
    {
      closeIconBitmap := Some(bitmap);
      r := this;
    }

    /** `closeBubbleStyle(style)`; `None` clears it. */
    method CloseBubbleStyle(style: Option<Style>) returns (r: Builder)
      modifies this
      ensures r == this && State() == old(State()).(closeBubbleStyle := style)
    {
      closeBubbleStyle := style;
      r := this;
    }

    /** `addFloatingBubbleListener(listener)`: the new listener wraps the
        previous one and is reached after every listener already there. The
        listeners stay slotted for a host listener and for the listener of a
        bubble being built now. */
    method AddFloatingBubbleListener(incoming: ListenerId) returns (r: Builder)
      modifies this
      ensures r == this && State() == old(State()).(listener := Composite(old(listener), incoming))
      ensures Registered(listener) == Registered(old(listener)) + [incoming]
      ensures old(Slotted(listener)) ==>
        (Slotted(listener) <==> incoming.User? || incoming.slot == |Registered(old(listener))|)
    {
      if Slotted(listener) {
        SlottedRegistration(listener, incoming);
      }
      var tempListener := listener;
      listener := Composite(tempListener, incoming);
      r := this;
    }

    /** `startLocation(x, y)`: any value, the negative ones included. */
    method StartLocation(x: int, y: int) returns (r: Builder)
      modifies this
      ensures r == this && State() == old(State()).(startPoint := Point(x, y))
    {
      startPoint := Point(x, y);
      r := this;
    }

    /** `elevation(dp)`: stored as given. */
    method Elevation(dp: int) returns (r: Builder)
      modifies this
      ensures r == this && State() == old(State()).(elevation := dp)
    {
      elevation := dp;
      r := this;
    }

    /** `opacity(opacity)`: stored unchecked. */
    method Opacity(opacity: real) returns (r: Builder)
      modifies this
      ensures r == this && State() == old(State()).(opacity := opacity)
    {
      this.opacity := opacity;
      r := this;
    }

    /** `build()`: no validation; the bubble registers its own listener last. */
    method Build(screen: ScreenInfo) returns (b: FloatingBubble)
      modifies this
      ensures fresh(b) && b.builder == this && b.JustBuilt(old(State()), screen)
      // every part of the new bubble is new as well, so built bubbles share no state
      ensures fresh(b.bubbleView) && fresh(b.bubbleListener)
      ensures b.closeBubbleView != null ==> fresh(b.closeBubbleView)
      ensures b.bottomBackground != null ==> fresh(b.bottomBackground)
      ensures b.own == Own(|Registered(old(listener))|)
      ensures State() == old(State()).(listener := Composite(old(listener), b.own))
      ensures old(Slotted(listener)) ==> Slotted(listener) && b.own !in Registered(old(listener))
    {
      b := new FloatingBubble(this, screen);
    }
  }

  /** The visible part of `FloatingBubbleView`: its position and whether it is shown. */
  class BubbleView {
    var x: int
    var y: int
    var shown: bool

    constructor (start: Point)
      ensures x == start.x && y == start.y && !shown
    {
      x := start.x;
      y := start.y;
      shown := false;
    }

    method Show()
      modifies this`shown
      ensures shown
    {
      shown := true;
    }

    method Remove()
      modifies this`shown
      ensures !shown
    {
      shown := false;
    }
  }

  /** `FloatingBottomBackground`: only whether it is shown. */
  class BottomBackgroundView {
    var shown: bool

    constructor ()
      ensures !shown
    {
      shown := false;
    }

    method Show()
      modifies this`shown
      ensures shown
    {
      shown := true;
    }

    method Remove()
      modifies this`shown
      ensures !shown
    {
      shown := false;
    }
  }

  /** `CustomBubbleListener` (FloatingBubble.kt:92-94): only its flag; its
      handlers are `FloatingBubble.OnMove` and `FloatingBubble.OnUp`, which
      see the outer bubble as a Kotlin inner class does. */
  class CustomBubbleListener {
    var isBubbleMoving: bool

    constructor ()
      ensures !isBubbleMoving
    {
      isBubbleMoving := false;
    }
  }

  /** Rank of a callback for termination: `onDestroy` never leads to another callback. */
  function EventRank(e: Event): nat {
    if e.OnDestroy? then 0 else 1
  }

  /** Number of wrappers in a composite. */
  function Depth(l: Listener): nat {
    match l
    case NoListener => 0
    case Composite(previous, _) => Depth(previous) + 1
  }

  /** `FloatingBubble` (FloatingBubble.kt:13-130): the builder it was built
      from, the bubble view, the optional close bubble and background, the
      bubble's own listener and its id in the builder's composite, and the
      record of effects. */
  class FloatingBubble {
    const builder: Builder
    const own: ListenerId
    const bubbleView: BubbleView
    const closeBubbleView: CloseBubbleView?
    const bottomBackground: BottomBackgroundView?
    const bubbleListener: CustomBubbleListener
    var trace: seq<Effect>

    /** The close bubble's layout, when there is one. */
    function CloseLayoutOf(): Option<CloseLayout> {
      if closeBubbleView != null then Some(closeBubbleView.layout) else None
    }

    /** What the callbacks read and do not change. */
    function Wires(): Wiring
      reads builder, bubbleView
    {
      Wiring(builder.isCloseBubbleEnabled, builder.isAnimateToEdgeEnabled,
             CloseLayoutOf(), bottomBackground != null, builder.bubbleSizePx,
             bubbleView.x, bubbleView.y, builder.listener, own)
    }

    /** What the callbacks change. */
    function Snapshot(): Status
      reads this, bubbleListener, closeBubbleView, bottomBackground
    {
      Status(bubbleListener.isBubbleMoving,
             closeBubbleView != null && closeBubbleView.shown,
             if closeBubbleView != null then Point(closeBubbleView.x, closeBubbleView.y) else Point(0, 0),
             bottomBackground != null && bottomBackground.shown,
             trace)
    }

    /** The state `init` leaves, for a builder that was in state `b`. */
    predicate JustBuilt(b: BuilderState, screen: ScreenInfo)
      reads this, bubbleView, closeBubbleView, bottomBackground, bubbleListener
    {
      && bubbleView.x == b.startPoint.x && bubbleView.y == b.startPoint.y && !bubbleView.shown
      && (closeBubbleView != null <==> b.isCloseBubbleEnabled)
      && (closeBubbleView != null ==>
            && closeBubbleView.layout == MakeCloseLayout(screen, b.closeBubbleSizePx, b.bubbleSizePx)
            && closeBubbleView.icon == b.closeIconBitmap.GetOr(DefaultCloseIcon)
            && closeBubbleView.alpha == b.opacity
            && closeBubbleView.x == closeBubbleView.layout.baseX
            && closeBubbleView.y == closeBubbleView.layout.baseY
            && !closeBubbleView.shown)
      && (bottomBackground != null <==> b.isBottomBackgroundEnabled)
      && (bottomBackground != null ==> !bottomBackground.shown)
      && !bubbleListener.isBubbleMoving
      && trace == []
    }

    /** `init` (FloatingBubble.kt:22-42): registers the bubble's own listener
        on the builder, then creates the close bubble and the background
        only when the builder enables them. The screen metrics come in as
        `screen`. Its listener takes the next slot of the builder's composite,
        so on a slotted builder no other bubble's listener has its id. */
    constructor (builder: Builder, screen: ScreenInfo)
      modifies builder
      ensures this.builder == builder
      ensures own == Own(|Registered(old(builder.listener))|)
      ensures builder.State() == old(builder.State()).(listener := Composite(old(builder.listener), own))
      ensures old(Slotted(builder.listener)) ==> Slotted(builder.listener) && own !in Registered(old(builder.listener))
      ensures fresh(bubbleView) && fresh(bubbleListener)
      ensures closeBubbleView != null ==> fresh(closeBubbleView)
      ensures bottomBackground != null ==> fresh(bottomBackground)
      ensures JustBuilt(old(builder.State()), screen)
    {
      var id := Own(|Registered(builder.listener)|);
      if Slotted(builder.listener) {
        SlottedBubblesAreDistinct(builder.listener);
      }
      var wired := builder.AddFloatingBubbleListener(id);
      var view := new BubbleView(builder.startPoint);
      var close: CloseBubbleView? := null;
      if builder.isCloseBubbleEnabled {
        close := new CloseBubbleView(screen, builder.closeBubbleSizePx, builder.bubbleSizePx, builder.closeIconBitmap, builder.opacity);
      }
      var background: BottomBackgroundView? := null;
      if builder.isBottomBackgroundEnabled {
        background := new BottomBackgroundView();
      }
      var handler := new CustomBubbleListener();
      this.builder := builder;
      own := id;
      bubbleView := view;
      closeBubbleView := close;
      bottomBackground := background;
      bubbleListener := handler;
      trace := [];
    }

    /** `showIcon()`. */
    method ShowIcon()
      modifies this`trace, bubbleView`shown
      ensures bubbleView.shown && trace == old(trace) + [Shown(BubbleOverlay)]
    {
      bubbleView.Show();
      trace := trace + [Shown(BubbleOverlay)];
    }

    /** `removeIcon()`. */
    method RemoveIcon()
      modifies this`trace, bubbleView`shown
      ensures !bubbleView.shown && trace == old(trace) + [Removed(BubbleOverlay)]
    {
      bubbleView.Remove();
      trace := trace + [Removed(BubbleOverlay)];
    }

    /** `tryShowCloseBubbleAndBackground()` (FloatingBubble.kt:80-83). */
    method TryShowCloseBubbleAndBackground()
      modifies this`trace, closeBubbleView, bottomBackground
      ensures Snapshot() == ShowOverlays(Wires(), old(Snapshot()))
    {
      if bottomBackground != null {
        bottomBackground.Show();
        trace := trace + [Shown(BackgroundOverlay)];
      }
      if closeBubbleView != null {
        closeBubbleView.Show();
        trace := trace + [Shown(CloseOverlay)];
      }
    }

    /** `tryRemoveCloseBubbleAndBackground()` (FloatingBubble.kt:85-88). */
    method TryRemoveCloseBubbleAndBackground()
      modifies this`trace, closeBubbleView, bottomBackground
      ensures Snapshot() == RemoveOverlays(Wires(), old(Snapshot()))
    {
      if bottomBackground != null {
        bottomBackground.Remove();
        trace := trace + [Removed(BackgroundOverlay)];
      }
      if closeBubbleView != null {
        closeBubbleView.Remove();
        trace := trace + [Removed(CloseOverlay)];
      }
    }

    /** `CustomBubbleListener.onMove(x, y)` (FloatingBubble.kt:96-109); `d` is
        the distance from (x, y) to the close bubble's baseline. */
    method OnMove(x: int, y: int, d: real)
      requires closeBubbleView != null ==> IsDistance(closeBubbleView.layout, x, y, d)
      modifies this`trace, bubbleListener, closeBubbleView, bottomBackground
      ensures Snapshot() == AfterMove(Wires(), old(Snapshot()), x, y, d)
    {
      if bubbleListener.isBubbleMoving {
        if closeBubbleView != null {
          closeBubbleView.AnimateCloseIconByBubble(x, y, d, builder.bubbleSizePx);
          trace := trace + [PulledCloseIcon(x, y)];
        }
        return;
      }
      if !builder.isCloseBubbleEnabled {
        return;
      }
      TryShowCloseBubbleAndBackground();
      if !bubbleListener.isBubbleMoving {
        bubbleListener.isBubbleMoving := true;
      }
    }

    /** `CustomBubbleListener.onUp(x, y)` (FloatingBubble.kt:111-122); the
        release point is not used, the bubble view's position is; `d` is its
        distance to the close bubble's baseline. */
    method OnUp(x: int, y: int, d: real)
      requires closeBubbleView != null ==> IsDistance(closeBubbleView.layout, bubbleView.x, bubbleView.y, d)
      modifies this`trace, bubbleListener, closeBubbleView, bottomBackground
      ensures Snapshot() == AfterUp(Wires(), old(Snapshot()), d)
      decreases 1, 0, 0
    {
      bubbleListener.isBubbleMoving := false;
      TryRemoveCloseBubbleAndBackground();
      if IsBubbleInsideCloseView(CloseLayoutOf(), bubbleView.x, bubbleView.y, d) {
        Deliver(builder.listener, OnDestroy, d);
      } else if builder.isAnimateToEdgeEnabled {
        trace := trace + [AnimatedToEdge];
      }
    }

    /** The bubble's own listener receiving callback `e`: only `onMove` and `onUp` are overridden. */
    method Handle(e: Event, d: real)
      requires Measured(Wires(), e, d)
      modifies this`trace, bubbleListener, closeBubbleView, bottomBackground
      ensures Snapshot() == Interaction.Handle(Wires(), old(Snapshot()), e, d)
      decreases EventRank(e), 0, 1
    {
      match e
      case OnMove(x, y) => OnMove(x, y, d);
      case OnUp(x, y) => OnUp(x, y, d);
      case _ =>
    }

    /** Callback `e` on the composite `l` (FloatingBubble.kt:274-301): the
        previous listener first, then the incoming one; the host's listeners
        only have their call recorded. */
    method Deliver(l: Listener, e: Event, d: real)
      requires Measured(Wires(), e, d)
      modifies this`trace, bubbleListener, closeBubbleView, bottomBackground
      ensures Snapshot() == Interaction.Deliver(Wires(), l, old(Snapshot()), e, d)
      decreases EventRank(e), Depth(l), 1
    {
      match l
      case NoListener =>
      case Composite(previous, incoming) =>
        Deliver(previous, e, d);
        trace := trace + [Notified(Call(incoming, e))];
        if incoming == own {
          Handle(e, d);
        }
    }
  }
}
