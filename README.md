# Floating bubble: drag, release and the close zone

This project models the interaction core of the Floating-Bubble-View Android library:

- the floating bubble a service puts on screen;
- the magnetic "close" bubble that waits near the bottom of the screen while the floating bubble is dragged;
- the optional dark background behind it;
- the chain of listeners the host registers on the builder.

The model has four parts, one Dafny module each:

- `CloseZone` (close_zone.dfy) covers `FloatingCloseBubbleView`.
  - The layout its `init` computes once is a `CloseLayout` value. That value holds the size fallback, the capture radius `LIMIT_FLY_HEIGHT = heightPx / 15` and the baseline `(baseX, baseY)`.
  - The capture ratio `distanceRatioToCloseBubble` is computed over exact reals. Its IEEE special cases ("+infinity" and NaN) are written out.
  - The two repositioning rules are `stickToBubble` and the pull of `animateCloseIconByBubble`.
  - The class `CloseBubbleView` holds the window position the view overwrites.
  - Screen metrics come in as a `ScreenInfo` value instead of the global object.
- `Listeners` (listeners.dfy) covers the composite listener that `Builder.addFloatingBubbleListener` builds. The wrapper around the previous listener is a `Composite` node. Calling a listener is recorded as a `Call` of a listener id with an event.
  - A host listener is `User(n)`. A bubble's `CustomBubbleListener` is `Own(slot)`, where `slot` is the number of listeners the builder held when that bubble was built. The slot stands in for the listener object's identity.
  - The host cannot register a bubble's listener, because `CustomBubbleListener` is private. So every builder's listeners are `Slotted`: each `Own(slot)` sits at position `slot`. Two bubbles built from one builder therefore have distinct ids, and each callback runs each bubble's handler once.
- `Interaction` (interaction.dfy) is the pure specification of the bubble's own `CustomBubbleListener`, over the values it reads (`Wiring`) and the state it changes (`Status`).
  - A `Status` holds the `isBubbleMoving` flag, the two overlays and an ordered record of effects: show, remove, pull, animate-to-edge and listener calls.
  - It also specifies how one callback travels through the composite.
- `Bubbles` (bubbles.dfy) holds the objects whose fields change in place: the `Builder` and all its setters, the overlays, the listener's flag, and the `FloatingBubble` that wires them. Each callback method is proved to change that state exactly as the corresponding `Interaction` function says.

Capture is characterised exactly over the integers. For a positive radius `limit`, the ratio is `0` exactly when `dx² + dy² ≤ limit²`. This includes distance 0, where `limit / 0.0` is +infinity, and the boundary, where `1 - 1 = 0`. A zero radius with distance 0 gives `0 / 0`, which is NaN, so that case is never captured.

Three behaviours of the code are kept as they are:

- `CustomBubbleListener` does not override `onDown`, so pressing the bubble does not reset the moving flag.
- `build()` performs no validation, so a bubble without an icon is not an error.
- `opacity` is stored unchecked.

## Model

| member | source | states |
|---|---|---|
| Wrappers.Option.GetOr | FloatingBubbleView/src/main/java/com/torrydo/floatingbubbleview/FloatingCloseBubbleView.kt:72-74 | by definition: Kotlin's `?:`, the present value, otherwise the default |
| CloseZone.Half | FloatingBubbleView/src/main/java/com/torrydo/floatingbubbleview/FloatingCloseBubbleView.kt:41-43 | Kotlin `Int / 2` truncates toward zero: brackets `a` between `2h` and `2h ± 1` on the side of zero |
| CloseZone.Trunc | FloatingBubbleView/src/main/java/com/torrydo/floatingbubbleview/FloatingCloseBubbleView.kt:121-128 | `Float.toInt()` truncates toward zero: the result is within one of the value, on the side of zero |
| CloseZone.MakeCloseLayout | FloatingBubbleView/src/main/java/com/torrydo/floatingbubbleview/FloatingCloseBubbleView.kt:27-49 | close-bubble size is the configured one when both sides are non-zero, else the bubble size; capture radius is `heightPx / 15` rounded down; the halves are `widthPx / 2`, `width / 2` and `height / 2` with Kotlin's truncating division, so the left edge is exactly `widthPx / 2 - width / 2` and the bubble is centred horizontally up to one pixel; its bottom edge is 30 px above the navigation bar, below the status bar |
| CloseZone.DistanceRatio | FloatingBubbleView/src/main/java/com/torrydo/floatingbubbleview/FloatingCloseBubbleView.kt:92-108 | a numeric ratio always lies in [0, 1] |
| CloseZone.RatioZeroIffCaptured | FloatingBubbleView/src/main/java/com/torrydo/floatingbubbleview/FloatingCloseBubbleView.kt:95-105 | the ratio is 0 exactly when the radius is positive and the squared distance is at most the radius squared, boundary and distance 0 included |
| CloseZone.RatioOutsideIsBetweenZeroAndOne | FloatingBubbleView/src/main/java/com/torrydo/floatingbubbleview/FloatingCloseBubbleView.kt:92-105 | strictly outside a positive radius the ratio is a number strictly between 0 and 1 |
| CloseZone.StickPoint | FloatingBubbleView/src/main/java/com/torrydo/floatingbubbleview/FloatingCloseBubbleView.kt:139-148 | for the halves `init` computes and non-negative sizes, the close bubble's centre, `2x + width`, is within one pixel of the bubble's centre, `2x + bubbleW`, in each axis; the two centres are equal when both sizes are even |
| CloseZone.PullX | FloatingBubbleView/src/main/java/com/torrydo/floatingbubbleview/FloatingCloseBubbleView.kt:119-125 | a bubble left of the screen centre pulls the close bubble to x ≤ baseX, otherwise to x ≥ baseX; the pull is less than a fifth of the offset plus one |
| CloseZone.PullY | FloatingBubbleView/src/main/java/com/torrydo/floatingbubbleview/FloatingCloseBubbleView.kt:127-134 | the close bubble never rises above `baseY - LIMIT_FLY_HEIGHT`; for a bubble above the screen bottom it never drops below `baseY` |
| CloseZone.Lift | FloatingBubbleView/src/main/java/com/torrydo/floatingbubbleview/FloatingCloseBubbleView.kt:127-128 | the unclamped lift is never negative for a bubble above the screen bottom |
| CloseZone.Captured | FloatingBubbleView/src/main/java/com/torrydo/floatingbubbleview/FloatingCloseBubbleView.kt:95-105 | the capture zone, by definition: a positive radius and a squared distance to the baseline of at most the radius squared |
| CloseZone.CloseIconTarget | FloatingBubbleView/src/main/java/com/torrydo/floatingbubbleview/FloatingCloseBubbleView.kt:111-148 | a captured bubble gets the close bubble centred on it, as `StickPoint` says; any other bubble gets the pulled position `PullX`, `PullY` of its ratio |
| CloseZone.OutsideBubblePullsCloseIcon | FloatingBubbleView/src/main/java/com/torrydo/floatingbubbleview/FloatingCloseBubbleView.kt:117-134 | when not captured: the vertical clamp, no drop below the baseline for an on-screen bubble, and the left/right side rule |
| CloseZone.CloseBubbleView.constructor | FloatingBubbleView/src/main/java/com/torrydo/floatingbubbleview/FloatingCloseBubbleView.kt:27-90 | the layout above; the icon is the configured bitmap or the default close icon; alpha is the opacity; the window starts at `(baseX, baseY)` |
| CloseZone.CloseBubbleView.StickToBubble | FloatingBubbleView/src/main/java/com/torrydo/floatingbubbleview/FloatingCloseBubbleView.kt:139-148 | the new window position is `StickPoint` of the bubble's position |
| CloseZone.CloseBubbleView.AnimateCloseIconByBubble | FloatingBubbleView/src/main/java/com/torrydo/floatingbubbleview/FloatingCloseBubbleView.kt:111-137 | the new position is `CloseIconTarget`: stuck to the bubble when captured, otherwise pulled with the clamp and side rule |
| CloseZone.CloseBubbleView.Show | FloatingBubbleView/src/main/java/com/torrydo/floatingbubbleview/FloatingBubble.kt:82 | the close bubble is shown |
| CloseZone.CloseBubbleView.Remove | FloatingBubbleView/src/main/java/com/torrydo/floatingbubbleview/FloatingBubble.kt:87 | the close bubble is removed |
| Listeners.Registered | FloatingBubbleView/src/main/java/com/torrydo/floatingbubbleview/FloatingBubble.kt:272-304 | the listeners a composite reaches: none before the first registration; the newest one is reached last |
| Listeners.Calls | FloatingBubbleView/src/main/java/com/torrydo/floatingbubbleview/FloatingBubble.kt:272-304 | a callback on the composite calls every registered listener once, in registration order; the first wrapper skips the null previous listener |
| Listeners.RegisterAll | FloatingBubbleView/src/main/java/com/torrydo/floatingbubbleview/FloatingBubble.kt:272-304 | adding listeners one after another appends them, in order, after those already registered |
| Listeners.RegisteredInOrderAreCalledInOrder | FloatingBubbleView/src/main/java/com/torrydo/floatingbubbleview/FloatingBubble.kt:272-304 | after registering L1..Ln on a fresh builder, each callback reaches exactly L1..Ln in order: L1 first, Ln last |
| Listeners.CallsExtend | FloatingBubbleView/src/main/java/com/torrydo/floatingbubbleview/FloatingBubble.kt:272-304 | later registrations only add calls after the earlier ones |
| Listeners.Slotted | FloatingBubbleView/src/main/java/com/torrydo/floatingbubbleview/FloatingBubble.kt:31 | the builder's listeners as they can only be: each bubble's listener sits at the slot it was registered at |
| Listeners.SlottedRegistration | FloatingBubbleView/src/main/java/com/torrydo/floatingbubbleview/FloatingBubble.kt:272-276 | a registration keeps the listeners slotted exactly when it is a host listener or a bubble's listener at the next slot |
| Listeners.SlottedBubblesAreDistinct | FloatingBubbleView/src/main/java/com/torrydo/floatingbubbleview/FloatingBubble.kt:31 | in slotted listeners no bubble's listener appears twice, and the next bubble's id is not there yet |
| Interaction.ShowOverlays | FloatingBubbleView/src/main/java/com/torrydo/floatingbubbleview/FloatingBubble.kt:80-83 | each overlay that exists ends up shown and a missing one is untouched; the flag and the close bubble's position stay; the record only grows |
| Interaction.RemoveOverlays | FloatingBubbleView/src/main/java/com/torrydo/floatingbubbleview/FloatingBubble.kt:85-88 | each overlay that exists ends up removed and a missing one is untouched; the flag and the close bubble's position stay; the record only grows |
| Interaction.RemoveUndoesShow | FloatingBubbleView/src/main/java/com/torrydo/floatingbubbleview/FloatingBubble.kt:80-88 | from hidden overlays, showing and then removing hides them again and leaves the flag and the close bubble's position |
| Interaction.IsBubbleInsideCloseView | FloatingBubbleView/src/main/java/com/torrydo/floatingbubbleview/FloatingBubble.kt:125-130 | true exactly when a close bubble exists and the bubble's position is captured; a missing close bubble (`null == 0.0f`) gives false |
| Interaction.AfterMove | FloatingBubbleView/src/main/java/com/torrydo/floatingbubbleview/FloatingBubble.kt:96-109 | after a move the flag is up exactly when it was up or the close bubble is switched on; the close bubble moves only during a drag; the record only grows |
| Interaction.AfterUp | FloatingBubbleView/src/main/java/com/torrydo/floatingbubbleview/FloatingBubble.kt:111-122 | a release always lowers the flag and leaves the close bubble's position; the record only grows |
| Interaction.Handle | FloatingBubbleView/src/main/java/com/torrydo/floatingbubbleview/FloatingBubble.kt:92-123 | the bubble's own listener changes nothing on `onDown`, `onClick` and `onDestroy`; `onUp` lowers the flag; the record only grows |
| Interaction.Invoke | FloatingBubbleView/src/main/java/com/torrydo/floatingbubbleview/FloatingBubble.kt:287-290 | by definition: a call on any listener is recorded, and only the bubble's own listener `own` then runs its handler |
| Interaction.Dispatch | FloatingBubbleView/src/main/java/com/torrydo/floatingbubbleview/FloatingBubble.kt:274-301 | through a composite that does not hold this bubble's listener, a callback only records one call per listener, in registration order |
| Interaction.Deliver | FloatingBubbleView/src/main/java/com/torrydo/floatingbubbleview/FloatingBubble.kt:56-68 | `onDown`, `onClick` and `onDestroy`, which the bubble's listener does not override, only record the calls, through any composite |
| Interaction.MoveWhileMovingOnlyPulls | FloatingBubbleView/src/main/java/com/torrydo/floatingbubbleview/FloatingBubble.kt:96-100 | a move while moving only pulls the close bubble: nothing is shown or removed, the flag stays up |
| Interaction.MoveWithCloseBubbleDisabled | FloatingBubbleView/src/main/java/com/torrydo/floatingbubbleview/FloatingBubble.kt:101 | a move at rest with the close bubble switched off changes nothing |
| Interaction.FirstMoveShowsOverlays | FloatingBubbleView/src/main/java/com/torrydo/floatingbubbleview/FloatingBubble.kt:80-107 | the first move shows the background, then the close bubble, raises the flag and does not pull |
| Interaction.ReleaseEndsTheDrag | FloatingBubbleView/src/main/java/com/torrydo/floatingbubbleview/FloatingBubble.kt:85-122 | whatever the state before, a release lowers the flag, removes the background then the close bubble, then destroys when inside, else animates to the edge when switched on |
| Interaction.ReleaseTailOutcome | FloatingBubbleView/src/main/java/com/torrydo/floatingbubbleview/FloatingBubble.kt:115-121 | the effects after the removals contain destroy calls or the edge animation, never both |
| Interaction.DestroyXorAnimate | FloatingBubbleView/src/main/java/com/torrydo/floatingbubbleview/FloatingBubble.kt:115-121 | a release never both destroys and animates; it destroys exactly when inside and some listener is registered; it animates exactly when not inside and edge animation is on |
| Interaction.DispatchWithIdleHandler | FloatingBubbleView/src/main/java/com/torrydo/floatingbubbleview/FloatingBubble.kt:272-304 | when the bubble's handler does nothing, a callback just records one call per listener, in order |
| Interaction.DispatchAfterLater | FloatingBubbleView/src/main/java/com/torrydo/floatingbubbleview/FloatingBubble.kt:272-304 | listeners registered later run after everything the earlier composite does |
| Interaction.BubbleListenerRunsInRegistrationOrder | FloatingBubbleView/src/main/java/com/torrydo/floatingbubbleview/FloatingBubble.kt:272-304 | the listeners registered before the bubble's own are called first and only recorded, then its handler runs, then those registered after it, when its id appears only once |
| Interaction.EachBubbleHandlesOnce | FloatingBubbleView/src/main/java/com/torrydo/floatingbubbleview/FloatingBubble.kt:272-304 | on slotted listeners, with any bubbles built before or after it, a callback runs a bubble's handler exactly once, between the listeners registered before and after it |
| Bubbles.InitialBuilderState | FloatingBubbleView/src/main/java/com/torrydo/floatingbubbleview/FloatingBubble.kt:138-158 | the default close-bubble size is set and equals the bubble size, so it does not fall back; no listener is registered and the listeners are slotted |
| Bubbles.Builder.constructor | FloatingBubbleView/src/main/java/com/torrydo/floatingbubbleview/FloatingBubble.kt:134-158 | the defaults: no icons, default styles, 160×160 px sizes, start (0, 0), elevation 0, opacity 1, close bubble and edge animation on, background off, no listener; the listeners are slotted |
| Bubbles.Builder.BottomBackground | FloatingBubbleView/src/main/java/com/torrydo/floatingbubbleview/FloatingBubble.kt:163-166 | sets only the background switch and returns the builder |
| Bubbles.Builder.EnableAnimateToEdge | FloatingBubbleView/src/main/java/com/torrydo/floatingbubbleview/FloatingBubble.kt:171-174 | sets only the edge-animation switch and returns the builder |
| Bubbles.Builder.EnableCloseBubble | FloatingBubbleView/src/main/java/com/torrydo/floatingbubbleview/FloatingBubble.kt:179-182 | sets only the close-bubble switch and returns the builder |
| Bubbles.Builder.BubbleFromView | FloatingBubbleView/src/main/java/com/torrydo/floatingbubbleview/FloatingBubble.kt:185-188 | sets only the icon view |
| Bubbles.Builder.BubbleFromDrawable | FloatingBubbleView/src/main/java/com/torrydo/floatingbubbleview/FloatingBubble.kt:193-196 | sets only the icon bitmap, to the drawable's bitmap |
| Bubbles.Builder.BubbleFromDrawableSized | FloatingBubbleView/src/main/java/com/torrydo/floatingbubbleview/FloatingBubble.kt:201-204 | sets the bubble size from dp and then the icon bitmap, nothing else |
| Bubbles.Builder.BubbleFromBitmap | FloatingBubbleView/src/main/java/com/torrydo/floatingbubbleview/FloatingBubble.kt:209-212 | sets only the icon bitmap |
| Bubbles.Builder.BubbleFromBitmapSized | FloatingBubbleView/src/main/java/com/torrydo/floatingbubbleview/FloatingBubble.kt:217-220 | sets the bubble size from dp and then the icon bitmap, nothing else |
| Bubbles.Builder.BubbleStyle | FloatingBubbleView/src/main/java/com/torrydo/floatingbubbleview/FloatingBubble.kt:225-228 | sets only the bubble style, possibly to none |
| Bubbles.Builder.CloseBubbleFromView | FloatingBubbleView/src/main/java/com/torrydo/floatingbubbleview/FloatingBubble.kt:231-234 | sets only the close icon view |
| Bubbles.Builder.CloseBubbleFromDrawable | FloatingBubbleView/src/main/java/com/torrydo/floatingbubbleview/FloatingBubble.kt:239-242 | sets only the close icon bitmap, to the drawable's bitmap |
| Bubbles.Builder.CloseBubbleFromDrawableSized | FloatingBubbleView/src/main/java/com/torrydo/floatingbubbleview/FloatingBubble.kt:247-250 | sets the close-bubble size from dp and then the close icon bitmap, nothing else |
| Bubbles.Builder.CloseBubbleFromBitmap | FloatingBubbleView/src/main/java/com/torrydo/floatingbubbleview/FloatingBubble.kt:255-258 | sets only the close icon bitmap |
| Bubbles.Builder.CloseBubbleStyle | FloatingBubbleView/src/main/java/com/torrydo/floatingbubbleview/FloatingBubble.kt:263-266 | sets only the close-bubble style, possibly to none |
| Bubbles.Builder.AddFloatingBubbleListener | FloatingBubbleView/src/main/java/com/torrydo/floatingbubbleview/FloatingBubble.kt:272-304 | wraps the previous listener; the registered listeners become the previous ones followed by the new one; they stay slotted exactly for a host listener or a bubble's listener at the next slot |
| Bubbles.Builder.StartLocation | FloatingBubbleView/src/main/java/com/torrydo/floatingbubbleview/FloatingBubble.kt:314-318 | sets only the start point, negative values included |
| Bubbles.Builder.Elevation | FloatingBubbleView/src/main/java/com/torrydo/floatingbubbleview/FloatingBubble.kt:321-324 | sets only the elevation |
| Bubbles.Builder.Opacity | FloatingBubbleView/src/main/java/com/torrydo/floatingbubbleview/FloatingBubble.kt:331-334 | sets only the opacity, unchecked |
| Bubbles.Builder.Build | FloatingBubbleView/src/main/java/com/torrydo/floatingbubbleview/FloatingBubble.kt:336-338 | builds with no validation a bubble in its initial state; the builder gains the bubble's own listener last, at the next slot, and on slotted listeners that id is new |
| Bubbles.BubbleView.constructor | FloatingBubbleView/src/main/java/com/torrydo/floatingbubbleview/FloatingBubble.kt:30-32 | the bubble view starts hidden at the given start point |
| Bubbles.BubbleView.Show | FloatingBubbleView/src/main/java/com/torrydo/floatingbubbleview/FloatingBubble.kt:73 | the bubble view is shown |
| Bubbles.BubbleView.Remove | FloatingBubbleView/src/main/java/com/torrydo/floatingbubbleview/FloatingBubble.kt:77 | the bubble view is removed |
| Bubbles.BottomBackgroundView.constructor | FloatingBubbleView/src/main/java/com/torrydo/floatingbubbleview/FloatingBubble.kt:38-40 | the background starts hidden |
| Bubbles.BottomBackgroundView.Show | FloatingBubbleView/src/main/java/com/torrydo/floatingbubbleview/FloatingBubble.kt:81 | the background is shown |
| Bubbles.BottomBackgroundView.Remove | FloatingBubbleView/src/main/java/com/torrydo/floatingbubbleview/FloatingBubble.kt:86 | the background is removed |
| Bubbles.CustomBubbleListener.constructor | FloatingBubbleView/src/main/java/com/torrydo/floatingbubbleview/FloatingBubble.kt:92-94 | the flag starts false |
| Bubbles.FloatingBubble.constructor | FloatingBubbleView/src/main/java/com/torrydo/floatingbubbleview/FloatingBubble.kt:22-42 | registers the bubble's own listener last, at the next slot, and on slotted listeners no earlier listener has its id; creates the close bubble exactly when it is enabled and the background exactly when it is enabled, all hidden; the flag is down and nothing is recorded |
| Bubbles.FloatingBubble.ShowIcon | FloatingBubbleView/src/main/java/com/torrydo/floatingbubbleview/FloatingBubble.kt:72-74 | the bubble view is shown and that is recorded |
| Bubbles.FloatingBubble.RemoveIcon | FloatingBubbleView/src/main/java/com/torrydo/floatingbubbleview/FloatingBubble.kt:76-78 | the bubble view is removed and that is recorded |
| Bubbles.FloatingBubble.TryShowCloseBubbleAndBackground | FloatingBubbleView/src/main/java/com/torrydo/floatingbubbleview/FloatingBubble.kt:80-83 | the new state is `ShowOverlays`: each existing overlay is shown, the background first |
| Bubbles.FloatingBubble.TryRemoveCloseBubbleAndBackground | FloatingBubbleView/src/main/java/com/torrydo/floatingbubbleview/FloatingBubble.kt:85-88 | the new state is `RemoveOverlays`: each existing overlay is removed, the background first |
| Bubbles.FloatingBubble.OnMove | FloatingBubbleView/src/main/java/com/torrydo/floatingbubbleview/FloatingBubble.kt:96-109 | the new state is `AfterMove` of the old one, so it has `AfterMove`'s properties and those of the three move lemmas |
| Bubbles.FloatingBubble.OnUp | FloatingBubbleView/src/main/java/com/torrydo/floatingbubbleview/FloatingBubble.kt:111-122 | the new state is `AfterUp` of the old one, so it has the release lemmas' properties; the destroy callback goes through the whole composite |
| Bubbles.FloatingBubble.Handle | FloatingBubbleView/src/main/java/com/torrydo/floatingbubbleview/FloatingBubble.kt:92-123 | the bubble's own listener reacts to `onMove` and `onUp` only, as `Interaction.Handle` says |
| Bubbles.FloatingBubble.Deliver | FloatingBubbleView/src/main/java/com/torrydo/floatingbubbleview/FloatingBubble.kt:274-301 | a callback on a composite changes the state as `Interaction.Deliver` says: previous listener first, then the incoming one; only this bubble's own id runs its handler |

## Left out

- FloatingBubbleServiceConfig.kt, Logger.kt and SystemHelper.kt are not part of this model. They hold the Android service lifecycle, logging and a platform gesture-exclusion call, and have no interaction logic of their own.
- Window management is not modelled: layout-param flags, `update()`, inflating the close bubble's layout and sizing its image view. Only the window position and whether a window is shown are kept.
- The screen metrics getters are platform calls. Their results come in as a `ScreenInfo` value, with non-negative fields.
- `CloseLayout.screenHeightPx` is the screen height at the time the close view is built. The code reads the global `ScreenInfo.heightPx` on every pull, and every later bubble's `init` rewrites that global, so different metrics from a later bubble would reach an existing close view. The model does not capture that.
- NotZero: `Size.notZero()` is called but not defined in the source files of this model. It is taken to mean that both width and height are non-zero.
- The listeners of other bubbles built from the same builder act on those bubbles, which one bubble's model does not hold. Calls to them are only recorded.
- MathHelper.distance is not part of this model. Its result is an input `d`, required to be the Euclidean distance (`d ≥ 0` and `d² = dx² + dy²`).
- `DistanceRatio`, `PullX`, `PullY`: Float and Double rounding is not modelled. The ratio and the pull are computed over exact reals. Near the capture boundary, a floating-point evaluation may decide differently from the exact one.
- `PullX`: the damping bound is stated as "less than a fifth of the offset plus one", to absorb the truncation toward zero, rather than as the exact rounded value.
- `OutsideBubblePullsCloseIcon`: "never below the baseline" is stated only for a bubble at or above the screen bottom. Below it, the code's lift is negative and is not clamped.
- The dp-to-px conversion `toPx` is not part of this model. It is a function parameter of the builder.
- Loading a drawable (`ContextCompat.getDrawable(...)!!.toBitmap()`) is represented by the value `Decoded(drawable)`. The exception for a missing resource is not modelled. The library's default close icon is `DefaultCloseIcon`.
- `FloatingBubbleView` is not part of this model. Only these parts are kept:
  - its position, assumed to start at the builder's start point;
  - `show` and `remove`;
  - `animateIconToEdge`, recorded as an effect only. Its edge target and animation are not modelled, and the bubble's position is left unchanged.
  - The view's own touch handling, which moves the bubble and fires the callbacks, is left to the caller of `OnMove` and `OnUp`.
- `FloatingBottomBackground` is not part of this model beyond whether it is shown.
- The host's listener bodies are not modelled: a call to them is only recorded. A host listener that throws or re-enters the bubble is not covered.
- Styles and elevation are stored but never applied. The `Action` interface has no behaviour to model.
- Kotlin's 32-bit `Int` wrap-around is not modelled, because screen sizes and positions stay far from the limits. Integers are unbounded.
- Threading is not modelled: all callbacks are taken to arrive on one thread, one at a time.
