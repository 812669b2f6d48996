# Drawer overlay for react-native-navigation, in Dafny

This project models the core of a React Native library that shows an animated
side drawer as a navigation overlay. It has three cooperating pieces:

- **The event bus** (`src/events.ts`): a process-wide registry from topic name
  to `{count, funcs}`. `listen` stores a callback under a fresh integer key and
  returns an unsubscribe closure. `dispatch` calls the topic's callbacks in
  ascending key order. Modelled as module `Events`: pure functions over the
  registry, plus `class Bus<L>`, whose methods change the registry in place.
  Callbacks are abstract values; `Dispatch` returns the calls it makes.
- **The drawer overlay** (`src/RNNDrawer.tsx`, the `WrappedDrawer` component
  and the static `showDrawer`/`dismissDrawer`). It is split by flavour:
  - `DrawerGeometry` holds the pure arithmetic: size resolution, the offset
    tables, the reverse-direction table, the capture test and the drag
    formulas.
  - `Drawer` holds the state record and one transition function per handler,
    with trace lemmas over any sequence of events.
  - `DrawerComponent.WrappedDrawer` is the component as a class. Its fields
    are the ones the handlers update, and each method is tied to its
    transition function by `Current() == F(old(Current()))`.
  - `DrawerApi` holds the `showDrawer` options rewrite.
- **The edge-swipe detector** (`src/SideMenuView.tsx`): two strips along the
  screen edges. Every gesture is republished on the bus. A fast enough move
  calls that side's callback once and sets the `isOpened` latch, which only
  DRAWER_CLOSED resets. Modelled as module `SideMenu`: the reaction function,
  trace lemmas and `class SideMenuView`.

The shared vocabulary is in `Messages`: directions, points, the five topics
and their payloads, and the listener identities. `Common` holds `Option`.

Other parts are passed in as parameters:
- Window sizes and gesture data (`moveX`, `vx`, …) are method parameters.
- `parseFloat` is a parameter `parse: string -> Option<real>`; None stands
  for NaN.
- The host's `Navigation.dismissOverlay` calls are counted in
  `overlayDismissals`.
- The layout `showDrawer` would hand to `Navigation.showOverlay` is returned.

Animations are modelled by their effect on the animated value. An
`AnimatedValue` holds its current number and the timing animation running on
it, if any. Starting an animation replaces the running one. `setValue` holds a
number and stops the animation. The end of a running animation is an explicit
event: the value settles on its target and the completion runs. For the close
animation, the completion dismisses the overlay and clears the dismissing
flag.

## Notes on the code as written

The model follows the code in each case below, except where a bullet says otherwise; the lemma named proves the behaviour.

- **The two SWIPE_MOVE emitters send different payloads.** The detector sends
  a bare number (`src/SideMenuView.tsx:116`, `:138`). The drawer reads
  `value.moveX`, which is then `undefined`, and every comparison with it is
  false. So moves from the detector never move the drawer
  (`Drawer.DetectorMovesAreIgnored`).
- **The detector's SWIPE_START has no payload** (`src/SideMenuView.tsx:85`).
  The drawer's handler reads `value.moveX` of `undefined` and throws before
  changing anything. The model leaves the state unchanged (`Drawer.SwipeStarted`).
- **A normal drag is bounded on one side only** (`src/RNNDrawer.tsx:477`). A drag is
  meant to stay between the opened and closed offsets, but the code
  only refuses moves past the opened offset, so a long drag writes a panel
  offset beyond the closed one (`DrawerGeometry.DragCanPassClosedValue`).
- **DISMISS_DRAWER never sets the dismissing flag, and the backdrop tap ignores
  it.** Duplicate dismiss requests are meant to be absorbed by that flag.
  Two DISMISS_DRAWER messages start two close animations, and so does a tap
  after a swipe dismissal (`Drawer.DismissGuards`). In the program the host
  is then asked to dismiss twice. React Native calls the superseded close
  animation's completion with `finished: false`, and that completion does not
  check `finished` (`src/RNNDrawer.tsx:617-620`). The model drops the
  superseded completion and asks once (`Drawer.TwoDismissRequestsOneHostDismissal`);
  see "## Left out".
- **A top or bottom drawer is never reopened by a gesture end.** Both
  responders only publish 'left' or 'right'. So for a vertical drawer every
  SWIPE_END that passes the guard dismisses
  (`Drawer.VerticalDrawerSwipeEndDismisses`).
- **The right strip uses `vx > -swipeSensitivity`** (`src/SideMenuView.tsx:142`).
  Any move that is not fast to the left therefore fires it. `SideMenu.Fires`
  keeps that comparison.
- **Past the closed offset the backdrop darkens again.** The open fraction is
  `abs(dimension + aligned) / dimension`, so a drag of twice the panel size or
  more gives the full fade opacity (`DrawerGeometry.NormalDragOvershootDarkens`).
- **`SideMenuView` has no `componentWillUnmount`.** Its `removeListeners` is
  never called, so its DRAWER_CLOSED subscription outlives the component. This
  point is read from the code, not proved.

## Model

| member | source | states |
|---|---|---|
| Events.Listened | src/events.ts:24-27 | the registry after `listen`: the name's record, created if absent, has its count raised by one and the callback stored under the old count. Its properties are proved in ListenOnUnseenName and ListenIssuesFreshKey |
| Events.Unsubscribed | src/events.ts:30 | the registry after an unsubscribe call: every topic and the count stay, and the captured key is gone |
| Events.KeysBelow | src/events.ts:43-44 | the keys visited are exactly the live keys below the count, in strictly ascending order (the `for … in` order of integer keys) |
| Events.ListenOnUnseenName | src/events.ts:24-27 | the first `listen` on a name creates `{count: 1, funcs: {0: f}}` and issues key 0 |
| Events.ListenIssuesFreshKey | src/events.ts:23-28 | `listen` raises the count by exactly one and issues a key above every live key. It stores the callback there, leaves other names unchanged, and keeps every live key below its count |
| Events.UnsubscribeIsLocal | src/events.ts:29-31 | unsubscribing deletes only its own key. The count, the other keys of the name and every other name are unchanged |
| Events.UnsubscribeIdempotent | src/events.ts:30 | calling the same unsubscribe handle twice leaves the registry as after once |
| Events.DispatchVisitsLiveKeys | src/events.ts:42-44 | dispatch visits every live key once, and only those, in strictly ascending order |
| Events.TopicsPersist | src/events.ts:23-31 | across any sequence of listens and unsubscribes no topic disappears, no count decreases, and live keys stay below their count |
| Events.KeysNeverReused | src/events.ts:26 | a key issued earlier is below the next key of that name after any later operations |
| Events.UnsubscribedAll | src/RNNDrawer.tsx:532-535 | calling the set handles one after another keeps every topic and the key invariant, adds no listener to any topic, and leaves the key of every set handle absent from its topic |
| Events.Bus.constructor | src/events.ts:14 | the registry starts empty |
| Events.Bus.Listen | src/events.ts:23-32 | the registry becomes `Listened(old, name, f)` and the handle captures the name and the key issued |
| Events.Bus.Unsubscribe | src/events.ts:29-31 | the registry becomes `Unsubscribed(old, sub)`, keeping every topic and the key invariant |
| Events.Bus.Dispatch | src/events.ts:41-45 | no calls for an unknown name. Otherwise one call per key in `DispatchOrder`, in that order, all with the same argument. The registry is not changed |
| Messages.SwipeEndFor | src/SideMenuView.tsx:91-94 | a release publishes SWIPE_END 'right' iff vx > 0 and 'left' iff vx <= 0. The drawer's own responder does the same (src/RNNDrawer.tsx lines 230-233) |
| DrawerGeometry.IsLandscape | src/RNNDrawer.tsx:323-327 | the window is landscape when its height is at most its width |
| DrawerGeometry.OpenedValue | src/RNNDrawer.tsx:286-291 | the opened offsets: left 0, right W - dw, top dh - H, bottom H - dh. Related to the closed offsets by ClosedIsOnePanelFromOpened |
| DrawerGeometry.InitialValue | src/RNNDrawer.tsx:293-298 | the initial offsets: left -dw, right W, top -H, bottom H |
| DrawerGeometry.CloseValue | src/RNNDrawer.tsx:605-610 | the close targets, the same table as the initial offsets (ClosedIsOnePanelFromOpened) |
| DrawerGeometry.Reverse | src/RNNDrawer.tsx:492-497 | the reverse-direction table: left and right swap, top and bottom swap |
| DrawerGeometry.Aligned | src/RNNDrawer.tsx:454-466 | the signed displacement of a drag along the swipe's axis, from the start point |
| DrawerGeometry.Modifier | src/RNNDrawer.tsx:450-461 | `directionModifier`: -1 for right and bottom swipes, 1 otherwise |
| DrawerGeometry.DragDimension | src/RNNDrawer.tsx:452-465 | the panel height for top and bottom swipes, its width otherwise |
| DrawerGeometry.ResolveSize | src/RNNDrawer.tsx:259-275 | a number passes through. A percentage p gives size * 100 == max * p; NaN or 0 gives max. For 0 < p <= 100 the size lies in [0, max] |
| DrawerGeometry.Measure | src/RNNDrawer.tsx:278-284 | in landscape (height <= width) the panel width is 300 whatever was configured. Otherwise the width is resolved against the window width. The height is always resolved against the window height |
| DrawerGeometry.ClosedIsOnePanelFromOpened | src/RNNDrawer.tsx:286-298 | initial offsets equal the close targets. Closed minus opened is one panel extent toward the drawer's edge, so the two differ iff the extent is non-zero |
| DrawerGeometry.ReverseIsInvolution | src/RNNDrawer.tsx:492-497 | the reverse table is an involution without a fixed point |
| DrawerGeometry.ShouldCapture | src/RNNDrawer.tsx:203-213 | the responder claims a move iff it travelled more than 5 points along the drawer's axis, in either sign |
| DrawerGeometry.CappedOpacity | src/RNNDrawer.tsx:471-474 | the opacity written is `fraction * fade` or `fade`, never above `fade`, and is `fraction * fade` whenever that is not above `fade` |
| DrawerGeometry.EdgeDrag | src/RNNDrawer.tsx:424-443 | a write happens iff the value is a point and the finger is within one panel width of the drawer's edge (left or right drawers only). The offset is `moveX - dw` or `moveX` and lies past the opened offset. The opacity is `min(moveX / dw * fade, fade)` on the left and `min((W - moveX) / dw * fade, fade)` on the right, so at most fade |
| DrawerGeometry.NormalDrag | src/RNNDrawer.tsx:445-481 | a write happens iff the value is a point and the aligned displacement is negative. The offset is `opened + aligned * modifier`, past the opened offset when the swipe is along the drawer's direction. The opacity is `min(abs(dim + aligned) / dim * fade, fade)`, so at most fade |
| DrawerGeometry.NormalDragOpacityIsOpenFraction | src/RNNDrawer.tsx:468-474 | for a positive panel size and a drag between the opened and closed offsets, the opacity is the open fraction `(dim + aligned) / dim` times fade, and lies in [0, fade] |
| DrawerGeometry.HalfOpenDrawerBackdrop | src/RNNDrawer.tsx:468-474 | a half-open drawer with fade 0.6 gets a backdrop of 0.3 |
| DrawerGeometry.NormalDragOvershootDarkens | src/RNNDrawer.tsx:468-474 | a displacement of at least twice the panel size gives the full fade opacity, because the fraction takes the absolute value |
| DrawerGeometry.DragCanPassClosedValue | src/RNNDrawer.tsx:476-481 | a concrete drag of a 320-wide left drawer writes offset -350, beyond the closed offset -320 |
| Drawer.DefaultProps | src/RNNDrawer.tsx:168-179 | the default props: 300 ms open and close, left, dismiss on touch outside, fade 0.6, "80%" by "100%", animate open, dragging and swiping enabled |
| Drawer.DefaultPanelInPortrait | src/RNNDrawer.tsx:168-179 | with the defaults, a portrait 400 x 800 window gives a 320 x 800 panel |
| Drawer.Initial | src/RNNDrawer.tsx:300-307 | the panel starts at its initial offset and the backdrop at 0, with every flag clear and nothing requested of the host. The recorded height is the window's, and the start point is (0, 0) |
| Drawer.Mounted | src/RNNDrawer.tsx:334-339 | mounting sets the edge flag when animating open is switched off, and changes no other field |
| Drawer.OpenAnimationsStarted | src/RNNDrawer.tsx:341-356 | the panel animates to its opened offset and the backdrop to the fade opacity, over the open time. The current values, both state flags, the edge flag, the start point, the screen height and both counters are unchanged |
| Drawer.Appeared | src/RNNDrawer.tsx:364-372 | when no SWIPE_START was seen and animating open is on, the result is exactly `OpenAnimationsStarted`; otherwise nothing changes |
| Drawer.SwipeStarted | src/RNNDrawer.tsx:410-417 | with a point, records it and marks swiping as started. With no payload nothing changes. The animated values, the dismissing and edge flags, the height and the counters are never touched |
| Drawer.SwipeMoved | src/RNNDrawer.tsx:420-483 | a gesture that started at the edge writes what EdgeDrag gives, whatever `disableDragging` says. Otherwise it is a no-op when dragging is disabled and writes what NormalDrag gives when it is not. Only the two animated values change, set together (stopping their animations) with the backdrop at most fade |
| Drawer.DismissedWithAnimation | src/RNNDrawer.tsx:602-628 | the panel animates to its close offset and the backdrop to 0, over the close time. One close animation is counted. The dismissing flag is neither read nor set. The current values, the swiping flag, the height, the start point, the edge flag and the host dismissals are kept |
| Drawer.SwipeEnded | src/RNNDrawer.tsx:486-517 | ignored iff swiping is disabled and the gesture did not start at the edge. Otherwise the edge flag is cleared. A swipe in the reverse direction is exactly `OpenAnimationsStarted` of the cleared state. Any other swipe sets the dismissing flag, and when it was not already set the result is exactly `DismissedWithAnimation` (panel to the close offset, backdrop to 0) of the flagged state; when it was already set only the edge flag is cleared, and the running close animation is kept |
| Drawer.DismissRequested | src/RNNDrawer.tsx:520-524 | DISMISS_DRAWER, when the dismissing flag is clear, is exactly `DismissedWithAnimation` (panel to the close offset, backdrop to 0, one close animation) and leaves the flag clear; otherwise nothing changes |
| Drawer.TouchedOutside | src/RNNDrawer.tsx:591-597 | a backdrop tap is exactly `DismissedWithAnimation` (panel to the close offset, backdrop to 0, one close animation) iff `dismissWhenTouchOutside`, regardless of the dismissing flag; otherwise nothing changes |
| Drawer.OrientationChanged | src/RNNDrawer.tsx:385-397 | the window height is recorded. A right drawer's panel is set flush with the new right edge; other directions keep their offset. The backdrop, every flag, the start point and the counters are kept |
| Drawer.OpenValueAnimationEnded | src/RNNDrawer.tsx:613-620 | the panel settles on the target. A close animation's completion asks the host to dismiss once and clears the dismissing flag; any other completion keeps the flag and asks nothing. The backdrop, the swiping and edge flags, the height, the start point and the close-animation count are kept. Nothing happens when no animation runs |
| Drawer.OverlayOpacityAnimationEnded | src/RNNDrawer.tsx:622-627 | the backdrop settles on the target of its animation and the host is not asked anything. The panel, with its pending completion, every flag, the height, the start point and the counters are kept |
| Drawer.StepKeepsOpacityWithinFade | src/RNNDrawer.tsx:427-474 | every event keeps the backdrop, and the target it animates to, at or below the fade opacity |
| Drawer.RunKeepsOpacityWithinFade | src/RNNDrawer.tsx:427-474 | the same holds along any sequence of events |
| Drawer.OpacityNeverExceedsFade | src/RNNDrawer.tsx:471-474 | from construction, whatever happens, the backdrop never exceeds the fade opacity |
| Drawer.StepKeepsDismissalsAccounted | src/RNNDrawer.tsx:613-620 | every event keeps host dismissals plus the pending close completion within the close animations started |
| Drawer.RunKeepsDismissalsAccounted | src/RNNDrawer.tsx:613-620 | the same holds along any sequence of events |
| Drawer.DismissalsNeverExceedCloseAnimations | src/RNNDrawer.tsx:602-628 | from construction the host is asked to dismiss at most once per close animation started |
| Drawer.DismissGuards | src/RNNDrawer.tsx:505-524 | a SWIPE_END dismissal absorbs a following DISMISS_DRAWER. Two DISMISS_DRAWERs start two close animations, and a backdrop tap after a swipe dismissal starts a second one |
| Drawer.VerticalDrawerSwipeEndDismisses | src/RNNDrawer.tsx:486-517 | for a top or bottom drawer, every SWIPE_END a responder can publish that passes the guard sets the dismissing flag |
| Drawer.DetectorMovesAreIgnored | src/RNNDrawer.tsx:420-483 | a SWIPE_MOVE carrying a bare number leaves the drawer unchanged |
| Drawer.MountSetsEdgeFlag | src/RNNDrawer.tsx:338-339 | after mounting, the edge flag is set iff animating open is switched off |
| Drawer.TwoDismissRequestsOneHostDismissal | src/RNNDrawer.tsx:520-524 | two DISMISS_DRAWER messages and the end of the close animation: two close animations are counted, and the host is asked once because the superseded completion is dropped |
| Drawer.OwnGrantMessage | src/RNNDrawer.tsx:222-224 | the drawer's own responder starts a gesture with SWIPE_START carrying the `{moveX, moveY}` point |
| Drawer.OwnMoveMessage | src/RNNDrawer.tsx:247-250 | the drawer's own responder moves with SWIPE_MOVE carrying the point and the drawer's direction |
| Drawer.ShowThenTapOutside | src/RNNDrawer.tsx:591-628 | mount, appear, open, tap, close: the panel ends at its closed offset and the backdrop at 0. The host is asked to dismiss exactly once and the dismissing flag is clear |
| DrawerComponent.WrappedDrawer.constructor | src/RNNDrawer.tsx:188-307 | the geometry is measured from the window and the state is the initial state. No handle is stored |
| DrawerComponent.WrappedDrawer.ComponentDidMount | src/RNNDrawer.tsx:334-357 | the state becomes `Mounted` of the old state |
| DrawerComponent.WrappedDrawer.StartOpenAnimations | src/RNNDrawer.tsx:369-370 | the state becomes `OpenAnimationsStarted` of the old state |
| DrawerComponent.WrappedDrawer.RegisterListeners | src/RNNDrawer.tsx:402-525 | the bus gains the four listeners in order and the four handles are stored. Every handle names a topic of the bus |
| DrawerComponent.WrappedDrawer.ComponentDidAppear | src/RNNDrawer.tsx:364-372 | listeners are registered, every stored handle names a topic on the bus, and the state becomes `Appeared` of the old state |
| DrawerComponent.WrappedDrawer.RemoveListeners | src/RNNDrawer.tsx:530-536 | each stored handle that is set is called, in field order |
| DrawerComponent.WrappedDrawer.ComponentDidDisappear | src/RNNDrawer.tsx:379-383 | listeners are removed and DRAWER_CLOSED is published |
| DrawerComponent.WrappedDrawer.OnOrientationChange | src/RNNDrawer.tsx:385-397 | the state becomes `OrientationChanged` of the old state |
| DrawerComponent.WrappedDrawer.OnSwipeStart | src/RNNDrawer.tsx:410-417 | the state becomes `SwipeStarted` of the old state |
| DrawerComponent.WrappedDrawer.OnSwipeMove | src/RNNDrawer.tsx:420-483 | the handler's step-by-step body yields `SwipeMoved` of the old state |
| DrawerComponent.WrappedDrawer.DismissDrawerWithAnimation | src/RNNDrawer.tsx:602-628 | the state becomes `DismissedWithAnimation` of the old state |
| DrawerComponent.WrappedDrawer.OnSwipeEnd | src/RNNDrawer.tsx:486-517 | the state becomes `SwipeEnded` of the old state |
| DrawerComponent.WrappedDrawer.OnDismissDrawer | src/RNNDrawer.tsx:520-524 | the state becomes `DismissRequested` of the old state |
| DrawerComponent.WrappedDrawer.TouchedOutside | src/RNNDrawer.tsx:591-597 | the state becomes `TouchedOutside` of the old state |
| DrawerComponent.WrappedDrawer.OnOpenValueAnimationEnd | src/RNNDrawer.tsx:613-620 | the state becomes `OpenValueAnimationEnded` of the old state |
| DrawerComponent.WrappedDrawer.OnOverlayOpacityAnimationEnd | src/RNNDrawer.tsx:622-627 | the state becomes `OverlayOpacityAnimationEnded` of the old state |
| DrawerComponent.WrappedDrawer.Deliver | src/RNNDrawer.tsx:410-524 | a message runs the listener registered for its topic. DRAWER_CLOSED has none |
| DrawerComponent.WrappedDrawer.OnMoveShouldSetPanResponder | src/RNNDrawer.tsx:203-213 | the capture test is abs(dx) > 5 for left and right drawers and abs(dy) > 5 otherwise |
| DrawerComponent.WrappedDrawer.OnPanResponderGrant | src/RNNDrawer.tsx:218-225 | publishes OwnGrantMessage, which OwnDragFollowsFinger shows records the start point |
| DrawerComponent.WrappedDrawer.OnPanResponderMove | src/RNNDrawer.tsx:243-251 | publishes OwnMoveMessage for the drawer's direction, which OwnDragFollowsFinger shows moves the panel |
| DrawerComponent.WrappedDrawer.OnPanResponderRelease | src/RNNDrawer.tsx:226-234 | publishes SwipeEndFor(vx): 'right' iff vx > 0, else 'left' |
| DrawerComponent.OwnDragFollowsFinger | src/RNNDrawer.tsx:410-481 | the drawer's own start message records the start point and marks swiping as started. Its own move message then changes nothing while the displacement is not negative. Otherwise the panel is set to the opened offset moved by the displacement, past the opened offset. This is the counterpart of DetectorMovesAreIgnored |
| DrawerApi.BackgroundColor | src/RNNDrawer.tsx:641-643 | the caller's `componentBackgroundColor` when every level of the path is present, else "transparent" |
| DrawerApi.ShowDrawerLayout | src/RNNDrawer.tsx:639-656 | no component means the assignment throws. Otherwise the component keeps its name and every other option. The `layout` block is replaced by one holding only the background colour: the caller's, else "transparent" |
| DrawerApi.ShowDrawerLayoutDefaultsAndIdempotence | src/RNNDrawer.tsx:640-649 | the rewrite keeps the caller's colour, and a second rewrite changes nothing |
| DrawerApi.DismissDrawerMessage | src/RNNDrawer.tsx:661-663 | `dismissDrawer` publishes on the DISMISS_DRAWER topic |
| SideMenu.WithDefaults | src/SideMenuView.tsx:44-47 | an absent sideMargin becomes 15 and an absent swipeSensitivity 0.2. Everything else is unchanged |
| SideMenu.EdgeStrip | src/SideMenuView.tsx:201-225 | a strip exists iff that side's callback is supplied. Its width is sideMargin when it is set and non-zero, else the per-side margin |
| SideMenu.DefaultStripIsFifteen | src/SideMenuView.tsx:201-212 | with the defaults and no margin given, a supplied edge's strip is 15 wide |
| SideMenu.Fires | src/SideMenuView.tsx:119-142 | a move calls its side's callback iff the sensitivity is set, the latch is clear and the callback is supplied, with vx > sensitivity on the left and vx > -sensitivity on the right |
| SideMenu.React | src/SideMenuView.tsx:81-146 | grant publishes SWIPE_START with no payload and release publishes SwipeEndFor(vx). A move always publishes SWIPE_MOVE with the bare moveX and its side. It calls its side's callback iff `Fires`, and then latches. DRAWER_CLOSED only clears the latch |
| SideMenu.AtMostOneCallbackPerOpening | src/SideMenuView.tsx:116-146 | with no DRAWER_CLOSED, a sequence of inputs calls at most one callback, and none once the latch is set. A set latch stays set |
| SideMenu.DrawerClosedRearms | src/SideMenuView.tsx:166-171 | after DRAWER_CLOSED, a qualifying move calls its callback again, whatever the latch was |
| SideMenu.SideMenuView.constructor | src/SideMenuView.tsx:56-61 | the latch starts clear, the props get their defaults and no subscription is stored |
| SideMenu.SideMenuView.ComponentDidMount | src/SideMenuView.tsx:159-171 | subscribes the DRAWER_CLOSED listener and stores its handle |
| SideMenu.SideMenuView.RemoveListeners | src/SideMenuView.tsx:176-178 | calls the stored handle |
| SideMenu.SideMenuView.OnPanResponderGrant | src/SideMenuView.tsx:81-86 | publishes SWIPE_START with no payload |
| SideMenu.SideMenuView.OnPanResponderRelease | src/SideMenuView.tsx:87-95 | publishes SWIPE_END 'right' iff vx > 0 |
| SideMenu.SideMenuView.OnLeftMove | src/SideMenuView.tsx:107-126 | the step-by-step handler yields `React` for a left move: what is published, whether `left` is called, the new latch |
| SideMenu.SideMenuView.OnRightMove | src/SideMenuView.tsx:128-148 | the same for a right move, with `vx > -swipeSensitivity` |
| SideMenu.SideMenuView.OnDrawerClosed | src/SideMenuView.tsx:168-170 | clears the latch and keeps the subscription |

## Left out

- Animation timing and rendering are not modelled. Interpolation, frames, JSX, styles and `useNativeDriver` are left out. An animation is only its target, its duration and an explicit end event.
- Drawer.Started: a replaced or stopped animation loses its completion here. React Native also calls a stopped animation's completion, with `finished: false`. The close completion does not check `finished`, so there a superseded close animation would still dismiss the overlay. In the program, two DISMISS_DRAWER messages, or a backdrop tap during a swipe dismissal, therefore ask the host twice; the model asks once (Drawer.TwoDismissRequestsOneHostDismissal).
- DrawerGeometry.Ratio: dividing by a zero panel size gives 0 here. JavaScript gives Infinity or NaN. Geometry uses exact reals, not IEEE doubles.
- DrawerGeometry.ResolveSize: the internals of `parseFloat` are abstracted as the `parse` parameter.
- `Dimensions.addEventListener`/`removeEventListener` and `Navigation.events().bindComponent` are foreign registrations. The orientation handler is modelled; its registration is not.
- `Navigation.showOverlay` and `Navigation.dismissOverlay` are host calls. The first is the returned layout, the second a counter.
- React's `setState` is asynchronous. It is modelled as a synchronous update followed by its callback (`src/RNNDrawer.tsx:506-513`).
- Events.Bus.Dispatch returns the calls over the registry as it was when dispatch started. A callback that changes the registry during the loop is not modelled. In JavaScript, deleting a key not yet visited would skip it.
- Events.KeysBelow: ascending `for … in` order holds for integer keys up to 2^32 - 2. Larger keys are visited in insertion order, which is not modelled.
- Events: callbacks are always truthy. The `funcs[func] &&` guard at `src/events.ts:44` is not modelled.
- Events: topic names that collide with JavaScript object prototype properties are not modelled.
- Drawer.SwipeStarted: the TypeError from a SWIPE_START with no payload is modelled as "nothing changes". The exception would also skip the remaining listeners of that dispatch.
- Props always hold their declared types after `defaultProps`. So `direction || 'left'` (`src/RNNDrawer.tsx:248`), an explicitly undefined `animateDrawerExpanding`, and NaN numbers are not modelled.
- DrawerApi.ShowDrawerLayout: other option values are kept as opaque text. A `layout` argument that is itself undefined is not modelled; it would also throw.
- SideMenu.SideMenuView.RemoveListeners: requires a stored handle. Calling it before mount would throw on the unset handle (`src/SideMenuView.tsx:177`); nothing in the source calls it.
- SideMenu: the responder negotiation callbacks are left out. They return constant true/false (`src/SideMenuView.tsx:65-80`, `:96-103`).
- SideMenu: the `left`/`right` callbacks are caller code. Whether they are supplied is a boolean, and a call is a returned flag.
- SideMenu.EdgeStrip: a NaN `sideMargin`, also falsy, is not modelled.
- The compiled `lib/` files, the root-level legacy `RNNDrawer.js`, `SideMenuView.js` and `index.js`, and the `example/` app are not part of this model.
