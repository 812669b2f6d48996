/**
 * The drawer overlay (`WrappedDrawer`): its configuration, its React state
 * and instance fields, and how each lifecycle call, bus message, backdrop tap,
 * orientation change and animation completion changes them.
 *
 * Animated values are modelled as a current number plus the timing animation
 * running on it, if any. Starting an animation replaces the running one and
 * `setValue` stops it (the replaced completion is dropped); the end of a
 * running animation is an explicit step that settles the value on its target
 * and runs its completion.
 */
module Drawer {
  import opened Common
  import opened Messages
  import opened DrawerGeometry
  import Events

  /** The component's props, after `defaultProps` have been applied. */
  datatype Props = Props(
    componentId: string,
    animationOpenTime: real,
    animationCloseTime: real,
    direction: Direction,
    dismissWhenTouchOutside: bool,
    fadeOpacity: real,
    drawerScreenWidth: Size,
    drawerScreenHeight: Size,
    animateDrawerExpanding: bool,
    disableDragging: bool,
    disableSwiping: bool)

  /** `defaultProps`, completed with the overlay's component id. */
  function DefaultProps(componentId: string): Props
  {
    Props(componentId, 300.0, 300.0, Left, true, 0.6, Percentage("80%"), Percentage("100%"), true, false, false)
  }

  /**
   * With the default props, a portrait 400 x 800 window gives a panel 80% of
   * its width and its full height.
   */
  lemma DefaultPanelInPortrait(componentId: string, parse: string -> Option<real>)
    requires parse("80%") == Some(80.0) && parse("100%") == Some(100.0)
    ensures SetupFor(DefaultProps(componentId), 400.0, 800.0, parse).geometry == Geometry(400.0, 800.0, 320.0, 800.0)
  {
  }

  /** A timing animation: its target, its duration, and whether its completion dismisses the overlay. */
  datatype Timing = Timing(toValue: real, duration: real, dismissOnEnd: bool)

  /** An `Animated.Value`: the number it holds and the animation running on it. */
  datatype AnimatedValue = AnimatedValue(value: real, running: Option<Timing>)

  /** `setValue`: hold `v` and stop whatever was running. */
  function SetValue(v: real): AnimatedValue
  {
    AnimatedValue(v, None)
  }

  /** `start()` of a timing animation on `a`: it replaces the running one. */
  function Started(a: AnimatedValue, t: Timing): AnimatedValue
  {
    a.(running := Some(t))
  }

  /** The React state of the component (`this.state`). */
  datatype ComponentState = ComponentState(
    sideMenuOpenValue: AnimatedValue,
    sideMenuOverlayOpacity: AnimatedValue,
    sideMenuSwipingStarted: bool,
    sideMenuIsDismissing: bool,
    screenHeight: real)

  /**
   * Everything a handler may change: the React state, the two instance fields
   * the handlers write, and two counters that record the component's effects
   * on the host: close animations started and `Navigation.dismissOverlay` calls.
   */
  datatype DrawerState = DrawerState(
    state: ComponentState,
    panningStartedPoint: Point,
    startedFromSideMenu: bool,
    closeAnimationsStarted: nat,
    overlayDismissals: nat)

  /** What is fixed when the component is constructed. */
  datatype Setup = Setup(props: Props, geometry: Geometry)

  /** The setup of a drawer constructed in a window of the given size. */
  function SetupFor(props: Props, windowWidth: real, windowHeight: real,
                    parse: string -> Option<real>): Setup
  {
    Setup(props, Measure(props.drawerScreenWidth, props.drawerScreenHeight, windowWidth, windowHeight, parse))
  }

  /** The state the constructor leaves: panel at its initial offset, backdrop transparent. */
  function Initial(s: Setup): (st: DrawerState)
    ensures st.state.sideMenuOpenValue == SetValue(InitialValue(s.props.direction, s.geometry))
    ensures st.state.sideMenuOverlayOpacity == SetValue(0.0)
    ensures !st.state.sideMenuSwipingStarted && !st.state.sideMenuIsDismissing && !st.startedFromSideMenu
    ensures st.closeAnimationsStarted == 0 && st.overlayDismissals == 0
    ensures st.state.screenHeight == s.geometry.screenHeight
    ensures st.panningStartedPoint == Point(0.0, 0.0)
  {
    DrawerState(
      ComponentState(SetValue(InitialValue(s.props.direction, s.geometry)), SetValue(0.0), false, false,
                     s.geometry.screenHeight),
      Point(0.0, 0.0), false, 0, 0)
  }

  /** `animatedDrawer`: the open animation created on mount. */
  function OpenDrawerTiming(s: Setup): Timing
  {
    Timing(OpenedValue(s.props.direction, s.geometry), s.props.animationOpenTime, false)
  }

  /** `animatedOpacity`: the backdrop fade-in created on mount. */
  function OpenOpacityTiming(s: Setup): Timing
  {
    Timing(s.props.fadeOpacity, s.props.animationOpenTime, false)
  }

  /** The close animation of `dismissDrawerWithAnimation`; its completion dismisses the overlay. */
  function CloseDrawerTiming(s: Setup): Timing
  {
    Timing(CloseValue(s.props.direction, s.geometry), s.props.animationCloseTime, true)
  }

  /** The backdrop fade-out of `dismissDrawerWithAnimation`. */
  function CloseOpacityTiming(s: Setup): Timing
  {
    Timing(0.0, s.props.animationCloseTime, false)
  }

  /** `componentDidMount`: a drawer configured not to animate open starts as edge-driven. */
  function Mounted(s: Setup, st: DrawerState): (st': DrawerState)
    ensures !s.props.animateDrawerExpanding ==> st'.startedFromSideMenu
    ensures s.props.animateDrawerExpanding ==> st' == st
    ensures st'.(startedFromSideMenu := st.startedFromSideMenu) == st
  {
    if !s.props.animateDrawerExpanding then st.(startedFromSideMenu := true) else st
  }

  /** Both open animations started (`animatedDrawer.start(); animatedOpacity.start()`). */
  function OpenAnimationsStarted(s: Setup, st: DrawerState): (st': DrawerState)
    ensures st'.state.sideMenuOpenValue.running == Some(OpenDrawerTiming(s))
    ensures st'.state.sideMenuOverlayOpacity.running == Some(OpenOpacityTiming(s))
    ensures st'.state.sideMenuOpenValue.value == st.state.sideMenuOpenValue.value
    ensures st'.state.sideMenuOverlayOpacity.value == st.state.sideMenuOverlayOpacity.value
    ensures st'.state.sideMenuIsDismissing == st.state.sideMenuIsDismissing
    ensures st'.state.sideMenuSwipingStarted == st.state.sideMenuSwipingStarted
    ensures st'.state.screenHeight == st.state.screenHeight
    ensures st'.startedFromSideMenu == st.startedFromSideMenu
    ensures st'.panningStartedPoint == st.panningStartedPoint
    ensures st'.closeAnimationsStarted == st.closeAnimationsStarted
    ensures st'.overlayDismissals == st.overlayDismissals
  {
    st.(state := st.state.(
      sideMenuOpenValue := Started(st.state.sideMenuOpenValue, OpenDrawerTiming(s)),
      sideMenuOverlayOpacity := Started(st.state.sideMenuOverlayOpacity, OpenOpacityTiming(s))))
  }

  /**
   * The animation part of `componentDidAppear`: the open animations start
   * exactly when no swipe has started and the drawer is set to animate open.
   */
  function Appeared(s: Setup, st: DrawerState): (st': DrawerState)
    ensures !st.state.sideMenuSwipingStarted && s.props.animateDrawerExpanding ==>
      && st'.state.sideMenuOpenValue.running == Some(OpenDrawerTiming(s))
      && st'.state.sideMenuOverlayOpacity.running == Some(OpenOpacityTiming(s))
    ensures !st.state.sideMenuSwipingStarted && s.props.animateDrawerExpanding ==> st' == OpenAnimationsStarted(s, st)
    ensures st.state.sideMenuSwipingStarted || !s.props.animateDrawerExpanding ==> st' == st
  {
    if !st.state.sideMenuSwipingStarted && s.props.animateDrawerExpanding then OpenAnimationsStarted(s, st)
    else st
  }

  /**
   * The SWIPE_START listener. With a `{moveX, moveY}` payload it records the
   * start point and marks swiping as started. The edge detector publishes no
   * payload: reading `moveX` of `undefined` throws before anything is changed.
   */
  function SwipeStarted(st: DrawerState, start: Option<Point>): (st': DrawerState)
    ensures start.None? ==> st' == st
    ensures start.Some? ==> st'.panningStartedPoint == start.value && st'.state.sideMenuSwipingStarted
    ensures st'.state.sideMenuOpenValue == st.state.sideMenuOpenValue
    ensures st'.state.sideMenuOverlayOpacity == st.state.sideMenuOverlayOpacity
    ensures st'.state.sideMenuIsDismissing == st.state.sideMenuIsDismissing
    ensures st'.state.screenHeight == st.state.screenHeight
    ensures st'.startedFromSideMenu == st.startedFromSideMenu
    ensures st'.closeAnimationsStarted == st.closeAnimationsStarted
    ensures st'.overlayDismissals == st.overlayDismissals
  {
    match start
    case None => st
    case Some(p) => st.(panningStartedPoint := p, state := st.state.(sideMenuSwipingStarted := true))
  }

  /** Both animated values set directly by a drag, or nothing when no write happens. */
  function Written(st: DrawerState, w: Option<Write>): DrawerState
  {
    match w
    case None => st
    case Some(Write(offset, opacity)) =>
      st.(state := st.state.(sideMenuOpenValue := SetValue(offset), sideMenuOverlayOpacity := SetValue(opacity)))
  }

  /** The write a SWIPE_MOVE asks for: the edge case first, then dragging unless disabled. */
  function DragWrite(s: Setup, st: DrawerState, value: MoveValue, swipe: Direction): Option<Write>
  {
    if st.startedFromSideMenu then EdgeDrag(s.props.direction, s.geometry, s.props.fadeOpacity, value)
    else if s.props.disableDragging then None
    else NormalDrag(s.props.direction, swipe, s.geometry, s.props.fadeOpacity, st.panningStartedPoint, value)
  }

  /**
   * The SWIPE_MOVE listener. It changes at most the two animated values, sets
   * them (stopping their animations) only together, never sets the backdrop
   * above the configured fade opacity, and ignores dragging when it is
   * disabled and the gesture did not start at the edge.
   */
  function SwipeMoved(s: Setup, st: DrawerState, value: MoveValue, swipe: Direction): (st': DrawerState)
    ensures st'.state.sideMenuSwipingStarted == st.state.sideMenuSwipingStarted
    ensures st'.state.sideMenuIsDismissing == st.state.sideMenuIsDismissing
    ensures st'.state.screenHeight == st.state.screenHeight
    ensures st'.panningStartedPoint == st.panningStartedPoint
    ensures st'.startedFromSideMenu == st.startedFromSideMenu
    ensures st'.closeAnimationsStarted == st.closeAnimationsStarted
    ensures st'.overlayDismissals == st.overlayDismissals
    ensures st' == st || (st'.state.sideMenuOpenValue.running.None? && st'.state.sideMenuOverlayOpacity.running.None?
                          && st'.state.sideMenuOverlayOpacity.value <= s.props.fadeOpacity)
    ensures !st.startedFromSideMenu && s.props.disableDragging ==> st' == st
    ensures st.startedFromSideMenu ==>
      st' == Written(st, EdgeDrag(s.props.direction, s.geometry, s.props.fadeOpacity, value))
    ensures !st.startedFromSideMenu && !s.props.disableDragging ==>
      st' == Written(st, NormalDrag(s.props.direction, swipe, s.geometry, s.props.fadeOpacity,
                                    st.panningStartedPoint, value))
  {
    Written(st, DragWrite(s, st, value, swipe))
  }

  /**
   * `dismissDrawerWithAnimation`: the panel animates to its closed offset,
   * the backdrop to 0, and the close completion becomes pending. It does not
   * look at or set the dismissing flag.
   */
  function DismissedWithAnimation(s: Setup, st: DrawerState): (st': DrawerState)
    ensures st'.state.sideMenuOpenValue.running == Some(CloseDrawerTiming(s))
    ensures st'.state.sideMenuOverlayOpacity.running == Some(CloseOpacityTiming(s))
    ensures st'.closeAnimationsStarted == st.closeAnimationsStarted + 1
    ensures st'.state.sideMenuIsDismissing == st.state.sideMenuIsDismissing
    ensures st'.overlayDismissals == st.overlayDismissals
    ensures st'.startedFromSideMenu == st.startedFromSideMenu
    ensures st'.state.sideMenuOpenValue.value == st.state.sideMenuOpenValue.value
    ensures st'.state.sideMenuOverlayOpacity.value == st.state.sideMenuOverlayOpacity.value
    ensures st'.state.sideMenuSwipingStarted == st.state.sideMenuSwipingStarted
    ensures st'.state.screenHeight == st.state.screenHeight
    ensures st'.panningStartedPoint == st.panningStartedPoint
  {
    st.(state := st.state.(
          sideMenuOpenValue := Started(st.state.sideMenuOpenValue, CloseDrawerTiming(s)),
          sideMenuOverlayOpacity := Started(st.state.sideMenuOverlayOpacity, CloseOpacityTiming(s))),
        closeAnimationsStarted := st.closeAnimationsStarted + 1)
  }

  /**
   * The SWIPE_END listener. Ignored when swiping is disabled and the gesture
   * did not start at the edge; otherwise it clears the edge flag, and a swipe
   * in the reverse of the drawer's direction replays the open animations,
   * while any other swipe sets the dismissing flag and dismisses, unless a
   * dismissal is already under way.
   */
  function SwipeEnded(s: Setup, st: DrawerState, swipe: Direction): (st': DrawerState)
    ensures s.props.disableSwiping && !st.startedFromSideMenu ==> st' == st
    ensures !(s.props.disableSwiping && !st.startedFromSideMenu) ==>
      && !st'.startedFromSideMenu
      && (swipe == Reverse(s.props.direction) ==>
            && st'.state.sideMenuOpenValue.running == Some(OpenDrawerTiming(s))
            && st'.state.sideMenuIsDismissing == st.state.sideMenuIsDismissing
            && st'.closeAnimationsStarted == st.closeAnimationsStarted)
      && (swipe != Reverse(s.props.direction) ==>
            && st'.state.sideMenuIsDismissing
            && (st'.closeAnimationsStarted == st.closeAnimationsStarted + 1 <==> !st.state.sideMenuIsDismissing)
            && (!st.state.sideMenuIsDismissing ==> st'.state.sideMenuOpenValue.running == Some(CloseDrawerTiming(s))))
    ensures !(s.props.disableSwiping && !st.startedFromSideMenu) && swipe == Reverse(s.props.direction) ==>
      st' == OpenAnimationsStarted(s, st.(startedFromSideMenu := false))
    ensures !(s.props.disableSwiping && !st.startedFromSideMenu) && swipe != Reverse(s.props.direction)
            && !st.state.sideMenuIsDismissing ==>
      st' == DismissedWithAnimation(s, st.(startedFromSideMenu := false,
                                           state := st.state.(sideMenuIsDismissing := true)))
    ensures !(s.props.disableSwiping && !st.startedFromSideMenu) && swipe != Reverse(s.props.direction)
            && st.state.sideMenuIsDismissing ==>
      st' == st.(startedFromSideMenu := false)
    ensures st'.overlayDismissals == st.overlayDismissals
  {
    if s.props.disableSwiping && !st.startedFromSideMenu then st
    else
      var cleared := st.(startedFromSideMenu := false);
      if swipe == Reverse(s.props.direction) then OpenAnimationsStarted(s, cleared)
      else if !cleared.state.sideMenuIsDismissing then
        DismissedWithAnimation(s, cleared.(state := cleared.state.(sideMenuIsDismissing := true)))
      else cleared
  }

  /**
   * The DISMISS_DRAWER listener: dismiss unless the dismissing flag is set.
   * It does not set the flag itself.
   */
  function DismissRequested(s: Setup, st: DrawerState): (st': DrawerState)
    ensures st.state.sideMenuIsDismissing ==> st' == st
    ensures !st.state.sideMenuIsDismissing ==>
      st'.closeAnimationsStarted == st.closeAnimationsStarted + 1 && !st'.state.sideMenuIsDismissing
    ensures !st.state.sideMenuIsDismissing ==> st' == DismissedWithAnimation(s, st)
  {
    if !st.state.sideMenuIsDismissing then DismissedWithAnimation(s, st) else st
  }

  /** `touchedOutside`: dismiss exactly when configured to, whatever the dismissing flag says. */
  function TouchedOutside(s: Setup, st: DrawerState): (st': DrawerState)
    ensures s.props.dismissWhenTouchOutside ==> st'.closeAnimationsStarted == st.closeAnimationsStarted + 1
    ensures s.props.dismissWhenTouchOutside ==> st' == DismissedWithAnimation(s, st)
    ensures !s.props.dismissWhenTouchOutside ==> st' == st
  {
    if s.props.dismissWhenTouchOutside then DismissedWithAnimation(s, st) else st
  }

  /**
   * `onOrientationChange`: records the new window height for rendering and,
   * for a right drawer only, puts the panel flush with the new right edge.
   */
  function OrientationChanged(s: Setup, st: DrawerState, windowWidth: real, windowHeight: real): (st': DrawerState)
    ensures st'.state.screenHeight == windowHeight
    ensures s.props.direction == Right ==>
      st'.state.sideMenuOpenValue == SetValue(windowWidth - s.geometry.drawerWidth)
    ensures s.props.direction != Right ==> st'.state.sideMenuOpenValue == st.state.sideMenuOpenValue
    ensures st'.state.sideMenuOverlayOpacity == st.state.sideMenuOverlayOpacity
    ensures st'.state.sideMenuIsDismissing == st.state.sideMenuIsDismissing
    ensures st'.state.sideMenuSwipingStarted == st.state.sideMenuSwipingStarted
    ensures st'.startedFromSideMenu == st.startedFromSideMenu
    ensures st'.panningStartedPoint == st.panningStartedPoint
    ensures st'.closeAnimationsStarted == st.closeAnimationsStarted
    ensures st'.overlayDismissals == st.overlayDismissals
  {
    var resized := st.(state := st.state.(screenHeight := windowHeight));
    if s.props.direction == Right then
      resized.(state := resized.state.(sideMenuOpenValue := SetValue(windowWidth - s.geometry.drawerWidth)))
    else resized
  }

  /**
   * The panel's running animation ends: the value settles on its target and,
   * for a close animation, the completion asks the host to dismiss the overlay
   * and clears the dismissing flag. With nothing running nothing happens.
   */
  function OpenValueAnimationEnded(st: DrawerState): (st': DrawerState)
    ensures st.state.sideMenuOpenValue.running.None? ==> st' == st
    ensures st.state.sideMenuOpenValue.running.Some? ==>
      && st'.state.sideMenuOpenValue == SetValue(st.state.sideMenuOpenValue.running.value.toValue)
      && (st.state.sideMenuOpenValue.running.value.dismissOnEnd ==>
            st'.overlayDismissals == st.overlayDismissals + 1 && !st'.state.sideMenuIsDismissing)
      && (!st.state.sideMenuOpenValue.running.value.dismissOnEnd ==>
            st'.overlayDismissals == st.overlayDismissals
            && st'.state.sideMenuIsDismissing == st.state.sideMenuIsDismissing)
    ensures st'.closeAnimationsStarted == st.closeAnimationsStarted
    ensures st'.state.sideMenuOverlayOpacity == st.state.sideMenuOverlayOpacity
    ensures st'.state.sideMenuSwipingStarted == st.state.sideMenuSwipingStarted
    ensures st'.state.screenHeight == st.state.screenHeight
    ensures st'.startedFromSideMenu == st.startedFromSideMenu
    ensures st'.panningStartedPoint == st.panningStartedPoint
  {
    match st.state.sideMenuOpenValue.running
    case None => st
    case Some(t) =>
      var settled := st.(state := st.state.(sideMenuOpenValue := SetValue(t.toValue)));
      if t.dismissOnEnd then
        settled.(overlayDismissals := settled.overlayDismissals + 1,
                 state := settled.state.(sideMenuIsDismissing := false))
      else settled
  }

  /** The backdrop's running animation ends: the opacity settles on its target. */
  function OverlayOpacityAnimationEnded(st: DrawerState): (st': DrawerState)
    ensures st.state.sideMenuOverlayOpacity.running.None? ==> st' == st
    ensures st.state.sideMenuOverlayOpacity.running.Some? ==>
      st'.state.sideMenuOverlayOpacity == SetValue(st.state.sideMenuOverlayOpacity.running.value.toValue)
    ensures st'.overlayDismissals == st.overlayDismissals
    ensures st'.state.sideMenuOpenValue == st.state.sideMenuOpenValue
    ensures st'.state.sideMenuSwipingStarted == st.state.sideMenuSwipingStarted
    ensures st'.state.sideMenuIsDismissing == st.state.sideMenuIsDismissing
    ensures st'.state.screenHeight == st.state.screenHeight
    ensures st'.startedFromSideMenu == st.startedFromSideMenu
    ensures st'.panningStartedPoint == st.panningStartedPoint
    ensures st'.closeAnimationsStarted == st.closeAnimationsStarted
  {
    match st.state.sideMenuOverlayOpacity.running
    case None => st
    case Some(t) => st.(state := st.state.(sideMenuOverlayOpacity := SetValue(t.toValue)))
  }

  /** A bus message as the drawer's listeners handle it; DRAWER_CLOSED has none. */
  function Delivered(s: Setup, st: DrawerState, m: Message): DrawerState
  {
    match m
    case SwipeStart(start) => SwipeStarted(st, start)
    case SwipeMove(value, swipe) => SwipeMoved(s, st, value, swipe)
    case SwipeEnd(swipe) => SwipeEnded(s, st, swipe)
    case DismissDrawer => DismissRequested(s, st)
    case DrawerClosed => st
  }

  /** What the drawer's own responder publishes when a gesture starts: the start point. */
  function OwnGrantMessage(moveX: real, moveY: real): Message
  {
    SwipeStart(Some(Point(moveX, moveY)))
  }

  /** What the drawer's own responder publishes on a move: the point and the drawer's direction. */
  function OwnMoveMessage(d: Direction, moveX: real, moveY: real): Message
  {
    SwipeMove(PointValue(Point(moveX, moveY)), d)
  }

  /** Everything that can happen to a drawer after construction. */
  datatype Event =
    | Mount
    | Appear
    | Bus(message: Message)
    | TouchOutside
    | OrientationChange(windowWidth: real, windowHeight: real)
    | OpenValueAnimationEnd
    | OverlayOpacityAnimationEnd

  function Step(s: Setup, st: DrawerState, e: Event): DrawerState
  {
    match e
    case Mount => Mounted(s, st)
    case Appear => Appeared(s, st)
    case Bus(m) => Delivered(s, st, m)
    case TouchOutside => TouchedOutside(s, st)
    case OrientationChange(w, h) => OrientationChanged(s, st, w, h)
    case OpenValueAnimationEnd => OpenValueAnimationEnded(st)
    case OverlayOpacityAnimationEnd => OverlayOpacityAnimationEnded(st)
  }

  function Run(s: Setup, st: DrawerState, events: seq<Event>): DrawerState
    decreases |events|
  {
    if events == [] then st else Run(s, Step(s, st, events[0]), events[1..])
  }

  /** The backdrop is at or below the fade opacity and so is the target it is animating to. */
  ghost predicate OpacityWithinFade(s: Setup, st: DrawerState)
  {
    var o := st.state.sideMenuOverlayOpacity;
    o.value <= s.props.fadeOpacity && (o.running.Some? ==> o.running.value.toValue <= s.props.fadeOpacity)
  }

  lemma StepKeepsOpacityWithinFade(s: Setup, st: DrawerState, e: Event)
    requires 0.0 <= s.props.fadeOpacity && OpacityWithinFade(s, st)
    ensures OpacityWithinFade(s, Step(s, st, e))
  {
  }

  /**
   * Whatever happens, the backdrop never becomes more opaque than the
   * configured fade opacity (for a non-negative fade opacity).
   */
  lemma {:induction false} OpacityNeverExceedsFade(s: Setup, events: seq<Event>)
    requires 0.0 <= s.props.fadeOpacity
    ensures Run(s, Initial(s), events).state.sideMenuOverlayOpacity.value <= s.props.fadeOpacity
  {
    RunKeepsOpacityWithinFade(s, Initial(s), events);
  }

  lemma {:induction false} RunKeepsOpacityWithinFade(s: Setup, st: DrawerState, events: seq<Event>)
    requires 0.0 <= s.props.fadeOpacity && OpacityWithinFade(s, st)
    ensures OpacityWithinFade(s, Run(s, st, events))
    decreases |events|
  {
    if events != [] {
      StepKeepsOpacityWithinFade(s, st, events[0]);
      RunKeepsOpacityWithinFade(s, Step(s, st, events[0]), events[1..]);
    }
  }

  /** 1 when the panel's running animation is a close animation whose completion is pending. */
  function PendingDismissal(st: DrawerState): nat
  {
    var r := st.state.sideMenuOpenValue.running;
    if r.Some? && r.value.dismissOnEnd then 1 else 0
  }

  /** Every dismissal request, made or pending, is accounted for by a close animation. */
  ghost predicate DismissalsAccounted(st: DrawerState)
  {
    st.overlayDismissals + PendingDismissal(st) <= st.closeAnimationsStarted
  }

  lemma StepKeepsDismissalsAccounted(s: Setup, st: DrawerState, e: Event)
    requires DismissalsAccounted(st)
    ensures DismissalsAccounted(Step(s, st, e))
  {
  }

  lemma {:induction false} RunKeepsDismissalsAccounted(s: Setup, st: DrawerState, events: seq<Event>)
    requires DismissalsAccounted(st)
    ensures DismissalsAccounted(Run(s, st, events))
    decreases |events|
  {
    if events != [] {
      StepKeepsDismissalsAccounted(s, st, events[0]);
      RunKeepsDismissalsAccounted(s, Step(s, st, events[0]), events[1..]);
    }
  }

  /**
   * The host is never asked to dismiss the overlay more often than a close
   * animation was started: each close completion fires at most once.
   */
  lemma {:induction false} DismissalsNeverExceedCloseAnimations(s: Setup, events: seq<Event>)
    ensures Run(s, Initial(s), events).overlayDismissals <= Run(s, Initial(s), events).closeAnimationsStarted
  {
    RunKeepsDismissalsAccounted(s, Initial(s), events);
  }

  /**
   * The dismissing flag absorbs a DISMISS_DRAWER that follows a SWIPE_END
   * dismissal, but DISMISS_DRAWER never sets it: two of them in a row start
   * two close animations, and a backdrop tap is not guarded at all.
   */
  lemma DismissGuards(s: Setup, st: DrawerState, swipe: Direction)
    requires !st.state.sideMenuIsDismissing
    requires !s.props.disableSwiping && swipe != Reverse(s.props.direction)
    ensures var ended := SwipeEnded(s, st, swipe);
      && ended.closeAnimationsStarted == st.closeAnimationsStarted + 1
      && DismissRequested(s, ended) == ended
    ensures DismissRequested(s, DismissRequested(s, st)).closeAnimationsStarted == st.closeAnimationsStarted + 2
    ensures s.props.dismissWhenTouchOutside ==>
      TouchedOutside(s, SwipeEnded(s, st, swipe)).closeAnimationsStarted == st.closeAnimationsStarted + 2
  {
  }

  /**
   * A top or bottom drawer is never reopened by a gesture end: both
   * responders only ever publish 'left' or 'right', so every SWIPE_END that
   * passes the guard dismisses.
   */
  lemma {:induction false} VerticalDrawerSwipeEndDismisses(s: Setup, st: DrawerState, vx: real)
    requires s.props.direction == Top || s.props.direction == Bottom
    requires !(s.props.disableSwiping && !st.startedFromSideMenu)
    ensures SwipeEnded(s, st, SwipeEndFor(vx).direction).state.sideMenuIsDismissing
  {
    var m := SwipeEndFor(vx);
    assert m.direction == Left || m.direction == Right;
    assert m.direction != Reverse(s.props.direction);
  }

  /**
   * SWIPE_MOVE messages from the edge detector carry a bare number, so they
   * never move the drawer or change its backdrop.
   */
  lemma DetectorMovesAreIgnored(s: Setup, st: DrawerState, x: real, swipe: Direction)
    ensures SwipeMoved(s, st, BareNumber(x), swipe) == st
  {
  }

  /** On mount the edge flag is set exactly when animating open is switched off. */
  lemma MountSetsEdgeFlag(s: Setup)
    ensures Mounted(s, Initial(s)).startedFromSideMenu <==> !s.props.animateDrawerExpanding
  {
  }

  /**
   * Two DISMISS_DRAWER messages start two close animations; the second
   * replaces the first, so when the close animation ends the host is asked
   * once and two close animations are counted.
   */
  lemma {:induction false} TwoDismissRequestsOneHostDismissal(s: Setup, st: DrawerState)
    requires !st.state.sideMenuIsDismissing
    ensures var end := Run(s, st, [Bus(DismissDrawer), Bus(DismissDrawer), OpenValueAnimationEnd, OpenValueAnimationEnd]);
      && end.closeAnimationsStarted == st.closeAnimationsStarted + 2
      && end.overlayDismissals == st.overlayDismissals + 1
  {
    var events := [Bus(DismissDrawer), Bus(DismissDrawer), OpenValueAnimationEnd, OpenValueAnimationEnd];
    var st1 := Step(s, st, events[0]);
    var st2 := Step(s, st1, events[1]);
    assert st2.state.sideMenuOpenValue.running == Some(CloseDrawerTiming(s));
    var st3 := Step(s, st2, events[2]);
    var st4 := Step(s, st3, events[3]);
    assert Run(s, st4, []) == st4;
    assert Run(s, st3, events[3..]) == st4;
    assert Run(s, st2, events[2..]) == st4;
    assert Run(s, st1, events[1..]) == st4;
  }

  /**
   * Show, tap the backdrop, let the close animation finish: the panel ends at
   * its closed offset, the backdrop at 0, and the host is asked exactly once
   * to dismiss the overlay.
   */
  lemma {:induction false} ShowThenTapOutside(s: Setup)
    requires s.props.animateDrawerExpanding && s.props.dismissWhenTouchOutside
    ensures var st := Run(s, Initial(s), [Mount, Appear, OpenValueAnimationEnd, OverlayOpacityAnimationEnd,
                                          TouchOutside, OpenValueAnimationEnd, OverlayOpacityAnimationEnd]);
      && st.state.sideMenuOpenValue == SetValue(CloseValue(s.props.direction, s.geometry))
      && st.state.sideMenuOverlayOpacity == SetValue(0.0)
      && st.overlayDismissals == 1
      && !st.state.sideMenuIsDismissing
  {
    var events := [Mount, Appear, OpenValueAnimationEnd, OverlayOpacityAnimationEnd,
                   TouchOutside, OpenValueAnimationEnd, OverlayOpacityAnimationEnd];
    var st0 := Initial(s);
    var st1 := Step(s, st0, Mount);
    var st2 := Step(s, st1, Appear);
    var st3 := Step(s, st2, OpenValueAnimationEnd);
    assert st3.state.sideMenuOpenValue == SetValue(OpenedValue(s.props.direction, s.geometry));
    var st4 := Step(s, st3, OverlayOpacityAnimationEnd);
    var st5 := Step(s, st4, TouchOutside);
    var st6 := Step(s, st5, OpenValueAnimationEnd);
    var st7 := Step(s, st6, OverlayOpacityAnimationEnd);
    assert Run(s, st7, []) == st7;
    assert Run(s, st6, events[6..]) == st7;
    assert Run(s, st5, events[5..]) == st7;
    assert Run(s, st4, events[4..]) == st7;
    assert Run(s, st3, events[3..]) == st7;
    assert Run(s, st2, events[2..]) == st7;
    assert Run(s, st1, events[1..]) == st7;
  }
}

