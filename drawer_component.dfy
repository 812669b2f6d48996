/** The drawer component as an object: the handlers the source defines, over its fields. */
module DrawerComponent {
  import opened Common
  import opened Messages
  import opened DrawerGeometry
  import opened Drawer
  import Events

  /** The registry after `registerListeners`: SWIPE_START, SWIPE_MOVE, SWIPE_END, DISMISS_DRAWER. */
  function Registered(r: Events.Registry<Listener>): Events.Registry<Listener>
  {
    var r1 := Events.Listened(r, SwipeStartTopic, DrawerOnSwipeStart);
    var r2 := Events.Listened(r1, SwipeMoveTopic, DrawerOnSwipeMove);
    var r3 := Events.Listened(r2, SwipeEndTopic, DrawerOnSwipeEnd);
    Events.Listened(r3, DismissDrawerTopic, DrawerOnDismissDrawer)
  }

  /** The unsubscribe handles `registerListeners` stores, in field order. */
  function RegisteredHandles(r: Events.Registry<Listener>): seq<Option<Events.Subscription>>
  {
    [Some(Events.Subscription(SwipeStartTopic, Events.NextKey(r, SwipeStartTopic))),
     Some(Events.Subscription(SwipeMoveTopic, Events.NextKey(r, SwipeMoveTopic))),
     Some(Events.Subscription(SwipeEndTopic, Events.NextKey(r, SwipeEndTopic))),
     Some(Events.Subscription(DismissDrawerTopic, Events.NextKey(r, DismissDrawerTopic)))]
  }

  class WrappedDrawer {
    const props: Props
    const geometry: Geometry
    var state: ComponentState
    var panningStartedPoint: Point
    var startedFromSideMenu: bool
    var closeAnimationsStarted: nat
    var overlayDismissals: nat
    var unsubscribeSwipeStart: Option<Events.Subscription>
    var unsubscribeSwipeMove: Option<Events.Subscription>
    var unsubscribeSwipeEnd: Option<Events.Subscription>
    var unsubscribeDismissDrawer: Option<Events.Subscription>

    function Config(): Setup
    {
      Setup(props, geometry)
    }

    function Current(): DrawerState
      reads this
    {
      DrawerState(state, panningStartedPoint, startedFromSideMenu, closeAnimationsStarted, overlayDismissals)
    }

    function Unsubscribers(): seq<Option<Events.Subscription>>
      reads this
    {
      [unsubscribeSwipeStart, unsubscribeSwipeMove, unsubscribeSwipeEnd, unsubscribeDismissDrawer]
    }

    /** Every stored handle names a topic of `bus`. */
    ghost predicate SubscribedOn(bus: Events.Bus<Listener>)
      reads this, bus
    {
      forall i :: 0 <= i < |Unsubscribers()| && Unsubscribers()[i].Some? ==> Unsubscribers()[i].value.name in bus.events
    }

    /** Captures the window, resolves the panel size and places the panel at its initial offset. */
    constructor (props: Props, windowWidth: real, windowHeight: real, parse: string -> Option<real>)
      ensures Config() == SetupFor(props, windowWidth, windowHeight, parse)
      ensures Current() == Initial(Config())
      ensures Unsubscribers() == [None, None, None, None]
    {
      this.props := props;
      var g := Measure(props.drawerScreenWidth, props.drawerScreenHeight, windowWidth, windowHeight, parse);
      geometry := g;
      state := ComponentState(SetValue(InitialValue(props.direction, g)), SetValue(0.0), false, false, windowHeight);
      panningStartedPoint := Point(0.0, 0.0);
      startedFromSideMenu := false;
      closeAnimationsStarted, overlayDismissals := 0, 0;
      unsubscribeSwipeStart, unsubscribeSwipeMove := None, None;
      unsubscribeSwipeEnd, unsubscribeDismissDrawer := None, None;
    }

    method ComponentDidMount()
      modifies this
      ensures Current() == Mounted(Config(), old(Current()))
      ensures Unsubscribers() == old(Unsubscribers())
    {
      if !props.animateDrawerExpanding {
        startedFromSideMenu := true;
      }
    }

    /** `animatedDrawer.start(); animatedOpacity.start()`. */
    method StartOpenAnimations()
      modifies this
      ensures Current() == OpenAnimationsStarted(Config(), old(Current()))
      ensures Unsubscribers() == old(Unsubscribers())
    {
      state := state.(sideMenuOpenValue := Started(state.sideMenuOpenValue, OpenDrawerTiming(Config())));
      state := state.(sideMenuOverlayOpacity := Started(state.sideMenuOverlayOpacity, OpenOpacityTiming(Config())));
    }

    /** Subscribes the four listeners and keeps their unsubscribe handles. */
    method RegisterListeners(bus: Events.Bus<Listener>)
      requires bus.Valid()
      modifies this, bus
      ensures bus.Valid() && bus.events == Registered(old(bus.events))
      ensures Unsubscribers() == RegisteredHandles(old(bus.events))
      ensures SubscribedOn(bus)
      ensures Current() == old(Current())
    {
      var sub := bus.Listen(SwipeStartTopic, DrawerOnSwipeStart);
      unsubscribeSwipeStart := Some(sub);
      sub := bus.Listen(SwipeMoveTopic, DrawerOnSwipeMove);
      unsubscribeSwipeMove := Some(sub);
      sub := bus.Listen(SwipeEndTopic, DrawerOnSwipeEnd);
      unsubscribeSwipeEnd := Some(sub);
      sub := bus.Listen(DismissDrawerTopic, DrawerOnDismissDrawer);
      unsubscribeDismissDrawer := Some(sub);
    }

    method ComponentDidAppear(bus: Events.Bus<Listener>)
      requires bus.Valid()
      modifies this, bus
      ensures bus.Valid() && bus.events == Registered(old(bus.events))
      ensures Unsubscribers() == RegisteredHandles(old(bus.events))
      ensures SubscribedOn(bus)
      ensures Current() == Appeared(Config(), old(Current()))
    {
      RegisterListeners(bus);
      if !state.sideMenuSwipingStarted && props.animateDrawerExpanding {
        StartOpenAnimations();
      }
    }

    /** Calls each stored unsubscribe handle that is set. */
    method RemoveListeners(bus: Events.Bus<Listener>)
      requires bus.Valid() && SubscribedOn(bus)
      modifies bus
      ensures bus.Valid() && bus.events == Events.UnsubscribedAll(old(bus.events), Unsubscribers())
    {
      ghost var handles := Unsubscribers();
      assert handles == [unsubscribeSwipeStart, unsubscribeSwipeMove, unsubscribeSwipeEnd, unsubscribeDismissDrawer];
      assert forall i :: 0 <= i < 4 && handles[i].Some? ==> handles[i].value.name in bus.events;
      Events.UnsubscribedAllFour(bus.events, unsubscribeSwipeStart, unsubscribeSwipeMove,
                                 unsubscribeSwipeEnd, unsubscribeDismissDrawer);
      if unsubscribeSwipeStart.Some? { bus.Unsubscribe(unsubscribeSwipeStart.value); }
      if unsubscribeSwipeMove.Some? { bus.Unsubscribe(unsubscribeSwipeMove.value); }
      if unsubscribeSwipeEnd.Some? { bus.Unsubscribe(unsubscribeSwipeEnd.value); }
      if unsubscribeDismissDrawer.Some? { bus.Unsubscribe(unsubscribeDismissDrawer.value); }
    }

    /** Unsubscribes and publishes DRAWER_CLOSED so that edge detectors reset their latch. */
    method ComponentDidDisappear(bus: Events.Bus<Listener>) returns (published: Message)
      requires bus.Valid() && SubscribedOn(bus)
      modifies bus
      ensures bus.Valid() && bus.events == Events.UnsubscribedAll(old(bus.events), Unsubscribers())
      ensures published == DrawerClosed
    {
      RemoveListeners(bus);
      published := DrawerClosed;
    }

    method OnOrientationChange(windowWidth: real, windowHeight: real)
      modifies this
      ensures Current() == OrientationChanged(Config(), old(Current()), windowWidth, windowHeight)
      ensures Unsubscribers() == old(Unsubscribers())
    {
      state := state.(screenHeight := windowHeight);
      if props.direction == Right {
        var alignedMovementValue := windowWidth - geometry.drawerWidth;
        state := state.(sideMenuOpenValue := SetValue(alignedMovementValue));
      }
    }

    method OnSwipeStart(start: Option<Point>)
      modifies this
      ensures Current() == SwipeStarted(old(Current()), start)
      ensures Unsubscribers() == old(Unsubscribers())
    {
      if start.None? {
        return;  // `value.moveX` of undefined throws here
      }
      panningStartedPoint := start.value;
      state := state.(sideMenuSwipingStarted := true);
    }

    method OnSwipeMove(value: MoveValue, swipeDirection: Direction)
      modifies this
      ensures Current() == SwipeMoved(Config(), old(Current()), value, swipeDirection)
      ensures Unsubscribers() == old(Unsubscribers())
    {
      var direction, fadeOpacity := props.direction, props.fadeOpacity;
      if startedFromSideMenu {
        if value.PointValue? {
          var moveX := value.point.moveX;
          if direction == Left && moveX < geometry.drawerWidth {
            state := state.(sideMenuOpenValue := SetValue(moveX - geometry.drawerWidth));
            var normalizedOpacity := CappedOpacity(Ratio(moveX, geometry.drawerWidth), fadeOpacity);
            state := state.(sideMenuOverlayOpacity := SetValue(normalizedOpacity));
          }
          if direction == Right && geometry.screenWidth - moveX < geometry.drawerWidth {
            state := state.(sideMenuOpenValue := SetValue(moveX));
            var normalizedOpacity := CappedOpacity(Ratio(geometry.screenWidth - moveX, geometry.drawerWidth), fadeOpacity);
            state := state.(sideMenuOverlayOpacity := SetValue(normalizedOpacity));
          }
        }
        return;
      }
      if props.disableDragging {
        return;
      }
      if value.BareNumber? {
        return;  // no `moveX`/`moveY`: the displacement is NaN and `0 > NaN` is false
      }
      var p := value.point;
      var alignedMovementValue := 0.0;
      var directionModifier := 1.0;
      var drawerDimension := geometry.drawerWidth;
      if swipeDirection == Left {
        alignedMovementValue := p.moveX - panningStartedPoint.moveX;
      } else if swipeDirection == Right {
        alignedMovementValue := panningStartedPoint.moveX - p.moveX;
        directionModifier := -1.0;
      } else if swipeDirection == Bottom {
        alignedMovementValue := panningStartedPoint.moveY - p.moveY;
        directionModifier := -1.0;
        drawerDimension := geometry.drawerHeight;
      } else if swipeDirection == Top {
        alignedMovementValue := p.moveY - panningStartedPoint.moveY;
        drawerDimension := geometry.drawerHeight;
      }
      var openedPercentage := Ratio(Abs(drawerDimension + alignedMovementValue), drawerDimension);
      var normalizedOpacity := CappedOpacity(openedPercentage, fadeOpacity);
      if 0.0 > alignedMovementValue {
        state := state.(sideMenuOpenValue := SetValue(OpenedValue(direction, geometry) + alignedMovementValue * directionModifier));
        state := state.(sideMenuOverlayOpacity := SetValue(normalizedOpacity));
      }
    }

    method DismissDrawerWithAnimation()
      modifies this
      ensures Current() == DismissedWithAnimation(Config(), old(Current()))
      ensures Unsubscribers() == old(Unsubscribers())
    {
      state := state.(sideMenuOpenValue := Started(state.sideMenuOpenValue, CloseDrawerTiming(Config())));
      state := state.(sideMenuOverlayOpacity := Started(state.sideMenuOverlayOpacity, CloseOpacityTiming(Config())));
      closeAnimationsStarted := closeAnimationsStarted + 1;
    }

    method OnSwipeEnd(swipeDirection: Direction)
      modifies this
      ensures Current() == SwipeEnded(Config(), old(Current()), swipeDirection)
      ensures Unsubscribers() == old(Unsubscribers())
    {
      if props.disableSwiping && !startedFromSideMenu {
        return;
      }
      startedFromSideMenu := false;
      if swipeDirection == Reverse(props.direction) {
        StartOpenAnimations();
      } else if !state.sideMenuIsDismissing {
        state := state.(sideMenuIsDismissing := true);
        DismissDrawerWithAnimation();
      }
    }

    method OnDismissDrawer()
      modifies this
      ensures Current() == DismissRequested(Config(), old(Current()))
      ensures Unsubscribers() == old(Unsubscribers())
    {
      if !state.sideMenuIsDismissing {
        DismissDrawerWithAnimation();
      }
    }

    method TouchedOutside()
      modifies this
      ensures Current() == Drawer.TouchedOutside(Config(), old(Current()))
      ensures Unsubscribers() == old(Unsubscribers())
    {
      if props.dismissWhenTouchOutside {
        DismissDrawerWithAnimation();
      }
    }

    /** The completion step of the panel's running animation. */
    method OnOpenValueAnimationEnd()
      modifies this
      ensures Current() == OpenValueAnimationEnded(old(Current()))
      ensures Unsubscribers() == old(Unsubscribers())
    {
      if state.sideMenuOpenValue.running.Some? {
        var t := state.sideMenuOpenValue.running.value;
        state := state.(sideMenuOpenValue := SetValue(t.toValue));
        if t.dismissOnEnd {
          overlayDismissals := overlayDismissals + 1;  // Navigation.dismissOverlay(componentId)
          state := state.(sideMenuIsDismissing := false);
        }
      }
    }

    /** The completion step of the backdrop's running animation. */
    method OnOverlayOpacityAnimationEnd()
      modifies this
      ensures Current() == OverlayOpacityAnimationEnded(old(Current()))
      ensures Unsubscribers() == old(Unsubscribers())
    {
      if state.sideMenuOverlayOpacity.running.Some? {
        state := state.(sideMenuOverlayOpacity := SetValue(state.sideMenuOverlayOpacity.running.value.toValue));
      }
    }

    /** Runs the listener this drawer registered for the message's topic. */
    method Deliver(m: Message)
      modifies this
      ensures Current() == Delivered(Config(), old(Current()), m)
      ensures Unsubscribers() == old(Unsubscribers())
    {
      match m
      case SwipeStart(start) => OnSwipeStart(start);
      case SwipeMove(value, swipe) => OnSwipeMove(value, swipe);
      case SwipeEnd(swipe) => OnSwipeEnd(swipe);
      case DismissDrawer => OnDismissDrawer();
      case DrawerClosed =>
    }

    /** The drawer's own responder claims a move past 5 points along its axis. */
    method OnMoveShouldSetPanResponder(dx: real, dy: real) returns (capture: bool)
      ensures capture == ShouldCapture(props.direction, dx, dy)
      ensures IsHorizontal(props.direction) ==> (capture <==> Abs(dx) > 5.0)
      ensures !IsHorizontal(props.direction) ==> (capture <==> Abs(dy) > 5.0)
    {
      if props.direction == Left || props.direction == Right {
        capture := Abs(dx) > 5.0;
      } else {
        capture := Abs(dy) > 5.0;
      }
    }

    /** The drawer's own responder starts a gesture: SWIPE_START with the start point. */
    method OnPanResponderGrant(moveX: real, moveY: real) returns (published: Message)
      ensures published == OwnGrantMessage(moveX, moveY)
    {
      published := SwipeStart(Some(Point(moveX, moveY)));
    }

    /** The drawer's own responder moves: SWIPE_MOVE with the point and the drawer's direction. */
    method OnPanResponderMove(moveX: real, moveY: real) returns (published: Message)
      ensures published == OwnMoveMessage(props.direction, moveX, moveY)
    {
      published := SwipeMove(PointValue(Point(moveX, moveY)), props.direction);
    }

    /** The drawer's own responder ends a gesture: SWIPE_END towards the sign of vx. */
    method OnPanResponderRelease(vx: real) returns (published: Message)
      ensures published == SwipeEndFor(vx)
      ensures published.SwipeEnd? && (published.direction == Right <==> vx > 0.0)
    {
      published := SwipeEndFor(vx);
    }
  }

  /**
   * A drag on the drawer itself follows the finger, because its responder
   * publishes points: the start message records the start point, and a move
   * message then changes nothing while the finger has not moved toward the
   * drawer's edge, and otherwise sets the panel to the opened offset moved by
   * the displacement, past the opened offset.
   */
  lemma {:induction false} OwnDragFollowsFinger(s: Setup, st: DrawerState, x0: real, y0: real, x: real, y: real)
    requires !s.props.disableDragging && !st.startedFromSideMenu
    ensures var started := Delivered(s, st, OwnGrantMessage(x0, y0));
      var moved := Delivered(s, started, OwnMoveMessage(s.props.direction, x, y));
      var aligned := Aligned(s.props.direction, Point(x0, y0), Point(x, y));
      && started.panningStartedPoint == Point(x0, y0)
      && started.state.sideMenuSwipingStarted
      && (aligned >= 0.0 ==> moved == started)
      && (aligned < 0.0 ==>
            && moved.state.sideMenuOpenValue == SetValue(OpenedValue(s.props.direction, s.geometry)
                                                         + aligned * Modifier(s.props.direction))
            && PastOpened(s.props.direction, s.geometry, moved.state.sideMenuOpenValue.value))
  {
    var start, p := Point(x0, y0), Point(x, y);
    var started := Delivered(s, st, OwnGrantMessage(x0, y0));
    assert started.panningStartedPoint == start && !started.startedFromSideMenu;
    var w := NormalDrag(s.props.direction, s.props.direction, s.geometry, s.props.fadeOpacity, start, PointValue(p));
    assert DragWrite(s, started, PointValue(p), s.props.direction) == w;
    if w.Some? {
      assert Written(started, w).state.sideMenuOpenValue == SetValue(w.value.offset);
    }
  }
}
