/**
 * The edge-swipe detector (`SideMenuView`): two invisible strips along the
 * left and right edges. Touching a strip publishes SWIPE_START, every move
 * publishes SWIPE_MOVE, lifting the finger publishes SWIPE_END; and a fast
 * enough move calls that edge's callback once, latching until the bus
 * delivers DRAWER_CLOSED.
 */
module SideMenu {
  import opened Common
  import opened Messages
  import Events

  /** Which edge strip a gesture is on. */
  datatype Side = LeftEdge | RightEdge

  /**
   * The props the detector reads. `hasLeft`/`hasRight` say whether the
   * `left`/`right` callbacks were supplied; absent numbers are None.
   */
  datatype Props = Props(
    swipeSensitivity: Option<real>,
    hasLeft: bool,
    hasRight: bool,
    sideMargin: Option<real>,
    sideMarginLeft: Option<real>,
    sideMarginRight: Option<real>)

  const DefaultSideMargin: real := 15.0
  const DefaultSwipeSensitivity: real := 0.2

  /** React's `defaultProps`: an absent sideMargin or swipeSensitivity takes its default. */
  function WithDefaults(p: Props): (q: Props)
    ensures q.swipeSensitivity == Some(if p.swipeSensitivity.Some? then p.swipeSensitivity.value else DefaultSwipeSensitivity)
    ensures q.sideMargin == Some(if p.sideMargin.Some? then p.sideMargin.value else DefaultSideMargin)
    ensures q.hasLeft == p.hasLeft && q.hasRight == p.hasRight
    ensures q.sideMarginLeft == p.sideMarginLeft && q.sideMarginRight == p.sideMarginRight
  {
    p.(swipeSensitivity := Some(match p.swipeSensitivity case Some(s) => s case None => DefaultSwipeSensitivity),
       sideMargin := Some(match p.sideMargin case Some(m) => m case None => DefaultSideMargin))
  }

  /** The direction string a strip sends with its SWIPE_MOVE. */
  function DirectionOf(side: Side): Direction
  {
    match side
    case LeftEdge => Left
    case RightEdge => Right
  }

  /** An edge strip: rendered or not, and its width (None when no width is set). */
  datatype Strip = NoStrip | Strip(width: Option<real>)

  /** `sideMargin || sideMarginLeft` (resp. Right): a zero or absent sideMargin defers to the per-side margin. */
  function EdgeStrip(p: Props, side: Side): (s: Strip)
    ensures s.Strip? <==> (if side == LeftEdge then p.hasLeft else p.hasRight)
    ensures s.Strip? && p.sideMargin.Some? && p.sideMargin.value != 0.0 ==> s.width == p.sideMargin
    ensures s.Strip? && !(p.sideMargin.Some? && p.sideMargin.value != 0.0) ==>
      s.width == (if side == LeftEdge then p.sideMarginLeft else p.sideMarginRight)
  {
    var supplied := match side case LeftEdge => p.hasLeft case RightEdge => p.hasRight;
    var perSide := match side case LeftEdge => p.sideMarginLeft case RightEdge => p.sideMarginRight;
    if !supplied then NoStrip
    else if p.sideMargin.Some? && p.sideMargin.value != 0.0 then Strip(p.sideMargin)
    else Strip(perSide)
  }

  /** With the defaults and no margins given, each supplied edge gets a 15-point strip. */
  lemma DefaultStripIsFifteen(p: Props, side: Side)
    requires p.sideMargin.None?
    requires if side == LeftEdge then p.hasLeft else p.hasRight
    ensures EdgeStrip(WithDefaults(p), side) == Strip(Some(15.0))
  {
  }

  /**
   * Whether a move with horizontal velocity `vx` calls the strip's callback:
   * the sensitivity is set, the latch is open, the callback is supplied, and
   * vx exceeds the sensitivity (left) or its negation (right).
   */
  predicate Fires(p: Props, side: Side, isOpened: bool, vx: real)
  {
    && p.swipeSensitivity.Some?
    && !isOpened
    && match side
       case LeftEdge => vx > p.swipeSensitivity.value && p.hasLeft
       case RightEdge => vx > -p.swipeSensitivity.value && p.hasRight
  }

  /** What reaches the detector: a gesture on a strip or a DRAWER_CLOSED from the bus. */
  datatype Input =
    | Grant
    | Move(side: Side, moveX: real, vx: real)
    | Release(vx: real)
    | DrawerClosedReceived

  /** The detector's response to one input: what it publishes, which callback it calls, its new latch. */
  datatype Reaction = Reaction(published: Option<Message>, called: Option<Side>, isOpened: bool)

  function React(p: Props, isOpened: bool, input: Input): (r: Reaction)
    ensures input.Grant? ==> r == Reaction(Some(SwipeStart(None)), None, isOpened)
    ensures input.Release? ==> r == Reaction(Some(SwipeEndFor(input.vx)), None, isOpened)
    ensures input.DrawerClosedReceived? ==> r == Reaction(None, None, false)
    ensures input.Move? ==>
      && r.published == Some(SwipeMove(BareNumber(input.moveX), DirectionOf(input.side)))
      && (r.called.Some? <==> Fires(p, input.side, isOpened, input.vx))
      && (r.called.Some? ==> r.called.value == input.side)
      && r.isOpened == (isOpened || Fires(p, input.side, isOpened, input.vx))
  {
    match input
    case Grant => Reaction(Some(SwipeStart(None)), None, isOpened)
    case Release(vx) => Reaction(Some(SwipeEndFor(vx)), None, isOpened)
    case DrawerClosedReceived => Reaction(None, None, false)
    case Move(side, moveX, vx) =>
      var published := Some(SwipeMove(BareNumber(moveX), DirectionOf(side)));
      if Fires(p, side, isOpened, vx) then Reaction(published, Some(side), true)
      else Reaction(published, None, isOpened)
  }

  /** The callbacks called along a sequence of inputs, in order. */
  function Callbacks(p: Props, isOpened: bool, inputs: seq<Input>): seq<Side>
    decreases |inputs|
  {
    if inputs == [] then []
    else
      var r := React(p, isOpened, inputs[0]);
      (match r.called case Some(side) => [side] case None => []) + Callbacks(p, r.isOpened, inputs[1..])
  }

  /** The latch after a sequence of inputs. */
  function LatchAfter(p: Props, isOpened: bool, inputs: seq<Input>): bool
    decreases |inputs|
  {
    if inputs == [] then isOpened else LatchAfter(p, React(p, isOpened, inputs[0]).isOpened, inputs[1..])
  }

  predicate NoDrawerClosed(inputs: seq<Input>)
  {
    forall i :: 0 <= i < |inputs| ==> !inputs[i].DrawerClosedReceived?
  }

  /**
   * Between two DRAWER_CLOSED deliveries the detector calls at most one
   * callback, and none at all once the latch is set; the latch, once set,
   * stays set.
   */
  lemma {:induction false} AtMostOneCallbackPerOpening(p: Props, isOpened: bool, inputs: seq<Input>)
    requires NoDrawerClosed(inputs)
    ensures |Callbacks(p, isOpened, inputs)| <= (if isOpened then 0 else 1)
    ensures isOpened ==> LatchAfter(p, isOpened, inputs)
    ensures Callbacks(p, isOpened, inputs) != [] ==> LatchAfter(p, isOpened, inputs)
    decreases |inputs|
  {
    if inputs != [] {
      var r := React(p, isOpened, inputs[0]);
      assert NoDrawerClosed(inputs[1..]) by {
        forall i | 0 <= i < |inputs[1..]| ensures !inputs[1..][i].DrawerClosedReceived? {
          assert inputs[1..][i] == inputs[i + 1];
        }
      }
      AtMostOneCallbackPerOpening(p, r.isOpened, inputs[1..]);
    }
  }

  /** A DRAWER_CLOSED re-arms the detector: the next qualifying move calls its callback again. */
  lemma DrawerClosedRearms(p: Props, isOpened: bool, side: Side, moveX: real, vx: real)
    requires Fires(p, side, false, vx)
    ensures Callbacks(p, isOpened, [DrawerClosedReceived, Move(side, moveX, vx)]) == [side]
  {
    var inputs := [DrawerClosedReceived, Move(side, moveX, vx)];
    var rest := inputs[1..];
    assert rest == [Move(side, moveX, vx)];
    assert rest[1..] == [];
    assert React(p, isOpened, inputs[0]) == Reaction(None, None, false);
    assert React(p, false, rest[0]).called == Some(side);
    assert Callbacks(p, true, rest[1..]) == [];
    assert Callbacks(p, false, rest) == [side] + Callbacks(p, true, rest[1..]);
  }

  /** The detector component: the latch and its DRAWER_CLOSED subscription. */
  class SideMenuView {
    const props: Props
    var isOpened: bool
    var unsubscribeDrawerClosed: Option<Events.Subscription>

    /** The props are read once, here, with their defaults applied. */
    constructor (p: Props)
      ensures props == WithDefaults(p)
      ensures !isOpened && unsubscribeDrawerClosed.None?
    {
      props := WithDefaults(p);
      isOpened := false;
      unsubscribeDrawerClosed := None;
    }

    /** `componentDidMount` / `registerListeners`: subscribe to DRAWER_CLOSED. */
    method ComponentDidMount(bus: Events.Bus<Listener>)
      requires bus.Valid()
      modifies this, bus
      ensures bus.Valid()
      ensures bus.events == Events.Listened(old(bus.events), DrawerClosedTopic, SideMenuOnDrawerClosed)
      ensures unsubscribeDrawerClosed == Some(Events.Subscription(DrawerClosedTopic, Events.NextKey(old(bus.events), DrawerClosedTopic)))
      ensures isOpened == old(isOpened)
    {
      var sub := bus.Listen(DrawerClosedTopic, SideMenuOnDrawerClosed);
      unsubscribeDrawerClosed := Some(sub);
    }

    /** `removeListeners`: call the stored handle (there must be one; otherwise the call throws). */
    method RemoveListeners(bus: Events.Bus<Listener>)
      requires bus.Valid()
      requires unsubscribeDrawerClosed.Some? && unsubscribeDrawerClosed.value.name in bus.events
      modifies bus
      ensures bus.Valid()
      ensures bus.events == Events.Unsubscribed(old(bus.events), unsubscribeDrawerClosed.value)
    {
      bus.Unsubscribe(unsubscribeDrawerClosed.value);
    }

    /** `onPanResponderGrant`: publishes SWIPE_START with no payload. */
    method OnPanResponderGrant() returns (published: Message)
      ensures published == SwipeStart(None)
      ensures React(props, isOpened, Grant) == Reaction(Some(published), None, isOpened)
    {
      published := SwipeStart(None);
    }

    /** `onPanResponderRelease`: publishes SWIPE_END towards the sign of vx. */
    method OnPanResponderRelease(vx: real) returns (published: Message)
      ensures published.SwipeEnd? && (published.direction == Right <==> vx > 0.0)
      ensures React(props, isOpened, Release(vx)) == Reaction(Some(published), None, isOpened)
    {
      published := SwipeEndFor(vx);
    }

    /** The left strip's `onPanResponderMove`: publish, then maybe latch and call `left`. */
    method OnLeftMove(moveX: real, vx: real) returns (published: Message, called: bool)
      modifies this
      ensures var r := React(props, old(isOpened), Move(LeftEdge, moveX, vx));
        && Some(published) == r.published
        && (called <==> r.called.Some?)
        && isOpened == r.isOpened
      ensures unsubscribeDrawerClosed == old(unsubscribeDrawerClosed)
    {
      published := SwipeMove(BareNumber(moveX), Left);
      called := false;
      if props.swipeSensitivity.Some? {
        if vx > props.swipeSensitivity.value && !isOpened && props.hasLeft {
          isOpened := true;
          called := true;
        }
      }
    }

    /** The right strip's `onPanResponderMove`: publish, then maybe latch and call `right`. */
    method OnRightMove(moveX: real, vx: real) returns (published: Message, called: bool)
      modifies this
      ensures var r := React(props, old(isOpened), Move(RightEdge, moveX, vx));
        && Some(published) == r.published
        && (called <==> r.called.Some?)
        && isOpened == r.isOpened
      ensures unsubscribeDrawerClosed == old(unsubscribeDrawerClosed)
    {
      published := SwipeMove(BareNumber(moveX), Right);
      called := false;
      if props.swipeSensitivity.Some? {
        if vx > -props.swipeSensitivity.value && !isOpened && props.hasRight {
          isOpened := true;
          called := true;
        }
      }
    }

    /** The DRAWER_CLOSED listener: re-open the latch. */
    method OnDrawerClosed()
      modifies this
      ensures !isOpened
      ensures unsubscribeDrawerClosed == old(unsubscribeDrawerClosed)
    {
      isOpened := false;
    }
  }
}
