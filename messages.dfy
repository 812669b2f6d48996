/**
 * The vocabulary shared by the drawer and the edge-swipe detector: the four
 * directions, the gesture points, the messages both publish on the event bus
 * and the callbacks they register there.
 */
module Messages {
  import opened Common

  /** Which screen edge a drawer comes from, or which way a swipe went. */
  datatype Direction = Left | Right | Top | Bottom

  /** A gesture position as the gesture recognizer reports it. */
  datatype Point = Point(moveX: real, moveY: real)

  /**
   * The `value` field of a SWIPE_MOVE payload. The two emitters disagree: the
   * edge detector sends the bare horizontal position, the drawer's own
   * responder sends a `{moveX, moveY}` object.
   */
  datatype MoveValue = BareNumber(x: real) | PointValue(point: Point)

  /** A message published on the bus; its payload is the bus argument. */
  datatype Message =
    | SwipeStart(start: Option<Point>)
    | SwipeMove(value: MoveValue, direction: Direction)
    | SwipeEnd(direction: Direction)
    | DismissDrawer
    | DrawerClosed

  const SwipeStartTopic: string := "SWIPE_START"
  const SwipeMoveTopic: string := "SWIPE_MOVE"
  const SwipeEndTopic: string := "SWIPE_END"
  const DismissDrawerTopic: string := "DISMISS_DRAWER"
  const DrawerClosedTopic: string := "DRAWER_CLOSED"

  /** The bus topic a message is dispatched under. */
  function Topic(m: Message): string
  {
    match m
    case SwipeStart(_) => SwipeStartTopic
    case SwipeMove(_, _) => SwipeMoveTopic
    case SwipeEnd(_) => SwipeEndTopic
    case DismissDrawer => DismissDrawerTopic
    case DrawerClosed => DrawerClosedTopic
  }

  /** The callbacks the drawer and the detector register on the bus. */
  datatype Listener =
    | DrawerOnSwipeStart
    | DrawerOnSwipeMove
    | DrawerOnSwipeEnd
    | DrawerOnDismissDrawer
    | SideMenuOnDrawerClosed

  /**
   * What a gesture release publishes: SWIPE_END with 'right' exactly when the
   * final horizontal velocity is positive, 'left' otherwise (zero included).
   * Both responders use this rule.
   */
  function SwipeEndFor(vx: real): (m: Message)
    ensures m.SwipeEnd?
    ensures m.direction == Right <==> vx > 0.0
    ensures m.direction == Left <==> vx <= 0.0
  {
    SwipeEnd(if vx > 0.0 then Right else Left)
  }
}
