/**
  One grab point of the handle bar. It follows the latest controller of its own
  side that entered its trigger, and latches once that controller presses its grip:
  from then on it is grabbed for good and reports the controller to the bar. The
  report passes the point's `isLeft` flag as the bar's `isRight` argument, so the
  left point fills the bar's right slot and the right point its left slot.
  Positions (gluing, following, smoothing) are left out; hovering is kept.
 */
module GrabPoint {
  import opened Common
  import Hover
  import HandleBar

  type Controller = HandleBar.Controller

  /** Distance and period of a grab point's idle hovering. */
  const HoverDistance := 0.05
  const HoverTimeFrame := 1.0

  datatype GrabPoint = GrabPoint(isLeft: bool, current: Option<Controller>, isGrabbed: bool, hover: Hover.Hover)

  /** What holds between callbacks: a grabbed point has a controller, of its own side. */
  ghost predicate Valid(g: GrabPoint) {
    && Hover.Valid(g.hover)
    && (g.isGrabbed ==> g.current.Some?)
    && (g.current.Some? ==> g.current.value.isLeft == g.isLeft)
  }

  /** Start: no controller, not grabbed, hover targets on the local start position. */
  function Start(isLeft: bool, localPos: Vec3): (g: GrabPoint)
    ensures Valid(g)
    ensures g.isLeft == isLeft && g.current.None? && !g.isGrabbed
    ensures forall i :: 0 <= i < |g.hover.targets| ==> g.hover.targets[i] == localPos
  {
    GrabPoint(isLeft, None, false, Hover.Start(localPos))
  }

  /**
    A collider enters; `other` is its controller component, `None` when it has none.
    The controller becomes current only when the point is free, its side matches and
    it is not already current.
   */
  function OnTriggerEnter(g: GrabPoint, other: Option<Controller>): (r: GrabPoint)
    ensures Valid(g) ==> Valid(r)
    ensures r.isGrabbed == g.isGrabbed && r.hover == g.hover && r.isLeft == g.isLeft
    ensures r.current != g.current <==>
      other.Some? && !g.isGrabbed && other.value.isLeft == g.isLeft && g.current != other
    ensures r.current != g.current ==> r.current == other
  {
    match other
    case None => g
    case Some(c) =>
      if g.isGrabbed || c.isLeft != g.isLeft || g.current == Some(c) then g
      else g.(current := Some(c))
  }

  /** A collider leaves: the current controller is dropped only if it is the one leaving and the point is free. */
  function OnTriggerExit(g: GrabPoint, other: Option<Controller>): (r: GrabPoint)
    ensures Valid(g) ==> Valid(r)
    ensures r.isGrabbed == g.isGrabbed && r.hover == g.hover && r.isLeft == g.isLeft
    ensures r.current != g.current <==> other.Some? && !g.isGrabbed && g.current == other
    ensures r.current != g.current ==> r.current.None?
  {
    match other
    case None => g
    case Some(c) =>
      if g.isGrabbed || Some(c) != g.current then g
      else g.(current := None)
  }

  /** A frame's outcome: the point afterwards and the assignment it reported to the bar, if any. */
  datatype Updated = Updated(point: GrabPoint, report: Option<HandleBar.Call>)

  /**
    One frame. A free point hovers and, with a current controller whose grip is
    pressed (`grip`), latches and reports (controller, isLeft) to the bar. A grabbed
    point only follows its controller, which changes nothing modelled here.
   */
  function Update(g: GrabPoint, grip: bool, offset: Vec3, dt: real): (r: Updated)
    requires Valid(g)
    ensures Valid(r.point)
    ensures r.point.isLeft == g.isLeft && r.point.current == g.current
    ensures g.isGrabbed ==> r.point == g && r.report.None?
    ensures r.report.Some? <==> !g.isGrabbed && g.current.Some? && grip
    ensures r.report.Some? ==> r.report == Some(HandleBar.Call(g.current.value, g.isLeft))
    ensures r.point.isGrabbed <==> g.isGrabbed || r.report.Some?
  {
    if !g.isGrabbed then
      var hovered := g.(hover := Hover.Tick(g.hover, offset, HoverDistance, HoverTimeFrame, dt));
      if g.current.Some? && grip then
        Updated(hovered.(isGrabbed := true), Some(HandleBar.Call(g.current.value, g.isLeft)))
      else
        Updated(hovered, None)
    else
      Updated(g, None)
  }

  // ----- traces of callbacks -----

  datatype Op = Enter(other: Option<Controller>) | Exit(other: Option<Controller>) | Frame(grip: bool, offset: Vec3, dt: real)

  function Step(g: GrabPoint, op: Op): (r: GrabPoint)
    requires Valid(g)
    ensures Valid(r)
  {
    match op
    case Enter(c) => OnTriggerEnter(g, c)
    case Exit(c) => OnTriggerExit(g, c)
    case Frame(grip, offset, dt) => Update(g, grip, offset, dt).point
  }

  function Run(g: GrabPoint, ops: seq<Op>): (r: GrabPoint)
    requires Valid(g)
    ensures Valid(r)
    decreases |ops|
  {
    if |ops| == 0 then g else Run(Step(g, ops[0]), ops[1..])
  }

  /** Once grabbed, a point stays grabbed by the same controller and stops hovering, whatever happens. */
  lemma {:induction false} GrabIsPermanent(g: GrabPoint, ops: seq<Op>)
    requires Valid(g)
    requires g.isGrabbed
    ensures Run(g, ops) == g
    decreases |ops|
  {
    if |ops| > 0 {
      assert Step(g, ops[0]) == g;
      GrabIsPermanent(g, ops[1..]);
    }
  }

  /**
    The two points and the bar together: the left point's controller lands in the
    bar's right slot, and the bar-grabbed event fires on the second grab only.
   */
  lemma CrossedSlotsStillFireOnce(left: GrabPoint, right: GrabPoint, o1: Vec3, o2: Vec3, dt: real)
    requires Valid(left) && Valid(right)
    requires left.isLeft && !right.isLeft
    requires !left.isGrabbed && !right.isGrabbed && left.current.Some? && right.current.Some?
    ensures
      var u1 := Update(left, true, o1, dt);
      var a1 := HandleBar.AssignGrabbingController(HandleBar.Empty, u1.report.value.controller, u1.report.value.isRight);
      var u2 := Update(right, true, o2, dt);
      var a2 := HandleBar.AssignGrabbingController(a1.bar, u2.report.value.controller, u2.report.value.isRight);
      && a1.bar.right == left.current && a1.bar.left.None? && !a1.fired
      && a2.bar.left == right.current && a2.bar.right == left.current && a2.fired
  {
  }
}
