/**
  The handle bar: two assign-once slots for the controllers that grabbed its grab
  points, and the "bar grabbed" event raised once both slots hold a controller.
 */
module HandleBar {
  import opened Common

  /** A hand controller: its identity (object reference) and which hand it belongs to. */
  datatype Controller = Controller(id: nat, isLeft: bool)

  datatype Bar = Bar(right: Option<Controller>, left: Option<Controller>)

  const Empty := Bar(None, None)

  predicate Full(b: Bar) {
    b.right.Some? && b.left.Some?
  }

  /**
    Outcome of one assignment: the bar afterwards, whether the call was refused
    because its slot was already taken (the warning), and whether the bar-grabbed
    event was raised.
   */
  datatype Assigned = Assigned(bar: Bar, rejected: bool, fired: bool)

  /** One call of the assignment; `isRight` chooses the slot. */
  function AssignGrabbingController(b: Bar, controller: Controller, isRight: bool): (r: Assigned)
    // a filled slot is never overwritten: the call is refused and nothing changes
    ensures (if isRight then b.right.Some? else b.left.Some?) <==> r.rejected
    ensures r.rejected ==> r.bar == b && !r.fired
    // otherwise the chosen slot receives the controller and the other slot is untouched
    ensures !r.rejected && isRight ==> r.bar.right == Some(controller) && r.bar.left == b.left
    ensures !r.rejected && !isRight ==> r.bar.left == Some(controller) && r.bar.right == b.right
    // the event fires exactly on the call that fills the second slot
    ensures r.fired ==> Full(r.bar)
    ensures r.fired <==> !Full(b) && !r.rejected && (if isRight then b.left.Some? else b.right.Some?)
  {
    if isRight && b.right.Some? then Assigned(b, true, false)
    else if !isRight && b.left.Some? then Assigned(b, true, false)
    else
      var bar := if isRight then b.(right := Some(controller)) else b.(left := Some(controller));
      Assigned(bar, false, Full(bar))
  }

  /** A call of the assignment: the controller and the side argument it was given. */
  datatype Call = Call(controller: Controller, isRight: bool)

  function Run(b: Bar, calls: seq<Call>): Bar
    decreases |calls|
  {
    if |calls| == 0 then b
    else Run(AssignGrabbingController(b, calls[0].controller, calls[0].isRight).bar, calls[1..])
  }

  /** How many calls of the sequence raise the bar-grabbed event. */
  function Fired(b: Bar, calls: seq<Call>): nat
    decreases |calls|
  {
    if |calls| == 0 then 0
    else
      var a := AssignGrabbingController(b, calls[0].controller, calls[0].isRight);
      (if a.fired then 1 else 0) + Fired(a.bar, calls[1..])
  }

  /** Filled slots keep their controllers over any sequence of calls. */
  lemma {:induction false} SlotsAreAssignedOnce(b: Bar, calls: seq<Call>)
    ensures b.right.Some? ==> Run(b, calls).right == b.right
    ensures b.left.Some? ==> Run(b, calls).left == b.left
    decreases |calls|
  {
    if |calls| > 0 {
      SlotsAreAssignedOnce(AssignGrabbingController(b, calls[0].controller, calls[0].isRight).bar, calls[1..]);
    }
  }

  /**
    Over any sequence of calls the event fires at most once, and never again once
    both slots are filled; from the empty bar it has fired exactly when the bar is
    full at the end.
   */
  lemma {:induction false} FiresAtMostOnce(b: Bar, calls: seq<Call>)
    ensures Fired(b, calls) <= 1
    ensures Full(b) ==> Fired(b, calls) == 0
    ensures !Full(b) ==> (Fired(b, calls) == 1 <==> Full(Run(b, calls)))
    decreases |calls|
  {
    if |calls| > 0 {
      var a := AssignGrabbingController(b, calls[0].controller, calls[0].isRight);
      FiresAtMostOnce(a.bar, calls[1..]);
      if Full(a.bar) {
        SlotsAreAssignedOnce(a.bar, calls[1..]);
      }
    }
  }
}
