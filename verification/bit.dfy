/**
  The "bit" companion: it shows a true or false state in a transition routine. Only
  one routine runs at a time; requests made while one runs wait in a queue, and the
  per-frame update starts the queue head once the routine has finished. The scaling
  animation itself is left out: a routine is its begin event (`running` becomes the
  state it shows) and its completion event.

  As written, a request made while no routine runs starts at once, even when the
  queue still holds older requests (a routine finished and no frame has dispatched
  the queue yet), so requests can be shown out of order. `TriggerState` models that
  code, and the tile trigger uses it as the game does; `TriggerStateFifo` is the
  corrected request, which queues behind waiting requests.
 */
module Bit {
  import opened Common
  import Hover

  /** `running` is the state shown by the routine in progress, `None` when idle. */
  datatype Sequencer = Sequencer(running: Option<bool>, queue: seq<bool>)

  const Idle := Sequencer(None, [])

  /** Distance and period of the bit's idle hovering. */
  const HoverDistance := 0.02
  const HoverTimeFrame := 1.0

  datatype Bit = Bit(sequencer: Sequencer, hover: Hover.Hover)

  /** Start: the hover targets are put on the local start position; no routine runs yet. */
  function Start(localPos: Vec3): (b: Bit)
    ensures b.sequencer == Idle
    ensures Hover.Valid(b.hover)
    ensures forall i :: 0 <= i < |b.hover.targets| ==> b.hover.targets[i] == localPos
  {
    Bit(Idle, Hover.Start(localPos))
  }

  /** The request as written: queued while a routine runs, otherwise started at once. */
  function TriggerState(q: Sequencer, state: bool): (r: Sequencer)
    ensures q.running.Some? ==> r.running == q.running && r.queue == q.queue + [state]
    ensures q.running.None? ==> r.running == Some(state) && r.queue == q.queue
  {
    if q.running.Some? then q.(queue := q.queue + [state])
    else q.(running := Some(state))
  }

  /** The corrected request: it starts at once only when nothing runs and nothing waits. */
  function TriggerStateFifo(q: Sequencer, state: bool): (r: Sequencer)
    ensures q.running.Some? || |q.queue| > 0 ==> r.running == q.running && r.queue == q.queue + [state]
    ensures q.running.None? && |q.queue| == 0 ==> r.running == Some(state) && r.queue == []
  {
    if q.running.Some? || |q.queue| > 0 then q.(queue := q.queue + [state])
    else q.(running := Some(state))
  }

  /** The queue part of the per-frame update: an idle bit starts the oldest waiting request. */
  function Dispatch(q: Sequencer): (r: Sequencer)
    ensures q.running.None? && |q.queue| > 0 ==> r.running == Some(q.queue[0]) && q.queue == [q.queue[0]] + r.queue
    ensures q.running.Some? || |q.queue| == 0 ==> r == q
  {
    if q.running.None? && |q.queue| > 0 then Sequencer(Some(q.queue[0]), q.queue[1..])
    else q
  }

  /** The end of a routine clears the busy marker and leaves the queue alone. */
  function Finish(q: Sequencer): (r: Sequencer)
    ensures r.running.None?
    ensures r.queue == q.queue
  {
    q.(running := None)
  }

  /** One frame of the bit: hovering first, then the queue dispatch. */
  function Update(b: Bit, offset: Vec3, dt: real): (r: Bit)
    requires Hover.Valid(b.hover)
    ensures Hover.Valid(r.hover)
    ensures r.hover.startPos == b.hover.startPos
    ensures b.sequencer.running.None? && |b.sequencer.queue| > 0 ==>
      r.sequencer.running == Some(b.sequencer.queue[0]) && r.sequencer.queue == b.sequencer.queue[1..]
    ensures b.sequencer.running.Some? || |b.sequencer.queue| == 0 ==> r.sequencer == b.sequencer
  {
    Bit(Dispatch(b.sequencer), Hover.Tick(b.hover, offset, HoverDistance, HoverTimeFrame, dt))
  }

  // ----- traces of requests, frames and routine ends -----

  datatype Op = Trigger(state: bool) | Frame | End

  /** `fifo` selects the corrected request; otherwise the request as written. */
  function Step(q: Sequencer, op: Op, fifo: bool): Sequencer {
    match op
    case Trigger(s) => if fifo then TriggerStateFifo(q, s) else TriggerState(q, s)
    case Frame => Dispatch(q)
    case End => Finish(q)
  }

  /** The state whose routine `op` starts, if it starts one. */
  function Started(q: Sequencer, op: Op, fifo: bool): (s: Option<bool>)
    ensures s.Some? ==> q.running.None? && Step(q, op, fifo).running == s
    ensures q.running.Some? ==> s.None?
  {
    if q.running.Some? then None
    else match op
      case Trigger(s) => if fifo && |q.queue| > 0 then None else Some(s)
      case Frame => if |q.queue| > 0 then Some(q.queue[0]) else None
      case End => None
  }

  function Run(q: Sequencer, ops: seq<Op>, fifo: bool): Sequencer
    decreases |ops|
  {
    if |ops| == 0 then q else Run(Step(q, ops[0], fifo), ops[1..], fifo)
  }

  /** The state `op` starts, as a sequence of length at most one. */
  function StartedSeq(q: Sequencer, op: Op, fifo: bool): seq<bool> {
    match Started(q, op, fifo) case Some(s) => [s] case None => []
  }

  /** The state `op` requests, as a sequence of length at most one. */
  function RequestOf(op: Op): seq<bool> {
    match op case Trigger(s) => [s] case _ => []
  }

  /** The states shown, in the order their routines started. */
  function Shown(q: Sequencer, ops: seq<Op>, fifo: bool): seq<bool>
    decreases |ops|
  {
    if |ops| == 0 then [] else StartedSeq(q, ops[0], fifo) + Shown(Step(q, ops[0], fifo), ops[1..], fifo)
  }

  /** The states requested, in call order. */
  function Requested(ops: seq<Op>): seq<bool>
    decreases |ops|
  {
    if |ops| == 0 then [] else RequestOf(ops[0]) + Requested(ops[1..])
  }

  /** One corrected step: what it shows, then what waits, is what waited, then what it requests. */
  lemma FifoStep(q: Sequencer, op: Op)
    ensures StartedSeq(q, op, true) + Step(q, op, true).queue == q.queue + RequestOf(op)
  {
    match op
    case Trigger(s) => {}
    case Frame => {
      if q.running.None? && |q.queue| > 0 {
        assert q.queue == [q.queue[0]] + q.queue[1..];
      }
    }
    case End => {}
  }

  lemma Regroup<T>(first: seq<T>, shownRest: seq<T>, waitingEnd: seq<T>, waitingMid: seq<T>,
                   waiting: seq<T>, req: seq<T>, reqRest: seq<T>)
    requires shownRest + waitingEnd == waitingMid + reqRest
    requires first + waitingMid == waiting + req
    ensures (first + shownRest) + waitingEnd == waiting + (req + reqRest)
  {
    calc {
      (first + shownRest) + waitingEnd;
      first + (shownRest + waitingEnd);
      (first + waitingMid) + reqRest;
      waiting + (req + reqRest);
    }
  }

  lemma RegroupMultiset<T>(first: seq<T>, shownRest: seq<T>, waitingEnd: seq<T>, waitingMid: seq<T>,
                           waiting: seq<T>, req: seq<T>, reqRest: seq<T>)
    requires multiset(shownRest + waitingEnd) == multiset(waitingMid + reqRest)
    requires multiset(first + waitingMid) == multiset(waiting + req)
    ensures multiset((first + shownRest) + waitingEnd) == multiset(waiting + (req + reqRest))
  {
    calc {
      multiset((first + shownRest) + waitingEnd);
      multiset(first) + multiset(shownRest + waitingEnd);
      multiset(first) + multiset(waitingMid) + multiset(reqRest);
      multiset(first + waitingMid) + multiset(reqRest);
      multiset(waiting + (req + reqRest));
    }
  }

  /**
    With the corrected request, what has been shown followed by what still waits is
    exactly the waiting requests followed by the new ones, in call order.
   */
  lemma {:induction false} FifoOrder(q: Sequencer, ops: seq<Op>)
    ensures Shown(q, ops, true) + Run(q, ops, true).queue == q.queue + Requested(ops)
    decreases |ops|
  {
    if |ops| > 0 {
      var q', rest := Step(q, ops[0], true), ops[1..];
      var first, req := StartedSeq(q, ops[0], true), RequestOf(ops[0]);
      FifoOrder(q', rest);
      FifoStep(q, ops[0]);
      assert Shown(q, ops, true) == first + Shown(q', rest, true);
      assert Run(q, ops, true) == Run(q', rest, true);
      assert Requested(ops) == req + Requested(rest);
      Regroup(first, Shown(q', rest, true), Run(q', rest, true).queue, q'.queue, q.queue, req, Requested(rest));
    }
  }

  /** From the idle start, the corrected bit shows the requested states in call order. */
  lemma DisplayOrderIsFifo(ops: seq<Op>)
    ensures Shown(Idle, ops, true) <= Requested(ops)
  {
    FifoOrder(Idle, ops);
    var shown := Shown(Idle, ops, true);
    assert Requested(ops) == shown + Run(Idle, ops, true).queue;
    assert Requested(ops)[..|shown|] == shown;
  }

  /** One step as written keeps every request, in some order. */
  lemma AsWrittenStep(q: Sequencer, op: Op)
    ensures multiset(StartedSeq(q, op, false) + Step(q, op, false).queue) == multiset(q.queue + RequestOf(op))
  {
    match op
    case Trigger(s) => {}
    case Frame => {
      if q.running.None? && |q.queue| > 0 {
        assert q.queue == [q.queue[0]] + q.queue[1..];
      }
    }
    case End => {}
  }

  /** The code as written loses and duplicates nothing, but the order can differ. */
  lemma {:induction false} AsWrittenKeepsEveryRequest(q: Sequencer, ops: seq<Op>)
    ensures multiset(Shown(q, ops, false) + Run(q, ops, false).queue) == multiset(q.queue + Requested(ops))
    decreases |ops|
  {
    if |ops| > 0 {
      var q', rest := Step(q, ops[0], false), ops[1..];
      var first, req := StartedSeq(q, ops[0], false), RequestOf(ops[0]);
      AsWrittenKeepsEveryRequest(q', rest);
      AsWrittenStep(q, ops[0]);
      assert Shown(q, ops, false) == first + Shown(q', rest, false);
      assert Run(q, ops, false) == Run(q', rest, false);
      assert Requested(ops) == req + Requested(rest);
      RegroupMultiset(first, Shown(q', rest, false), Run(q', rest, false).queue, q'.queue, q.queue, req, Requested(rest));
    }
  }

  /**
    A request while idle overtakes a waiting one: true is shown, false is queued, the
    routine ends, and a new true request starts before the waiting false.
   */
  lemma AsWrittenTriggerJumpsQueue()
    ensures Shown(Idle, [Trigger(true), Trigger(false), End, Trigger(true)], false) == [true, true]
    ensures Requested([Trigger(true), Trigger(false), End, Trigger(true)]) == [true, false, true]
    ensures !(Shown(Idle, [Trigger(true), Trigger(false), End, Trigger(true)], false) <= Requested([Trigger(true), Trigger(false), End, Trigger(true)]))
  {
    var ops := [Trigger(true), Trigger(false), End, Trigger(true)];
    var q1 := Step(Idle, ops[0], false);
    var q2 := Step(q1, ops[1], false);
    var q3 := Step(q2, ops[2], false);
    assert q1 == Sequencer(Some(true), []);
    assert q2 == Sequencer(Some(true), [false]);
    assert q3 == Sequencer(None, [false]);
    assert ops[1..] == [Trigger(false), End, Trigger(true)];
    assert ops[1..][1..] == [End, Trigger(true)];
    assert ops[1..][1..][1..] == [Trigger(true)];
    assert Shown(q3, [Trigger(true)], false) == [true];
    assert Requested([Trigger(true)]) == [true];
    assert [true, true][1] != [true, false, true][1];
  }
}
