/** One compass direction's FIFO queue of vehicles (class Lane of smart_traffic_ai.py). */
module Lanes {
  import opened Vehicles

  /** What popping the head of q at time t yields: the head, stamped with t, and the
      rest of the queue; or nothing, and q itself, when q is empty. */
  function Dequeued(q: seq<Vehicle>, t: real): (r: (Option<Vehicle>, seq<Vehicle>))
    ensures r.0.None? <==> q == []
    ensures r.0.None? ==> r.1 == q
    ensures r.0.Some? ==> r.0.value.depart == Some(t) && [r.0.value.(depart := q[0].depart)] + r.1 == q
  {
    if q == [] then (None, q) else (Some(Stamp(q[0], t)), q[1..])
  }

  class Lane {
    /** The waiting vehicles, head first. */
    var queue: seq<Vehicle>

    constructor ()
      ensures queue == []
    {
      queue := [];
    }

    /** Appends v at the tail. */
    method AddVehicle(v: Vehicle)
      modifies this
      ensures queue == old(queue) + [v]
    {
      queue := queue + [v];
    }

    /** Pops the head, stamped with departure time t; None on an empty lane. */
    method RemoveVehicle(t: real) returns (r: Option<Vehicle>)
      modifies this
      ensures (r, queue) == Dequeued(old(queue), t)
    {
      if queue == [] {
        r := None;
      } else {
        r := Some(Stamp(queue[0], t));
        queue := queue[1..];
      }
    }

    /** The number of waiting vehicles. */
    function QLen(): nat
      reads this
    {
      |queue|
    }
  }

  /** A call on a lane: AddVehicle(v) or RemoveVehicle(t). */
  datatype LaneOp = Add(v: Vehicle) | Remove(t: real)

  /** The vehicles the operations add, in order. */
  function Added(ops: seq<LaneOp>): seq<Vehicle>
  {
    if ops == [] then []
    else (if ops[0].Add? then [ops[0].v] else []) + Added(ops[1..])
  }

  /** Runs ops on a lane holding q: the vehicles the removals return, in order, and the
      queue left at the end. */
  function Replay(q: seq<Vehicle>, ops: seq<LaneOp>): (seq<Vehicle>, seq<Vehicle>)
    decreases |ops|
  {
    if ops == [] then ([], q)
    else match ops[0]
      case Add(v) => Replay(q + [v], ops[1..])
      case Remove(t) =>
        var (o, q') := Dequeued(q, t);
        var (out, rest) := Replay(q', ops[1..]);
        (if o.Some? then [o.value] + out else out, rest)
  }

  /** out is what a FIFO lane releases from the arrival order all, and rest what it keeps. */
  ghost predicate ReleasedInOrder(out: seq<Vehicle>, rest: seq<Vehicle>, all: seq<Vehicle>)
  {
    && |out| + |rest| == |all|
    && rest == all[|out|..]
    && Departed(out)
    && forall i | 0 <= i < |out| :: out[i].(depart := all[i].depart) == all[i]
  }

  /** Releasing the head v of all first keeps the order. */
  lemma ReleaseHead(v: Vehicle, out: seq<Vehicle>, rest: seq<Vehicle>, all: seq<Vehicle>, t: real,
                    out2: seq<Vehicle>, all2: seq<Vehicle>)
    requires ReleasedInOrder(out, rest, all)
    requires out2 == [Stamp(v, t)] + out && all2 == [v] + all
    ensures ReleasedInOrder(out2, rest, all2)
  {
    forall i | 0 <= i < |out2|
      ensures out2[i].(depart := all2[i].depart) == all2[i]
    {
      if i > 0 {
        assert out2[i] == out[i - 1] && all2[i] == all[i - 1];
      }
    }
  }

  /** FIFO: whatever the operations, the vehicles come out in the order they went in,
      none is skipped, each carries a departure time, and the lane keeps exactly the
      ones not yet returned. */
  lemma {:induction false} FifoReplay(q: seq<Vehicle>, ops: seq<LaneOp>)
    ensures ReleasedInOrder(Replay(q, ops).0, Replay(q, ops).1, q + Added(ops))
    decreases |ops|
  {
    if ops == [] {
      assert q + Added(ops) == q;
    } else if ops[0].Add? {
      FifoReplay(q + [ops[0].v], ops[1..]);
      FifoAddStep(q, ops);
    } else if q == [] {
      FifoReplay(q, ops[1..]);
      FifoIdleStep(q, ops);
    } else {
      var r' := Replay(q[1..], ops[1..]);
      var tail := Added(ops[1..]);
      FifoReplay(q[1..], ops[1..]);
      ReplayRemove(q, ops);
      assert Added(ops) == tail;
      ConsAppend(q, tail);
      ReleaseHead(q[0], r'.0, r'.1, q[1..] + tail, ops[0].t, Replay(q, ops).0, q + tail);
    }
  }

  lemma FifoAddStep(q: seq<Vehicle>, ops: seq<LaneOp>)
    requires ops != [] && ops[0].Add?
    requires ReleasedInOrder(Replay(q + [ops[0].v], ops[1..]).0, Replay(q + [ops[0].v], ops[1..]).1,
                             (q + [ops[0].v]) + Added(ops[1..]))
    ensures ReleasedInOrder(Replay(q, ops).0, Replay(q, ops).1, q + Added(ops))
  {
    var v := ops[0].v;
    assert Replay(q, ops) == Replay(q + [v], ops[1..]);
    assert Added(ops) == [v] + Added(ops[1..]);
    assert q + Added(ops) == (q + [v]) + Added(ops[1..]);
  }

  lemma FifoIdleStep(q: seq<Vehicle>, ops: seq<LaneOp>)
    requires ops != [] && ops[0].Remove? && q == []
    requires ReleasedInOrder(Replay(q, ops[1..]).0, Replay(q, ops[1..]).1, q + Added(ops[1..]))
    ensures ReleasedInOrder(Replay(q, ops).0, Replay(q, ops).1, q + Added(ops))
  {
    assert Added(ops) == Added(ops[1..]);
  }

  /** A removal on a nonempty lane returns its stamped head before what follows. */
  lemma ReplayRemove(q: seq<Vehicle>, ops: seq<LaneOp>)
    requires ops != [] && ops[0].Remove? && q != []
    ensures Replay(q, ops) == ([Stamp(q[0], ops[0].t)] + Replay(q[1..], ops[1..]).0, Replay(q[1..], ops[1..]).1)
  {
    assert Dequeued(q, ops[0].t) == (Some(Stamp(q[0], ops[0].t)), q[1..]);
  }

  lemma ConsAppend(q: seq<Vehicle>, tail: seq<Vehicle>)
    requires q != []
    ensures q + tail == [q[0]] + (q[1..] + tail)
  {
    assert q == [q[0]] + q[1..];
  }
}
