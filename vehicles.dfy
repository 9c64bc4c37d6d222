/** Vehicles as values: an arrival time and, once served, a departure time. */
module Vehicles {

  datatype Option<+T> = None | Some(value: T)

  /** A vehicle at the intersection. `depart` is None while it waits and is set once,
      when a lane releases it. */
  datatype Vehicle = Vehicle(arrival: real, depart: Option<real>)

  /** A vehicle that has just arrived at time t. */
  function Arriving(t: real): Vehicle
  {
    Vehicle(t, None)
  }

  /** The vehicle as it leaves the lane: its departure time is t, its arrival untouched. */
  function Stamp(v: Vehicle, t: real): Vehicle
  {
    v.(depart := Some(t))
  }

  /** Every vehicle of vs has been given a departure time. */
  predicate Departed(vs: seq<Vehicle>)
  {
    forall i | 0 <= i < |vs| :: vs[i].depart.Some?
  }

  /** Every vehicle of vs has departure time t. */
  predicate StampedAt(vs: seq<Vehicle>, t: real)
  {
    forall i | 0 <= i < |vs| :: vs[i].depart == Some(t)
  }

  /** Every vehicle of vs has left, and none before it arrived. */
  predicate NoneEarly(vs: seq<Vehicle>)
  {
    forall i | 0 <= i < |vs| :: vs[i].depart.Some? && vs[i].arrival <= vs[i].depart.value
  }

  /** Every vehicle of vs arrived at time t or earlier. */
  predicate ArrivedBy(vs: seq<Vehicle>, t: real)
  {
    forall i | 0 <= i < |vs| :: vs[i].arrival <= t
  }

  lemma NoneEarlyAppend(xs: seq<Vehicle>, ys: seq<Vehicle>)
    requires NoneEarly(xs) && NoneEarly(ys)
    ensures NoneEarly(xs + ys)
  {
    forall i | 0 <= i < |xs + ys|
      ensures (xs + ys)[i].depart.Some? && (xs + ys)[i].arrival <= (xs + ys)[i].depart.value
    {
      if i >= |xs| {
        assert (xs + ys)[i] == ys[i - |xs|];
      }
    }
  }

  lemma ArrivedByAppend(xs: seq<Vehicle>, ys: seq<Vehicle>, t: real)
    requires ArrivedBy(xs, t) && ArrivedBy(ys, t)
    ensures ArrivedBy(xs + ys, t)
  {
    forall i | 0 <= i < |xs + ys|
      ensures (xs + ys)[i].arrival <= t
    {
      if i >= |xs| {
        assert (xs + ys)[i] == ys[i - |xs|];
      }
    }
  }

  /** Each vehicle of vs stamped with departure time t, in the same order. */
  function StampAll(vs: seq<Vehicle>, t: real): (r: seq<Vehicle>)
    ensures |r| == |vs|
    ensures forall i | 0 <= i < |vs| :: r[i] == Stamp(vs[i], t)
  {
    seq(|vs|, i requires 0 <= i < |vs| => Stamp(vs[i], t))
  }

  /** m copies of v. */
  function Repeat(v: Vehicle, m: nat): (r: seq<Vehicle>)
    ensures |r| == m
    ensures forall i | 0 <= i < m :: r[i] == v
  {
    seq(m, _ => v)
  }
}
