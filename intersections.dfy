/** The four-way intersection (class Intersection of smart_traffic_ai.py): four lanes and
    longest-queue-first service of the two lanes that have green. */
module Intersections {
  import opened Vehicles
  import opened Lanes

  datatype Dir = N | S | E | W

  /** The order of the lanes dictionary: N, S, E, W. */
  const Directions: seq<Dir> := [N, S, E, W]

  function Index(d: Dir): (i: nat)
    ensures i < |Directions| && Directions[i] == d
  {
    match d
    case N => 0
    case S => 1
    case E => 2
    case W => 3
  }

  /** The signal phase: which pair of opposing directions has green. */
  datatype Phase = NS | EW

  /** The two directions a phase serves, in the order they are listed. */
  function Active(p: Phase): (ds: (Dir, Dir))
    ensures ds.0 != ds.1
    ensures p == NS ==> ds == (N, S)
    ensures p == EW ==> ds == (E, W)
  {
    if p == NS then (N, S) else (E, W)
  }

  /** A count per direction: queue lengths, or vehicles arriving in one micro-step. */
  datatype Counts = Counts(n: nat, s: nat, e: nat, w: nat)
  {
    function At(d: Dir): nat
    {
      match d
      case N => n
      case S => s
      case E => e
      case W => w
    }

    function Total(): nat
    {
      n + s + e + w
    }
  }

  /** The contents of the four lanes, head first. */
  datatype Queues = Queues(n: seq<Vehicle>, s: seq<Vehicle>, e: seq<Vehicle>, w: seq<Vehicle>)
  {
    function At(d: Dir): seq<Vehicle>
    {
      match d
      case N => n
      case S => s
      case E => e
      case W => w
    }

    /** The same lanes, except that lane d holds q. */
    function With(d: Dir, q: seq<Vehicle>): (r: Queues)
      ensures r.At(d) == q
      ensures forall d' | d' != d :: r.At(d') == At(d')
    {
      match d
      case N => this.(n := q)
      case S => this.(s := q)
      case E => this.(e := q)
      case W => this.(w := q)
    }

    /** The queue-length snapshot of these lanes. */
    function Lengths(): (c: Counts)
      ensures forall d :: c.At(d) == |At(d)|
      ensures c.Total() == |n| + |s| + |e| + |w|
    {
      Counts(|n|, |s|, |e|, |w|)
    }
  }

  const Empty: Queues := Queues([], [], [], [])

  /** Two lane contents are the same when every direction's lane is. */
  lemma QueuesExt(p: Queues, q: Queues)
    requires forall d :: p.At(d) == q.At(d)
    ensures p == q
  {
    assert p.At(N) == q.At(N) && p.At(S) == q.At(S) && p.At(E) == q.At(E) && p.At(W) == q.At(W);
  }

  function Min(x: nat, y: nat): nat
  {
    if x <= y then x else y
  }

  /** The number of vehicles a green phase of the given duration can release:
      Python's int() of service_rate*duration fed to range(), so 0 for a negative
      product and the floor of it otherwise. */
  function Capacity(rate: real, duration: real): (c: nat)
    ensures rate * duration < 0.0 ==> c == 0
    ensures rate * duration >= 0.0 ==> c as real <= rate * duration < c as real + 1.0
  {
    if rate * duration < 0.0 then 0 else (rate * duration).Floor
  }

  /** The outcome of serving two lanes: the released vehicles in release order and what
      is left in the first-listed and in the second-listed lane. */
  datatype Service = Service(passed: seq<Vehicle>, first: seq<Vehicle>, second: seq<Vehicle>)

  /** Longest-queue-first service of lanes a (listed first) and b, at most cap vehicles,
      each stamped with departure time t. Each round the longer lane is served, a on a
      tie (Python's max keeps the first maximum); the rounds stop once the chosen lane
      is empty. */
  function ServeLanes(a: seq<Vehicle>, b: seq<Vehicle>, cap: nat, t: real): (r: Service)
    ensures |r.passed| == Min(cap, |a| + |b|)
    ensures |r.passed| + |r.first| + |r.second| == |a| + |b|
    ensures StampedAt(r.passed, t)
    decreases cap
  {
    var pickFirst := |a| >= |b|;
    var best := if pickFirst then a else b;
    if cap == 0 || |best| == 0 then Service([], a, b)
    else if pickFirst then
      var rest := ServeLanes(a[1..], b, cap - 1, t);
      Service([Stamp(a[0], t)] + rest.passed, rest.first, rest.second)
    else
      var rest := ServeLanes(a, b[1..], cap - 1, t);
      Service([Stamp(b[0], t)] + rest.passed, rest.first, rest.second)
  }

  /** Closed form of longest-queue-first: how many of k releases come from a lane of
      length la (listed first) and how many from a lane of length lb. The longer lane is
      drained down to the other's length; the rest alternate, the first-listed lane
      going first. */
  function GreedySplit(la: nat, lb: nat, k: nat): (r: (nat, nat))
    requires k <= la + lb
    ensures r.0 + r.1 == k && r.0 <= la && r.1 <= lb
  {
    if la >= lb then
      if la - lb >= k then (k, 0)
      else var rest := k - (la - lb); (la - lb + (rest + 1) / 2, rest / 2)
    else
      if lb - la >= k then (0, k)
      else var rest := k - (lb - la); ((rest + 1) / 2, lb - la + rest / 2)
  }

  /** After one release from a, the split of the remaining k - 1 is the split of k less
      that one release. */
  lemma GreedySplitFirst(la: nat, lb: nat, k: nat)
    requires 0 < k <= la + lb && la >= lb && la > 0
    ensures GreedySplit(la, lb, k) == (GreedySplit(la - 1, lb, k - 1).0 + 1, GreedySplit(la - 1, lb, k - 1).1)
  {
  }

  lemma GreedySplitSecond(la: nat, lb: nat, k: nat)
    requires 0 < k <= la + lb && la < lb
    ensures GreedySplit(la, lb, k) == (GreedySplit(la, lb - 1, k - 1).0, GreedySplit(la, lb - 1, k - 1).1 + 1)
  {
  }

  /** sv takes i vehicles from the front of a and j from the front of b, releases exactly
      those, stamped with t, in an order that keeps each lane's order, and leaves the rest
      of each lane in place. */
  ghost predicate TakesPrefixes(sv: Service, a: seq<Vehicle>, b: seq<Vehicle>, i: nat, j: nat, t: real)
  {
    && i <= |a| && j <= |b|
    && sv.first == a[i..] && sv.second == b[j..]
    && Interleaves(sv.passed, StampAll(a[..i], t), StampAll(b[..j], t))
  }

  /** p is an order-preserving merge of x and y: both are subsequences of p that
      together account for every element of p. */
  ghost predicate Interleaves(p: seq<Vehicle>, x: seq<Vehicle>, y: seq<Vehicle>)
    decreases |p|
  {
    if p == [] then x == [] && y == []
    else
      || (x != [] && p[0] == x[0] && Interleaves(p[1..], x[1..], y))
      || (y != [] && p[0] == y[0] && Interleaves(p[1..], x, y[1..]))
  }

  /** Serving takes a prefix of each active lane, as many from each as the closed form
      says, and releases exactly those vehicles, stamped with t, each lane's in its
      queue order. */
  lemma ServeSplit(a: seq<Vehicle>, b: seq<Vehicle>, cap: nat, t: real)
    ensures var g := GreedySplit(|a|, |b|, Min(cap, |a| + |b|));
            TakesPrefixes(ServeLanes(a, b, cap, t), a, b, g.0, g.1, t)
  {
    ServeSplitCounts(a, b, cap, t);
    ServeDrains(a, b, cap, t);
  }

  /** How many vehicles each lane keeps, by the closed form. */
  lemma ServeSplitCounts(a: seq<Vehicle>, b: seq<Vehicle>, cap: nat, t: real)
    ensures var g := GreedySplit(|a|, |b|, Min(cap, |a| + |b|));
            var sv := ServeLanes(a, b, cap, t);
            |sv.first| == |a| - g.0 && |sv.second| == |b| - g.1
  {
    ServeRemaining(a, b, cap, t);
    RemainingSplit(|a|, |b|, cap);
  }

  /** The lane lengths longest-queue-first service leaves, on lengths alone. */
  function Remaining(la: nat, lb: nat, cap: nat): (nat, nat)
    decreases cap
  {
    if cap == 0 || (la >= lb && la == 0) then (la, lb)
    else if la >= lb then Remaining(la - 1, lb, cap - 1)
    else Remaining(la, lb - 1, cap - 1)
  }

  lemma {:induction false} ServeRemaining(a: seq<Vehicle>, b: seq<Vehicle>, cap: nat, t: real)
    ensures Remaining(|a|, |b|, cap) == (|ServeLanes(a, b, cap, t).first|, |ServeLanes(a, b, cap, t).second|)
    decreases cap
  {
    if cap == 0 || (|a| >= |b| && |a| == 0) {
    } else if |a| >= |b| {
      ServeRemaining(a[1..], b, cap - 1, t);
    } else {
      ServeRemaining(a, b[1..], cap - 1, t);
    }
  }

  lemma {:induction false} RemainingSplit(la: nat, lb: nat, cap: nat)
    ensures var g := GreedySplit(la, lb, Min(cap, la + lb));
            Remaining(la, lb, cap) == (la - g.0, lb - g.1)
    decreases cap
  {
    if cap == 0 || (la >= lb && la == 0) {
      CountsNone(la, lb, cap);
    } else if la >= lb {
      RemainingSplit(la - 1, lb, cap - 1);
      SplitStepFirst(la, lb, cap, Remaining(la - 1, lb, cap - 1));
    } else {
      RemainingSplit(la, lb - 1, cap - 1);
      SplitStepSecond(la, lb, cap, Remaining(la, lb - 1, cap - 1));
    }
  }

  lemma SplitStepFirst(la: nat, lb: nat, cap: nat, r: (nat, nat))
    requires cap > 0 && la >= lb && la > 0
    requires var g := GreedySplit(la - 1, lb, Min(cap - 1, la - 1 + lb)); r == (la - 1 - g.0, lb - g.1)
    ensures var g := GreedySplit(la, lb, Min(cap, la + lb)); r == (la - g.0, lb - g.1)
  {
    var k := Min(cap, la + lb);
    assert Min(cap - 1, la - 1 + lb) == k - 1;
    GreedySplitFirst(la, lb, k);
  }

  lemma SplitStepSecond(la: nat, lb: nat, cap: nat, r: (nat, nat))
    requires cap > 0 && la < lb
    requires var g := GreedySplit(la, lb - 1, Min(cap - 1, la + (lb - 1))); r == (la - g.0, lb - 1 - g.1)
    ensures var g := GreedySplit(la, lb, Min(cap, la + lb)); r == (la - g.0, lb - g.1)
  {
    var k := Min(cap, la + lb);
    assert Min(cap - 1, la + (lb - 1)) == k - 1;
    GreedySplitSecond(la, lb, k);
  }

  lemma CountsNone(la: nat, lb: nat, cap: nat)
    requires cap == 0 || (la >= lb && la == 0)
    ensures GreedySplit(la, lb, Min(cap, la + lb)) == (0, 0)
  {
  }

  /** sv released the front of a and the front of b, and a and b keep their rests. */
  ghost predicate Drains(sv: Service, a: seq<Vehicle>, b: seq<Vehicle>, t: real)
  {
    |sv.first| <= |a| && |sv.second| <= |b| &&
    TakesPrefixes(sv, a, b, |a| - |sv.first|, |b| - |sv.second|, t)
  }

  lemma {:induction false} ServeDrains(a: seq<Vehicle>, b: seq<Vehicle>, cap: nat, t: real)
    ensures Drains(ServeLanes(a, b, cap, t), a, b, t)
    decreases cap, 1
  {
    if cap == 0 || (|a| >= |b| && |a| == 0) {
      DrainsNothing(a, b, cap, t);
    } else if |a| >= |b| {
      DrainsFirstStep(a, b, cap, t);
    } else {
      DrainsSecondStep(a, b, cap, t);
    }
  }

  lemma {:induction false} DrainsFirstStep(a: seq<Vehicle>, b: seq<Vehicle>, cap: nat, t: real)
    requires cap > 0 && |a| >= |b| && |a| > 0
    ensures Drains(ServeLanes(a, b, cap, t), a, b, t)
    decreases cap, 0
  {
    ServeDrains(a[1..], b, cap - 1, t);
    DrainsFirst(a, b, cap, t);
  }

  lemma {:induction false} DrainsSecondStep(a: seq<Vehicle>, b: seq<Vehicle>, cap: nat, t: real)
    requires cap > 0 && |a| < |b|
    ensures Drains(ServeLanes(a, b, cap, t), a, b, t)
    decreases cap, 0
  {
    ServeDrains(a, b[1..], cap - 1, t);
    DrainsSecond(a, b, cap, t);
  }

  lemma DrainsNothing(a: seq<Vehicle>, b: seq<Vehicle>, cap: nat, t: real)
    requires cap == 0 || (|a| >= |b| && |a| == 0)
    ensures Drains(ServeLanes(a, b, cap, t), a, b, t)
  {
    DrainsIdle(a, b, t);
    assert ServeLanes(a, b, cap, t) == Service([], a, b);
  }

  lemma DrainsIdle(a: seq<Vehicle>, b: seq<Vehicle>, t: real)
    ensures Drains(Service([], a, b), a, b, t)
  {
    assert a[0..] == a && b[0..] == b;
    assert StampAll(a[..0], t) == [] && StampAll(b[..0], t) == [];
  }

  lemma DrainsFirst(a: seq<Vehicle>, b: seq<Vehicle>, cap: nat, t: real)
    requires cap > 0 && |a| >= |b| && |a| > 0
    requires Drains(ServeLanes(a[1..], b, cap - 1, t), a[1..], b, t)
    ensures Drains(ServeLanes(a, b, cap, t), a, b, t)
  {
    var rest := ServeLanes(a[1..], b, cap - 1, t);
    var sv := ServeLanes(a, b, cap, t);
    assert sv == Service([Stamp(a[0], t)] + rest.passed, rest.first, rest.second);
    var i, j := |a| - 1 - |rest.first|, |b| - |rest.second|;
    PrefixStep(a, i, t);
    InterleaveFirst(Stamp(a[0], t), rest.passed, StampAll(a[1..][..i], t), StampAll(b[..j], t));
  }

  lemma DrainsSecond(a: seq<Vehicle>, b: seq<Vehicle>, cap: nat, t: real)
    requires cap > 0 && |a| < |b|
    requires Drains(ServeLanes(a, b[1..], cap - 1, t), a, b[1..], t)
    ensures Drains(ServeLanes(a, b, cap, t), a, b, t)
  {
    var rest := ServeLanes(a, b[1..], cap - 1, t);
    var sv := ServeLanes(a, b, cap, t);
    assert sv == Service([Stamp(b[0], t)] + rest.passed, rest.first, rest.second);
    var i, j := |a| - |rest.first|, |b| - 1 - |rest.second|;
    PrefixStep(b, j, t);
    InterleaveSecond(Stamp(b[0], t), rest.passed, StampAll(a[..i], t), StampAll(b[1..][..j], t));
  }

  /** Taking i + 1 from the front of q is taking its head and then i from its tail. */
  lemma PrefixStep(q: seq<Vehicle>, i: nat, t: real)
    requires i < |q|
    ensures q[1..][i..] == q[i + 1..]
    ensures StampAll(q[..i + 1], t) == [Stamp(q[0], t)] + StampAll(q[1..][..i], t)
  {
    assert q[..i + 1] == [q[0]] + q[1..][..i];
  }

  lemma InterleaveFirst(h: Vehicle, p: seq<Vehicle>, x: seq<Vehicle>, y: seq<Vehicle>)
    requires Interleaves(p, x, y)
    ensures Interleaves([h] + p, [h] + x, y)
  {
    assert ([h] + p)[1..] == p && ([h] + x)[1..] == x;
  }

  lemma InterleaveSecond(h: Vehicle, p: seq<Vehicle>, x: seq<Vehicle>, y: seq<Vehicle>)
    requires Interleaves(p, x, y)
    ensures Interleaves([h] + p, x, [h] + y)
  {
    assert ([h] + p)[1..] == p && ([h] + y)[1..] == y;
  }

  /** What a phase's service does to the whole intersection. */
  datatype Served = Served(passed: seq<Vehicle>, after: Queues)

  /** Serves phase p for at most cap vehicles at time t: only the two active lanes
      change; at most cap vehicles leave, or every vehicle of the active lanes if fewer. */
  function ServePhase(qs: Queues, p: Phase, cap: nat, t: real): (r: Served)
    ensures |r.passed| == Min(cap, |qs.At(Active(p).0)| + |qs.At(Active(p).1)|)
    ensures StampedAt(r.passed, t)
    ensures forall d | d != Active(p).0 && d != Active(p).1 :: r.after.At(d) == qs.At(d)
    ensures r.after.Lengths().Total() + |r.passed| == qs.Lengths().Total()
  {
    var (x, y) := Active(p);
    var sv := ServeLanes(qs.At(x), qs.At(y), cap, t);
    Served(sv.passed, qs.With(x, sv.first).With(y, sv.second))
  }

  /** The lanes after the vehicles counted in c arrive at time tt, appended at the tails. */
  function Arrive(qs: Queues, c: Counts, tt: real): (r: Queues)
    ensures forall d :: r.At(d) == qs.At(d) + Repeat(Arriving(tt), c.At(d))
    ensures r.Lengths().Total() == qs.Lengths().Total() + c.Total()
  {
    var v := Arriving(tt);
    Queues(qs.n + Repeat(v, c.n), qs.s + Repeat(v, c.s), qs.e + Repeat(v, c.e), qs.w + Repeat(v, c.w))
  }

  /** Every waiting vehicle arrived at time t or earlier. */
  predicate AllArrivedBy(qs: Queues, t: real)
  {
    forall d :: ArrivedBy(qs.At(d), t)
  }

  lemma AllArrivedByLater(qs: Queues, t: real, t': real)
    requires AllArrivedBy(qs, t) && t <= t'
    ensures AllArrivedBy(qs, t')
  {
    forall d ensures ArrivedBy(qs.At(d), t') {
      assert ArrivedBy(qs.At(d), t);
    }
  }

  /** Vehicles arriving at tt, no later than t, keep the lanes arrived by t. */
  lemma ArriveOnTime(qs: Queues, c: Counts, tt: real, t: real)
    requires AllArrivedBy(qs, t) && tt <= t
    ensures AllArrivedBy(Arrive(qs, c, tt), t)
  {
    forall d ensures ArrivedBy(Arrive(qs, c, tt).At(d), t) {
      ArrivedByAppend(qs.At(d), Repeat(Arriving(tt), c.At(d)), t);
    }
  }

  /** Dropping the head keeps a lane arrived by t. */
  lemma ArrivedByTail(a: seq<Vehicle>, t: real)
    requires ArrivedBy(a, t) && |a| > 0
    ensures ArrivedBy(a[1..], t)
  {
    forall i | 0 <= i < |a[1..]| ensures a[1..][i].arrival <= t {
      assert a[1..][i] == a[i + 1];
    }
  }

  /** A vehicle that arrived by t and is stamped at t does not leave early. */
  lemma StampOnTime(v: Vehicle, rest: seq<Vehicle>, t: real)
    requires v.arrival <= t && NoneEarly(rest)
    ensures NoneEarly([Stamp(v, t)] + rest)
  {
    NoneEarlyAppend([Stamp(v, t)], rest);
  }

  /** Service at t of lanes whose vehicles arrived by t releases no vehicle before it
      arrived and leaves lanes still arrived by t. */
  lemma {:induction false} ServeLanesOnTime(a: seq<Vehicle>, b: seq<Vehicle>, cap: nat, t: real)
    requires ArrivedBy(a, t) && ArrivedBy(b, t)
    ensures NoneEarly(ServeLanes(a, b, cap, t).passed)
    ensures ArrivedBy(ServeLanes(a, b, cap, t).first, t)
    ensures ArrivedBy(ServeLanes(a, b, cap, t).second, t)
    decreases cap, 1
  {
    if cap == 0 || (|a| >= |b| && |a| == 0) {
    } else if |a| >= |b| {
      OnTimeFirstStep(a, b, cap, t);
    } else {
      OnTimeSecondStep(a, b, cap, t);
    }
  }

  lemma {:induction false} OnTimeFirstStep(a: seq<Vehicle>, b: seq<Vehicle>, cap: nat, t: real)
    requires ArrivedBy(a, t) && ArrivedBy(b, t)
    requires cap > 0 && |a| >= |b| && |a| > 0
    ensures NoneEarly(ServeLanes(a, b, cap, t).passed)
    ensures ArrivedBy(ServeLanes(a, b, cap, t).first, t)
    ensures ArrivedBy(ServeLanes(a, b, cap, t).second, t)
    decreases cap, 0
  {
    ArrivedByTail(a, t);
    ServeLanesOnTime(a[1..], b, cap - 1, t);
    StampOnTime(a[0], ServeLanes(a[1..], b, cap - 1, t).passed, t);
  }

  lemma {:induction false} OnTimeSecondStep(a: seq<Vehicle>, b: seq<Vehicle>, cap: nat, t: real)
    requires ArrivedBy(a, t) && ArrivedBy(b, t)
    requires cap > 0 && |a| < |b|
    ensures NoneEarly(ServeLanes(a, b, cap, t).passed)
    ensures ArrivedBy(ServeLanes(a, b, cap, t).first, t)
    ensures ArrivedBy(ServeLanes(a, b, cap, t).second, t)
    decreases cap, 0
  {
    ArrivedByTail(b, t);
    ServeLanesOnTime(a, b[1..], cap - 1, t);
    StampOnTime(b[0], ServeLanes(a, b[1..], cap - 1, t).passed, t);
  }

  /** Serving a phase at t when every vehicle arrived by t. */
  lemma ServePhaseOnTime(qs: Queues, p: Phase, cap: nat, t: real)
    requires AllArrivedBy(qs, t)
    ensures var sv := ServePhase(qs, p, cap, t);
            NoneEarly(sv.passed) && AllArrivedBy(sv.after, t)
  {
    var (x, y) := Active(p);
    var sv := ServeLanes(qs.At(x), qs.At(y), cap, t);
    assert ArrivedBy(qs.At(x), t) && ArrivedBy(qs.At(y), t);
    ServeLanesOnTime(qs.At(x), qs.At(y), cap, t);
    var after := qs.With(x, sv.first).With(y, sv.second);
    forall d ensures ArrivedBy(after.At(d), t) {
      if d != x && d != y {
        assert after.At(d) == qs.At(d);
      }
    }
  }

  class Intersection {
    const n: Lane
    const s: Lane
    const e: Lane
    const w: Lane
    const serviceRate: real

    /** The four lanes are four different objects. */
    ghost predicate Valid()
    {
      n != s && n != e && n != w && s != e && s != w && e != w
    }

    function Lanes(): set<Lane>
    {
      {n, s, e, w}
    }

    /** The lanes dictionary. */
    function LaneOf(d: Dir): (l: Lane)
      ensures l in Lanes()
    {
      match d
      case N => n
      case S => s
      case E => e
      case W => w
    }

    /** The contents of all four lanes. */
    function Snapshot(): (qs: Queues)
      reads Lanes()
      ensures forall d :: qs.At(d) == LaneOf(d).queue
    {
      Queues(n.queue, s.queue, e.queue, w.queue)
    }

    /** A fresh intersection: four empty lanes. */
    constructor (serviceRate: real)
      ensures Valid() && fresh(Lanes())
      ensures Snapshot() == Empty && this.serviceRate == serviceRate
    {
      n := new Lane();
      s := new Lane();
      e := new Lane();
      w := new Lane();
      this.serviceRate := serviceRate;
    }

    /** Appends v to lane d; the other lanes are unchanged. */
    method AddVehicle(d: Dir, v: Vehicle)
      requires Valid()
      modifies LaneOf(d)
      ensures Snapshot() == old(Snapshot()).With(d, old(Snapshot()).At(d) + [v])
    {
      LaneOf(d).AddVehicle(v);
      QueuesExt(Snapshot(), old(Snapshot()).With(d, old(Snapshot()).At(d) + [v]));
    }

    /** The queue-length snapshot, one entry per direction. */
    function QueueLengths(): (c: Counts)
      reads Lanes()
      ensures forall d :: c.At(d) == LaneOf(d).QLen()
      ensures c == Snapshot().Lengths()
    {
      Counts(n.QLen(), s.QLen(), e.QLen(), w.QLen())
    }

    /** One green phase of length duration ending at time t: up to
        Capacity(serviceRate, duration) rounds, each releasing the head of the longer
        active lane (the first-listed one on a tie), stopping early once that lane is
        empty. */
    method Serve(phase: Phase, duration: real, t: real) returns (passed: seq<Vehicle>)
      requires Valid()
      modifies LaneOf(Active(phase).0), LaneOf(Active(phase).1)
      ensures var sv := ServePhase(old(Snapshot()), phase, Capacity(serviceRate, duration), t);
              passed == sv.passed && Snapshot() == sv.after
    {
      var dirs := Active(phase);
      ghost var q0 := Snapshot();
      var cap := Capacity(serviceRate, duration);
      passed := ServeTwo(LaneOf(dirs.0), LaneOf(dirs.1), cap, t);
      assert forall d | d != dirs.0 && d != dirs.1 :: LaneOf(d).queue == q0.At(d);
      PhaseFromLanes(q0, phase, cap, t, Snapshot());
    }
  }

  /** The loop of serve on lanes la (listed first) and lb: at most cap rounds, each
      releasing the head of the longer lane, stopping once that lane is empty. */
  method ServeTwo(la: Lane, lb: Lane, cap: nat, t: real) returns (passed: seq<Vehicle>)
    requires la != lb
    modifies la, lb
    ensures Service(passed, la.queue, lb.queue) == ServeLanes(old(la.queue), old(lb.queue), cap, t)
  {
    ghost var goal := ServeLanes(la.queue, lb.queue, cap, t);
    passed := [];
    for i := 0 to cap
      invariant goal == Join(passed, ServeLanes(la.queue, lb.queue, cap - i, t))
    {
      var best := if la.QLen() >= lb.QLen() then la else lb;
      if best.QLen() == 0 {
        assert goal == Service(passed, la.queue, lb.queue);
        break;
      }
      ServeRound(passed, la.queue, lb.queue, cap - i, t);
      var v := best.RemoveVehicle(t);
      passed := passed + [v.value];
    }
    assert goal == Service(passed, la.queue, lb.queue);
  }

  /** One round of ServeLanes: the head of the longer lane (a on a tie) joins the
      released vehicles, and the rest is served with one round fewer. */
  lemma ServeRound(done: seq<Vehicle>, a: seq<Vehicle>, b: seq<Vehicle>, cap: nat, t: real)
    requires cap > 0 && (if |a| >= |b| then a else b) != []
    ensures |a| >= |b| ==> Join(done, ServeLanes(a, b, cap, t)) == Join(done + [Stamp(a[0], t)], ServeLanes(a[1..], b, cap - 1, t))
    ensures |a| < |b| ==> Join(done, ServeLanes(a, b, cap, t)) == Join(done + [Stamp(b[0], t)], ServeLanes(a, b[1..], cap - 1, t))
  {
    if |a| >= |b| {
      var rest := ServeLanes(a[1..], b, cap - 1, t);
      assert done + ([Stamp(a[0], t)] + rest.passed) == (done + [Stamp(a[0], t)]) + rest.passed;
    } else {
      var rest := ServeLanes(a, b[1..], cap - 1, t);
      assert done + ([Stamp(b[0], t)] + rest.passed) == (done + [Stamp(b[0], t)]) + rest.passed;
    }
  }

  /** Lanes that agree with q0 off the active pair and hold what ServeLanes leaves on it
      are ServePhase's result. */
  lemma PhaseFromLanes(q0: Queues, p: Phase, cap: nat, t: real, qs: Queues)
    requires forall d | d != Active(p).0 && d != Active(p).1 :: qs.At(d) == q0.At(d)
    requires qs.At(Active(p).0) == ServeLanes(q0.At(Active(p).0), q0.At(Active(p).1), cap, t).first
    requires qs.At(Active(p).1) == ServeLanes(q0.At(Active(p).0), q0.At(Active(p).1), cap, t).second
    ensures ServePhase(q0, p, cap, t).after == qs
  {
    var (x, y) := Active(p);
    var sv := ServeLanes(q0.At(x), q0.At(y), cap, t);
    QueuesExt(qs, q0.With(x, sv.first).With(y, sv.second));
  }

  /** Vehicles already released, followed by the rest of a service. */
  function Join(done: seq<Vehicle>, sv: Service): Service
  {
    Service(done + sv.passed, sv.first, sv.second)
  }
}
