/** The decision loop (class Simulation of smart_traffic_ai.py): observe, choose, let
    vehicles arrive during the phase, serve, reward, learn, advance. The random arrival
    counts and the controller's random draws are inputs. */
module Simulations {
  import opened Vehicles
  import opened Lanes
  import opened Intersections
  import opened Sensors
  import opened Learning

  /** The reward of one decision step: 10 per released vehicle, less 2 per vehicle still
      waiting after service. */
  function Reward(served: nat, after: Counts): (r: int)
    ensures r <= 10 * served && r % 2 == 0
    ensures r == 10 * served <==> after.Total() == 0
  {
    10 * served - 2 * after.Total()
  }

  /** Since every released vehicle also leaves the queues, a step's reward is
      12 per released vehicle less 2 per vehicle waiting before service. */
  lemma StepReward(qs: Queues, p: Phase, cap: nat, t: real)
    ensures var sv := ServePhase(qs, p, cap, t);
            Reward(|sv.passed|, sv.after.Lengths()) == 12 * |sv.passed| - 2 * qs.Lengths().Total()
  {
  }

  /** The total time the vehicles of vs waited. */
  function SumWait(vs: seq<Vehicle>): real
    requires Departed(vs)
  {
    if vs == [] then 0.0 else (vs[0].depart.value - vs[0].arrival) + SumWait(vs[1..])
  }

  /** The mean wait of the departed vehicles, 0 when none departed. */
  function AvgWait(vs: seq<Vehicle>): (r: real)
    requires Departed(vs)
    ensures vs == [] ==> r == 0.0
    ensures vs != [] ==> r * (|vs| as real) == SumWait(vs)
  {
    if vs == [] then 0.0 else SumWait(vs) / (|vs| as real)
  }

  lemma {:induction false} SumWaitNonNegative(vs: seq<Vehicle>)
    requires NoneEarly(vs)
    ensures SumWait(vs) >= 0.0
  {
    if vs != [] {
      assert NoneEarly(vs[1..]) by {
        forall i | 0 <= i < |vs[1..]| ensures vs[1..][i].arrival <= vs[1..][i].depart.value {
          assert vs[1..][i] == vs[i + 1];
        }
      }
      SumWaitNonNegative(vs[1..]);
    }
  }

  /** The mean wait is never negative when no vehicle left before it arrived. */
  lemma AvgWaitNonNegative(vs: seq<Vehicle>)
    requires NoneEarly(vs)
    ensures AvgWait(vs) >= 0.0
  {
    SumWaitNonNegative(vs);
  }

  /** What run returns: the number of departed vehicles, their mean wait, the total reward. */
  datatype RunResult = RunResult(departed: nat, avgWait: real, reward: int)

  /** A bound on the iterations left of a loop that advances x by at least m while x < end. */
  function Steps(x: real, end: real, m: real): nat
    requires m > 0.0
  {
    if x < end then ((end - x) / m).Floor + 1 else 0
  }

  lemma StepsShrink(x: real, x': real, end: real, m: real)
    requires 0.0 < m <= x' - x && x < end
    ensures Steps(x', end, m) < Steps(x, end, m)
  {
    if x' < end {
      DivSub(end - x, x' - x, m);
      DivAtLeastOne(x' - x, m);
    }
  }

  /** Division by a positive m distributes over a difference. */
  lemma DivSub(a: real, b: real, m: real)
    requires m > 0.0
    ensures (a - b) / m == a / m - b / m
  {
  }

  /** A quotient by a positive m of at least m is at least 1. */
  lemma DivAtLeastOne(a: real, m: real)
    requires 0.0 < m <= a
    ensures a / m >= 1.0
  {
  }

  /** The configuration a run reads from the simulation and the controller. */
  datatype Config = Config(sensor: Sensor, dt: real, serviceRate: real, actions: seq<Action>,
                           alpha: real, gamma: real, epsilon: real, train: bool, maxT: real)

  /** The random inputs: arrival counts of the k-th micro-step, and the uniform draw and
      the randrange index of the j-th decision. */
  datatype Inputs = Inputs(arrivals: nat -> Counts, draws: nat -> real, picks: nat -> nat)

  /** A positive micro-step and a nonempty list of actions of positive duration. */
  predicate WellFormed(c: Config)
  {
    c.dt > 0.0 && |c.actions| > 0 && forall i | 0 <= i < |c.actions| :: c.actions[i].duration > 0.0
  }

  /** Every randrange index is a valid action index. */
  ghost predicate Fits(c: Config, inp: Inputs)
  {
    forall j: nat :: inp.picks(j) < |c.actions|
  }

  function MinDuration(actions: seq<Action>): (m: real)
    requires |actions| > 0
    ensures forall i | 0 <= i < |actions| :: m <= actions[i].duration
    ensures exists i | 0 <= i < |actions| :: m == actions[i].duration
  {
    if |actions| == 1 then actions[0].duration
    else
      var m' := MinDuration(actions[1..]);
      assert forall i | 1 <= i < |actions| :: actions[i] == actions[1..][i - 1];
      if actions[0].duration <= m' then actions[0].duration else m'
  }

  function MaxDuration(actions: seq<Action>): (m: real)
    requires |actions| > 0
    ensures forall i | 0 <= i < |actions| :: actions[i].duration <= m
    ensures exists i | 0 <= i < |actions| :: m == actions[i].duration
  {
    if |actions| == 1 then actions[0].duration
    else
      var m' := MaxDuration(actions[1..]);
      assert forall i | 1 <= i < |actions| :: actions[i] == actions[1..][i - 1];
      if actions[0].duration >= m' then actions[0].duration else m'
  }

  /** The state of a run between decision steps: the lanes, the controller's table, the
      clock, the departed vehicles, the reward so far, and how many decisions and
      arrival micro-steps have drawn on the random inputs. */
  datatype World = World(queues: Queues, table: Table, t: real, departed: seq<Vehicle>,
                         total: int, step: nat, tick: nat)

  /** The arrival loop of one phase: micro-steps from tt on, dt apart, while before end;
      the k-th micro-step adds arrivals(k) vehicles stamped with its own time. */
  ghost function ArriveDuring(qs: Queues, tt: real, end: real, dt: real, arrivals: nat -> Counts, tick: nat): (r: (Queues, nat))
    requires dt > 0.0
    ensures r.1 >= tick
    ensures tt >= end ==> r == (qs, tick)
    decreases Steps(tt, end, dt)
  {
    if tt < end then
      StepsShrink(tt, tt + dt, end, dt);
      ArriveDuring(Arrive(qs, arrivals(tick), tt), tt + dt, end, dt, arrivals, tick + 1)
    else (qs, tick)
  }

  /** What a decision step has decided once the action is chosen: the action index and
      the time its phase ends. */
  datatype Decision = Decision(action: nat, end: real)

  /** The decision of a step from w: the policy applied to the observed lane counts, and
      the clock advanced by the chosen action's duration. */
  ghost function Decided(c: Config, inp: Inputs, w: World): (d: Decision)
    requires WellFormed(c) && Fits(c, inp)
    ensures d.action < |c.actions| && d.end == w.t + c.actions[d.action].duration
  {
    var a := Policy(w.table, c.epsilon, |c.actions|, c.sensor.Read(w.queues.Lengths()), inp.draws(w.step), inp.picks(w.step));
    Decision(a, w.t + c.actions[a].duration)
  }

  /** The end of a decision step from w once decision d is taken and the arrivals up to
      d.end are in: serve the chosen phase for the vehicles its duration allows, then learn. */
  function Settle(c: Config, w: World, d: Decision, arrived: (Queues, nat)): (r: World)
    requires WellFormed(c) && d.action < |c.actions|
    ensures r.t == d.end && r.step == w.step + 1 && r.tick == arrived.1
    ensures !c.train ==> r.table == w.table
    ensures Departed(w.departed) ==> Departed(r.departed)
  {
    var act := c.actions[d.action];
    Learn(c, w, d, arrived.1, ServePhase(arrived.0, act.phase, Capacity(c.serviceRate, act.duration), d.end))
  }

  /** The last part of a decision step, after service sv: score it, learn when training,
      and advance the clock to the end of the phase. */
  function Learn(c: Config, w: World, d: Decision, tick: nat, sv: Served): (r: World)
    requires WellFormed(c) && d.action < |c.actions|
    ensures r.t == d.end && r.step == w.step + 1 && r.tick == tick
    ensures !c.train ==> r.table == w.table
    ensures r.queues == sv.after && r.departed == w.departed + sv.passed
    ensures r.total == w.total + Reward(|sv.passed|, sv.after.Lengths())
    ensures c.train ==> r.table == TdUpdate(w.table, c.alpha, c.gamma, |c.actions|, c.sensor.Read(w.queues.Lengths()),
                                            d.action, Reward(|sv.passed|, sv.after.Lengths()),
                                            c.sensor.Read(sv.after.Lengths()))
  {
    var reward := Reward(|sv.passed|, sv.after.Lengths());
    var s := c.sensor.Read(w.queues.Lengths());
    var table := if c.train then TdUpdate(w.table, c.alpha, c.gamma, |c.actions|, s, d.action, reward, c.sensor.Read(sv.after.Lengths()))
                 else w.table;
    World(sv.after, table, d.end, w.departed + sv.passed, w.total + reward, w.step + 1, tick)
  }

  /** A micro-step before end adds its arrivals and leaves the rest of the loop to do. */
  lemma ArriveNext(qs: Queues, qs': Queues, tt: real, tt': real, end: real, dt: real, arrivals: nat -> Counts,
                   tick: nat, tick': nat)
    requires dt > 0.0 && tt < end && tt' == tt + dt && tick' == tick + 1 && qs' == Arrive(qs, arrivals(tick), tt)
    ensures ArriveDuring(qs, tt, end, dt, arrivals, tick) == ArriveDuring(qs', tt', end, dt, arrivals, tick')
  {
  }

  /** Learn from its parts: the released vehicles, the lanes left, the reward and the table. */
  lemma LearnFrom(c: Config, w: World, d: Decision, tick: nat, sv: Served, after: Queues, table: Table,
                  left: seq<Vehicle>, reward: int)
    requires WellFormed(c) && d.action < |c.actions|
    requires left == sv.passed && after == sv.after && reward == Reward(|sv.passed|, sv.after.Lengths())
    requires table == if c.train then TdUpdate(w.table, c.alpha, c.gamma, |c.actions|, c.sensor.Read(w.queues.Lengths()),
                                               d.action, reward, c.sensor.Read(sv.after.Lengths()))
                      else w.table
    ensures World(after, table, d.end, w.departed + left, w.total + reward, w.step + 1, tick) == Learn(c, w, d, tick, sv)
  {
  }

  /** One decision step of run: decide, let vehicles arrive until the phase ends, settle. */
  ghost function Step(c: Config, inp: Inputs, w: World): (r: World)
    requires WellFormed(c) && Fits(c, inp)
    ensures MinDuration(c.actions) <= r.t - w.t <= MaxDuration(c.actions)
    ensures r.step == w.step + 1 && r.tick >= w.tick
    ensures !c.train ==> r.table == w.table
    ensures Departed(w.departed) ==> Departed(r.departed)
  {
    var d := Decided(c, inp, w);
    Settle(c, w, d, ArriveDuring(w.queues, w.t, d.end, c.dt, inp.arrivals, w.tick))
  }

  /** Step from its stages: the decision and the arrivals. */
  lemma StepStages(c: Config, inp: Inputs, w: World, d: Decision, arrived: (Queues, nat))
    requires WellFormed(c) && Fits(c, inp)
    requires d == Decided(c, inp, w)
    requires arrived == ArriveDuring(w.queues, w.t, d.end, c.dt, inp.arrivals, w.tick)
    ensures Step(c, inp, w) == Settle(c, w, d, arrived)
  {
  }

  /** The world the last stage of a decision step leads to is the step's. */
  lemma StepFromSettle(c: Config, inp: Inputs, w: World, d: Decision, r: World)
    requires WellFormed(c) && Fits(c, inp) && d == Decided(c, inp, w)
    requires r == Settle(c, w, d, ArriveDuring(w.queues, w.t, d.end, c.dt, inp.arrivals, w.tick))
    ensures r == Step(c, inp, w)
  {
    StepStages(c, inp, w, d, ArriveDuring(w.queues, w.t, d.end, c.dt, inp.arrivals, w.tick));
  }

  /** The rest of a run from w: decision steps while the clock is before maxT. */
  ghost function Episode(c: Config, inp: Inputs, w: World): (r: World)
    requires WellFormed(c) && Fits(c, inp)
    ensures r.t >= c.maxT && (w.t >= c.maxT ==> r == w)
    ensures Departed(w.departed) ==> Departed(r.departed)
    decreases Steps(w.t, c.maxT, MinDuration(c.actions))
  {
    if w.t < c.maxT then
      var w' := Step(c, inp, w);
      StepsShrink(w.t, w'.t, c.maxT, MinDuration(c.actions));
      Episode(c, inp, w')
    else w
  }

  /** A world before maxT runs on as the world its next decision step leads to. */
  lemma EpisodeStep(c: Config, inp: Inputs, w: World)
    requires WellFormed(c) && Fits(c, inp) && w.t < c.maxT
    ensures Episode(c, inp, w) == Episode(c, inp, Step(c, inp, w))
  {
  }

  /** The arrival loop stamps every vehicle it adds before end, so lanes whose vehicles
      arrived by end still have. */
  lemma {:induction false} ArriveDuringOnTime(qs: Queues, tt: real, end: real, dt: real,
                                              arrivals: nat -> Counts, tick: nat)
    requires dt > 0.0 && AllArrivedBy(qs, end)
    ensures AllArrivedBy(ArriveDuring(qs, tt, end, dt, arrivals, tick).0, end)
    decreases Steps(tt, end, dt)
  {
    if tt < end {
      StepsShrink(tt, tt + dt, end, dt);
      ArriveOnTime(qs, arrivals(tick), tt, end);
      ArriveDuringOnTime(Arrive(qs, arrivals(tick), tt), tt + dt, end, dt, arrivals, tick + 1);
    }
  }

  /** No released vehicle left before it arrived, and every waiting vehicle arrived by
      the clock. */
  ghost predicate OnTime(w: World)
  {
    NoneEarly(w.departed) && AllArrivedBy(w.queues, w.t)
  }

  /** Serving at the end of the phase lanes that arrived by then keeps a world on time. */
  lemma SettleOnTime(c: Config, w: World, d: Decision, arrived: (Queues, nat))
    requires WellFormed(c) && d.action < |c.actions|
    requires NoneEarly(w.departed) && AllArrivedBy(arrived.0, d.end)
    ensures OnTime(Settle(c, w, d, arrived))
  {
    var act := c.actions[d.action];
    var sv := ServePhase(arrived.0, act.phase, Capacity(c.serviceRate, act.duration), d.end);
    ServePhaseOnTime(arrived.0, act.phase, Capacity(c.serviceRate, act.duration), d.end);
    NoneEarlyAppend(w.departed, sv.passed);
  }

  /** A decision step keeps a world on time. */
  lemma StepOnTime(c: Config, inp: Inputs, w: World)
    requires WellFormed(c) && Fits(c, inp) && OnTime(w)
    ensures OnTime(Step(c, inp, w))
  {
    var d := Decided(c, inp, w);
    assert c.actions[d.action].duration > 0.0;
    AllArrivedByLater(w.queues, w.t, d.end);
    var arrived := ArriveDuring(w.queues, w.t, d.end, c.dt, inp.arrivals, w.tick);
    ArriveDuringOnTime(w.queues, w.t, d.end, c.dt, inp.arrivals, w.tick);
    SettleOnTime(c, w, d, arrived);
    StepStages(c, inp, w, d, arrived);
  }

  /** A whole episode keeps a world on time. */
  lemma {:induction false} EpisodeOnTime(c: Config, inp: Inputs, w: World)
    requires WellFormed(c) && Fits(c, inp) && OnTime(w)
    ensures OnTime(Episode(c, inp, w))
    decreases Steps(w.t, c.maxT, MinDuration(c.actions))
  {
    if w.t < c.maxT {
      var w' := Step(c, inp, w);
      StepOnTime(c, inp, w);
      StepsShrink(w.t, w'.t, c.maxT, MinDuration(c.actions));
      EpisodeStep(c, inp, w);
      EpisodeOnTime(c, inp, w');
    }
  }

  /** The number of vehicles the arrival loop from tt to end adds. */
  ghost function ArrivalsDuring(tt: real, end: real, dt: real, arrivals: nat -> Counts, tick: nat): nat
    requires dt > 0.0
    decreases Steps(tt, end, dt)
  {
    if tt < end then
      StepsShrink(tt, tt + dt, end, dt);
      arrivals(tick).Total() + ArrivalsDuring(tt + dt, end, dt, arrivals, tick + 1)
    else 0
  }

  /** The arrival loop loses no vehicle and invents none. */
  lemma {:induction false} ArriveDuringCount(qs: Queues, tt: real, end: real, dt: real,
                                             arrivals: nat -> Counts, tick: nat)
    requires dt > 0.0
    ensures ArriveDuring(qs, tt, end, dt, arrivals, tick).0.Lengths().Total()
            == qs.Lengths().Total() + ArrivalsDuring(tt, end, dt, arrivals, tick)
    decreases Steps(tt, end, dt)
  {
    if tt < end {
      StepsShrink(tt, tt + dt, end, dt);
      ArriveDuringCount(Arrive(qs, arrivals(tick), tt), tt + dt, end, dt, arrivals, tick + 1);
    }
  }

  /** A decision step conserves vehicles: those released plus those waiting are those
      there before plus those that arrived during the phase. */
  lemma StepConserves(c: Config, inp: Inputs, w: World)
    requires WellFormed(c) && Fits(c, inp)
    ensures var r := Step(c, inp, w);
            |r.departed| + r.queues.Lengths().Total()
            == |w.departed| + w.queues.Lengths().Total()
               + ArrivalsDuring(w.t, Decided(c, inp, w).end, c.dt, inp.arrivals, w.tick)
  {
    var d := Decided(c, inp, w);
    var arrived := ArriveDuring(w.queues, w.t, d.end, c.dt, inp.arrivals, w.tick);
    ArriveDuringCount(w.queues, w.t, d.end, c.dt, inp.arrivals, w.tick);
    StepStages(c, inp, w, d, arrived);
  }

  /** The world a run starts from: the current lanes and table, clock 0. */
  function Start(qs: Queues, table: Table): (r: World)
    ensures r.queues == qs && r.table == table && r.t == 0.0 && r.step == 0 && r.tick == 0
    ensures Departed(r.departed) && Outcome(r) == RunResult(0, 0.0, 0)
    ensures OnTime(r) <==> AllArrivedBy(qs, 0.0)
  {
    World(qs, table, 0.0, [], 0, 0, 0)
  }

  /** The record run returns for a finished world. */
  function Outcome(w: World): (r: RunResult)
    requires Departed(w.departed)
    ensures r.departed == |w.departed| && r.reward == w.total
    ensures w.departed == [] ==> r.avgWait == 0.0
  {
    RunResult(|w.departed|, AvgWait(w.departed), w.total)
  }

  /** A run from lanes whose vehicles all arrived at time 0 or earlier reports an average
      wait that is not negative. */
  lemma RunWaitNonNegative(c: Config, inp: Inputs, qs: Queues, table: Table)
    requires WellFormed(c) && Fits(c, inp) && AllArrivedBy(qs, 0.0)
    ensures Outcome(Episode(c, inp, Start(qs, table))).avgWait >= 0.0
  {
    EpisodeOnTime(c, inp, Start(qs, table));
    AvgWaitNonNegative(Episode(c, inp, Start(qs, table)).departed);
  }

  /** The loop checks the clock before each step and advances it by the whole chosen
      duration after it: a run that starts before maxT stops at or after maxT, overshooting
      by less than the longest action; one that starts at or after maxT does nothing. */
  lemma {:induction false} Overshoot(c: Config, inp: Inputs, w: World)
    requires WellFormed(c) && Fits(c, inp)
    ensures w.t >= c.maxT ==> Episode(c, inp, w) == w
    ensures w.t < c.maxT ==> c.maxT <= Episode(c, inp, w).t < c.maxT + MaxDuration(c.actions)
    decreases Steps(w.t, c.maxT, MinDuration(c.actions))
  {
    if w.t < c.maxT {
      var w' := Step(c, inp, w);
      StepsShrink(w.t, w'.t, c.maxT, MinDuration(c.actions));
      Overshoot(c, inp, w');
    }
  }

  /** A run with training off leaves the controller's table as it was. */
  lemma {:induction false} EvaluationKeepsTable(c: Config, inp: Inputs, w: World)
    requires WellFormed(c) && Fits(c, inp) && !c.train
    ensures Episode(c, inp, w).table == w.table
    decreases Steps(w.t, c.maxT, MinDuration(c.actions))
  {
    if w.t < c.maxT {
      var w' := Step(c, inp, w);
      StepsShrink(w.t, w'.t, c.maxT, MinDuration(c.actions));
      EvaluationKeepsTable(c, inp, w');
    }
  }

  /** The lanes once the arrivals c of the first i directions, in the order N, S, E, W,
      have been appended as copies of v. */
  function Admitted(q0: Queues, c: Counts, v: Vehicle, i: nat): (r: Queues)
    ensures forall d :: r.At(d) == q0.At(d) + Repeat(v, if Index(d) < i then c.At(d) else 0)
  {
    Queues(q0.n + Repeat(v, if 0 < i then c.n else 0), q0.s + Repeat(v, if 1 < i then c.s else 0),
           q0.e + Repeat(v, if 2 < i then c.e else 0), q0.w + Repeat(v, if 3 < i then c.w else 0))
  }

  lemma AdmittedNone(q0: Queues, c: Counts, v: Vehicle)
    ensures Admitted(q0, c, v, 0) == q0
  {
    assert Repeat(v, 0) == [];
    QueuesExt(Admitted(q0, c, v, 0), q0);
  }

  /** Appending the arrivals of direction i moves on to the first i + 1 directions. */
  lemma AdmittedStep(q0: Queues, c: Counts, v: Vehicle, i: nat)
    requires i < |Directions|
    ensures var d := Directions[i];
            var p := Admitted(q0, c, v, i);
            p.With(d, p.At(d) + Repeat(v, c.At(d))) == Admitted(q0, c, v, i + 1)
  {
    var d := Directions[i];
    var p := Admitted(q0, c, v, i);
    assert p.At(d) == q0.At(d) by {
      assert Repeat(v, 0) == [];
    }
    QueuesExt(p.With(d, p.At(d) + Repeat(v, c.At(d))), Admitted(q0, c, v, i + 1));
  }

  /** All four directions done is the arrival of c at time tt. */
  lemma AdmittedAll(q0: Queues, c: Counts, tt: real)
    ensures Admitted(q0, c, Arriving(tt), |Directions|) == Arrive(q0, c, tt)
  {
  }

  class Simulation {
    var inter: Intersection
    const sensor: Sensor
    const dt: real

    /** A simulation with the default sensor bins, an empty intersection of the given
        service rate, and micro-step dt. */
    constructor (dt: real, service: real)
      ensures inter.Valid() && fresh(inter) && fresh(inter.Lanes())
      ensures inter.Snapshot() == Empty && inter.serviceRate == service
      ensures sensor == Sensor(DefaultBins) && this.dt == dt
    {
      inter := new Intersection(service);
      sensor := Sensor(DefaultBins);
      this.dt := dt;
    }

    /** Starts a new episode: a fresh, empty intersection with the same service rate. */
    method Reset()
      modifies this
      ensures inter.Valid() && fresh(inter) && fresh(inter.Lanes())
      ensures inter.Snapshot() == Empty && inter.serviceRate == old(inter.serviceRate)
    {
      inter := new Intersection(inter.serviceRate);
    }

    /** Appends m copies of v to lane d, one at a time. */
    method AdmitLane(d: Dir, v: Vehicle, m: nat)
      requires inter.Valid()
      modifies inter.Lanes()
      ensures inter.Snapshot() == old(inter.Snapshot()).With(d, old(inter.Snapshot()).At(d) + Repeat(v, m))
    {
      ghost var q0 := inter.Snapshot();
      for k := 0 to m
        invariant inter.Snapshot() == q0.With(d, q0.At(d) + Repeat(v, k))
      {
        inter.AddVehicle(d, v);
        assert (q0.At(d) + Repeat(v, k)) + [v] == q0.At(d) + Repeat(v, k + 1);
        QueuesExt(inter.Snapshot(), q0.With(d, q0.At(d) + Repeat(v, k + 1)));
      }
    }

    /** Adds the arrivals of one micro-step at time tt, lane by lane. */
    method Admit(c: Counts, tt: real)
      requires inter.Valid()
      modifies inter.Lanes()
      ensures inter.Snapshot() == Arrive(old(inter.Snapshot()), c, tt)
    {
      ghost var q0 := inter.Snapshot();
      var v := Arriving(tt);
      AdmittedNone(q0, c, v);
      for i := 0 to |Directions|
        invariant inter.Snapshot() == Admitted(q0, c, v, i)
      {
        AdmittedStep(q0, c, v, i);
        AdmitLane(Directions[i], v, c.At(Directions[i]));
      }
      AdmittedAll(q0, c, tt);
    }

    /** The configuration a run of ctrl reads. */
    function Configure(ctrl: QLearning, train: bool, maxT: real): Config
      reads this, ctrl`epsilon
    {
      Config(sensor, dt, inter.serviceRate, ctrl.actions, ctrl.alpha, ctrl.gamma, ctrl.epsilon, train, maxT)
    }

    /** The arrival loop of one phase: one micro-step of length dt at a time, from
        time start while before end, drawing the counts of consecutive micro-steps. */
    method ArrivePhase(start: real, end: real, arrivals: nat -> Counts, tick: nat) returns (tick': nat)
      requires inter.Valid() && dt > 0.0
      modifies inter.Lanes()
      ensures (inter.Snapshot(), tick') == ArriveDuring(old(inter.Snapshot()), start, end, dt, arrivals, tick)
    {
      ghost var q0 := inter.Snapshot();
      var tt := start;
      tick' := tick;
      while tt < end
        invariant ArriveDuring(inter.Snapshot(), tt, end, dt, arrivals, tick') == ArriveDuring(q0, start, end, dt, arrivals, tick)
        decreases Steps(tt, end, dt)
      {
        ghost var qs, tt0, tick0 := inter.Snapshot(), tt, tick';
        Admit(arrivals(tick'), tt);
        StepsShrink(tt, tt + dt, end, dt);
        tick' := tick' + 1;
        tt := tt + dt;
        ArriveNext(qs, inter.Snapshot(), tt0, tt, end, dt, arrivals, tick0, tick');
      }
    }

    /** The first part of a decision step from world w, whose lanes and table are the
        current ones: observe the lanes and choose, with the draws of decision w.step. */
    method Observe(ctrl: QLearning, ghost c: Config, train: bool, inp: Inputs, ghost w: World, t: real, step: nat)
      returns (s: State, d: Decision)
      requires inter.Valid() && c == Configure(ctrl, train, c.maxT) && WellFormed(c) && Fits(c, inp)
      requires w.queues == inter.Snapshot() && w.table == ctrl.q && w.t == t && w.step == step
      ensures s == c.sensor.Read(w.queues.Lengths()) && d == Decided(c, inp, w)
    {
      s := sensor.Read(inter.QueueLengths());
      var a := ctrl.Choose(s, inp.draws(step), inp.picks(step));
      d := Decision(a, t + ctrl.actions[a].duration);
    }

    /** The second part of a decision step from world w, once decision d is taken and
        the arrivals up to d.end are in: serve, score and, when training, learn. */
    method ServeAndLearn(ctrl: QLearning, ghost c: Config, train: bool, ghost w: World, s: State,
                         d: Decision, ghost tick: nat)
      returns (left: seq<Vehicle>, reward: int)
      requires inter.Valid() && c == Configure(ctrl, train, c.maxT) && WellFormed(c) && d.action < |c.actions|
      requires s == c.sensor.Read(w.queues.Lengths()) && ctrl.q == w.table
      modifies inter.Lanes(), ctrl`q
      ensures World(inter.Snapshot(), ctrl.q, d.end, w.departed + left, w.total + reward, w.step + 1, tick)
              == Settle(c, w, d, (old(inter.Snapshot()), tick))
    {
      ghost var sv := ServePhase(inter.Snapshot(), c.actions[d.action].phase,
                                 Capacity(c.serviceRate, c.actions[d.action].duration), d.end);
      left := inter.Serve(ctrl.actions[d.action].phase, ctrl.actions[d.action].duration, d.end);
      var lengths := inter.QueueLengths();
      reward := Reward(|left|, lengths);
      if train {
        ctrl.Update(s, d.action, Reward(|left|, lengths), sensor.Read(lengths));
      }
      LearnFrom(c, w, d, tick, sv, inter.Snapshot(), ctrl.q, left, reward);
    }

    /** A decision step from world w, whose lanes and table are the current ones, after
        its decision d: vehicles arrive until d.end, then the phase is served and scored. */
    method Advance(ctrl: QLearning, ghost c: Config, train: bool, inp: Inputs, ghost w: World, s: State,
                   d: Decision, t: real, departed: seq<Vehicle>, total: int, step: nat, tick: nat)
      returns (departed': seq<Vehicle>, total': int, step': nat, tick': nat)
      requires inter.Valid() && c == Configure(ctrl, train, c.maxT) && WellFormed(c) && d.action < |c.actions|
      requires s == c.sensor.Read(w.queues.Lengths()) && ctrl.q == w.table
      requires w.queues == inter.Snapshot() && w.t == t && w.departed == departed && w.total == total
      requires w.step == step && w.tick == tick
      modifies inter.Lanes(), ctrl`q
      ensures World(inter.Snapshot(), ctrl.q, d.end, departed', total', step', tick')
              == Settle(c, w, d, ArriveDuring(w.queues, w.t, d.end, c.dt, inp.arrivals, w.tick))
    {
      tick' := ArrivePhase(t, d.end, inp.arrivals, tick);
      var left, reward := ServeAndLearn(ctrl, c, train, w, s, d, tick');
      departed', total', step' := departed + left, total + reward, step + 1;
    }

    /** One decision step of run: observe, choose, arrivals, serve, reward, learn, advance. */
    method Decide(ctrl: QLearning, ghost c: Config, train: bool, inp: Inputs, ghost w: World,
                  t: real, departed: seq<Vehicle>, total: int, step: nat, tick: nat)
      returns (t': real, departed': seq<Vehicle>, total': int, step': nat, tick': nat)
      requires inter.Valid() && c == Configure(ctrl, train, c.maxT)
      requires WellFormed(c) && Fits(c, inp)
      requires w == World(inter.Snapshot(), ctrl.q, t, departed, total, step, tick)
      modifies inter.Lanes(), ctrl`q
      ensures World(inter.Snapshot(), ctrl.q, t', departed', total', step', tick') == Step(c, inp, w)
      ensures Configure(ctrl, train, c.maxT) == c
    {
      var s, d := Observe(ctrl, c, train, inp, w, t, step);
      departed', total', step', tick' := Advance(ctrl, c, train, inp, w, s, d, t, departed, total, step, tick);
      t' := d.end;
      StepFromSettle(c, inp, w, d, World(inter.Snapshot(), ctrl.q, t', departed', total', step', tick'));
    }

    /** One episode: decision steps while t < maxT. Its outcome, the lanes it leaves and
        the controller's table are those of Episode from the current lanes and table. */
    method Run(ctrl: QLearning, maxT: real, train: bool, inp: Inputs) returns (res: RunResult)
      requires inter.Valid()
      requires WellFormed(Configure(ctrl, train, maxT)) && Fits(Configure(ctrl, train, maxT), inp)
      modifies inter.Lanes(), ctrl`q
      ensures var w := Episode(Configure(ctrl, train, maxT), inp, Start(old(inter.Snapshot()), old(ctrl.q)));
              inter.Snapshot() == w.queues && ctrl.q == w.table && res == Outcome(w)
    {
      ghost var c := Configure(ctrl, train, maxT);
      ghost var w0 := Start(inter.Snapshot(), ctrl.q);
      var t := 0.0;
      var departed := [];
      var total := 0;
      var step, tick := 0, 0;
      while t < maxT
        invariant Configure(ctrl, train, maxT) == c
        invariant Departed(departed)
        invariant Episode(c, inp, World(inter.Snapshot(), ctrl.q, t, departed, total, step, tick)) == Episode(c, inp, w0)
        decreases Steps(t, maxT, MinDuration(c.actions))
      {
        ghost var w := World(inter.Snapshot(), ctrl.q, t, departed, total, step, tick);
        t, departed, total, step, tick := Decide(ctrl, c, train, inp, w, t, departed, total, step, tick);
        EpisodeStep(c, inp, w);
        StepsShrink(w.t, t, maxT, MinDuration(c.actions));
      }
      res := RunResult(|departed|, AvgWait(departed), total);
    }
  }
}
