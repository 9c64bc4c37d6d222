/** The tabular Q-learning controller (class QLearning of smart_traffic_ai.py). */
module Learning {
  import opened Intersections
  import opened Sensors

  /** A controller action: which phase gets green and for how long. */
  datatype Action = Action(phase: Phase, duration: real)

  /** The value table, keyed by observation and action index; absent keys read as 0. */
  type Table = map<(State, nat), real>

  /** The value of action a in state s: the stored entry, 0 when there is none. */
  function QValue(table: Table, s: State, a: nat): real
  {
    if (s, a) in table then table[(s, a)] else 0.0
  }

  /** Python's max over a sequence: the first index holding the largest value. The scan
      keeps its current best and moves only to a strictly larger value. */
  function ArgMax(vs: seq<real>): (i: nat)
    requires |vs| > 0
    ensures i < |vs|
    ensures forall j | 0 <= j < |vs| :: vs[j] <= vs[i]
    ensures forall j | 0 <= j < i :: vs[j] < vs[i]
    decreases |vs|
  {
    if |vs| == 1 then 0
    else
      var k := ArgMax(vs[..|vs| - 1]);
      if vs[|vs| - 1] > vs[k] then |vs| - 1 else k
  }

  /** The values of actions 0 .. n-1 in state s. */
  function Values(table: Table, s: State, n: nat): (vs: seq<real>)
    ensures |vs| == n
    ensures forall a | 0 <= a < n :: vs[a] == QValue(table, s, a)
  {
    seq(n, (a: int) requires 0 <= a => QValue(table, s, a))
  }

  /** The greedy action: the lowest index whose value is the largest. */
  function Greedy(table: Table, s: State, n: nat): (a: nat)
    requires n > 0
    ensures a < n
    ensures forall b | 0 <= b < n :: QValue(table, s, b) <= QValue(table, s, a)
    ensures forall b | 0 <= b < a :: QValue(table, s, b) < QValue(table, s, a)
  {
    ArgMax(Values(table, s, n))
  }

  /** The largest value in state s over the n actions. */
  function BestValue(table: Table, s: State, n: nat): (m: real)
    requires n > 0
    ensures forall b | 0 <= b < n :: QValue(table, s, b) <= m
    ensures exists b | 0 <= b < n :: QValue(table, s, b) == m
  {
    QValue(table, s, Greedy(table, s, n))
  }

  /** Epsilon-greedy selection, with the random draws passed in: a uniform draw below
      epsilon explores with the index pick, otherwise the greedy action is taken. */
  function Policy(table: Table, epsilon: real, n: nat, s: State, draw: real, pick: nat): (a: nat)
    requires n > 0 && pick < n
    ensures a < n
    ensures draw < epsilon ==> a == pick
    ensures draw >= epsilon ==> forall b | 0 <= b < n :: QValue(table, s, b) <= QValue(table, s, a)
    ensures draw >= epsilon ==> forall b | 0 <= b < a :: QValue(table, s, b) < QValue(table, s, a)
  {
    if draw < epsilon then pick else Greedy(table, s, n)
  }

  /** The temporal-difference update of the entry (s, a) after reward r and successor
      state ns; every other entry keeps its value. */
  function TdUpdate(table: Table, alpha: real, gamma: real, n: nat, s: State, a: nat, r: int, ns: State): (t': Table)
    requires n > 0
    ensures QValue(t', s, a) == QValue(table, s, a) + alpha * (r as real + gamma * BestValue(table, ns, n) - QValue(table, s, a))
    ensures forall s': State, a': nat | (s', a') != (s, a) :: QValue(t', s', a') == QValue(table, s', a')
    ensures t'.Keys == table.Keys + {(s, a)}
  {
    var cur := QValue(table, s, a);
    var best := BestValue(table, ns, n);
    table[(s, a) := cur + alpha * (r as real + gamma * best - cur)]
  }

  /** The greedy action is the only lowest maximiser. */
  lemma GreedyUnique(table: Table, s: State, n: nat, a: nat)
    requires 0 < n && a < n
    requires forall b | 0 <= b < n :: QValue(table, s, b) <= QValue(table, s, a)
    requires forall b | 0 <= b < a :: QValue(table, s, b) < QValue(table, s, a)
    ensures Greedy(table, s, n) == a
  {
    var g := Greedy(table, s, n);
    assert !(g < a) && !(a < g);
  }

  class QLearning {
    const actions: seq<Action>
    const alpha: real
    const gamma: real
    var epsilon: real
    var q: Table

    /** A controller over the given actions with an empty table. */
    constructor (actions: seq<Action>, alpha: real, gamma: real, epsilon: real)
      ensures this.actions == actions && this.alpha == alpha && this.gamma == gamma && this.epsilon == epsilon
      ensures q == map[]
    {
      this.actions := actions;
      this.alpha, this.gamma, this.epsilon := alpha, gamma, epsilon;
      q := map[];
    }

    /** The action index for state s, given the uniform draw and the index randrange
        would return. */
    function Choose(s: State, draw: real, pick: nat): nat
      reads this
      requires |actions| > 0 && pick < |actions|
    {
      Policy(q, epsilon, |actions|, s, draw, pick)
    }

    /** Learns from one transition: only the entry (s, a) changes. */
    method Update(s: State, a: nat, r: int, ns: State)
      requires |actions| > 0
      modifies this`q
      ensures q == TdUpdate(old(q), alpha, gamma, |actions|, s, a, r, ns)
    {
      var cur := QValue(q, s, a);
      var best := BestValue(q, ns, |actions|);
      ghost var expected := TdUpdate(q, alpha, gamma, |actions|, s, a, r, ns);
      q := q[(s, a) := cur + alpha * (r as real + gamma * best - cur)];
      assert q == expected;
    }
  }
}
