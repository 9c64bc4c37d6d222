/** Discretisation of the queue state into the learner's observation (class Sensor of
    smart_traffic_ai.py). */
module Sensors {
  import opened Intersections

  /** The observation: the bins of the N+S and E+W queue sums and a three-valued flag
      saying which pair, if either, is longer by more than the threshold. */
  datatype State = State(nsBin: nat, ewBin: nat, imbalance: int)

  /** The default bin edges. */
  const DefaultBins: seq<int> := [0, 3, 6, 10, 20]

  /** How much longer one pair's queues must be for the imbalance flag to be set. */
  const ImbalanceThreshold: int := 3

  datatype Sensor = Sensor(bins: seq<int>)
  {
    /** The scan of bins from index i on: the first edge at or above v, or |bins| when
        there is none (DiscFromScan states it). */
    function DiscFrom(v: int, i: nat): (r: nat)
      requires i <= |bins|
      ensures i <= r <= |bins|
      decreases |bins| - i
    {
      if i == |bins| then |bins|
      else if v <= bins[i] then i
      else DiscFrom(v, i + 1)
    }

    /** The bin of v: the least index whose edge is at least v, or |bins| if v exceeds
        every edge (DiscScan states it). */
    function Disc(v: int): (r: nat)
      ensures r <= |bins|
    {
      DiscFrom(v, 0)
    }

    /** The observation of a queue-length snapshot. */
    function Read(q: Counts): (st: State)
      ensures st.nsBin == Disc(q.n + q.s) && st.ewBin == Disc(q.e + q.w)
      ensures st.imbalance == 1 <==> q.n + q.s - (q.e + q.w) > ImbalanceThreshold
      ensures st.imbalance == -1 <==> q.e + q.w - (q.n + q.s) > ImbalanceThreshold
      ensures st.imbalance == 0 <==> -ImbalanceThreshold <= q.n + q.s - (q.e + q.w) <= ImbalanceThreshold
    {
      var ns := q.n + q.s;
      var ew := q.e + q.w;
      var diff := if ns - ew > ImbalanceThreshold then 1 else if ew - ns > ImbalanceThreshold then -1 else 0;
      State(Disc(ns), Disc(ew), diff)
    }
  }

  /** The scan from i stops at the first edge from i on that is at least v: every edge it
      passes is below v, and the edge it stops at, if any, is at least v. */
  lemma {:induction false} DiscFromScan(sensor: Sensor, v: int, i: nat)
    requires i <= |sensor.bins|
    ensures var r := sensor.DiscFrom(v, i);
            && (forall k | i <= k < r :: sensor.bins[k] < v)
            && (r < |sensor.bins| ==> v <= sensor.bins[r])
    decreases |sensor.bins| - i
  {
    if i < |sensor.bins| && v > sensor.bins[i] {
      DiscFromScan(sensor, v, i + 1);
    }
  }

  /** The bin of v is the least index whose edge is at least v, or |bins| if v exceeds
      every edge. */
  lemma DiscScan(sensor: Sensor, v: int)
    ensures var r := sensor.Disc(v);
            && (forall k | 0 <= k < r :: sensor.bins[k] < v)
            && (r < |sensor.bins| ==> v <= sensor.bins[r])
  {
    DiscFromScan(sensor, v, 0);
  }

  /** The contract of Disc fixes its value: any index with those two properties is it. */
  lemma DiscUnique(sensor: Sensor, v: int, r: nat)
    requires r <= |sensor.bins|
    requires forall k | 0 <= k < r :: sensor.bins[k] < v
    requires r < |sensor.bins| ==> v <= sensor.bins[r]
    ensures sensor.Disc(v) == r
  {
    DiscScan(sensor, v);
  }

  /** A larger sum never falls in a lower bin, whatever the edges. */
  lemma DiscMonotone(sensor: Sensor, v: int, v': int)
    requires v <= v'
    ensures sensor.Disc(v) <= sensor.Disc(v')
  {
    DiscScan(sensor, v);
    DiscScan(sensor, v');
  }

  /** The default edges: 0 is bin 0, 3 is bin 1, 4 is bin 2, 20 is bin 4, and 21 is the
      overflow bin 5. */
  lemma DefaultDisc()
    ensures var sensor := Sensor(DefaultBins);
            && sensor.Disc(0) == 0 && sensor.Disc(3) == 1 && sensor.Disc(4) == 2
            && sensor.Disc(20) == 4 && sensor.Disc(21) == 5
  {
    var sensor := Sensor(DefaultBins);
    DiscUnique(sensor, 0, 0);
    DiscUnique(sensor, 3, 1);
    DiscUnique(sensor, 4, 2);
    DiscUnique(sensor, 20, 4);
    DiscUnique(sensor, 21, 5);
  }

  /** Swapping the two pairs swaps the bins and flips the imbalance flag. */
  lemma ReadSwap(sensor: Sensor, q: Counts)
    ensures var st := sensor.Read(q);
            var sw := sensor.Read(Counts(q.e, q.w, q.n, q.s));
            sw == State(st.ewBin, st.nsBin, -st.imbalance)
  {
  }
}
