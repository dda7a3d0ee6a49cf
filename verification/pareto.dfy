/** The Pareto frontier on quality, cost and latency. */
module Pareto {
  import opened Options
  import opened StringOrder
  import opened Texts

  const MAX_PARETO_CANDIDATES := 1_000

  datatype Metrics = Metrics(quality: real, cost: real, latency: real)

  type Candidates = map<string, Metrics>

  predicate MetricsValid(metrics: Metrics) {
    0.0 <= metrics.quality <= 1.0 && 0.0 <= metrics.cost && 0.0 <= metrics.latency
  }

  predicate InputValid(candidates: Candidates) {
    && 0 < |candidates| <= MAX_PARETO_CANDIDATES
    && forall id :: id in candidates ==> !Blank(id) && MetricsValid(candidates[id])
  }

  /** At least as good on every metric and different on some. */
  predicate Dominates(left: Metrics, right: Metrics) {
    && left.quality >= right.quality
    && left.cost <= right.cost
    && left.latency <= right.latency
    && left != right
  }

  predicate Dominated(candidates: Candidates, id: string)
    requires id in candidates
  {
    exists other :: other in candidates && other != id && Dominates(candidates[other], candidates[id])
  }

  ghost predicate Ascending(ids: seq<string>) {
    forall i, j :: 0 <= i < j < |ids| ==> KeyLeq(ids[i], ids[j]) && ids[i] != ids[j]
  }

  /** The frontier members among some ids. */
  ghost predicate Kept(candidates: Candidates, ids: seq<string>, kept: seq<string>)
    requires forall id :: id in ids ==> id in candidates
  {
    forall id :: id in kept <==> id in ids && !Dominated(candidates, id)
  }

  lemma KeepOne(candidates: Candidates, ids: seq<string>, kept: seq<string>, n: nat)
    requires (forall id :: id in ids ==> id in candidates) && n < |ids| && Ascending(ids)
    requires Kept(candidates, ids[..n], kept) && Ascending(kept)
    ensures if Dominated(candidates, ids[n]) then Kept(candidates, ids[..n + 1], kept)
            else Kept(candidates, ids[..n + 1], kept + [ids[n]]) && Ascending(kept + [ids[n]])
  {
    hide KeyLeq, Dominated;
    assert ids[..n + 1] == ids[..n] + [ids[n]];
    forall i | 0 <= i < |kept| ensures KeyLeq(kept[i], ids[n]) && kept[i] != ids[n] {
      assert kept[i] in ids[..n];
    }
  }

  /** The ids of the frontier in order; nothing when the input is malformed. */
  method NondominatedIds(candidates: Candidates) returns (result: Option<seq<string>>)
    ensures result.Some? <==> InputValid(candidates)
    ensures result.Some? ==> Ascending(result.value)
    ensures result.Some? ==> forall id :: id in result.value <==> id in candidates && !Dominated(candidates, id)
  {
    if !InputValid(candidates) {
      return None;
    }
    var ids, frontier := SortedKeys(candidates.Keys), [];
    SortedKeysSorted(candidates.Keys);
    assert Ascending(ids);
    hide InputValid, KeyLeq, Ascending, Kept, SortedKeys;
    StartEmpty(candidates);
    for n := 0 to |ids|
      invariant Kept(candidates, ids[..n], frontier) && Ascending(frontier)
    {
      KeepOne(candidates, ids, frontier, n);
      if !Dominated(candidates, ids[n]) {
        frontier := frontier + [ids[n]];
      }
    }
    assert ids[..|ids|] == ids;
    KeptAll(candidates, ids, frontier);
    return Some(frontier);
  }

  lemma StartEmpty(candidates: Candidates)
    ensures Kept(candidates, [], []) && Ascending([])
  {
  }

  lemma KeptAll(candidates: Candidates, ids: seq<string>, kept: seq<string>)
    requires (forall id :: id in ids <==> id in candidates) && Kept(candidates, ids, kept)
    ensures forall id :: id in kept <==> id in candidates && !Dominated(candidates, id)
  {
  }

  ghost function Dominators(candidates: Candidates, id: string): set<string>
    requires id in candidates
  {
    set other | other in candidates && Dominates(candidates[other], candidates[id])
  }

  /** Whatever is left out is beaten by something that is not. */
  lemma {:induction false} EveryCandidateCovered(candidates: Candidates, id: string) returns (best: string)
    requires id in candidates
    ensures best in candidates && !Dominated(candidates, best)
    ensures best == id || Dominates(candidates[best], candidates[id])
    decreases |Dominators(candidates, id)|
  {
    if !Dominated(candidates, id) {
      return id;
    }
    var other :| other in candidates && other != id && Dominates(candidates[other], candidates[id]);
    assert other in Dominators(candidates, id) - Dominators(candidates, other);
    assert Dominators(candidates, other) <= Dominators(candidates, id);
    Smaller(Dominators(candidates, other), Dominators(candidates, id));
    best := EveryCandidateCovered(candidates, other);
  }

  lemma Smaller(some: set<string>, all: set<string>)
    requires some < all
    ensures |some| < |all|
  {
    assert all == some + (all - some);
  }

  /** The frontier of a valid input is never empty, and covers all that it leaves out. */
  lemma FrontierCovers(candidates: Candidates, frontier: set<string>)
    requires InputValid(candidates)
    requires forall id :: id in frontier <==> id in candidates && !Dominated(candidates, id)
    ensures frontier != {}
    ensures forall id, other :: id in frontier && other in frontier ==>
      !Dominates(candidates[other], candidates[id])
    ensures forall id :: id in candidates && id !in frontier ==>
      exists best :: best in frontier && Dominates(candidates[best], candidates[id])
  {
    assert candidates.Keys != {};
    var some :| some in candidates;
    var best := EveryCandidateCovered(candidates, some);
    assert best in frontier;
    forall id | id in candidates && id !in frontier
      ensures exists best :: best in frontier && Dominates(candidates[best], candidates[id])
    {
      var covering := EveryCandidateCovered(candidates, id);
      assert covering in frontier;
    }
  }

  datatype Metric = QualityMetric | CostMetric | LatencyMetric

  /** A larger gain is better: quality counts for a candidate, cost and latency count against it. */
  function Gain(metrics: Metrics, metric: Metric): real {
    match metric
    case QualityMetric => metrics.quality
    case CostMetric => 0.0 - metrics.cost
    case LatencyMetric => 0.0 - metrics.latency
  }

  ghost predicate BestAmong(candidates: Candidates, best: string, metric: Metric)
    requires best in candidates
  {
    forall id :: id in candidates ==> Gain(candidates[id], metric) <= Gain(candidates[best], metric)
  }

  lemma {:induction false} BestExists(candidates: Candidates, metric: Metric) returns (best: string)
    requires candidates != map[]
    ensures best in candidates && BestAmong(candidates, best, metric)
    decreases |candidates|
  {
    var some :| some in candidates;
    best := some;
    var rest := candidates - {some};
    if rest != map[] {
      var other := BestExists(rest, metric);
      if Gain(candidates[other], metric) > Gain(candidates[some], metric) {
        best := other;
      }
      forall id | id in candidates ensures Gain(candidates[id], metric) <= Gain(candidates[best], metric) {
        assert id == some || id in rest;
      }
    }
  }

  /** Some frontier member has the greatest quality of all candidates, some the least cost, some the least latency. */
  lemma BestOnFrontier(candidates: Candidates, frontier: set<string>)
    returns (highest: string, cheapest: string, fastest: string)
    requires InputValid(candidates)
    requires forall id :: id in frontier <==> id in candidates && !Dominated(candidates, id)
    ensures {highest, cheapest, fastest} <= frontier
    ensures forall id :: id in candidates ==>
      && candidates[id].quality <= candidates[highest].quality
      && candidates[id].cost >= candidates[cheapest].cost
      && candidates[id].latency >= candidates[fastest].latency
  {
    highest := BestKept(candidates, QualityMetric);
    cheapest := BestKept(candidates, CostMetric);
    fastest := BestKept(candidates, LatencyMetric);
    hide Dominated;
    assert forall id :: id in candidates ==>
      && Gain(candidates[id], QualityMetric) <= Gain(candidates[highest], QualityMetric)
      && Gain(candidates[id], CostMetric) <= Gain(candidates[cheapest], CostMetric)
      && Gain(candidates[id], LatencyMetric) <= Gain(candidates[fastest], LatencyMetric);
  }

  lemma BestKept(candidates: Candidates, metric: Metric) returns (best: string)
    requires candidates != map[]
    ensures best in candidates && !Dominated(candidates, best) && BestAmong(candidates, best, metric)
  {
    var top := BestExists(candidates, metric);
    best := EveryCandidateCovered(candidates, top);
    hide Dominated;
    assert Gain(candidates[top], metric) <= Gain(candidates[best], metric);
  }
}
