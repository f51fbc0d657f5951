/** The summary under the server list: count, total monthly cost and total
    bandwidth, average x-factor, best cost per GB and average monthly cost. */
module SummarySection {
  import opened Wrappers
  import opened ServerModel

  /** The aggregates the section shows. */
  datatype Summary = Summary(
    count: nat,
    totalCost: real,
    totalBandwidth: real,
    avgXFactor: real,
    bestCostPerGB: real,
    avgMonthlyCost: real)

  /** `reduce((sum, s) => sum + f(s), 0)`: a left fold from 0. */
  function SumBy(servers: seq<ServerRecord>, f: ServerRecord -> real): real {
    if servers == [] then 0.0
    else SumBy(servers[..|servers| - 1], f) + f(servers[|servers| - 1])
  }

  /** `Math.min(...servers.map(f))` on a non-empty list. */
  function MinBy(servers: seq<ServerRecord>, f: ServerRecord -> real): (m: real)
    requires servers != []
    ensures forall i :: 0 <= i < |servers| ==> m <= f(servers[i])
    ensures exists i :: 0 <= i < |servers| && m == f(servers[i])
  {
    var last := f(servers[|servers| - 1]);
    if |servers| == 1 then last
    else
      var m := MinBy(servers[..|servers| - 1], f);
      assert forall i :: 0 <= i < |servers| - 1 ==> servers[..|servers| - 1][i] == servers[i];
      if m <= last then m else last
  }

  function MonthlyCost(s: ServerRecord): real { s.monthlyCostBDT }
  function BandwidthOf(s: ServerRecord): real { s.bandwidth }
  function XFactorOf(s: ServerRecord): real { s.xFactor }
  function CostPerGBOf(s: ServerRecord): real { s.costPerGB }

  /** The section: nothing for an empty list, otherwise the aggregates. */
  function SummaryOf(servers: seq<ServerRecord>): (r: Option<Summary>)
    ensures r.None? <==> servers == []
    ensures r.Some? ==> r.value.count == |servers|
    ensures r.Some? ==> r.value.totalCost == SumBy(servers, MonthlyCost)
    ensures r.Some? ==> r.value.totalBandwidth == SumBy(servers, BandwidthOf)
    ensures r.Some? ==> r.value.avgXFactor * (|servers| as real) == SumBy(servers, XFactorOf)
    ensures r.Some? ==> r.value.avgMonthlyCost * (|servers| as real) == r.value.totalCost
    ensures r.Some? ==> (forall i :: 0 <= i < |servers| ==> r.value.bestCostPerGB <= servers[i].costPerGB)
    ensures r.Some? ==> exists i :: 0 <= i < |servers| && r.value.bestCostPerGB == servers[i].costPerGB
  {
    if servers == [] then None
    else
      var n := |servers| as real;
      var totalCost := SumBy(servers, MonthlyCost);
      var best := MinBy(servers, CostPerGBOf);
      assert forall i :: 0 <= i < |servers| ==> CostPerGBOf(servers[i]) == servers[i].costPerGB;
      Some(Summary(|servers|, totalCost, SumBy(servers, BandwidthOf), SumBy(servers, XFactorOf) / n, best, totalCost / n))
  }

  /** Taking out one element takes its value out of the sum. */
  lemma {:induction false} SumByRemove(s: seq<ServerRecord>, f: ServerRecord -> real, k: nat)
    requires k < |s|
    ensures SumBy(s, f) == SumBy(s[..k] + s[k + 1..], f) + f(s[k])
  {
    var n := |s|;
    if k == n - 1 {
      assert s[..k] + s[k + 1..] == s[..n - 1];
    } else {
      var init := s[..n - 1];
      SumByRemove(init, f, k);
      var rest := s[..k] + s[k + 1..];
      assert rest[..|rest| - 1] == init[..k] + init[k + 1..];
      assert rest[|rest| - 1] == s[n - 1];
    }
  }

  /** Sums do not depend on the order of the list. */
  lemma {:induction false} SumByPermutation(s: seq<ServerRecord>, t: seq<ServerRecord>, f: ServerRecord -> real)
    requires multiset(s) == multiset(t)
    ensures SumBy(s, f) == SumBy(t, f)
  {
    if s != [] {
      var n := |s|;
      var x := s[n - 1];
      DropLastMultiset(s);
      assert x in multiset(t);
      var k :| 0 <= k < |t| && t[k] == x;
      DropAtMultiset(t, k);
      SumByPermutation(s[..n - 1], t[..k] + t[k + 1..], f);
      SumByRemove(t, f, k);
    }
  }

  lemma DropLastMultiset(s: seq<ServerRecord>)
    requires s != []
    ensures multiset(s[..|s| - 1]) == multiset(s) - multiset{s[|s| - 1]}
  {
    assert s == s[..|s| - 1] + [s[|s| - 1]];
  }

  lemma DropAtMultiset(t: seq<ServerRecord>, k: nat)
    requires k < |t|
    ensures multiset(t[..k] + t[k + 1..]) == multiset(t) - multiset{t[k]}
  {
    assert t == t[..k] + [t[k]] + t[k + 1..];
  }

  /** The minimum does not depend on the order of the list. */
  lemma MinByPermutation(s: seq<ServerRecord>, t: seq<ServerRecord>, f: ServerRecord -> real)
    requires s != [] && multiset(s) == multiset(t)
    ensures t != [] && MinBy(s, f) == MinBy(t, f)
  {
    assert s[0] in multiset(t);
    var ms := MinBy(s, f);
    var i :| 0 <= i < |s| && ms == f(s[i]);
    assert s[i] in multiset(t);
    var mt := MinBy(t, f);
    var j :| 0 <= j < |t| && mt == f(t[j]);
    assert t[j] in multiset(s);
  }

  /** Every aggregate is unchanged by reordering the list. */
  lemma SummaryIgnoresOrder(s: seq<ServerRecord>, t: seq<ServerRecord>)
    requires multiset(s) == multiset(t)
    ensures SummaryOf(s) == SummaryOf(t)
  {
    assert |s| == |multiset(s)| == |multiset(t)| == |t|;
    if s != [] {
      SumByPermutation(s, t, MonthlyCost);
      SumByPermutation(s, t, BandwidthOf);
      SumByPermutation(s, t, XFactorOf);
      MinByPermutation(s, t, CostPerGBOf);
    }
  }
}
