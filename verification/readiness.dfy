/**
 The deposit-readiness verdict: a pure function of the IndividualPool probe,
 the CooperativePool probe and the aggregator record, producing whether
 deposits can go ahead and the ordered list of issues that block them.
 */
module Readiness {
  import opened Wrappers
  import opened Contracts

  /** The four issues the verdict can raise. */
  datatype Issue = IndividualPoolPaused | AggregatorPaused | AggregatorDepositsPaused | NoVaults

  /** Position of each issue in the summary. */
  function Rank(i: Issue): (n: nat)
    ensures n < 4
  {
    match i
    case IndividualPoolPaused => 0
    case AggregatorPaused => 1
    case AggregatorDepositsPaused => 2
    case NoVaults => 3
  }

  /** The issue text as it is listed in the summary. */
  function Message(i: Issue): string {
    match i
    case IndividualPoolPaused => "\U{274C} IndividualPool is paused"
    case AggregatorPaused => "\U{274C} YieldAggregator is paused"
    case AggregatorDepositsPaused => "\U{274C} YieldAggregator deposits are paused"
    case NoVaults => "\U{274C} No vaults configured in YieldAggregator"
  }

  /** Distinct issues are listed with distinct texts. */
  lemma MessageInjective(i: Issue, j: Issue)
    ensures Message(i) == Message(j) ==> i == j
  {
  }

  /** Every issue, in summary order. */
  const AllIssues: seq<Issue> := [IndividualPoolPaused, AggregatorPaused, AggregatorDepositsPaused, NoVaults]

  /** Issues listed in strictly increasing rank: fixed order, no repeats. */
  predicate Ordered(s: seq<Issue>) {
    forall a, b :: 0 <= a < b < |s| ==> Rank(s[a]) < Rank(s[b])
  }

  /** Python truthiness of a pause probe: `None` is falsy like `False`. */
  predicate Truthy(probe: Option<bool>) {
    probe == Some(true)
  }

  /** Reference condition for each issue, read off the guards one by one.
      A present aggregator record is a non-empty dict and so always truthy. */
  predicate Raised(i: Issue, ind: Option<bool>, agg: Option<AggState>) {
    match i
    case IndividualPoolPaused => Truthy(ind)
    case AggregatorPaused => agg.Some? && agg.value.paused
    case AggregatorDepositsPaused => agg.Some? && agg.value.depositsPaused
    case NoVaults => agg.Some? && agg.value.numVaults == 0
  }

  /** The elements of `xs` whose guard holds, in their original order: the
      reference the evaluator's issue list is compared with. */
  function RaisedAmong(xs: seq<Issue>, ind: Option<bool>, agg: Option<AggState>): (r: seq<Issue>)
    ensures |r| <= |xs|
    ensures forall i :: i in r <==> i in xs && Raised(i, ind, agg)
    ensures Ordered(xs) ==> Ordered(r)
  {
    if xs == [] then []
    else
      var rest := RaisedAmong(xs[1..], ind, agg);
      assert forall i :: i in xs[1..] ==> i in xs;
      assert Ordered(xs) ==> forall i :: i in xs[1..] ==> Rank(xs[0]) < Rank(i);
      if Raised(xs[0], ind, agg) then [xs[0]] + rest else rest
  }

  /** The verdict: whether deposits should work, and the blocking issues. */
  datatype Verdict = Verdict(canDeposit: bool, issues: seq<Issue>)

  /** One guarded block: when the guard holds, deposits are blocked and the
      issue appended; otherwise the verdict is left as it is. */
  function Flag(v: Verdict, guard: bool, issue: Issue): Verdict {
    if guard then Verdict(false, v.issues + [issue]) else v
  }

  /** The evaluator, block by block in the order the script runs them. The
      CooperativePool probe is in scope but never consulted. */
  function Evaluate(ind: Option<bool>, coop: Option<bool>, agg: Option<AggState>): (r: Verdict)
    ensures r.canDeposit <==> r.issues == []
    ensures r.canDeposit <==> !Truthy(ind) && (agg.None? || (!agg.value.paused && !agg.value.depositsPaused && agg.value.numVaults != 0))
    ensures forall i :: i in r.issues <==> Raised(i, ind, agg)
    ensures Ordered(r.issues)
  {
    var v := Flag(Verdict(true, []), Truthy(ind), IndividualPoolPaused);
    match agg
    case None => v
    case Some(s) =>
      var v := Flag(v, s.paused, AggregatorPaused);
      var v := Flag(v, s.depositsPaused, AggregatorDepositsPaused);
      Flag(v, s.numVaults == 0, NoVaults)
  }

  /** The issue list is the summary-order list of every issue whose
      guard holds, so it has at most four entries, none repeated. */
  lemma {:induction false} EvaluateIsReference(ind: Option<bool>, coop: Option<bool>, agg: Option<AggState>)
    ensures Evaluate(ind, coop, agg).issues == RaisedAmong(AllIssues, ind, agg)
    ensures |Evaluate(ind, coop, agg).issues| <= 4
  {
    var tail := [NoVaults];
    var deps := [AggregatorDepositsPaused] + tail;
    var aggs := [AggregatorPaused] + deps;
    assert AllIssues == [IndividualPoolPaused] + aggs;
    RaisedAmongCons(NoVaults, [], ind, agg);
    RaisedAmongCons(AggregatorDepositsPaused, tail, ind, agg);
    RaisedAmongCons(AggregatorPaused, deps, ind, agg);
    RaisedAmongCons(IndividualPoolPaused, aggs, ind, agg);
    EvaluateUnfolded(ind, coop, agg);
    var o0, o1, o2, o3 := Opt(IndividualPoolPaused, ind, agg), Opt(AggregatorPaused, ind, agg),
                          Opt(AggregatorDepositsPaused, ind, agg), Opt(NoVaults, ind, agg);
    ConcatAssoc(o0, o1, o2, o3);
  }

  /** The one-element list of `i` when its guard holds, empty otherwise. */
  function Opt(i: Issue, ind: Option<bool>, agg: Option<AggState>): seq<Issue> {
    if Raised(i, ind, agg) then [i] else []
  }

  /** The evaluator appends the issues of the four guards in turn. */
  lemma EvaluateUnfolded(ind: Option<bool>, coop: Option<bool>, agg: Option<AggState>)
    ensures Evaluate(ind, coop, agg).issues
            == Opt(IndividualPoolPaused, ind, agg) + Opt(AggregatorPaused, ind, agg)
               + Opt(AggregatorDepositsPaused, ind, agg) + Opt(NoVaults, ind, agg)
  {
  }

  lemma ConcatAssoc(a: seq<Issue>, b: seq<Issue>, c: seq<Issue>, d: seq<Issue>)
    ensures a + b + c + d == a + (b + (c + (d + [])))
  {
  }

  /** One unfolding of `RaisedAmong` at the head of a list. */
  lemma RaisedAmongCons(x: Issue, xs: seq<Issue>, ind: Option<bool>, agg: Option<AggState>)
    ensures RaisedAmong([x] + xs, ind, agg) == Opt(x, ind, agg) + RaisedAmong(xs, ind, agg)
  {
  }

  /** An unknown IndividualPool status raises nothing and blocks nothing:
      the verdict is the one for an active pool. */
  lemma UnknownIndividualStatusIsActive(coop: Option<bool>, agg: Option<AggState>)
    ensures Evaluate(None, coop, agg) == Evaluate(Some(false), coop, agg)
    ensures IndividualPoolPaused !in Evaluate(None, coop, agg).issues
  {
  }

  /** A failed IndividualPool probe never blocks deposits: the verdict is
      that of a pool reported active. */
  lemma FailedProbeNeverBlocks(call: Call<bool>, coop: Option<bool>, agg: Option<AggState>)
    ensures call.Raised? ==> Evaluate(ProbePaused(call), coop, agg) == Evaluate(Some(false), coop, agg)
    ensures IndividualPoolPaused in Evaluate(ProbePaused(call), coop, agg).issues <==> call == Returned(true)
  {
  }

  /** The CooperativePool probe, whatever it is, changes neither output. */
  lemma CooperativePoolIgnored(ind: Option<bool>, c1: Option<bool>, c2: Option<bool>, agg: Option<AggState>)
    ensures Evaluate(ind, c1, agg) == Evaluate(ind, c2, agg)
  {
  }

  /** Without an aggregator record only the IndividualPool issue can
      appear, and the verdict rests on that pool alone. */
  lemma MissingAggregatorRaisesNothing(ind: Option<bool>, coop: Option<bool>)
    ensures Evaluate(ind, coop, None).issues == (if Truthy(ind) then [IndividualPoolPaused] else [])
    ensures Evaluate(ind, coop, None).canDeposit <==> !Truthy(ind)
  {
  }

  /** All pools active and three vaults configured: deposits go ahead. */
  lemma ScenarioAllClear(coop: Option<bool>, a: Address, b: Address, c: Address)
    ensures Evaluate(Some(false), coop, Some(AggState(false, false, 3, [a, b, c]))) == Verdict(true, [])
  {
  }

  /** IndividualPool paused and no aggregator record: exactly that issue. */
  lemma ScenarioIndividualPaused(coop: Option<bool>)
    ensures Evaluate(Some(true), coop, None) == Verdict(false, [IndividualPoolPaused])
  {
  }

  /** Everything active but no vaults configured: exactly the vault issue. */
  lemma ScenarioNoVaults(coop: Option<bool>)
    ensures Evaluate(Some(false), coop, Some(AggState(false, false, 0, []))) == Verdict(false, [NoVaults])
  {
  }

  /** Everything blocked at once: all four issues, in summary order. */
  lemma ScenarioEverythingBlocked(coop: Option<bool>)
    ensures Evaluate(Some(true), coop, Some(AggState(true, true, 0, []))) == Verdict(false, AllIssues)
  {
  }
}
