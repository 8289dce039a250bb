/**
 What the checker shows: the status label of each contract, the aggregator
 detail block with its vault list, and the summary branch. Banners, the
 emoji of the labels and warnings and the exact line layout are not
 modelled; each line is a datatype value. Only the issue texts are strings,
 with their cross-mark prefix.
 */
module Report {
  import opened Wrappers
  import opened Contracts
  import opened Readiness

  /** The status markers the report uses. */
  datatype Label = Paused | Active | Enabled | Unknown

  /** Label of a pool contract from its pause probe. */
  function PoolLabel(probe: Option<bool>): (l: Label)
    ensures l != Enabled
    ensures l == Unknown <==> probe.None?
    ensures l == Paused <==> probe == Some(true)
  {
    match probe
    case None => Unknown
    case Some(paused) => if paused then Paused else Active
  }

  /** Label of the aggregator's own pause flag. */
  function AggregatorLabel(paused: bool): (l: Label)
    ensures l == Paused || l == Active
    ensures l == Paused <==> paused
  {
    if paused then Paused else Active
  }

  /** Label of the aggregator's deposit pause flag. */
  function DepositsLabel(depositsPaused: bool): (l: Label)
    ensures l == Paused || l == Enabled
    ensures l == Paused <==> depositsPaused
  {
    if depositsPaused then Paused else Enabled
  }

  /** Lines of the vault block. */
  datatype VaultLine = NoVaultsWarning | VaultsHeader | VaultEntry(address: Address)

  /** One entry line per address, in list order. */
  function Entries(vaults: seq<Address>): seq<VaultLine> {
    seq(|vaults|, k requires 0 <= k < |vaults| => VaultEntry(vaults[k]))
  }

  /** The vault block: the warning alone when the record counts no vault,
      otherwise the header followed by the entries. */
  function VaultLines(s: AggState): seq<VaultLine> {
    if s.numVaults == 0 then [NoVaultsWarning] else [VaultsHeader] + Entries(s.vaults)
  }

  /** The vault block built the way the script prints it, one entry per
      iteration over the vault list. */
  method RenderVaults(s: AggState) returns (lines: seq<VaultLine>)
    ensures lines == VaultLines(s)
    ensures s.numVaults == 0 ==> lines == [NoVaultsWarning]
    ensures s.numVaults != 0 ==> |lines| == |s.vaults| + 1 && lines[0] == VaultsHeader
    ensures s.numVaults != 0 ==> forall k :: 0 <= k < |s.vaults| ==> lines[k + 1] == VaultEntry(s.vaults[k])
  {
    if s.numVaults == 0 {
      return [NoVaultsWarning];
    }
    lines := [VaultsHeader];
    var i := 0;
    while i < |s.vaults|
      invariant 0 <= i <= |s.vaults|
      invariant lines == [VaultsHeader] + Entries(s.vaults[..i])
    {
      assert Entries(s.vaults[..i + 1]) == Entries(s.vaults[..i]) + [VaultEntry(s.vaults[i])];
      lines := lines + [VaultEntry(s.vaults[i])];
      i := i + 1;
    }
    assert s.vaults[..i] == s.vaults;
  }

  /** The addresses a block of vault lines lists, in order. */
  function ListedVaults(lines: seq<VaultLine>): seq<Address> {
    if lines == [] then []
    else (if lines[0].VaultEntry? then [lines[0].address] else []) + ListedVaults(lines[1..])
  }

  lemma {:induction false} ListedVaultsAppend(a: seq<VaultLine>, b: seq<VaultLine>)
    ensures ListedVaults(a + b) == ListedVaults(a) + ListedVaults(b)
  {
    if a == [] {
      assert a + b == b;
    } else {
      assert (a + b)[1..] == a[1..] + b;
      ListedVaultsAppend(a[1..], b);
    }
  }

  lemma {:induction false} ListedEntries(vaults: seq<Address>)
    ensures ListedVaults(Entries(vaults)) == vaults
  {
    if vaults != [] {
      assert Entries(vaults)[1..] == Entries(vaults[1..]);
      ListedEntries(vaults[1..]);
    }
  }

  /** For a record the inspection can build, the vault block lists every
      vault exactly once, in list order, and nothing else; the warning
      appears exactly when the list is empty. */
  lemma VaultBlockListsEveryVault(s: AggState)
    requires s.Valid()
    ensures ListedVaults(VaultLines(s)) == s.vaults
    ensures NoVaultsWarning in VaultLines(s) <==> s.vaults == []
  {
    if s.numVaults != 0 {
      ListedVaultsAppend([VaultsHeader], Entries(s.vaults));
      ListedEntries(s.vaults);
    }
  }

  /** The aggregator detail block. */
  datatype AggDetails = AggDetails(status: Label, deposits: Label, configured: nat, vaultLines: seq<VaultLine>)

  function Details(s: AggState): AggDetails {
    AggDetails(AggregatorLabel(s.paused), DepositsLabel(s.depositsPaused), s.numVaults, VaultLines(s))
  }

  /** The summary: the success line, or the issue texts in order (the fixed
      remediation hint that follows them is not modelled). */
  datatype Summary = AllPassed | IssuesFound(issues: seq<string>)

  /** The summary branch, taken on the verdict's flag as the script does:
      the success line when deposits can go ahead, otherwise the text of
      every issue, one per issue and in the verdict's order. */
  function Summarize(v: Verdict): (r: Summary)
    ensures r == AllPassed <==> v.canDeposit
    ensures r.IssuesFound? ==> |r.issues| == |v.issues|
    ensures r.IssuesFound? ==> forall k :: 0 <= k < |v.issues| ==> r.issues[k] == Message(v.issues[k])
  {
    if v.canDeposit then AllPassed
    else IssuesFound(seq(|v.issues|, k requires 0 <= k < |v.issues| => Message(v.issues[k])))
  }

  /** The whole report for one run. */
  datatype ReportData = ReportData(individual: Label, cooperative: Label, aggregator: Option<AggDetails>, summary: Summary)

  function Render(ind: Option<bool>, coop: Option<bool>, agg: Option<AggState>): ReportData {
    ReportData(
      PoolLabel(ind),
      PoolLabel(coop),
      match agg case None => None case Some(s) => Some(Details(s)),
      Summarize(Evaluate(ind, coop, agg)))
  }

  /** The summary passes exactly when no issue is raised; otherwise it lists
      the text of each raised issue in the verdict's order, never an empty
      list. */
  lemma SummaryMatchesIssues(ind: Option<bool>, coop: Option<bool>, agg: Option<AggState>)
    ensures Render(ind, coop, agg).summary == AllPassed <==> Evaluate(ind, coop, agg).issues == []
    ensures Render(ind, coop, agg).summary.IssuesFound? ==>
              |Render(ind, coop, agg).summary.issues| == |Evaluate(ind, coop, agg).issues| > 0
    ensures Render(ind, coop, agg).summary.IssuesFound? ==>
              forall k :: 0 <= k < |Evaluate(ind, coop, agg).issues| ==>
                Render(ind, coop, agg).summary.issues[k] == Message(Evaluate(ind, coop, agg).issues[k])
  {
  }

  /** A pool is shown with an unknown status exactly when its probe call
      raised, and as PAUSED exactly when the call returned true. */
  lemma ProbeLabelMatchesCall(call: Call<bool>)
    ensures PoolLabel(ProbePaused(call)) == Unknown <==> call.Raised?
    ensures PoolLabel(ProbePaused(call)) == Paused <==> call == Returned(true)
  {
  }

  /** The CooperativePool probe only changes its own label. */
  lemma CooperativeOnlyDisplayed(ind: Option<bool>, c1: Option<bool>, c2: Option<bool>, agg: Option<AggState>)
    ensures Render(ind, c1, agg) == Render(ind, c2, agg).(cooperative := PoolLabel(c1))
  {
  }

  /** IndividualPool is shown PAUSED exactly when the summary lists it as an
      issue; a status shown as unknown never becomes an issue. */
  lemma IndividualLabelMatchesVerdict(ind: Option<bool>, coop: Option<bool>, agg: Option<AggState>)
    ensures PoolLabel(ind) == Paused <==> IndividualPoolPaused in Evaluate(ind, coop, agg).issues
    ensures PoolLabel(ind) == Unknown ==> IndividualPoolPaused !in Evaluate(ind, coop, agg).issues
    ensures PoolLabel(ind) == Paused <==>
              Render(ind, coop, agg).summary.IssuesFound? && Message(IndividualPoolPaused) in Render(ind, coop, agg).summary.issues
  {
  }

  /** The aggregator block is shown exactly when a record was obtained, and
      its labels agree with the issues the verdict raises from it. */
  lemma AggregatorBlockMatchesVerdict(ind: Option<bool>, coop: Option<bool>, agg: Option<AggState>)
    ensures Render(ind, coop, agg).aggregator.Some? <==> agg.Some?
    ensures agg.Some? ==>
              && (Render(ind, coop, agg).aggregator.value.status == Paused <==> AggregatorPaused in Evaluate(ind, coop, agg).issues)
              && (Render(ind, coop, agg).aggregator.value.deposits == Paused <==> AggregatorDepositsPaused in Evaluate(ind, coop, agg).issues)
              && (NoVaultsWarning in Render(ind, coop, agg).aggregator.value.vaultLines <==> NoVaults in Evaluate(ind, coop, agg).issues)
  {
  }
}
