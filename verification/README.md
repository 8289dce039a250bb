# KhipuVault contract-state checker: deposit-readiness model

The checker script asks a Mezo testnet node three things. It asks whether
IndividualPool is paused, whether CooperativePool is paused, and what state
the YieldAggregator is in: its pause flag, its deposit-pause flag and its
list of active vaults. It then prints a verdict saying whether deposits
should work and, if not, which issues block them.

This project models that logic as pure Dafny functions over the call
outcomes:

- `Contracts` holds the outcome of one contract call (`Call<T>`: a return
  value, or the message of the exception raised), the pause probe
  (`Option<bool>`, `None` when the call raised) and the aggregator
  inspection. The inspection is all-or-nothing: it yields an `AggState`
  record whose vault count is the length of its vault list, or `None`.
- `Readiness` holds the four issues, their summary order and texts, and the
  verdict `Evaluate`. The verdict runs the script's guarded blocks in order.
  It is compared with a reference definition, `RaisedAmong`: the
  summary-order list of every issue whose guard holds.
- `Report` holds what is displayed. That is the status labels, the
  aggregator block with its vault lines (a loop method and a round-trip
  lemma), the summary branch, and lemmas relating the display to the verdict.
  `Report.Details` builds the aggregator block of lines 131-144: both
  labels, the configured-vault count and the vault lines.
  `Report.Render` assembles the whole report of `main()` from the three
  probe results. The lemmas `SummaryMatchesIssues`, `CooperativeOnlyDisplayed`,
  `IndividualLabelMatchesVerdict` and `AggregatorBlockMatchesVerdict` specify both.
- `Readiness.Message` gives the four issue texts of lines 157, 162, 166 and
  170, cross-mark prefix included. `MessageInjective` and `Report.Summarize`
  specify it.
- `Wrappers` holds `Option`.

Two points of Python truthiness are modelled explicitly. `if ind_paused:`
treats `None` like `False`, so an unknown IndividualPool status raises
nothing (`Truthy`). `if agg_state:` tests a four-key dict, which is always
truthy, so it means "a record was obtained". The CooperativePool probe is
passed to the verdict but never consulted, as in the script.

## Model

| member | source | states |
|---|---|---|
| `Contracts.ProbePaused` | scripts/check-contract-state.py:55-63 | the probe is `None` exactly when the `paused()` call raised; otherwise it carries the returned flag |
| `Contracts.InspectAggregator` | scripts/check-contract-state.py:65-82 | a record is produced if and only if all three calls returned; it then holds their values, with `numVaults` equal to the length of `vaults`; one failure yields no record at all |
| `Contracts.LaterCallsUnused` | scripts/check-contract-state.py:67-72 | the three calls run in order inside one try block: once a call has raised, the outcomes of the later calls, which are never made, do not change the result, and there is no record |
| `Readiness.MessageInjective` | scripts/check-contract-state.py:155-170 | the four issue texts are pairwise distinct, so the summary text identifies the issue |
| `Readiness.RaisedAmong` | scripts/check-contract-state.py:155-170 | reference list: keeps exactly the issues whose guard holds, never grows the input, keeps summary order |
| `Readiness.Evaluate` | scripts/check-contract-state.py:151-170 | `canDeposit` holds iff the issue list is empty; it holds iff IndividualPool is not `True` and either there is no record or the aggregator is unpaused, deposits are unpaused and vaults are configured; an issue is listed iff its guard holds; issues come in summary order |
| `Readiness.EvaluateIsReference` | scripts/check-contract-state.py:155-170 | the issue list equals the reference list of raised issues in fixed order, so there are at most four, none repeated |
| `Readiness.UnknownIndividualStatusIsActive` | scripts/check-contract-state.py:155-157 | an unknown IndividualPool status gives the same verdict as an active pool and adds no issue |
| `Readiness.FailedProbeNeverBlocks` | scripts/check-contract-state.py:55-63 | a failed IndividualPool probe gives the verdict of an active pool; the IndividualPool issue is raised exactly when the probe call returned true |
| `Readiness.CooperativePoolIgnored` | scripts/check-contract-state.py:151-170 | any two CooperativePool probe results give the same verdict and issues |
| `Readiness.MissingAggregatorRaisesNothing` | scripts/check-contract-state.py:159-170 | without a record, only the IndividualPool issue can appear, and the verdict rests on that pool alone |
| `Readiness.ScenarioAllClear` | scripts/check-contract-state.py:151-170 | all active with three vaults: deposits go ahead with no issue |
| `Readiness.ScenarioIndividualPaused` | scripts/check-contract-state.py:151-170 | IndividualPool paused and no record: exactly the IndividualPool issue |
| `Readiness.ScenarioNoVaults` | scripts/check-contract-state.py:151-170 | everything active but no vaults: exactly the no-vaults issue |
| `Readiness.ScenarioEverythingBlocked` | scripts/check-contract-state.py:151-170 | every guard true: all four issues, in summary order |
| `Report.PoolLabel` | scripts/check-contract-state.py:112-124 | a pool is shown unknown iff its probe failed, PAUSED iff it returned true, ACTIVE otherwise |
| `Report.AggregatorLabel` | scripts/check-contract-state.py:132 | the aggregator is shown PAUSED iff its pause flag is set, ACTIVE otherwise |
| `Report.DepositsLabel` | scripts/check-contract-state.py:133 | deposits are shown PAUSED iff the deposit-pause flag is set, ENABLED otherwise |
| `Report.RenderVaults` | scripts/check-contract-state.py:139-144 | with a zero vault count only the warning is emitted; otherwise a header, then exactly one line per vault in list order |
| `Report.VaultBlockListsEveryVault` | scripts/check-contract-state.py:139-144 | for a record the inspection can build, the vault block lists exactly the vault list, in order; the warning appears iff the list is empty |
| `Report.Summarize` | scripts/check-contract-state.py:172-177 | the success line iff deposits can go ahead; otherwise one text per issue, the k-th text being that of the k-th issue |
| `Report.SummaryMatchesIssues` | scripts/check-contract-state.py:172-177 | in the rendered report the success line is shown iff no issue is raised; otherwise the non-empty list of issue texts in the verdict's order |
| `Report.ProbeLabelMatchesCall` | scripts/check-contract-state.py:55-63 | a pool is shown unknown iff its `paused()` call raised, and PAUSED iff the call returned true |
| `Report.CooperativeOnlyDisplayed` | scripts/check-contract-state.py:119-124 | the CooperativePool probe changes its own label and nothing else in the report |
| `Report.IndividualLabelMatchesVerdict` | scripts/check-contract-state.py:111-157 | IndividualPool is shown PAUSED iff the verdict raises its issue and iff the summary lists its text; an unknown status is never listed |
| `Report.AggregatorBlockMatchesVerdict` | scripts/check-contract-state.py:130-170 | the aggregator block is shown iff a record was obtained, and its labels and warning agree with the issues raised from it |

## Left out

- The RPC connection, `is_connected`, the block-number read and the `sys.exit(1)` on connection failure: network I/O and process control. Each contract call is a parameter of type `Call<T>`.
- The contract calls themselves and the web3 library: their outcomes are inputs. A failure to build the contract object is treated as a failure of the first call, since both raise inside the same try block.
- All `print` formatting: banners, separators, emoji other than the issue prefix, the diagnostic lines written when a call fails and the fixed three-line remediation hint. These are presentation only. Lines are datatype values, not strings; the configured-vault count is kept as a number in the aggregator block.
- The ABI dictionaries, the RPC URL, the chain ID and the four address constants, including the unused MezoIntegration. They are configuration with no behaviour; addresses are opaque strings.
- Checksummed-address validity: web3 handles it, and it is not visible in this script.
- The exit status. The script exits with 1 when the connection fails (lines 94-101). It also exits with 1 through an uncaught exception when the block-number read at line 103 fails, since that read sits outside any try block. Otherwise it exits with 0, whatever the verdict. Process exit is not modelled.
