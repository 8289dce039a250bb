/**
 The two kinds of on-chain query the checker makes: a pause probe of a
 Pausable contract, and the three-call inspection of the YieldAggregator.
 The network calls themselves are not modelled; each is replaced by its
 outcome, which the caller supplies.
 */
module Contracts {
  import opened Wrappers

  /** A contract or vault address, the checksummed hex string web3 returns. */
  type Address = string

  /** Outcome of one read-only contract call: the decoded return value, or
      the message of the exception it raised. */
  datatype Call<T> = Returned(value: T) | Raised(message: string)

  /** The pause probe: the flag `paused()` returned, or `None` when the call
      raised (the exception is reported and swallowed). */
  function ProbePaused(call: Call<bool>): (r: Option<bool>)
    ensures r.None? <==> call.Raised?
    ensures call.Returned? ==> r.value == call.value
  {
    match call
    case Returned(paused) => Some(paused)
    case Raised(_) => None
  }

  /** The aggregator record the inspection builds on success. */
  datatype AggState = AggState(paused: bool, depositsPaused: bool, numVaults: nat, vaults: seq<Address>) {

    /** The record counts its own vault list. */
    predicate Valid() {
      numVaults == |vaults|
    }
  }

  /** The aggregator inspection: `paused()`, `depositsPaused()` and
      `activeVaultsList()` in that order inside one try block, so the first
      call that raises ends the inspection with no record at all. */
  function InspectAggregator(paused: Call<bool>, depositsPaused: Call<bool>, vaults: Call<seq<Address>>): (r: Option<AggState>)
    ensures r.Some? <==> paused.Returned? && depositsPaused.Returned? && vaults.Returned?
    ensures r.Some? ==> r.value.Valid()
    ensures r.Some? ==> r.value.paused == paused.value && r.value.depositsPaused == depositsPaused.value
    ensures r.Some? ==> r.value.vaults == vaults.value
  {
    match paused
    case Raised(_) => None
    case Returned(p) =>
      match depositsPaused
      case Raised(_) => None
      case Returned(d) =>
        match vaults
        case Raised(_) => None
        case Returned(vs) => Some(AggState(p, d, |vs|, vs))
  }

  /** The calls run in order and the first one that raises ends the
      inspection: once a call has raised, the outcomes of the later calls,
      which are never issued, cannot change the result. */
  lemma LaterCallsUnused(paused: Call<bool>, depositsPaused: Call<bool>,
                         d1: Call<bool>, d2: Call<bool>, v1: Call<seq<Address>>, v2: Call<seq<Address>>)
    ensures paused.Raised? ==> InspectAggregator(paused, d1, v1) == InspectAggregator(paused, d2, v2) == None
    ensures depositsPaused.Raised? ==>
              InspectAggregator(paused, depositsPaused, v1) == InspectAggregator(paused, depositsPaused, v2) == None
  {
  }
}
