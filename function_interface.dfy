/**
 * function/bidding_function_interface.h: the options every bidding or
 * scoring function is created with, and the contract of BatchInvoke —
 * one output per input, in input order, or the status of the first input
 * whose invocation failed.
 */
module FunctionInterface {
  import opened Status

  /**
   * FunctionOptions. With `flattenFunctionArguments` each top-level field
   * of the input message becomes a separate JavaScript argument; without
   * it the whole input is passed as a single argument.
   */
  datatype FunctionOptions = FunctionOptions(flattenFunctionArguments: bool)

  /** Options a default-constructed FunctionOptions holds. */
  const DefaultOptions: FunctionOptions := FunctionOptions(false)

  /** Outcome k is the first failure among the outcomes. */
  predicate FailsFirstAt<O>(outcomes: seq<Result<O>>, k: int) {
    0 <= k < |outcomes| && outcomes[k].Err? && forall j :: 0 <= j < k ==> outcomes[j].Ok?
  }

  /**
   * Combines per-input outcomes as BatchInvoke promises: every output in
   * order when all succeed, otherwise the status of the first failure;
   * outcomes after it do not matter.
   */
  function FailFast<O>(outcomes: seq<Result<O>>): (r: Result<seq<O>>)
    ensures r.Ok? <==> forall i :: 0 <= i < |outcomes| ==> outcomes[i].Ok?
    ensures r.Ok? ==> |r.value| == |outcomes|
    ensures r.Ok? ==> forall i :: 0 <= i < |outcomes| ==> r.value[i] == outcomes[i].value
    ensures r.Err? ==> exists k :: FailsFirstAt(outcomes, k) && r.status == outcomes[k].status
  {
    if outcomes == [] then Ok([])
    else match outcomes[0]
      case Err(s) =>
        assert FailsFirstAt(outcomes, 0);
        Err(s)
      case Ok(v) =>
        match FailFast(outcomes[1..])
        case Err(s) =>
          var k :| FailsFirstAt(outcomes[1..], k) && s == outcomes[1..][k].status;
          assert FailsFirstAt(outcomes, k + 1);
          Err(s)
        case Ok(vs) =>
          Ok([v] + vs)
  }

  /** The first failure decides the combined outcome, whatever follows it. */
  lemma FailFastFirstFailure<O>(outcomes: seq<Result<O>>, k: int)
    requires FailsFirstAt(outcomes, k)
    ensures FailFast(outcomes) == Err(outcomes[k].status)
  {
    var r := FailFast(outcomes);
    assert r.Err?;
    var k' :| FailsFirstAt(outcomes, k') && r.status == outcomes[k'].status;
    assert k' == k;
  }

  /** When every outcome is a success the combination holds exactly their values. */
  lemma FailFastAllOk<O>(outputs: seq<O>, outcomes: seq<Result<O>>)
    requires |outcomes| == |outputs|
    requires forall i :: 0 <= i < |outcomes| ==> outcomes[i] == Ok(outputs[i])
    ensures FailFast(outcomes) == Ok(outputs)
  {
    var r := FailFast(outcomes);
    assert r.Ok?;
    assert r.value == outputs;
  }

  /** Successful results of a sequence of outcomes, each wrapped again in Ok. */
  function Successes<O>(outputs: seq<O>): (r: seq<Result<O>>)
    ensures |r| == |outputs|
    ensures forall i :: 0 <= i < |outputs| ==> r[i] == Ok(outputs[i])
  {
    if outputs == [] then [] else [Ok(outputs[0])] + Successes(outputs[1..])
  }

  lemma SuccessesAppend<O>(outputs: seq<O>, o: O)
    ensures Successes(outputs + [o]) == Successes(outputs) + [Ok(o)]
  {
    assert |Successes(outputs + [o])| == |Successes(outputs) + [Ok(o)]|;
  }
}
