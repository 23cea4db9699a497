/**
 * absl::Status / absl::StatusOr as used throughout the server, and the
 * early-return macros of util/status_macros.h.
 *
 * A status is a raw integer code, a message and a list of payloads keyed by
 * type URL. An OK status (code 0) carries neither message nor payloads.
 * `Result<T>` stands for `absl::StatusOr<T>`; its `IsFailure`/`PropagateFailure`/
 * `Extract` members make Dafny's `:-` behave like ASSIGN_OR_RETURN, which the
 * rest of the model uses.
 */
module Status {

  // Raw values of absl::StatusCode used by the core.
  const OK_CODE: int := 0
  const INVALID_ARGUMENT: int := 3
  const NOT_FOUND: int := 5
  const PERMISSION_DENIED: int := 7
  const RESOURCE_EXHAUSTED: int := 8
  const FAILED_PRECONDITION: int := 9
  const INTERNAL: int := 13
  const UNAVAILABLE: int := 14

  newtype byte = x: int | 0 <= x < 256

  /** One payload of a status: a type URL and the serialized bytes. */
  datatype Payload = Payload(typeUrl: string, value: seq<byte>)

  datatype Status = Status(code: int, message: string, payloads: seq<Payload>) {
    predicate IsOk() { code == OK_CODE }

    /** A non-OK status makes `:-` return it unchanged (RETURN_IF_ERROR). */
    predicate IsFailure() { code != OK_CODE }

    function PropagateFailure(): Status
      requires IsFailure()
    {
      this
    }
  }

  const OkStatus: Status := Status(OK_CODE, "", [])

  function InvalidArgumentError(message: string): Status { Status(INVALID_ARGUMENT, message, []) }
  function NotFoundError(message: string): Status { Status(NOT_FOUND, message, []) }
  function PermissionDeniedError(message: string): Status { Status(PERMISSION_DENIED, message, []) }
  function ResourceExhaustedError(message: string): Status { Status(RESOURCE_EXHAUSTED, message, []) }
  function FailedPreconditionError(message: string): Status { Status(FAILED_PRECONDITION, message, []) }
  function InternalError(message: string): Status { Status(INTERNAL, message, []) }
  function UnavailableError(message: string): Status { Status(UNAVAILABLE, message, []) }

  /** No two payloads of a status share a type URL. */
  predicate DistinctUrls(ps: seq<Payload>) {
    forall i, j :: 0 <= i < j < |ps| ==> ps[i].typeUrl != ps[j].typeUrl
  }

  /** The shapes absl::Status can take: OK is bare, payload URLs are keys. */
  predicate Valid(s: Status) {
    (s.code == OK_CODE ==> s.message == "" && s.payloads == []) && DistinctUrls(s.payloads)
  }

  predicate HasUrl(ps: seq<Payload>, url: string) {
    exists i :: 0 <= i < |ps| && ps[i].typeUrl == url
  }

  /** Index of the first payload with the type URL, or -1 when there is none. */
  function UrlIndex(ps: seq<Payload>, url: string): (i: int)
    ensures -1 <= i < |ps|
    ensures i >= 0 ==> ps[i].typeUrl == url
    ensures i < 0 <==> !HasUrl(ps, url)
  {
    if ps == [] then -1
    else if ps[0].typeUrl == url then 0
    else
      var j := UrlIndex(ps[1..], url);
      assert HasUrl(ps, url) ==> HasUrl(ps[1..], url) by {
        if HasUrl(ps, url) {
          var k :| 0 <= k < |ps| && ps[k].typeUrl == url;
          assert ps[1..][k - 1] == ps[k];
        }
      }
      if j < 0 then -1 else j + 1
  }

  /** Replaces the payload with the same type URL, or appends a new one. */
  function Upsert(ps: seq<Payload>, p: Payload): (r: seq<Payload>)
    ensures DistinctUrls(ps) ==> DistinctUrls(r)
    ensures !HasUrl(ps, p.typeUrl) ==> r == ps + [p]
    ensures p in r
    ensures DistinctUrls(ps) ==> forall q :: q in r ==> q == p || (q in ps && q.typeUrl != p.typeUrl)
    ensures forall q :: q in ps && q.typeUrl != p.typeUrl ==> q in r
  {
    var i := UrlIndex(ps, p.typeUrl);
    var r := if i < 0 then ps + [p] else ps[i := p];
    assert |r| >= |ps| && r[if i < 0 then |ps| else i] == p;
    assert forall j :: 0 <= j < |ps| && j != i ==> r[j] == ps[j];
    // Replacing keeps the sequence of type URLs as it was.
    assert i >= 0 ==> forall j :: 0 <= j < |r| ==> r[j].typeUrl == ps[j].typeUrl;
    r
  }

  /** absl::Status::SetPayload: ignored on an OK status, otherwise keyed by URL. */
  function SetPayload(s: Status, url: string, value: seq<byte>): (r: Status)
    ensures s.IsOk() ==> r == s
    ensures !s.IsOk() ==> r.code == s.code && r.message == s.message
    ensures !s.IsOk() ==> Payload(url, value) in r.payloads
    ensures Valid(s) ==> Valid(r)
  {
    if s.IsOk() then s else s.(payloads := Upsert(s.payloads, Payload(url, value)))
  }

  datatype Option<+T> = None | Some(value: T)

  /** absl::StatusOr<T>. */
  datatype Result<+T> = Ok(value: T) | Err(status: Status) {
    predicate IsFailure() { Err? }

    function PropagateFailure<U>(): Result<U>
      requires Err?
    {
      Err(status)
    }

    function Extract(): T
      requires Ok?
    {
      value
    }
  }

  /**
   * `internal::ToStatus`: the status a RETURN_IF_ERROR returns. A StatusOr
   * yields `.status()`, which is OK exactly when it holds a value.
   */
  function ToStatus<T>(r: Result<T>): (s: Status)
    ensures r.Ok? ==> s == OkStatus
    ensures r.Err? ==> s == r.status
  {
    match r
    case Ok(_) => OkStatus
    case Err(st) => st
  }

  /**
   * `RETURN_IF_ERROR(s); <rest>` in a function returning Status: a non-OK
   * status is returned as it is, an OK one lets control reach `rest`.
   */
  function ReturnIfError(s: Status, rest: Status): (r: Status)
    ensures s.IsFailure() ==> r == s
    ensures s.IsOk() ==> r == rest
  {
    if s.IsFailure() then s else rest
  }

  /**
   * `ASSIGN_OR_RETURN(lhs, rexpr); <rest(lhs)>`: on error the status is
   * returned unchanged and `rest` is never reached; on success the value
   * is bound and `rest` runs.
   */
  function AssignOrReturn<T, U>(rexpr: Result<T>, rest: T -> Result<U>): (r: Result<U>)
    ensures rexpr.Err? ==> r == Err(rexpr.status)
    ensures rexpr.Ok? ==> r == rest(rexpr.value)
  {
    var lhs :- rexpr;
    rest(lhs)
  }

  /** A straight-line run of RETURN_IF_ERROR statements ending in `return OkStatus()`. */
  function RunSteps(steps: seq<Status>): Status
  {
    if steps == [] then OkStatus else ReturnIfError(steps[0], RunSteps(steps[1..]))
  }

  /** Index of the first failing step, if any. */
  predicate FirstFailureAt(steps: seq<Status>, k: int) {
    0 <= k < |steps| && steps[k].IsFailure() && forall i :: 0 <= i < k ==> steps[i].IsOk()
  }

  /**
   * A chain of RETURN_IF_ERROR steps returns OK when every step is OK, and
   * otherwise the status of the first failing step.
   */
  lemma {:induction false} RunStepsReturnsFirstFailure(steps: seq<Status>)
    ensures RunSteps(steps).IsOk() <==> forall i :: 0 <= i < |steps| ==> steps[i].IsOk()
    ensures RunSteps(steps).IsOk() ==> RunSteps(steps) == OkStatus
    ensures !RunSteps(steps).IsOk() ==>
              exists k :: FirstFailureAt(steps, k) && RunSteps(steps) == steps[k]
  {
    if steps != [] {
      RunStepsReturnsFirstFailure(steps[1..]);
      if steps[0].IsOk() && !RunSteps(steps[1..]).IsOk() {
        var k :| FirstFailureAt(steps[1..], k) && RunSteps(steps[1..]) == steps[1..][k];
        assert FirstFailureAt(steps, k + 1);
      } else if !steps[0].IsOk() {
        assert FirstFailureAt(steps, 0);
      }
    }
  }

  /** Dafny's `:-` is the same control flow as ASSIGN_OR_RETURN. */
  lemma ColonDashIsAssignOrReturn<T, U>(rexpr: Result<T>, rest: T -> Result<U>)
    ensures (var x :- rexpr; rest(x)) == AssignOrReturn(rexpr, rest)
  {
  }
}
