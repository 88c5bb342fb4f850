/**
 * The status aggregation of a health endpoint: an endpoint's checks are
 * invoked one after another, the first check that reports an error makes
 * the endpoint answer 503 Service Unavailable and stops the walk, and an
 * endpoint none of whose checks fails (in particular one without checks)
 * answers 200 OK.
 */
module HealthServer {
  import opened Wrappers

  const StatusOK: int := 200
  const StatusServiceUnavailable: int := 503

  /**
   * A non-nil Go `error`: its message, and whether its dynamic value is an
   * empty value (a nil pointer, a zero number, an empty string, slice or
   * map), which a template condition reads as false.
   */
  datatype Error = Error(message: string, emptyValue: bool)

  /**
   * A check. Its behaviour is opaque to the server: all the model keeps is
   * the error its `Check()` method returns, `None` standing for nil.
   */
  datatype Check = Check(result: Option<Error>)
  {
    /** The check reports a failure, i.e. its `Check()` returns a non-nil error. */
    predicate Fails() { result.Some? }
  }

  /**
   * An endpoint: the name it is served under and its ordered checks. Data
   * only: registering endpoints is not part of this model.
   */
  datatype Endpoint = Endpoint(name: string, checks: seq<Check>)

  /**
   * The index of the first failing check, if any: the check at that index
   * fails and every check before it passes; with no index, every check passes.
   */
  function FirstFailure(checks: seq<Check>): (r: Option<nat>)
    ensures r.Some? ==> r.value < |checks| && checks[r.value].Fails()
    ensures r.Some? ==> forall j :: 0 <= j < r.value ==> !checks[j].Fails()
    ensures r.None? ==> forall j :: 0 <= j < |checks| ==> !checks[j].Fails()
  {
    if checks == [] then None
    else if checks[0].Fails() then Some(0)
    else match FirstFailure(checks[1..])
      case None => None
      case Some(k) => Some(k + 1)
  }

  /**
   * The status an endpoint with these checks answers: 503 exactly when some
   * check fails, 200 exactly when every check passes (which includes the
   * case of no checks at all).
   */
  function Status(checks: seq<Check>): (code: int)
    ensures code == StatusOK || code == StatusServiceUnavailable
    ensures code == StatusServiceUnavailable <==> exists i :: 0 <= i < |checks| && checks[i].Fails()
    ensures code == StatusOK <==> forall i :: 0 <= i < |checks| ==> !checks[i].Fails()
  {
    if FirstFailure(checks).Some? then StatusServiceUnavailable else StatusOK
  }

  /**
   * How many checks one evaluation invokes. The invoked checks are the
   * prefix `checks[..n]`: every one of them but the last passes, and the
   * walk stopped either because all checks were invoked or because the
   * last invoked check failed.
   */
  function InvokedCount(checks: seq<Check>): (n: nat)
    ensures n <= |checks|
    ensures forall j :: 0 <= j < n - 1 ==> !checks[j].Fails()
    ensures n == |checks| || (0 < n && checks[n - 1].Fails())
    ensures (forall j :: 0 <= j < |checks| ==> !checks[j].Fails()) ==> n == |checks|
  {
    match FirstFailure(checks)
    case None => |checks|
    case Some(k) => k + 1
  }

  /** The indices `0, 1, ..., n - 1`, in that order. */
  function Indices(n: nat): (s: seq<nat>)
    ensures |s| == n
    ensures forall i :: 0 <= i < n ==> s[i] == i
  {
    if n == 0 then [] else Indices(n - 1) + [n - 1]
  }

  /**
   * The HTTP response of one request. Every status handed to `WriteHeader`
   * is recorded, in call order, so that the number of statuses one
   * evaluation writes can be stated.
   */
  class ResponseWriter {
    var written: seq<int>

    constructor ()
      ensures written == []
    {
      written := [];
    }

    method WriteHeader(code: int)
      modifies this
      ensures written == old(written) + [code]
    {
      written := written + [code];
    }
  }

  /**
   * The calls of the checks' `Check()` methods. Every invocation goes
   * through `Invoke`, which records the index of the invoked check.
   */
  class Invocations {
    ghost var log: seq<nat>

    constructor ()
      ensures log == []
    {
      log := [];
    }

    /** Invokes `checks[i]` and returns the error its `Check()` returns. */
    method Invoke(checks: seq<Check>, i: nat) returns (err: Option<Error>)
      requires i < |checks|
      modifies this
      ensures log == old(log) + [i]
      ensures err == checks[i].result
    {
      log := log + [i];
      err := checks[i].result;
    }
  }

  /**
   * Answers one health request for an endpoint's checks. The checks are
   * invoked in order until one fails, each at most once; exactly one status
   * is written: 503 if a check failed and 200 otherwise.
   */
  method RunChecks(checks: seq<Check>, calls: Invocations, response: ResponseWriter)
    modifies calls, response
    ensures response.written == old(response.written) + [Status(checks)]
    ensures calls.log == old(calls.log) + Indices(InvokedCount(checks))
  {
    for i := 0 to |checks|
      invariant calls.log == old(calls.log) + Indices(i)
      invariant forall j :: 0 <= j < i ==> !checks[j].Fails()
      invariant response.written == old(response.written)
    {
      var err := calls.Invoke(checks, i);
      if err.Some? {
        FirstFailureAt(checks, i);
        response.WriteHeader(StatusServiceUnavailable);
        return;
      }
    }
    response.WriteHeader(StatusOK);
  }

  /** The first failing check is determined by the failing pattern of the checks. */
  lemma FirstFailureAt(checks: seq<Check>, i: nat)
    requires i < |checks| && checks[i].Fails()
    requires forall j :: 0 <= j < i ==> !checks[j].Fails()
    ensures FirstFailure(checks) == Some(i)
    ensures InvokedCount(checks) == i + 1
    ensures Status(checks) == StatusServiceUnavailable
  {
  }

  /**
   * Short-circuit: once a failing check is reached, the checks after it are
   * never invoked and have no influence on the status.
   */
  lemma {:induction false} FailureIgnoresLaterChecks(a: seq<Check>, b: seq<Check>)
    requires exists i :: 0 <= i < |a| && a[i].Fails()
    ensures InvokedCount(a + b) == InvokedCount(a)
    ensures Status(a + b) == StatusServiceUnavailable
    ensures FirstFailure(a + b) == FirstFailure(a)
  {
    var k := FirstFailure(a).value;
    FirstFailureAt(a + b, k);
  }

  /** Checks that all pass are each invoked once, and leave the decision to the checks after them. */
  lemma {:induction false} PassingPrefix(a: seq<Check>, b: seq<Check>)
    requires forall i :: 0 <= i < |a| ==> !a[i].Fails()
    ensures InvokedCount(a + b) == |a| + InvokedCount(b)
    ensures Status(a + b) == Status(b)
  {
    match FirstFailure(b)
    case None =>
      assert forall j :: 0 <= j < |a + b| ==> !(a + b)[j].Fails() by {
        forall j | 0 <= j < |a + b| ensures !(a + b)[j].Fails() {
          if j >= |a| { assert (a + b)[j] == b[j - |a|]; }
        }
      }
    case Some(k) =>
      assert forall j :: 0 <= j < |a| + k ==> !(a + b)[j].Fails() by {
        forall j | 0 <= j < |a| + k ensures !(a + b)[j].Fails() {
          if j >= |a| { assert (a + b)[j] == b[j - |a|]; }
        }
      }
      assert (a + b)[|a| + k] == b[k];
      FirstFailureAt(a + b, |a| + k);
  }

  /** The status codes the repository's tests expect for their check lists. */
  lemma TestedStatuses(pass: Check, fail: Check)
    requires pass.result == None && fail.result.Some?
    ensures Status([pass]) == StatusOK
    ensures Status([fail]) == StatusServiceUnavailable
    ensures Status([pass, fail]) == StatusServiceUnavailable
    ensures Status([pass, pass]) == StatusOK
    ensures Status([pass, fail, pass]) == StatusServiceUnavailable
    ensures InvokedCount([pass, fail, pass]) == 2
  {
    FirstFailureAt([pass, fail, pass], 1);
  }
}
