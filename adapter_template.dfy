/** The contract every adapter fulfils for the agent, and what the
    adapters share: starting the test tool's process and turning an exit
    code into a verdict. Starting a process is not modelled; whether it
    succeeds or raises is a parameter. */
module Adapters {
  import opened Common
  import opened Tbcs

  /** What asking the operating system to start the process does: it
      succeeds, raises a `SubprocessError`, or raises another exception
      (a missing executable raises an `OSError`). */
  datatype LaunchFault = NoFault | SubprocessFault | OtherFault

  /** A started process: its argument list and whether it was started in
      the background (`Popen`) or ran to completion (`run`). */
  datatype Process = Process(call: seq<string>, background: bool)

  /** The fields of a concrete test case record an adapter reads when it
      is constructed; `externalId` is None when `automation.externalId`
      is absent. */
  datatype TestCaseRecord = TestCaseRecord(productId: string, id: string, name: string, externalId: Option<string>)

  /** The `try` around `Popen`/`run`. `catchAll` is false for an adapter
      that catches only `SubprocessError`. */
  function StartProcess(call: seq<string>, parallel: bool, fault: LaunchFault, catchAll: bool)
    : Result<Option<Process>, PyError>
  {
    match fault
    case NoFault => Ok(Some(Process(call, parallel)))
    case SubprocessFault => Ok(None)
    case OtherFault => if catchAll then Ok(None) else Err(OSError)
  }

  /** A process comes back exactly when starting it raised nothing; it runs
      in the background exactly when `parallel` is set; an exception
      escapes only when the adapter does not catch it. */
  lemma {:induction false} StartProcessOutcome(call: seq<string>, parallel: bool, fault: LaunchFault, catchAll: bool)
    ensures var r := StartProcess(call, parallel, fault, catchAll);
            (r.Ok? && r.value.Some? <==> fault == NoFault) &&
            (r.Ok? && r.value.Some? ==> r.value.value == Process(call, parallel)) &&
            (r.Err? <==> fault == OtherFault && !catchAll) &&
            (r.Err? ==> r.error == OSError)
  {
  }

  /** `check_result` of the template and of the Cypress adapter. */
  function ExitCodeVerdict(returncode: int): (verdict: string)
    ensures verdict == "Passed" <==> returncode == 0
    ensures verdict == "Failed" <==> returncode != 0
  {
    if returncode == 0 then "Passed" else "Failed"
  }

  /** A request an adapter's `check_result` sends before it returns its
      verdict: a result file uploaded to the execution, or the result of one
      step. */
  datatype CheckRequest = ResultUploaded(path: string) | StepReported(stepId: string, result: string)

  /** The service's record of a check request made for an execution. */
  function CheckEvent(productId: string, testCaseId: string, executionId: string, q: CheckRequest): (e: Event)
    ensures e.FileUploaded? <==> q.ResultUploaded?
    ensures e.StepResultReported? <==> q.StepReported?
    ensures e.productId == productId && e.testCaseId == testCaseId && e.executionId == executionId
    ensures q.ResultUploaded? ==> e.path == q.path
    ensures q.StepReported? ==> e.stepId == q.stepId && e.result == q.result
  {
    match q
    case ResultUploaded(path) => FileUploaded(productId, testCaseId, executionId, path)
    case StepReported(stepId, result) => StepResultReported(productId, testCaseId, stepId, executionId, result)
  }

  /** The records of a list of check requests, in the order they were sent. */
  function CheckEvents(productId: string, testCaseId: string, executionId: string, qs: seq<CheckRequest>)
    : (events: seq<Event>)
    ensures |events| == |qs|
    ensures forall k | 0 <= k < |qs| :: events[k] == CheckEvent(productId, testCaseId, executionId, qs[k])
  {
    if |qs| == 0 then []
    else CheckEvents(productId, testCaseId, executionId, qs[..|qs| - 1]) +
         [CheckEvent(productId, testCaseId, executionId, qs[|qs| - 1])]
  }

  lemma {:induction false} CheckEventsConcat(productId: string, testCaseId: string, executionId: string,
                          a: seq<CheckRequest>, b: seq<CheckRequest>)
    ensures CheckEvents(productId, testCaseId, executionId, a + b) ==
            CheckEvents(productId, testCaseId, executionId, a) + CheckEvents(productId, testCaseId, executionId, b)
  {
    var l, r := CheckEvents(productId, testCaseId, executionId, a), CheckEvents(productId, testCaseId, executionId, b);
    var all := CheckEvents(productId, testCaseId, executionId, a + b);
    assert forall k | 0 <= k < |all| :: all[k] == (l + r)[k];
  }

  /** Sends check requests one after the other. */
  method SendChecks(api: Api, productId: string, testCaseId: string, executionId: string, qs: seq<CheckRequest>)
    modifies api`log
    ensures api.log == old(api.log) + CheckEvents(productId, testCaseId, executionId, qs)
  {
    var i := 0;
    while i < |qs|
      invariant 0 <= i <= |qs|
      invariant api.log == old(api.log) + CheckEvents(productId, testCaseId, executionId, qs[..i])
    {
      assert qs[..i + 1][..i] == qs[..i];
      api.Send(CheckEvent(productId, testCaseId, executionId, qs[i]));
      i := i + 1;
    }
    assert qs[..i] == qs;
  }

  /** `concrete_test_case['automation']['externalId']`. */
  function ExternalIdOf(tc: TestCaseRecord): (r: Result<string, PyError>)
    ensures r.Ok? <==> tc.externalId.Some?
    ensures r.Ok? ==> r.value == tc.externalId.value
    ensures r.Err? ==> r.error == KeyError("externalId")
  {
    match tc.externalId
    case None => Err(KeyError("externalId"))
    case Some(id) => Ok(id)
  }

  /** The adapter template. Its constructor reads the external id and
      raises KeyError without one (see `ExternalIdOf`); constructing it
      therefore requires the id. */
  class AdapterTemplate {
    const productId: string
    const testCaseId: string
    const executionId: string
    const testCaseName: string
    const externalId: string

    constructor (tc: TestCaseRecord, executionId: string)
      requires tc.externalId.Some?
      ensures productId == tc.productId && testCaseId == tc.id && this.executionId == executionId
      ensures testCaseName == tc.name && externalId == tc.externalId.value
    {
      productId := tc.productId;
      testCaseId := tc.id;
      this.executionId := executionId;
      testCaseName := tc.name;
      externalId := tc.externalId.value;
    }

    /** `execute_test_case`: the template's call is empty. With a DDT row
        the unpacking `cmd, parameters = ''` raises ValueError before the
        process is started. */
    method ExecuteTestCase(parallel: bool, ddtRow: seq<DdtCell>, fault: LaunchFault)
      returns (r: Result<Option<Process>, PyError>)
      ensures |ddtRow| > 0 ==> r == Err(ValueError)
      ensures |ddtRow| == 0 ==> r == StartProcess([], parallel, fault, false)
      ensures r.Ok? && r.value.Some? ==> r.value.value.background == parallel && |ddtRow| == 0
    {
      var call: seq<string> := [];
      if |ddtRow| > 0 {
        return Err(ValueError);
      }
      r := StartProcess(call, parallel, fault, false);
    }
  }
}
