/** The Cypress side of the result import: the object that opens or reuses
    a test session, and publishes one finished Cypress test as a test case
    with its steps, an execution, step results and the execution result.
    The requests it sends to the service are kept as a ghost log; values
    the service answers with (ids, the stored test case) are parameters. */
module TbcsPublish {
  import opened Common

  /** The result values of the service. */
  datatype TestResult = Failed | Passed | Pending | Calculated

  /** A step and a step block of a test case as the service returns it. */
  datatype RemoteStep = RemoteStep(id: string, testStepType: string, description: string)

  datatype RemoteBlock = RemoteBlock(id: string, title: string, steps: seq<RemoteStep>)

  /** A finished Cypress test: its name, description, external id and the
      texts of its logged steps. */
  datatype CypressTestCase = CypressTestCase(externalId: string, name: string, description: string,
                                             testSteps: seq<string>)

  /** A step of the test case the step results are reported for. */
  datatype CurrentStep = CurrentStep(id: string, blockId: string, stepType: string, name: string)

  datatype StepResult = StepResult(testStepId: string, result: TestResult)

  /** The three bodies of a test case patch. */
  datatype CasePatch =
    | UpdatedCase(description: Option<string>, userId: string)
    | CreatedCase(description: Option<string>, userId: string, externalId: Option<string>)
    | ToBeReviewed

  /** One request to the service (or the write of the session id file),
      in the order it is made. */
  datatype Call =
    | SessionCreated(name: string, sessionId: string)
    | SessionJoined(sessionId: string)
    | SessionPatched(session: Option<string>, status: string)
    | SessionFileWritten(content: string)
    | StepDeleted(testCaseId: string, stepId: string)
    | BlockDeleted(testCaseId: string, blockId: string)
    | BlockCreated(testCaseId: string, title: string, blockId: string)
    | StepCreated(testCaseId: string, text: string, stepType: string, blockId: string, stepId: string)
    | CasePatched(testCaseId: string, patch: CasePatch)
    | CaseCreated(name: string, caseType: string, testCaseId: string)
    | PreconditionMarked(testCaseId: string)
    | ExecutionCreated(testCaseId: string, executionId: string)
    | ExecutionAddedToSession(testCaseId: string, executionId: string, session: Option<string>)
    | ExecutionStatusSet(testCaseId: string, executionId: string, status: string)
    | StepResultAssigned(testCaseId: string, executionId: string, stepId: string, result: TestResult)
    | ExecutionResultSet(testCaseId: string, executionId: string, result: TestResult)

  /** The reporter options and the Cypress environment the object reads:
      `sessionToken` is whether a session token was handed in (the run is
      driven from outside), `extId` the execution id handed in ("" when
      none). */
  datatype Env = Env(skipTestCaseUpdates: bool, testSessionPrefix: string, userId: string, sessionToken: bool,
                     extId: string)

  /** The ids the service assigns while a test is published: a created
      test case, a created step block, the `k`-th created step and a created
      execution. */
  datatype ServerIds = ServerIds(testCaseId: string, blockId: string, stepIds: nat -> string, executionId: string)

  const TestStepsTitle := "Test Steps"

  // ---------------------------------------------------------------------
  // Comparing the logged steps with the stored ones

  /** The index of the last block titled "Test Steps" among the first `n`. */
  function LastTestStepsIndex(blocks: seq<RemoteBlock>, n: nat): (r: Option<nat>)
    requires n <= |blocks|
    ensures r.None? <==> forall k | 0 <= k < n :: blocks[k].title != TestStepsTitle
    ensures r.Some? ==> r.value < n && blocks[r.value].title == TestStepsTitle &&
                        forall k | r.value < k < n :: blocks[k].title != TestStepsTitle
  {
    if n == 0 then None
    else if blocks[n - 1].title == TestStepsTitle then Some(n - 1)
    else LastTestStepsIndex(blocks, n - 1)
  }

  /** The last block titled "Test Steps". */
  function TestStepsBlock(blocks: seq<RemoteBlock>): (r: Option<RemoteBlock>)
    ensures r.None? <==> forall k | 0 <= k < |blocks| :: blocks[k].title != TestStepsTitle
    ensures r.Some? ==> exists k | 0 <= k < |blocks| :: blocks[k] == r.value && r.value.title == TestStepsTitle &&
                          forall k' | k < k' < |blocks| :: blocks[k'].title != TestStepsTitle
  {
    match LastTestStepsIndex(blocks, |blocks|)
    case None => None
    case Some(k) => Some(blocks[k])
  }

  function Descriptions(steps: seq<RemoteStep>): (r: seq<string>)
    ensures |r| == |steps| && forall k | 0 <= k < |steps| :: r[k] == steps[k].description
  {
    seq(|steps|, k requires 0 <= k < |steps| => steps[k].description)
  }

  /** The steps differ from the stored ones when no "Test Steps" block
      exists and there are steps, when the counts differ, or when some
      position differs. */
  predicate StepsChanged(steps: seq<string>, blocks: seq<RemoteBlock>) {
    match TestStepsBlock(blocks)
    case None => |steps| > 0
    case Some(b) => |steps| != |b.steps| || exists k | 0 <= k < |steps| :: steps[k] != b.steps[k].description
  }

  /** The steps count as changed exactly when they are not the
      descriptions of the last "Test Steps" block (no steps when there is
      no such block). */
  lemma {:induction false} StepsChangedIffDiffer(steps: seq<string>, blocks: seq<RemoteBlock>)
    ensures StepsChanged(steps, blocks) <==>
            steps != (match TestStepsBlock(blocks) case None => [] case Some(b) => Descriptions(b.steps))
  {
    match TestStepsBlock(blocks)
    case None =>
    case Some(b) =>
      var d := Descriptions(b.steps);
      if |steps| == |b.steps| && steps != d {
        var k :| 0 <= k < |steps| && steps[k] != d[k];
      }
  }

  /** A case the publisher creates gets its steps in a block titled "Test",
      which the change test does not read, so publishing the same steps
      again finds them changed; the block an update creates is titled
      "Test Steps" and the same steps are then found unchanged. */
  lemma {:induction false} CreatedBlockUnrecognised(steps: seq<string>, rs: seq<RemoteStep>, blockId: string)
    requires |steps| > 0 && Descriptions(rs) == steps
    ensures StepsChanged(steps, [RemoteBlock(blockId, "Test", rs)])
    ensures !StepsChanged(steps, [RemoteBlock(blockId, TestStepsTitle, rs)])
  {
  }

  /** `hasTestStepsChanged`: the block scan keeps the last "Test Steps"
      block, then every position is compared. */
  method HasTestStepsChanged(steps: seq<string>, blocks: seq<RemoteBlock>) returns (changed: bool)
    ensures changed == StepsChanged(steps, blocks)
  {
    var tbcsSteps: Option<seq<RemoteStep>> := None;
    var i := 0;
    while i < |blocks|
      invariant 0 <= i <= |blocks|
      invariant tbcsSteps == (match LastTestStepsIndex(blocks, i) case None => None case Some(k) => Some(blocks[k].steps))
    {
      if blocks[i].title == TestStepsTitle {
        tbcsSteps := Some(blocks[i].steps);
      }
      i := i + 1;
    }
    if tbcsSteps.None? && |steps| > 0 {
      return true;
    }
    if tbcsSteps.Some? && |steps| != |tbcsSteps.value| {
      return true;
    }
    var compareFailed := false;
    var k := 0;
    while k < |steps|
      invariant 0 <= k <= |steps|
      invariant compareFailed <==> exists j | 0 <= j < k :: steps[j] != tbcsSteps.value[j].description
    {
      if steps[k] != tbcsSteps.value[k].description {
        compareFailed := true;
      }
      k := k + 1;
    }
    changed := compareFailed;
  }

  // ---------------------------------------------------------------------
  // Step results

  /** The steps of one block as current steps. */
  function BlockSteps(b: RemoteBlock): (r: seq<CurrentStep>)
    ensures |r| == |b.steps|
  {
    seq(|b.steps|, k requires 0 <= k < |b.steps| =>
      CurrentStep(b.steps[k].id, b.id, b.steps[k].testStepType, b.steps[k].description))
  }

  /** The steps of every block titled "Test Steps", block by block. */
  function CurrentSteps(blocks: seq<RemoteBlock>): seq<CurrentStep> {
    if |blocks| == 0 then []
    else
      var last := blocks[|blocks| - 1];
      CurrentSteps(blocks[..|blocks| - 1]) + if last.title == TestStepsTitle then BlockSteps(last) else []
  }

  /** Every current step comes from a block titled "Test Steps", with that
      block's id. */
  lemma {:induction false} CurrentStepsFromTestSteps(blocks: seq<RemoteBlock>, s: CurrentStep)
    requires s in CurrentSteps(blocks)
    ensures exists k | 0 <= k < |blocks| :: blocks[k].title == TestStepsTitle && blocks[k].id == s.blockId
  {
    var n := |blocks| - 1;
    var last := blocks[n];
    if s in CurrentSteps(blocks[..n]) {
      CurrentStepsFromTestSteps(blocks[..n], s);
      var k :| 0 <= k < n && blocks[..n][k].title == TestStepsTitle && blocks[..n][k].id == s.blockId;
      assert blocks[k] == blocks[..n][k];
    } else {
      assert last.title == TestStepsTitle && s in BlockSteps(last);
      assert blocks[n].id == s.blockId;
    }
  }

  /** The scan of the stored test case for its current steps. */
  method ScanCurrentSteps(blocks: seq<RemoteBlock>) returns (current: seq<CurrentStep>)
    ensures current == CurrentSteps(blocks)
  {
    current := [];
    var i := 0;
    while i < |blocks|
      invariant 0 <= i <= |blocks|
      invariant current == CurrentSteps(blocks[..i])
    {
      var block := blocks[i];
      assert blocks[..i + 1][..i] == blocks[..i];
      if block.title == TestStepsTitle {
        var j := 0;
        while j < |block.steps|
          invariant 0 <= j <= |block.steps|
          invariant current == CurrentSteps(blocks[..i]) + BlockSteps(block)[..j]
        {
          var step := block.steps[j];
          assert BlockSteps(block)[..j + 1] == BlockSteps(block)[..j] + [BlockSteps(block)[j]];
          current := current + [CurrentStep(step.id, block.id, step.testStepType, step.description)];
          j := j + 1;
        }
        assert BlockSteps(block)[..j] == BlockSteps(block);
      }
      i := i + 1;
    }
    assert blocks[..i] == blocks;
  }

  /** The steps created for a test: the `k`-th gets the `k`-th step id. */
  function CreatedSteps(texts: seq<string>, blockId: string, stepIds: nat -> string): (r: seq<CurrentStep>)
    ensures |r| == |texts|
  {
    seq(|texts|, k requires 0 <= k < |texts| => CurrentStep(stepIds(k), blockId, "TestStep", texts[k]))
  }

  /** Every step passed, except that a failed test fails its last step. */
  predicate IsStepVerdicts(current: seq<CurrentStep>, result: TestResult, r: seq<StepResult>) {
    |r| == |current| &&
    forall k | 0 <= k < |r| ::
      r[k].testStepId == current[k].id &&
      r[k].result == if result == Failed && k == |r| - 1 then Failed else Passed
  }

  /** The step results: one per current step, in order. */
  method StepResults(current: seq<CurrentStep>, result: TestResult) returns (r: seq<StepResult>)
    ensures IsStepVerdicts(current, result, r)
  {
    r := [];
    var k := 0;
    while k < |current|
      invariant 0 <= k <= |current| && |r| == k
      invariant forall j | 0 <= j < k :: r[j] == StepResult(current[j].id, Passed)
    {
      r := r + [StepResult(current[k].id, Passed)];
      k := k + 1;
    }
    if result == Failed && |r| > 0 {
      r := r[|r| - 1 := StepResult(r[|r| - 1].testStepId, Failed)];
    }
  }

  /** The step results as a function, for the specification of the
      requests. */
  function Verdicts(current: seq<CurrentStep>, result: TestResult): (r: seq<StepResult>)
    ensures IsStepVerdicts(current, result, r)
  {
    seq(|current|, k requires 0 <= k < |current| =>
      StepResult(current[k].id, if result == Failed && k == |current| - 1 then Failed else Passed))
  }

  /** The step results are determined by the steps and the result. */
  lemma {:induction false} StepVerdictsUnique(current: seq<CurrentStep>, result: TestResult, r: seq<StepResult>)
    requires IsStepVerdicts(current, result, r)
    ensures r == Verdicts(current, result)
  {
  }

  function FailedCount(r: seq<StepResult>): nat {
    if |r| == 0 then 0 else FailedCount(r[..|r| - 1]) + if r[|r| - 1].result == Failed then 1 else 0
  }

  lemma {:induction false} NoFailedBefore(r: seq<StepResult>, n: nat)
    requires n <= |r| && forall k | 0 <= k < n :: r[k].result != Failed
    ensures FailedCount(r[..n]) == 0
  {
    if n > 0 {
      assert r[..n][..n - 1] == r[..n - 1];
      NoFailedBefore(r, n - 1);
    }
  }

  /** At most one step fails: exactly one when the test failed and has
      steps, none otherwise. */
  lemma {:induction false} FailedStepCount(current: seq<CurrentStep>, result: TestResult)
    ensures FailedCount(Verdicts(current, result)) == if result == Failed && |current| > 0 then 1 else 0
  {
    var r := Verdicts(current, result);
    if |r| > 0 {
      NoFailedBefore(r, |r| - 1);
      assert r[..|r|] == r;
    }
  }

  // ---------------------------------------------------------------------
  // The requests of one publication

  /** The deletion of every stored block, each after its steps. */
  function StepDeletes(testCaseId: string, steps: seq<RemoteStep>): (r: seq<Call>)
    ensures |r| == |steps|
  {
    seq(|steps|, k requires 0 <= k < |steps| => StepDeleted(testCaseId, steps[k].id))
  }

  function DeleteCalls(testCaseId: string, blocks: seq<RemoteBlock>): seq<Call> {
    if |blocks| == 0 then []
    else
      var last := blocks[|blocks| - 1];
      DeleteCalls(testCaseId, blocks[..|blocks| - 1]) + StepDeletes(testCaseId, last.steps) +
      [BlockDeleted(testCaseId, last.id)]
  }

  function StepCreates(testCaseId: string, texts: seq<string>, blockId: string, stepIds: nat -> string)
    : (r: seq<Call>)
    ensures |r| == |texts|
  {
    seq(|texts|, k requires 0 <= k < |texts| => StepCreated(testCaseId, texts[k], "TestStep", blockId, stepIds(k)))
  }

  function ResultAssigns(testCaseId: string, executionId: string, results: seq<StepResult>): (r: seq<Call>)
    ensures |r| == |results|
  {
    seq(|results|, k requires 0 <= k < |results| =>
      StepResultAssigned(testCaseId, executionId, results[k].testStepId, results[k].result))
  }

  /** A description is sent as null when it is empty. */
  function NullIfEmpty(s: string): (r: Option<string>)
    ensures r.None? <==> s == ""
  {
    if s == "" then None else Some(s)
  }

  /** Whether the stored test case is replaced: it exists, updates are
      allowed and its steps changed. */
  predicate Updates(env: Env, testCase: CypressTestCase, found: Option<string>, blocks: seq<RemoteBlock>) {
    found.Some? && !env.skipTestCaseUpdates && StepsChanged(testCase.testSteps, blocks)
  }

  /** The test case the results go to. */
  function CaseId(found: Option<string>, ids: ServerIds): string {
    if found.Some? then found.value else ids.testCaseId
  }

  /** The execution the results go to: the one handed in, or a new one. */
  function ExecutionId(env: Env, ids: ServerIds): string {
    if env.extId != "" then env.extId else ids.executionId
  }

  /** The requests that bring the test case up to date. */
  function PrepareCalls(env: Env, testCase: CypressTestCase, found: Option<string>, blocks: seq<RemoteBlock>,
                        ids: ServerIds): seq<Call>
  {
    var tc := CaseId(found, ids);
    var creates := StepCreates(tc, testCase.testSteps, ids.blockId, ids.stepIds);
    if found.None? then
      [CaseCreated(testCase.name, "StructuredTestCase", tc),
       CasePatched(tc, CreatedCase(NullIfEmpty(testCase.description), env.userId, NullIfEmpty(testCase.externalId))),
       PreconditionMarked(tc), BlockCreated(tc, "Test", ids.blockId)] + creates
    else if Updates(env, testCase, found, blocks) then
      DeleteCalls(tc, blocks) + [BlockCreated(tc, TestStepsTitle, ids.blockId)] + creates +
      [CasePatched(tc, UpdatedCase(NullIfEmpty(testCase.description), env.userId))]
    else []
  }

  /** The steps the results are reported for. */
  function PreparedSteps(env: Env, testCase: CypressTestCase, found: Option<string>, blocks: seq<RemoteBlock>,
                         ids: ServerIds): seq<CurrentStep>
  {
    if found.None? || Updates(env, testCase, found, blocks) then
      CreatedSteps(testCase.testSteps, ids.blockId, ids.stepIds)
    else CurrentSteps(blocks)
  }

  /** The execution: created unless one was handed in, added to the
      session unless the run is driven from outside, set in progress. */
  function ExecutionCalls(env: Env, sessionId: Option<string>, testCaseId: string,
                          ids: ServerIds): seq<Call>
  {
    var eid := ExecutionId(env, ids);
    (if env.extId == "" then [ExecutionCreated(testCaseId, eid)] else []) +
    (if env.sessionToken then [] else [ExecutionAddedToSession(testCaseId, eid, sessionId)]) +
    [ExecutionStatusSet(testCaseId, eid, "InProgress")]
  }

  /** The results: with updates skipped and changed steps, the test case is
      marked for review and only the execution result is set; otherwise
      every step result, then the execution result. */
  function ResultCalls(env: Env, testCase: CypressTestCase, blocks: seq<RemoteBlock>, testCaseId: string,
                       executionId: string, current: seq<CurrentStep>, result: TestResult): seq<Call>
  {
    if env.skipTestCaseUpdates && StepsChanged(testCase.testSteps, blocks) then
      [CasePatched(testCaseId, ToBeReviewed), ExecutionResultSet(testCaseId, executionId, result)]
    else
      ResultAssigns(testCaseId, executionId, Verdicts(current, result)) +
      [ExecutionResultSet(testCaseId, executionId, result)]
  }

  /** All requests of one publication. */
  function PublishCalls(env: Env, sessionId: Option<string>, testCase: CypressTestCase, result: TestResult,
                        found: Option<string>, blocks: seq<RemoteBlock>, ids: ServerIds): seq<Call>
  {
    if found.None? && env.skipTestCaseUpdates then []
    else
      var tc := CaseId(found, ids);
      PrepareCalls(env, testCase, found, blocks, ids) + ExecutionCalls(env, sessionId, tc, ids) +
      ResultCalls(env, testCase, blocks, tc, ExecutionId(env, ids),
                  PreparedSteps(env, testCase, found, blocks, ids), result)
  }

  predicate IsResultSet(c: Call) {
    c.ExecutionResultSet?
  }

  predicate IsStepResult(c: Call) {
    c.StepResultAssigned?
  }

  /** A test case that is not found while updates are skipped gets nothing
      at all: no test case, no execution, no result. */
  lemma {:induction false} PublishSkipsMissing(env: Env, sessionId: Option<string>, testCase: CypressTestCase, result: TestResult,
                            blocks: seq<RemoteBlock>, ids: ServerIds)
    requires env.skipTestCaseUpdates
    ensures PublishCalls(env, sessionId, testCase, result, None, blocks, ids) == []
  {
  }

  lemma {:induction false} DeleteCallsNoResults(testCaseId: string, blocks: seq<RemoteBlock>)
    ensures forall c | c in DeleteCalls(testCaseId, blocks) :: !IsResultSet(c) && !IsStepResult(c)
  {
    if |blocks| > 0 {
      DeleteCallsNoResults(testCaseId, blocks[..|blocks| - 1]);
    }
  }

  /** The preparing requests set no execution result. */
  lemma {:induction false} PrepareCallsNoResult(env: Env, testCase: CypressTestCase, found: Option<string>, blocks: seq<RemoteBlock>,
                             ids: ServerIds)
    ensures forall c | c in PrepareCalls(env, testCase, found, blocks, ids) :: !IsResultSet(c)
  {
    var tc := CaseId(found, ids);
    DeleteCallsNoResults(tc, blocks);
    var creates := StepCreates(tc, testCase.testSteps, ids.blockId, ids.stepIds);
    assert forall c | c in creates :: c.StepCreated?;
  }

  /** The results end with the execution result, which no earlier request
      sets. */
  lemma {:induction false} ResultCallsEndWithResult(env: Env, testCase: CypressTestCase, blocks: seq<RemoteBlock>, testCaseId: string,
                                 executionId: string, current: seq<CurrentStep>, result: TestResult)
    ensures var res := ResultCalls(env, testCase, blocks, testCaseId, executionId, current, result);
            |res| > 0 && res[|res| - 1] == ExecutionResultSet(testCaseId, executionId, result) &&
            forall k | 0 <= k < |res| - 1 :: !IsResultSet(res[k])
  {
  }

  /** Otherwise the execution result is set exactly once, as the last
      request, after every step result. */
  lemma {:induction false} PublishEndsWithResult(env: Env, sessionId: Option<string>, testCase: CypressTestCase, result: TestResult,
                              found: Option<string>, blocks: seq<RemoteBlock>, ids: ServerIds)
    requires found.Some? || !env.skipTestCaseUpdates
    ensures var calls := PublishCalls(env, sessionId, testCase, result, found, blocks, ids);
            |calls| > 0 &&
            calls[|calls| - 1] == ExecutionResultSet(CaseId(found, ids), ExecutionId(env, ids), result) &&
            forall k | 0 <= k < |calls| - 1 :: !IsResultSet(calls[k])
  {
    var tc := CaseId(found, ids);
    var prep := PrepareCalls(env, testCase, found, blocks, ids);
    var exec := ExecutionCalls(env, sessionId, tc, ids);
    var res := ResultCalls(env, testCase, blocks, tc, ExecutionId(env, ids),
                           PreparedSteps(env, testCase, found, blocks, ids), result);
    PrepareCallsNoResult(env, testCase, found, blocks, ids);
    ResultCallsEndWithResult(env, testCase, blocks, tc, ExecutionId(env, ids),
                             PreparedSteps(env, testCase, found, blocks, ids), result);
    assert forall c | c in exec :: !IsResultSet(c);
    var calls := prep + exec + res;
    assert PublishCalls(env, sessionId, testCase, result, found, blocks, ids) == calls;
    forall k | 0 <= k < |calls| - 1 ensures !IsResultSet(calls[k]) {
      if k < |prep| {
        assert calls[k] in prep;
      } else if k < |prep| + |exec| {
        assert calls[k] in exec;
      } else {
        assert calls[k] == res[k - |prep| - |exec|];
      }
    }
  }

  /** With updates skipped and changed steps, no step result is reported. */
  lemma {:induction false} PublishChangedOnlyResult(env: Env, sessionId: Option<string>, testCase: CypressTestCase, result: TestResult,
                                 found: Option<string>, blocks: seq<RemoteBlock>, ids: ServerIds)
    requires env.skipTestCaseUpdates && StepsChanged(testCase.testSteps, blocks)
    ensures forall c | c in PublishCalls(env, sessionId, testCase, result, found, blocks, ids) :: !IsStepResult(c)
  {
  }

  /** Otherwise every prepared step gets its result, in order, right before
      the execution result. */
  lemma {:induction false} PublishReportsEveryStep(env: Env, sessionId: Option<string>, testCase: CypressTestCase, result: TestResult,
                                found: Option<string>, blocks: seq<RemoteBlock>, ids: ServerIds)
    requires found.Some? || !env.skipTestCaseUpdates
    requires !(env.skipTestCaseUpdates && StepsChanged(testCase.testSteps, blocks))
    ensures var calls := PublishCalls(env, sessionId, testCase, result, found, blocks, ids);
            var current := PreparedSteps(env, testCase, found, blocks, ids);
            var tail := ResultAssigns(CaseId(found, ids), ExecutionId(env, ids), Verdicts(current, result)) +
                        [ExecutionResultSet(CaseId(found, ids), ExecutionId(env, ids), result)];
            |calls| >= |tail| && calls[|calls| - |tail|..] == tail
  {
    var tc := CaseId(found, ids);
    var prep := PrepareCalls(env, testCase, found, blocks, ids);
    var exec := ExecutionCalls(env, sessionId, tc, ids);
    var res := ResultCalls(env, testCase, blocks, tc, ExecutionId(env, ids),
                           PreparedSteps(env, testCase, found, blocks, ids), result);
    assert (prep + exec + res)[|prep + exec|..] == res;
  }

  /** A replaced or created test case reports its results for the steps
      just created, carrying the step ids the service assigned. */
  lemma {:induction false} PublishCreatedSteps(env: Env, testCase: CypressTestCase, found: Option<string>, blocks: seq<RemoteBlock>,
                            ids: ServerIds)
    requires found.None? || Updates(env, testCase, found, blocks)
    ensures var current := PreparedSteps(env, testCase, found, blocks, ids);
            |current| == |testCase.testSteps| &&
            forall k | 0 <= k < |current| :: current[k].id == ids.stepIds(k) && current[k].name == testCase.testSteps[k]
  {
  }

  // ---------------------------------------------------------------------
  // The object

  /** The text read from the session id file: the content, or "null" when
      there is none. */
  function SessionText(stored: Option<string>): string {
    if stored.None? then "null" else stored.value
  }

  /** The session a start works in: the stored one unless the file reads
      "null", otherwise the one created. */
  function StartedSession(stored: Option<string>, createdId: string): string {
    if SessionText(stored) != "null" then SessionText(stored) else createdId
  }

  /** The requests of a start: none when a stored session is reused;
      otherwise a session is created, joined, set in progress and its id
      written to the file. */
  function StartCalls(prefix: string, stored: Option<string>, now: string, createdId: string): seq<Call> {
    if SessionText(stored) != "null" then []
    else [SessionCreated(prefix + "_" + now, createdId), SessionJoined(createdId),
          SessionPatched(Some(createdId), "InProgress"), SessionFileWritten(createdId)]
  }

  /** A start that reads back the file an earlier start wrote reuses that
      session and sends nothing. */
  lemma {:induction false} StartReusesWrittenSession(prefix: string, stored: Option<string>, now: string, createdId: string,
                                  now': string, createdId': string)
    requires createdId != "null"
    ensures var id := StartedSession(stored, createdId);
            StartCalls(prefix, Some(id), now', createdId') == [] && StartedSession(Some(id), createdId') == id
  {
  }

  /** A start that creates a session writes exactly the id it works in. */
  lemma {:induction false} StartWritesItsSession(prefix: string, stored: Option<string>, now: string, createdId: string)
    requires SessionText(stored) == "null"
    ensures var calls := StartCalls(prefix, stored, now, createdId);
            calls[|calls| - 1] == SessionFileWritten(StartedSession(stored, createdId))
  {
  }

  class TestBenchAutomation {
    const env: Env
    var testSessionId: Option<string>
    ghost var calls: seq<Call>

    constructor (env: Env)
      ensures this.env == env && testSessionId == None && calls == []
    {
      this.env := env;
      testSessionId := None;
      calls := [];
    }

    method Send(c: Call)
      modifies this`calls
      ensures calls == old(calls) + [c]
    {
      calls := calls + [c];
    }

    /** `Start`: the session id file is read (`stored`, `None` when it
        does not exist); a session is created only when it reads "null".
        `now` is the clock, `createdId` the id the service assigns. */
    method Start(stored: Option<string>, now: string, createdId: string)
      modifies this`testSessionId, this`calls
      ensures testSessionId == Some(StartedSession(stored, createdId))
      ensures calls == old(calls) + StartCalls(env.testSessionPrefix, stored, now, createdId)
    {
      testSessionId := Some(SessionText(stored));
      if testSessionId.value != "null" {
        return;
      }
      var sessionName := env.testSessionPrefix + "_" + now;
      testSessionId := Some(createdId);
      Send(SessionCreated(sessionName, createdId));
      Send(SessionJoined(createdId));
      Send(SessionPatched(testSessionId, "InProgress"));
      Send(SessionFileWritten(createdId));
    }

    /** `End`: unless the run is driven from outside, the session is
        completed (the logout after it is not modelled). */
    method End()
      modifies this`calls
      ensures calls == old(calls) + if env.sessionToken then [] else [SessionPatched(testSessionId, "Completed")]
    {
      if env.sessionToken {
        return;
      }
      Send(SessionPatched(testSessionId, "Completed"));
    }

    /** Every stored block is deleted, each after its steps. */
    method DeleteBlocks(testCaseId: string, blocks: seq<RemoteBlock>)
      modifies this`calls
      ensures calls == old(calls) + DeleteCalls(testCaseId, blocks)
    {
      var i := 0;
      while i < |blocks|
        invariant 0 <= i <= |blocks|
        invariant calls == old(calls) + DeleteCalls(testCaseId, blocks[..i])
      {
        var block := blocks[i];
        assert blocks[..i + 1][..i] == blocks[..i];
        var j := 0;
        while j < |block.steps|
          invariant 0 <= j <= |block.steps|
          invariant calls == old(calls) + DeleteCalls(testCaseId, blocks[..i]) + StepDeletes(testCaseId, block.steps[..j])
        {
          assert StepDeletes(testCaseId, block.steps[..j + 1]) ==
                 StepDeletes(testCaseId, block.steps[..j]) + [StepDeleted(testCaseId, block.steps[j].id)];
          Send(StepDeleted(testCaseId, block.steps[j].id));
          j := j + 1;
        }
        assert block.steps[..j] == block.steps;
        Send(BlockDeleted(testCaseId, block.id));
        i := i + 1;
      }
      assert blocks[..i] == blocks;
    }

    /** One step is created per logged step, in order. */
    method CreateSteps(testCaseId: string, texts: seq<string>, blockId: string, stepIds: nat -> string)
      returns (current: seq<CurrentStep>)
      modifies this`calls
      ensures current == CreatedSteps(texts, blockId, stepIds)
      ensures calls == old(calls) + StepCreates(testCaseId, texts, blockId, stepIds)
    {
      current := [];
      var k := 0;
      while k < |texts|
        invariant 0 <= k <= |texts|
        invariant current == CreatedSteps(texts[..k], blockId, stepIds)
        invariant calls == old(calls) + StepCreates(testCaseId, texts[..k], blockId, stepIds)
      {
        var stepId := stepIds(k);
        assert texts[..k + 1] == texts[..k] + [texts[k]];
        assert StepCreates(testCaseId, texts[..k + 1], blockId, stepIds) ==
               StepCreates(testCaseId, texts[..k], blockId, stepIds) + [StepCreated(testCaseId, texts[k], "TestStep", blockId, stepId)];
        assert CreatedSteps(texts[..k + 1], blockId, stepIds) ==
               CreatedSteps(texts[..k], blockId, stepIds) + [CurrentStep(stepId, blockId, "TestStep", texts[k])];
        Send(StepCreated(testCaseId, texts[k], "TestStep", blockId, stepId));
        current := current + [CurrentStep(stepId, blockId, "TestStep", texts[k])];
        k := k + 1;
      }
      assert texts[..k] == texts;
    }

    /** Every step result is reported, in order. */
    method AssignResults(testCaseId: string, executionId: string, results: seq<StepResult>)
      modifies this`calls
      ensures calls == old(calls) + ResultAssigns(testCaseId, executionId, results)
    {
      var k := 0;
      while k < |results|
        invariant 0 <= k <= |results|
        invariant calls == old(calls) + ResultAssigns(testCaseId, executionId, results[..k])
      {
        assert ResultAssigns(testCaseId, executionId, results[..k + 1]) ==
               ResultAssigns(testCaseId, executionId, results[..k]) +
               [StepResultAssigned(testCaseId, executionId, results[k].testStepId, results[k].result)];
        Send(StepResultAssigned(testCaseId, executionId, results[k].testStepId, results[k].result));
        k := k + 1;
      }
      assert results[..k] == results;
    }

    /** The test case brought up to date; the answer is the steps the
        results will be reported for. */
    method Prepare(testCase: CypressTestCase, found: Option<string>, blocks: seq<RemoteBlock>, ids: ServerIds)
      returns (current: seq<CurrentStep>)
      requires found.Some? || !env.skipTestCaseUpdates
      modifies this`calls
      ensures current == PreparedSteps(env, testCase, found, blocks, ids)
      ensures calls == old(calls) + PrepareCalls(env, testCase, found, blocks, ids)
    {
      if found.Some? {
        var testCaseId := found.value;
        current := ScanCurrentSteps(blocks);
        var changed := HasTestStepsChanged(testCase.testSteps, blocks);
        if !env.skipTestCaseUpdates && changed {
          DeleteBlocks(testCaseId, blocks);
          var blockId := ids.blockId;
          Send(BlockCreated(testCaseId, TestStepsTitle, blockId));
          current := CreateSteps(testCaseId, testCase.testSteps, blockId, ids.stepIds);
          Send(CasePatched(testCaseId, UpdatedCase(NullIfEmpty(testCase.description), env.userId)));
        }
      } else {
        var testCaseId := ids.testCaseId;
        Send(CaseCreated(testCase.name, "StructuredTestCase", testCaseId));
        Send(CasePatched(testCaseId, CreatedCase(NullIfEmpty(testCase.description), env.userId,
                                                 NullIfEmpty(testCase.externalId))));
        Send(PreconditionMarked(testCaseId));
        var blockId := ids.blockId;
        Send(BlockCreated(testCaseId, "Test", blockId));
        current := CreateSteps(testCaseId, testCase.testSteps, blockId, ids.stepIds);
      }
    }

    /** The execution: the one handed in or a new one, added to the
        session and set in progress. */
    method OpenExecution(testCaseId: string, ids: ServerIds) returns (executionId: string)
      modifies this`calls
      ensures executionId == ExecutionId(env, ids)
      ensures calls == old(calls) + ExecutionCalls(env, testSessionId, testCaseId, ids)
    {
      if env.extId != "" {
        executionId := env.extId;
      } else {
        executionId := ids.executionId;
        Send(ExecutionCreated(testCaseId, executionId));
      }
      if !env.sessionToken {
        Send(ExecutionAddedToSession(testCaseId, executionId, testSessionId));
      }
      Send(ExecutionStatusSet(testCaseId, executionId, "InProgress"));
    }

    /** The results: the step results unless updates are skipped and the
        steps changed, then the execution result. */
    method ReportResults(testCase: CypressTestCase, blocks: seq<RemoteBlock>, testCaseId: string,
                         executionId: string, current: seq<CurrentStep>, result: TestResult)
      modifies this`calls
      ensures calls == old(calls) + ResultCalls(env, testCase, blocks, testCaseId, executionId, current, result)
    {
      var changed := false;
      if env.skipTestCaseUpdates {
        changed := HasTestStepsChanged(testCase.testSteps, blocks);
      }
      if changed {
        Send(CasePatched(testCaseId, ToBeReviewed));
        Send(ExecutionResultSet(testCaseId, executionId, result));
      } else {
        var results := StepResults(current, result);
        StepVerdictsUnique(current, result, results);
        AssignResults(testCaseId, executionId, results);
        Send(ExecutionResultSet(testCaseId, executionId, result));
      }
    }

    /** `PublishAutomatedTest`: `found` is the test case the service finds
        for the external id, `blocks` its stored step blocks. */
    method PublishAutomatedTest(testCase: CypressTestCase, result: TestResult, found: Option<string>,
                                blocks: seq<RemoteBlock>, ids: ServerIds)
      modifies this`calls
      ensures calls == old(calls) + PublishCalls(env, testSessionId, testCase, result, found, blocks, ids)
    {
      if found.None? && env.skipTestCaseUpdates {
        return;
      }
      var testCaseId := CaseId(found, ids);
      ghost var calls0 := calls;
      var current := Prepare(testCase, found, blocks, ids);
      ghost var prepared := calls;
      var executionId := OpenExecution(testCaseId, ids);
      ghost var executing := calls;
      ReportResults(testCase, blocks, testCaseId, executionId, current, result);
      ghost var prep := PrepareCalls(env, testCase, found, blocks, ids);
      ghost var exec := ExecutionCalls(env, testSessionId, testCaseId, ids);
      ghost var res := ResultCalls(env, testCase, blocks, testCaseId, executionId, current, result);
      assert calls == calls0 + prep + exec + res;
      assert PublishCalls(env, testSessionId, testCase, result, found, blocks, ids) == prep + exec + res;
      AppendAssociative(calls0, prep + exec, res);
      AppendAssociative(calls0, prep, exec);
    }
  }
}
