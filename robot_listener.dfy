/** The Robot Framework listener: it loads the test case's steps when the
    test starts, maps keyword events to step results of the head step,
    and files a defect for a failure message. */
module RobotListener {
  import opened Common
  import opened Tbcs
  import opened ComparisonUtils

  /** Every step of every block, block by block, in order. */
  function AllSteps(blocks: seq<StepBlock>): (r: seq<TestStep>)
    ensures forall s :: s in r <==> exists b | b in blocks :: s in b.steps
  {
    if |blocks| == 0 then []
    else
      var last := blocks[|blocks| - 1];
      assert blocks == blocks[..|blocks| - 1] + [last];
      AllSteps(blocks[..|blocks| - 1]) + last.steps
  }

  /** The keyword a step names: its description up to the first double
      blank. */
  function StepKeyword(step: TestStep): (r: string)
    ensures StartsWith(step.description, r)
    ensures !Contains(step.description, "  ") ==> r == step.description
  {
    Before(step.description, "  ")
  }

  /** The step result for a Robot keyword status. */
  function StepVerdict(status: string): (r: string)
    ensures r == "Passed" <==> status == "PASS"
    ensures r == "Failed" <==> status == "FAIL"
    ensures r == "Undefined" <==> status != "PASS" && status != "FAIL"
  {
    if status == "PASS" then "Passed"
    else if status == "FAIL" then "Failed"
    else "Undefined"
  }

  /** The name of a defect filed for a failed step. */
  function DefectName(executionId: string, stepDescription: string): (r: string)
    ensures StartsWith(r, "Execution " + executionId + " - ")
    ensures EndsWith(r, stepDescription)
    ensures |r| == 13 + |executionId| + |stepDescription|
  {
    var head := "Execution " + executionId + " - ";
    var r := head + stepDescription;
    assert r[..|head|] == head;
    assert r[|r| - |stepDescription|..] == stepDescription;
    r
  }

  /** The step a defect is assigned to: test case, execution and step id,
      joined by '-'. */
  function DefectParent(testCaseId: string, executionId: string, stepId: string): (r: string)
    ensures StartsWith(r, testCaseId + "-") && EndsWith(r, "-" + stepId)
  {
    var head := testCaseId + "-";
    var r := head + executionId + "-" + stepId;
    assert r[..|head|] == head;
    assert r[|r| - |stepId| - 1..] == "-" + stepId;
    r
  }

  /** A test case id without '-' is recovered from the parent id as the
      text before the first '-'. */
  lemma {:induction false} DefectParentSplits(testCaseId: string, executionId: string, stepId: string)
    requires !Contains(testCaseId, "-")
    ensures Before(DefectParent(testCaseId, executionId, stepId), "-") == testCaseId
  {
    var r := DefectParent(testCaseId, executionId, stepId);
    FirstSeparator(testCaseId, r);
  }

  /** A separator-free text followed by '-' is cut at that '-'. */
  lemma {:induction false} FirstSeparator(id: string, r: string)
    requires !Contains(id, "-") && StartsWith(r, id + "-")
    ensures IndexOf(r, "-") == Some(|id|)
  {
    assert r[|id|..|id| + 1] == "-";
    assert OccursAt(r, "-", |id|);
    forall j: nat | j < |id| ensures !OccursAt(r, "-", j) {
      assert r[j] == id[j];
      assert !OccursAt(id, "-", j);
      if j + 1 <= |r| {
        assert r[j..j + 1] == [r[j]];
        assert id[j..j + 1] == [id[j]];
      }
    }
  }

  /** The listener. `testSteps` is a class attribute in the source and is
      never cleared, so a listener starts with whatever earlier listeners
      of the same process left there (`shared`). The ghost `loaded` and
      `reported` record every step ever loaded and every step reported. */
  class Listener {
    const api: Api
    const productId: string
    const testCaseId: string
    const executionId: string
    const blocks: seq<StepBlock>
    const createDefects: bool
    var testSteps: seq<TestStep>
    var skip: bool
    ghost var loaded: seq<TestStep>
    ghost var reported: seq<TestStep>

    /** Steps are reported from the front, in the order they were
        loaded: what was reported and what is pending make up what was
        loaded. */
    ghost predicate Valid()
      reads this
    {
      loaded == reported + testSteps
    }

    constructor (api: Api, productId: string, testCaseId: string, executionId: string, blocks: seq<StepBlock>,
                 createDefects: bool, shared: seq<TestStep>)
      ensures Valid()
      ensures this.api == api && this.productId == productId && this.testCaseId == testCaseId
      ensures this.executionId == executionId && this.blocks == blocks && this.createDefects == createDefects
      ensures testSteps == shared && !skip && reported == []
    {
      this.api := api;
      this.productId := productId;
      this.testCaseId := testCaseId;
      this.executionId := executionId;
      this.blocks := blocks;
      this.createDefects := createDefects;
      testSteps := shared;
      skip := false;
      loaded := shared;
      reported := [];
    }

    /** The head step names the keyword, ignoring separators and case. */
    predicate HeadMatches(kwname: string)
      reads this
      requires |testSteps| > 0
    {
      IsEqualIgnoreSeparators(StepKeyword(testSteps[0]), kwname)
    }

    /** `start_test`: the steps of every block are appended to the stack,
        block by block. */
    method StartTest()
      requires Valid()
      modifies this`testSteps, this`loaded
      ensures Valid()
      ensures testSteps == old(testSteps) + AllSteps(blocks)
      ensures loaded == old(loaded) + AllSteps(blocks)
    {
      var i := 0;
      while i < |blocks|
        invariant 0 <= i <= |blocks| && Valid()
        invariant testSteps == old(testSteps) + AllSteps(blocks[..i])
        invariant loaded == old(loaded) + AllSteps(blocks[..i])
      {
        assert blocks[..i + 1][..i] == blocks[..i];
        testSteps := testSteps + blocks[i].steps;
        loaded := loaded + blocks[i].steps;
        i := i + 1;
      }
      assert blocks[..i] == blocks;
    }

    /** `start_keyword`: a keyword the head step names starts a stretch in
        which nested keywords are not reported. An empty stack raises. */
    method StartKeyword(kwname: string) returns (r: Result<(), PyError>)
      requires Valid()
      modifies this`skip
      ensures Valid()
      ensures |testSteps| == 0 ==> r == Err(IndexError) && skip == old(skip)
      ensures |testSteps| > 0 ==> r == Ok(()) && skip == (old(skip) || HeadMatches(kwname))
    {
      if |testSteps| == 0 {
        return Err(IndexError);
      }
      if IsEqualIgnoreSeparators(StepKeyword(testSteps[0]), kwname) {
        skip := true;
      }
      r := Ok(());
    }

    /** `end_keyword`: the head step's own keyword ends the skipped
        stretch; while it lasts nothing is reported. Otherwise the status is
        reported for the head step and the head is popped. An empty stack
        raises before anything else. */
    method EndKeyword(kwname: string, status: string) returns (r: Result<(), PyError>)
      requires Valid()
      modifies this`testSteps, this`skip, this`reported, api`log
      ensures Valid()
      ensures old(|testSteps|) == 0 ==>
                r == Err(IndexError) && skip == old(skip) && testSteps == old(testSteps) &&
                reported == old(reported) && api.log == old(api.log)
      ensures old(|testSteps|) > 0 ==> r == Ok(()) && skip == (old(skip) && !old(HeadMatches(kwname)))
      ensures old(|testSteps|) > 0 && skip ==>
                testSteps == old(testSteps) && reported == old(reported) && api.log == old(api.log)
      ensures old(|testSteps|) > 0 && !skip ==>
                testSteps == old(testSteps)[1..] && reported == old(reported) + [old(testSteps)[0]] &&
                api.log == old(api.log) + [StepResultReported(productId, testCaseId, old(testSteps)[0].id,
                                                              executionId, StepVerdict(status))]
    {
      if |testSteps| == 0 {
        return Err(IndexError);
      }
      if IsEqualIgnoreSeparators(StepKeyword(testSteps[0]), kwname) {
        skip := false;
      }
      r := Ok(());
      if skip {
        return;
      }
      var head := testSteps[0];
      api.Send(StepResultReported(productId, testCaseId, head.id, executionId, StepVerdict(status)));
      MoveHead(loaded, reported, testSteps);
      testSteps := testSteps[1..];
      reported := reported + [head];
    }

    /** `log_message`: with defect creation configured, a FAIL message
        files a defect named after the head step, with the message as its
        description, and assigns it to that step of this execution. The
        defect id is the server's answer. Other messages do nothing. */
    method LogMessage(level: string, message: string, defectId: string) returns (r: Result<(), PyError>)
      modifies api`log
      ensures !(level == "FAIL" && createDefects) ==> r == Ok(()) && api.log == old(api.log)
      ensures level == "FAIL" && createDefects && |testSteps| == 0 ==>
                r == Err(IndexError) && api.log == old(api.log)
      ensures level == "FAIL" && createDefects && |testSteps| > 0 ==>
                r == Ok(()) &&
                api.log == old(api.log) +
                           [DefectCreated(productId, DefectName(executionId, testSteps[0].description), message,
                                          defectId),
                            DefectAssigned(productId, defectId, DefectParent(testCaseId, executionId, testSteps[0].id))]
    {
      r := Ok(());
      if level == "FAIL" && createDefects {
        if |testSteps| == 0 {
          return Err(IndexError);
        }
        var step := testSteps[0];
        api.Send(DefectCreated(productId, DefectName(executionId, step.description), message, defectId));
        api.Send(DefectAssigned(productId, defectId, DefectParent(testCaseId, executionId, step.id)));
      }
    }
  }
}
