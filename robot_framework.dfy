/** The Robot Framework adapter: the `robot` command line it assembles,
    the test case name it suffixes for data-driven rows, and the verdict
    it reads from robot's exit code. */
module RobotFramework {
  import opened Common
  import opened Tbcs
  import opened Adapters

  /** The values handed to the result listener, in the order the listener
      takes them. `testCaseJson` is the `json.dumps` text of the test case. */
  datatype ListenerArgs = ListenerArgs(tbcsBase: string, tenantId: string, userId: string, sessionToken: string,
                                       verify: string, testCaseJson: string, executionId: string)

  /** The `--listener` value: the listener script followed by its
      arguments, separated by ';'. */
  function ListenerArgument(a: ListenerArgs): string {
    "./addons/robotListener.py;" + a.tbcsBase + ";" + a.tenantId + ";" + a.userId + ";" + a.sessionToken + ";" +
    a.verify + ";" + a.testCaseJson + ";" + a.executionId
  }

  /** The output file options, named after the test case, and the
      directory robot searches. */
  function OutputArgs(testCaseName: string, searchDir: string): seq<string> {
    ["--log", testCaseName + "-log.html", "--report", testCaseName + "-report.html",
     "--output", testCaseName + "-output.xml", searchDir]
  }

  /** The `--variable col:value` pairs of a DDT row, in row order. */
  function DdtVariables(ddtRow: seq<DdtCell>): (r: seq<string>)
    ensures |r| == 2 * |ddtRow|
    ensures forall i | 0 <= i < |ddtRow| :: r[2 * i] == "--variable" && r[2 * i + 1] == ddtRow[i].column + ":" + ddtRow[i].value
  {
    if |ddtRow| == 0 then []
    else
      var last := ddtRow[|ddtRow| - 1];
      var r := DdtVariables(ddtRow[..|ddtRow| - 1]) + ["--variable", last.column + ":" + last.value];
      assert forall i | 0 <= i < |ddtRow| - 1 :: ddtRow[..|ddtRow| - 1][i] == ddtRow[i];
      r
  }

  /** The suffix `_col=value` per DDT cell, in row order. */
  function DdtSuffix(ddtRow: seq<DdtCell>): string {
    if |ddtRow| == 0 then ""
    else DdtSuffix(ddtRow[..|ddtRow| - 1]) + "_" + ddtRow[|ddtRow| - 1].column + "=" + ddtRow[|ddtRow| - 1].value
  }

  lemma {:induction false} DdtSuffixLength(ddtRow: seq<DdtCell>)
    ensures |DdtSuffix(ddtRow)| >= 2 * |ddtRow|
    ensures ddtRow == [] <==> DdtSuffix(ddtRow) == ""
  {
    if |ddtRow| > 0 {
      DdtSuffixLength(ddtRow[..|ddtRow| - 1]);
    }
  }

  /** The complete `robot` call for a test case name before and after the
      DDT suffix. */
  function RobotCall(resultDir: string, externalId: int, nameBefore: string, listener: ListenerArgs,
                     ddtRow: seq<DdtCell>, nameAfter: string, searchDir: string): seq<string>
  {
    ["robot", "--outputdir", resultDir] +
    (if externalId != 0 then ["-i", "ID:" + IntToString(externalId)] else ["-t", nameBefore]) +
    ["--listener", ListenerArgument(listener)] + DdtVariables(ddtRow) + OutputArgs(nameAfter, searchDir)
  }

  /** The call starts with `robot --outputdir <result dir>`, selects the
      test by its name (the adapter's external id is always 0), passes the
      listener, then one `--variable` pair per DDT cell, and ends with the
      search directory. */
  lemma {:induction false} RobotCallShape(resultDir: string, nameBefore: string, listener: ListenerArgs, ddtRow: seq<DdtCell>,
                       nameAfter: string, searchDir: string)
    ensures var call := RobotCall(resultDir, 0, nameBefore, listener, ddtRow, nameAfter, searchDir);
            |call| == 14 + 2 * |ddtRow| &&
            call[..7] == ["robot", "--outputdir", resultDir, "-t", nameBefore, "--listener", ListenerArgument(listener)] &&
            call[7..7 + 2 * |ddtRow|] == DdtVariables(ddtRow) &&
            call[|call| - 1] == searchDir && call[|call| - 2] == nameAfter + "-output.xml"
  {
    var call := RobotCall(resultDir, 0, nameBefore, listener, ddtRow, nameAfter, searchDir);
    var head := ["robot", "--outputdir", resultDir] + ["-t", nameBefore] + ["--listener", ListenerArgument(listener)];
    assert call == head + DdtVariables(ddtRow) + OutputArgs(nameAfter, searchDir);
    assert call[..7] == head;
  }

  /** The diagnostics `check_result` logs for a non-zero exit code. */
  datatype Diagnosis = TestNotFound | FailedTests(count: int) | OtherCode(code: int)

  /** `check_result` of the Robot Framework adapters: the verdict and the
      logged diagnosis. */
  function RobotCheckResult(returncode: int): (r: (string, Option<Diagnosis>))
    ensures r.0 == "Passed" <==> returncode == 0
    ensures r.0 == "Failed" <==> returncode != 0
    ensures r.1.None? <==> returncode == 0
    ensures r.1 == Some(TestNotFound) <==> returncode == 252
    ensures (r.1.Some? && r.1.value.FailedTests?) <==> 0 < returncode < 251
    ensures r.1.Some? && r.1.value.FailedTests? ==> r.1.value.count == returncode
  {
    if returncode != 0 then
      if returncode == 252 then ("Failed", Some(TestNotFound))
      else if returncode > 0 && returncode < 251 then ("Failed", Some(FailedTests(returncode)))
      else ("Failed", Some(OtherCode(returncode)))
    else ("Passed", None)
  }

  class RobotFramework {
    const productId: string
    const testCaseId: string
    const executionId: string
    /** Grows by the DDT suffix on every `execute_test_case`. */
    var testCaseName: string
    /** Fixed to 0: the adapter never reads the test case's external id. */
    const externalId: int
    const resultDir: string

    constructor (tc: TestCaseRecord, executionId: string, resultDir: string)
      ensures productId == tc.productId && testCaseId == tc.id && this.executionId == executionId
      ensures testCaseName == tc.name && externalId == 0 && this.resultDir == resultDir
    {
      productId := tc.productId;
      testCaseId := tc.id;
      this.executionId := executionId;
      testCaseName := tc.name;
      externalId := 0;
      this.resultDir := resultDir;
    }

    /** `execute_test_case`: the suffixed name is stored back, so a second
        call suffixes it again; every exception while starting robot is
        caught. */
    method ExecuteTestCase(parallel: bool, ddtRow: seq<DdtCell>, listener: ListenerArgs, searchDir: string,
                           fault: LaunchFault)
      returns (r: Result<Option<Process>, PyError>)
      modifies this`testCaseName
      ensures testCaseName == old(testCaseName) + DdtSuffix(ddtRow)
      ensures r == StartProcess(RobotCall(resultDir, externalId, old(testCaseName), listener, ddtRow, testCaseName, searchDir),
                                parallel, fault, true)
    {
      var call := ["robot", "--outputdir", resultDir];
      if externalId != 0 {
        call := call + ["-i", "ID:" + IntToString(externalId)];
      } else {
        call := call + ["-t", testCaseName];
      }
      call := call + ["--listener", ListenerArgument(listener)];
      ghost var head := call;
      if |ddtRow| > 0 {
        var ddtName := "";
        var i := 0;
        while i < |ddtRow|
          invariant 0 <= i <= |ddtRow|
          invariant call == head + DdtVariables(ddtRow[..i])
          invariant ddtName == DdtSuffix(ddtRow[..i])
        {
          assert ddtRow[..i + 1][..i] == ddtRow[..i];
          call := call + ["--variable", ddtRow[i].column + ":" + ddtRow[i].value];
          ddtName := ddtName + "_" + ddtRow[i].column + "=" + ddtRow[i].value;
          i := i + 1;
        }
        assert ddtRow[..i] == ddtRow;
        testCaseName := testCaseName + ddtName;
      }
      assert call == head + DdtVariables(ddtRow);
      call := call + OutputArgs(testCaseName, searchDir);
      r := StartProcess(call, parallel, fault, true);
    }
  }
}
