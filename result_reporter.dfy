/** The Cypress reporter plugin: its hooks collect the `cy.log` commands of
    each test, keep one report suite per suite title and one report test
    case per test title, hand every finished test to the publisher, and
    tally the suites at the end. The module-level sets of the plugin are
    the fields of one `Reporter` object. */
module ResultReporter {
  import opened Common
  import opened TbcsPublish

  /** A recorded `cy.log` command; `dateTime` is the clock at the time. */
  datatype Command = Command(dateTime: string, name: string, content: string)

  datatype ReportCase = ReportCase(name: string, time: int, failed: bool, skipped: bool, error: Option<string>,
                                   commands: seq<Command>, metaCommands: seq<Command>)

  datatype ReportSuite = ReportSuite(name: string, testCases: seq<ReportCase>, time: int, testCount: nat,
                                     failedCount: nat, skippedCount: nat)

  const AutIdOpen := "TBCS_AUTID("
  const CategoryOpen := "TBCS_CATEGORY("
  const DescriptionOpen := "TBCS_DESCRIPTION("

  // ---------------------------------------------------------------------
  // Classifying commands

  /** Only `log` commands with an argument, logged from a test body (hook
      id starting with 'r'), are recorded. */
  predicate Recorded(name: string, args: seq<string>, hookId: string) {
    name == "log" && |args| > 0 && StartsWith(hookId, "r")
  }

  /** A meta command holds `TBCS_AUTID(…)`, `TBCS_CATEGORY(…)` or
      `TBCS_DESCRIPTION(…)` with at least one character inside. */
  predicate IsMeta(content: string) {
    Bracketed(content, AutIdOpen, ")") || Bracketed(content, CategoryOpen, ")") ||
    Bracketed(content, DescriptionOpen, ")")
  }

  /** The group of `(open)(.+)(\).*)`: from the first `open` to the last
      `)` of the text, at least one character long. */
  function Group(content: string, open: string): (r: Option<string>)
    ensures r.Some? ==> Bracketed(content, open, ")")
  {
    match IndexOf(content, open)
    case None => None
    case Some(i) =>
      var r := GreedyGroup(content, i + |open|, 1, ')');
      assert r.Some? ==> Bracketed(content, open, ")") by {
        if r.Some? {
          var j :| i + |open| + 1 <= j < |content| && content[j] == ')' && r.value == content[i + |open|..j];
          assert content[j..j + 1] == [')'];
          assert OccursAt(content, ")", j);
        }
      }
      r
  }

  /** The group is found exactly when the pattern occurs. */
  lemma {:induction false} GroupIffBracketed(content: string, open: string)
    ensures Group(content, open).Some? <==> Bracketed(content, open, ")")
  {
    if Bracketed(content, open, ")") {
      var i: nat, j: nat :| i <= |content| && j <= |content| && OccursAt(content, open, i) &&
                            i + |open| + 1 <= j && OccursAt(content, ")", j);
      var first := IndexOf(content, open).value;
      assert first <= i;
      assert content[j] == content[j..j + 1][0];
    }
  }

  /** The value the last command carrying the pattern gives, or "" when
      none does. */
  function LastGroup(metas: seq<Command>, open: string): string {
    if |metas| == 0 then ""
    else
      var g := Group(metas[|metas| - 1].content, open);
      if g.Some? then g.value else LastGroup(metas[..|metas| - 1], open)
  }

  /** A command whose content holds no such group leaves the value as the
      earlier commands gave it. */
  lemma {:induction false} LastGroupSkips(metas: seq<Command>, c: Command, open: string)
    requires Group(c.content, open).None?
    ensures LastGroup(metas + [c], open) == LastGroup(metas, open)
  {
    assert (metas + [c])[..|metas|] == metas;
  }

  /** The value is the group of some command, or "" when no command has one. */
  lemma {:induction false} LastGroupFrom(metas: seq<Command>, open: string)
    ensures LastGroup(metas, open) == "" ||
            exists k | 0 <= k < |metas| :: Group(metas[k].content, open) == Some(LastGroup(metas, open))
    ensures (forall k | 0 <= k < |metas| :: Group(metas[k].content, open).None?) ==> LastGroup(metas, open) == ""
  {
    if |metas| > 0 {
      var n := |metas| - 1;
      LastGroupFrom(metas[..n], open);
      if Group(metas[n].content, open).None? && LastGroup(metas[..n], open) != "" {
        var k :| 0 <= k < n && Group(metas[..n][k].content, open) == Some(LastGroup(metas[..n], open));
        assert metas[..n][k] == metas[k];
      }
      if forall k | 0 <= k < |metas| :: Group(metas[k].content, open).None? {
        assert forall k | 0 <= k < n :: metas[..n][k] == metas[k];
      }
    }
  }

  function Contents(commands: seq<Command>): (r: seq<string>)
    ensures |r| == |commands| && forall k | 0 <= k < |r| :: r[k] == commands[k].content
  {
    seq(|commands|, k requires 0 <= k < |commands| => commands[k].content)
  }

  // ---------------------------------------------------------------------
  // Suites and test cases

  ghost predicate UniqueSuites(suites: seq<ReportSuite>) {
    forall i, j | 0 <= i < j < |suites| :: suites[i].name != suites[j].name
  }

  ghost predicate UniqueCases(cases: seq<ReportCase>) {
    forall i, j | 0 <= i < j < |cases| :: cases[i].name != cases[j].name
  }

  /** The index of the last suite with the name. */
  function FindSuite(suites: seq<ReportSuite>, name: string): (r: Option<nat>)
    ensures r.Some? ==> r.value < |suites| && suites[r.value].name == name &&
                        forall k | r.value < k < |suites| :: suites[k].name != name
    ensures r.None? ==> forall k | 0 <= k < |suites| :: suites[k].name != name
  {
    if |suites| == 0 then None
    else if suites[|suites| - 1].name == name then Some(|suites| - 1)
    else FindSuite(suites[..|suites| - 1], name)
  }

  function FindCase(cases: seq<ReportCase>, name: string): (r: Option<nat>)
    ensures r.Some? ==> r.value < |cases| && cases[r.value].name == name &&
                        forall k | r.value < k < |cases| :: cases[k].name != name
    ensures r.None? ==> forall k | 0 <= k < |cases| :: cases[k].name != name
  {
    if |cases| == 0 then None
    else if cases[|cases| - 1].name == name then Some(|cases| - 1)
    else FindCase(cases[..|cases| - 1], name)
  }

  function NewSuite(name: string): ReportSuite {
    ReportSuite(name, [], 0, 0, 0, 0)
  }

  function NewCase(name: string): ReportCase {
    ReportCase(name, 0, false, false, None, [], [])
  }

  /** The suites after `getOrCreateReportTestSuite`, and the index of the
      suite returned. */
  function WithSuite(suites: seq<ReportSuite>, name: string): seq<ReportSuite> {
    if FindSuite(suites, name).Some? then suites else suites + [NewSuite(name)]
  }

  function SuiteIndex(suites: seq<ReportSuite>, name: string): nat {
    if FindSuite(suites, name).Some? then FindSuite(suites, name).value else |suites|
  }

  function WithCase(cases: seq<ReportCase>, name: string): seq<ReportCase> {
    if FindCase(cases, name).Some? then cases else cases + [NewCase(name)]
  }

  function CaseIndex(cases: seq<ReportCase>, name: string): nat {
    if FindCase(cases, name).Some? then FindCase(cases, name).value else |cases|
  }

  /** Get-or-create keeps at most one suite per name: the suite returned
      has the name, and exactly one is added when none had it. */
  lemma {:induction false} WithSuiteUnique(suites: seq<ReportSuite>, name: string)
    requires UniqueSuites(suites)
    ensures var s := WithSuite(suites, name);
            UniqueSuites(s) && SuiteIndex(suites, name) < |s| && s[SuiteIndex(suites, name)].name == name &&
            |s| == |suites| + (if exists k | 0 <= k < |suites| :: suites[k].name == name then 0 else 1) &&
            s[..|suites|] == suites
  {
    var s := WithSuite(suites, name);
    assert s[..|suites|] == suites;
  }

  lemma {:induction false} WithCaseUnique(cases: seq<ReportCase>, name: string)
    requires UniqueCases(cases)
    ensures var s := WithCase(cases, name);
            UniqueCases(s) && CaseIndex(cases, name) < |s| && s[CaseIndex(cases, name)].name == name &&
            |s| == |cases| + (if exists k | 0 <= k < |cases| :: cases[k].name == name then 0 else 1) &&
            s[..|cases|] == cases
  {
    var s := WithCase(cases, name);
    assert s[..|cases|] == cases;
  }

  /** A test case as `afterEachTest` records it: the commands of the test,
      its duration, failed iff its state is "failed", skipped iff it is
      "pending"; an error message is recorded only for a failure, and an
      earlier one is otherwise kept. */
  function RecordedCase(prev: ReportCase, duration: int, state: string, errMessage: string,
                        commands: seq<Command>, metaCommands: seq<Command>): (r: ReportCase)
    ensures r.name == prev.name && r.commands == commands && r.metaCommands == metaCommands
    ensures r.failed <==> state == "failed"
    ensures r.skipped <==> state == "pending"
    ensures r.error == if state == "failed" then Some(errMessage) else prev.error
  {
    prev.(commands := commands, metaCommands := metaCommands, time := duration, failed := state == "failed",
          error := if state == "failed" then Some(errMessage) else prev.error, skipped := state == "pending")
  }

  /** The suites after one test is recorded. */
  function RecordTest(suites: seq<ReportSuite>, suiteTitle: string, title: string, duration: int, state: string,
                      errMessage: string, commands: seq<Command>, metaCommands: seq<Command>): seq<ReportSuite>
  {
    var s := WithSuite(suites, suiteTitle);
    var si := SuiteIndex(suites, suiteTitle);
    var suite := s[si];
    var cases := WithCase(suite.testCases, title);
    var ci := CaseIndex(suite.testCases, title);
    s[si := suite.(testCases := cases[ci := RecordedCase(cases[ci], duration, state, errMessage, commands,
                                                         metaCommands)])]
  }

  ghost predicate Unique(suites: seq<ReportSuite>) {
    UniqueSuites(suites) && forall i | 0 <= i < |suites| :: UniqueCases(suites[i].testCases)
  }

  /** Recording a test keeps one suite per title and one test case per
      title in a suite, and the recorded case is found under its titles. */
  lemma {:induction false} RecordTestUnique(suites: seq<ReportSuite>, suiteTitle: string, title: string, duration: int, state: string,
                         errMessage: string, commands: seq<Command>, metaCommands: seq<Command>)
    requires Unique(suites)
    ensures var r := RecordTest(suites, suiteTitle, title, duration, state, errMessage, commands, metaCommands);
            Unique(r) && FindSuite(r, suiteTitle).Some? &&
            var c := FindCase(r[FindSuite(r, suiteTitle).value].testCases, title);
            c.Some? && r[FindSuite(r, suiteTitle).value].testCases[c.value].commands == commands &&
            (r[FindSuite(r, suiteTitle).value].testCases[c.value].failed <==> state == "failed")
  {
    var s := WithSuite(suites, suiteTitle);
    var si := SuiteIndex(suites, suiteTitle);
    WithSuiteUnique(suites, suiteTitle);
    var suite := s[si];
    assert UniqueCases(suite.testCases) by {
      if si < |suites| {
        assert suite == suites[si];
      }
    }
    var cases := WithCase(suite.testCases, title);
    var ci := CaseIndex(suite.testCases, title);
    WithCaseUnique(suite.testCases, title);
    var rc := RecordedCase(cases[ci], duration, state, errMessage, commands, metaCommands);
    var cases' := cases[ci := rc];
    var r := s[si := suite.(testCases := cases')];
    assert UniqueCases(cases');
    assert forall i | 0 <= i < |r| && i != si :: r[i] == s[i];
    forall i | 0 <= i < |r| ensures UniqueCases(r[i].testCases) {
      if i != si && i < |suites| {
        assert r[i] == suites[i];
      }
    }
    assert UniqueSuites(r);
    assert FindSuite(r, suiteTitle) == Some(si) by {
      assert r[si].name == suiteTitle;
      UniqueSuiteFound(r, si);
    }
    assert FindCase(cases', title) == Some(ci) by {
      UniqueCaseFound(cases', ci);
    }
  }

  lemma {:induction false} UniqueSuiteFound(suites: seq<ReportSuite>, i: nat)
    requires UniqueSuites(suites) && i < |suites|
    ensures FindSuite(suites, suites[i].name) == Some(i)
  {
  }

  lemma {:induction false} UniqueCaseFound(cases: seq<ReportCase>, i: nat)
    requires UniqueCases(cases) && i < |cases|
    ensures FindCase(cases, cases[i].name) == Some(i)
  {
  }

  // ---------------------------------------------------------------------
  // Tallies

  function FailedCases(cases: seq<ReportCase>): nat {
    if |cases| == 0 then 0 else FailedCases(cases[..|cases| - 1]) + if cases[|cases| - 1].failed then 1 else 0
  }

  /** Skipped cases that did not fail. */
  function SkippedCases(cases: seq<ReportCase>): nat {
    if |cases| == 0 then 0
    else SkippedCases(cases[..|cases| - 1]) + if !cases[|cases| - 1].failed && cases[|cases| - 1].skipped then 1 else 0
  }

  function CasesTime(cases: seq<ReportCase>): int {
    if |cases| == 0 then 0 else CasesTime(cases[..|cases| - 1]) + cases[|cases| - 1].time
  }

  /** No case is counted both as failed and as skipped. */
  lemma {:induction false} TallyBound(cases: seq<ReportCase>)
    ensures FailedCases(cases) + SkippedCases(cases) <= |cases|
  {
    if |cases| > 0 {
      TallyBound(cases[..|cases| - 1]);
    }
  }

  /** A suite with its tallies. */
  function Tallied(suite: ReportSuite): (r: ReportSuite)
    ensures r.failedCount + r.skippedCount <= r.testCount == |suite.testCases|
  {
    TallyBound(suite.testCases);
    suite.(time := CasesTime(suite.testCases), testCount := |suite.testCases|,
           failedCount := FailedCases(suite.testCases), skippedCount := SkippedCases(suite.testCases))
  }

  function SumTime(suites: seq<ReportSuite>): int {
    if |suites| == 0 then 0 else SumTime(suites[..|suites| - 1]) + suites[|suites| - 1].time
  }

  function SumTests(suites: seq<ReportSuite>): nat {
    if |suites| == 0 then 0 else SumTests(suites[..|suites| - 1]) + suites[|suites| - 1].testCount
  }

  function SumFailed(suites: seq<ReportSuite>): nat {
    if |suites| == 0 then 0 else SumFailed(suites[..|suites| - 1]) + suites[|suites| - 1].failedCount
  }

  lemma {:induction false} SumsSnoc(suites: seq<ReportSuite>, x: ReportSuite)
    ensures SumTime(suites + [x]) == SumTime(suites) + x.time
    ensures SumTests(suites + [x]) == SumTests(suites) + x.testCount
    ensures SumFailed(suites + [x]) == SumFailed(suites) + x.failedCount
  {
    assert (suites + [x])[..|suites|] == suites;
  }

  /** Tallied suites never count more failures than tests. */
  lemma {:induction false} SumFailedBound(suites: seq<ReportSuite>)
    requires forall i | 0 <= i < |suites| :: suites[i].failedCount <= suites[i].testCount
    ensures SumFailed(suites) <= SumTests(suites)
  {
    if |suites| > 0 {
      SumFailedBound(suites[..|suites| - 1]);
    }
  }

  // ---------------------------------------------------------------------
  // The plugin

  /** The plugin state. `extId` is the execution id handed in through the
      Cypress environment ("" when none). */
  class Reporter {
    const skipResultImport: bool
    const extId: string
    var loggedCommands: seq<Command>
    var loggedMetaCommands: seq<Command>
    var suites: seq<ReportSuite>
    var alreadyLoggedIn: bool

    ghost predicate Valid()
      reads this
    {
      Unique(suites)
    }

    constructor (skipResultImport: bool, extId: string)
      ensures Valid()
      ensures this.skipResultImport == skipResultImport && this.extId == extId
      ensures loggedCommands == [] && loggedMetaCommands == [] && suites == [] && !alreadyLoggedIn
    {
      this.skipResultImport := skipResultImport;
      this.extId := extId;
      loggedCommands := [];
      loggedMetaCommands := [];
      suites := [];
      alreadyLoggedIn := false;
    }

    /** `beforeAllTests`: the suites are cleared; the publisher is started
        once, on the first run that imports results. The answer is whether
        it is started now. */
    method BeforeAllTests() returns (start: bool)
      modifies this`suites, this`alreadyLoggedIn
      ensures Valid() && suites == []
      ensures start <==> !skipResultImport && !old(alreadyLoggedIn)
      ensures alreadyLoggedIn == (old(alreadyLoggedIn) || start)
    {
      suites := [];
      start := false;
      if skipResultImport {
        return;
      }
      if !alreadyLoggedIn {
        start := true;
        alreadyLoggedIn := true;
      }
    }

    /** `beforeEachTest`: the commands of the previous test are dropped. */
    method BeforeEachTest()
      modifies this`loggedCommands, this`loggedMetaCommands
      ensures loggedCommands == [] && loggedMetaCommands == []
    {
      loggedCommands := [];
      loggedMetaCommands := [];
    }

    /** The `command:end` listener: a recorded command goes to the meta
        commands when it is a meta command, to the commands otherwise. */
    method CommandEnd(name: string, args: seq<string>, hookId: string, now: string)
      modifies this`loggedCommands, this`loggedMetaCommands
      ensures !Recorded(name, args, hookId) ==>
                loggedCommands == old(loggedCommands) && loggedMetaCommands == old(loggedMetaCommands)
      ensures Recorded(name, args, hookId) && IsMeta(args[0]) ==>
                loggedCommands == old(loggedCommands) &&
                loggedMetaCommands == old(loggedMetaCommands) + [Command(now, name, args[0])]
      ensures Recorded(name, args, hookId) && !IsMeta(args[0]) ==>
                loggedCommands == old(loggedCommands) + [Command(now, name, args[0])] &&
                loggedMetaCommands == old(loggedMetaCommands)
    {
      if name != "log" {
        return;
      }
      if |args| == 0 || !StartsWith(hookId, "r") {
        return;
      }
      var command := Command(now, name, args[0]);
      var meta := BracketedSearch(command.content, AutIdOpen, ")") ||
                  BracketedSearch(command.content, CategoryOpen, ")") ||
                  BracketedSearch(command.content, DescriptionOpen, ")");
      if meta {
        loggedMetaCommands := loggedMetaCommands + [command];
      } else {
        loggedCommands := loggedCommands + [command];
      }
    }

    /** `getOrCreateReportTestSuite`: the scan keeps the last suite with
        the title; a new suite is added when there is none. */
    method GetOrCreateSuite(name: string) returns (index: nat)
      modifies this`suites
      ensures suites == WithSuite(old(suites), name) && index == SuiteIndex(old(suites), name)
      ensures index < |suites| && suites[index].name == name
    {
      var result: Option<nat> := None;
      var k := 0;
      while k < |suites|
        invariant 0 <= k <= |suites|
        invariant result == FindSuite(suites[..k], name)
      {
        assert suites[..k + 1][..k] == suites[..k];
        if suites[k].name == name {
          result := Some(k);
        }
        k := k + 1;
      }
      assert suites[..k] == suites;
      if result.Some? {
        return result.value;
      }
      index := |suites|;
      suites := suites + [NewSuite(name)];
    }

    /** `getOrCreateReportTestCase`, on the suite at `suiteIndex`. */
    method GetOrCreateCase(suiteIndex: nat, name: string) returns (index: nat)
      requires suiteIndex < |suites|
      modifies this`suites
      ensures suites == old(suites)[suiteIndex := old(suites)[suiteIndex].(
                          testCases := WithCase(old(suites)[suiteIndex].testCases, name))]
      ensures index == CaseIndex(old(suites)[suiteIndex].testCases, name)
    {
      var cases := suites[suiteIndex].testCases;
      var result: Option<nat> := None;
      var k := 0;
      while k < |cases|
        invariant 0 <= k <= |cases|
        invariant result == FindCase(cases[..k], name)
      {
        assert cases[..k + 1][..k] == cases[..k];
        if cases[k].name == name {
          result := Some(k);
        }
        k := k + 1;
      }
      assert cases[..k] == cases;
      if result.Some? {
        index := result.value;
        assert suites == suites[suiteIndex := suites[suiteIndex].(testCases := cases)];
        return;
      }
      index := |cases|;
      suites := suites[suiteIndex := suites[suiteIndex].(testCases := cases + [NewCase(name)])];
    }

    /** The first half of `afterEachTest`: the test is recorded under its
        suite and its title; the answer is the recorded test case. */
    method RecordTestCase(suiteTitle: string, title: string, duration: int, state: string, errMessage: string)
      returns (reportTest: ReportCase)
      requires Valid()
      modifies this`suites
      ensures Valid()
      ensures suites == RecordTest(old(suites), suiteTitle, title, duration, state, errMessage, loggedCommands,
                                   loggedMetaCommands)
      ensures reportTest.name == title && (reportTest.failed <==> state == "failed")
    {
      ghost var r := RecordTest(suites, suiteTitle, title, duration, state, errMessage, loggedCommands,
                                loggedMetaCommands);
      assert Unique(r) by {
        RecordTestUnique(suites, suiteTitle, title, duration, state, errMessage, loggedCommands, loggedMetaCommands);
      }
      ghost var s := WithSuite(suites, suiteTitle);
      assert SuiteIndex(suites, suiteTitle) < |s| by {
        WithSuiteUnique(suites, suiteTitle);
      }
      var si := GetOrCreateSuite(suiteTitle);
      ghost var suite := s[si];
      var ci := GetOrCreateCase(si, title);
      ghost var cases := WithCase(suite.testCases, title);
      assert suites == s[si := suite.(testCases := cases)];
      assert ci < |cases| by {
        WithCaseUnique(suite.testCases, title);
      }
      reportTest := suites[si].testCases[ci];
      reportTest := RecordedCase(reportTest, duration, state, errMessage, loggedCommands, loggedMetaCommands);
      suites := suites[si := suites[si].(testCases := suites[si].testCases[ci := reportTest])];
      assert suites == r;
    }

    /** `afterEachTest`: the test is recorded; unless result import is
        skipped, the answer is what is handed to the publisher: the test
        with the external id and the description of the last meta commands
        that carry them, the logged contents as steps, and Failed or
        Passed. */
    method AfterEachTest(suiteTitle: string, title: string, duration: int, state: string, errMessage: string)
      returns (publish: Option<(CypressTestCase, TestResult)>)
      requires Valid()
      modifies this`suites
      ensures Valid()
      ensures suites == RecordTest(old(suites), suiteTitle, title, duration, state, errMessage, loggedCommands,
                                   loggedMetaCommands)
      ensures skipResultImport ==> publish.None?
      ensures !skipResultImport ==>
                publish == Some((CypressTestCase(LastGroup(loggedMetaCommands, AutIdOpen), title,
                                                 LastGroup(loggedMetaCommands, DescriptionOpen),
                                                 Contents(loggedCommands)),
                                 if state == "failed" then Failed else Passed))
    {
      var reportTest := RecordTestCase(suiteTitle, title, duration, state, errMessage);
      if skipResultImport {
        return None;
      }
      var eid := MetaValue(loggedMetaCommands, AutIdOpen);
      var descr := MetaValue(loggedMetaCommands, DescriptionOpen);
      var steps := StepTexts(loggedCommands);
      publish := Some((CypressTestCase(eid, reportTest.name, descr, steps),
                       if reportTest.failed then Failed else Passed));
    }

    /** `afterAllTests`: every suite gets its time, test count, failure
        count and count of skipped tests that did not fail; the answers are
        the totals, and whether the publisher is ended (not when result
        import is skipped or the execution was handed in). */
    method AfterAllTests() returns (totalTime: int, totalTests: nat, failedSuites: nat, end: bool)
      requires Valid()
      modifies this`suites
      ensures Valid()
      ensures |suites| == |old(suites)| && forall i | 0 <= i < |suites| :: suites[i] == Tallied(old(suites)[i])
      ensures totalTime == SumTime(suites) && totalTests == SumTests(suites) && failedSuites == SumFailed(suites)
      ensures failedSuites <= totalTests
      ensures end <==> !skipResultImport && extId == ""
    {
      totalTime, totalTests, failedSuites := 0, 0, 0;
      var i := 0;
      while i < |suites|
        invariant 0 <= i <= |suites| && |suites| == |old(suites)|
        invariant forall j | 0 <= j < i :: suites[j] == Tallied(old(suites)[j])
        invariant forall j | i <= j < |suites| :: suites[j] == old(suites)[j]
        invariant totalTime == SumTime(suites[..i]) && totalTests == SumTests(suites[..i]) &&
                  failedSuites == SumFailed(suites[..i])
      {
        var suite := TallySuite(suites[i]);
        UpdateTake(suites, i, suite);
        SumsSnoc(suites[..i], suite);
        suites := suites[i := suite];
        totalTime, totalTests, failedSuites := totalTime + suite.time, totalTests + suite.testCount,
                                               failedSuites + suite.failedCount;
        i := i + 1;
      }
      assert suites[..i] == suites;
      assert forall j | 0 <= j < |suites| :: suites[j].name == old(suites)[j].name &&
                                             suites[j].testCases == old(suites)[j].testCases;
      SumFailedBound(suites);
      end := !skipResultImport && extId == "";
    }
  }

  /** The value of the last meta command carrying the pattern, as the loop
      over the meta commands computes it. */
  method MetaValue(metas: seq<Command>, open: string) returns (value: string)
    ensures value == LastGroup(metas, open)
  {
    value := "";
    var k := 0;
    while k < |metas|
      invariant 0 <= k <= |metas|
      invariant value == LastGroup(metas[..k], open)
    {
      assert metas[..k + 1][..k] == metas[..k];
      var g := Group(metas[k].content, open);
      if g.Some? {
        value := g.value;
      }
      k := k + 1;
    }
    assert metas[..k] == metas;
  }

  /** The contents of the logged commands, in order. */
  method StepTexts(commands: seq<Command>) returns (steps: seq<string>)
    ensures steps == Contents(commands)
  {
    steps := [];
    var k := 0;
    while k < |commands|
      invariant 0 <= k <= |commands| && steps == Contents(commands[..k])
    {
      assert commands[..k + 1] == commands[..k] + [commands[k]];
      steps := steps + [commands[k].content];
      k := k + 1;
    }
    assert commands[..k] == commands;
  }

  /** One suite's tallies, counted test case by test case. */
  method TallySuite(suite: ReportSuite) returns (r: ReportSuite)
    ensures r == Tallied(suite)
  {
    r := suite.(time := 0, testCount := 0, failedCount := 0, skippedCount := 0);
    var cases := suite.testCases;
    var k := 0;
    while k < |cases|
      invariant 0 <= k <= |cases|
      invariant r == suite.(time := CasesTime(cases[..k]), testCount := k, failedCount := FailedCases(cases[..k]),
                            skippedCount := SkippedCases(cases[..k]))
    {
      assert cases[..k + 1][..k] == cases[..k];
      var test := cases[k];
      r := r.(time := r.time + test.time, testCount := r.testCount + 1);
      if test.failed {
        r := r.(failedCount := r.failedCount + 1);
      } else if test.skipped {
        r := r.(skippedCount := r.skippedCount + 1);
      }
      k := k + 1;
    }
    assert cases[..k] == cases;
  }
}
