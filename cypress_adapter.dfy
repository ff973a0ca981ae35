/** The Cypress adapter: it finds the spec file that mentions the test
    case's external id, writes a temporary copy in which the enclosing
    `it(` test is turned into `it.only(`, and runs Cypress on that copy.
    The file system is given as values: the files `os.walk` visits, in walk
    order, with their lines, and the set of existing paths at cleanup. */
module CypressAdapter {
  import opened Common
  import opened Tbcs
  import opened Adapters

  /** The suffix of every temporary spec file the adapter writes. */
  const TmpFileEnding := ".tbcs-agent-temp.js"

  /** A file visited by `os.walk` below the spec folder: the folder it was
      found in, its name and its lines as `readlines` returns them. */
  datatype SpecFile = SpecFile(folder: string, name: string, lines: seq<string>)

  /** `os.path.join(a, b)`. */
  function PathJoin(a: string, b: string): (p: string)
    ensures EndsWith(p, b)
  {
    if StartsWith(b, "/") || a == "" then b
    else if EndsWith(a, "/") then a + b
    else a + "/" + b
  }

  /** Some line of the file holds the id as a substring. */
  predicate MentionsId(lines: seq<string>, id: string) {
    exists k | 0 <= k < |lines| :: Contains(lines[k], id)
  }

  /** A file the scan accepts: not a temporary spec, and mentioning the id. */
  predicate Candidate(f: SpecFile, id: string) {
    !EndsWith(f.name, TmpFileEnding) && MentionsId(f.lines, id)
  }

  /** The file the scan chooses: the first candidate in walk order. */
  function FirstCandidate(walk: seq<SpecFile>, id: string): (r: Option<nat>)
    ensures r.Some? ==> r.value < |walk| && Candidate(walk[r.value], id) &&
                        forall j | 0 <= j < r.value :: !Candidate(walk[j], id)
    ensures r.None? <==> forall j | 0 <= j < |walk| :: !Candidate(walk[j], id)
  {
    if |walk| == 0 then None
    else if Candidate(walk[0], id) then Some(0)
    else
      match FirstCandidate(walk[1..], id)
      case None => None
      case Some(i) => Some(i + 1)
  }

  /** The line loop over one file, left at the first line holding the id. */
  method ScanLines(lines: seq<string>, id: string) returns (found: bool)
    ensures found <==> MentionsId(lines, id)
  {
    found := false;
    var k := 0;
    while k < |lines|
      invariant 0 <= k <= |lines|
      invariant forall j | 0 <= j < k :: !Contains(lines[j], id)
    {
      if Contains(lines[k], id) {
        found := true;
        return;
      }
      k := k + 1;
    }
  }

  /** The nested scan of `execute_test_case`: temporary specs are skipped
      and the scan stops at the first file that mentions the id. */
  method FindSpec(walk: seq<SpecFile>, id: string) returns (found: Option<nat>)
    ensures found == FirstCandidate(walk, id)
  {
    found := None;
    var i := 0;
    while i < |walk|
      invariant 0 <= i <= |walk|
      invariant forall j | 0 <= j < i :: !Candidate(walk[j], id)
    {
      if !EndsWith(walk[i].name, TmpFileEnding) {
        var mentions := ScanLines(walk[i].lines, id);
        if mentions {
          found := Some(i);
          return;
        }
      }
      i := i + 1;
    }
  }

  /** A line the pattern `it\('.+',` matches. */
  predicate IsItLine(line: string) {
    BracketedSearch(line, "it('", "',")
  }

  /** The first line holding the id. */
  function FirstIdLine(lines: seq<string>, id: string): (r: Option<nat>)
    ensures r.Some? ==> r.value < |lines| && Contains(lines[r.value], id) &&
                        forall k | 0 <= k < r.value :: !Contains(lines[k], id)
    ensures r.None? <==> !MentionsId(lines, id)
  {
    if |lines| == 0 then None
    else if Contains(lines[0], id) then Some(0)
    else
      match FirstIdLine(lines[1..], id)
      case None =>
        assert forall k | 1 <= k < |lines| :: lines[k] == lines[1..][k - 1];
        None
      case Some(i) => Some(i + 1)
  }

  /** `lastItIndex` once line `upto` has been read: the last `it('…',` line
      at or before it, or 0 when there is none. */
  function LastItLine(lines: seq<string>, upto: nat): (r: nat)
    requires upto < |lines|
    ensures r <= upto
    ensures IsItLine(lines[r]) ==> forall j | r < j <= upto :: !IsItLine(lines[j])
    ensures !IsItLine(lines[r]) ==> r == 0 && forall j | 0 <= j <= upto :: !IsItLine(lines[j])
  {
    if IsItLine(lines[upto]) then upto
    else if upto == 0 then 0
    else LastItLine(lines, upto - 1)
  }

  /** `re.sub(r'it\(', 'it.only(', line)`. */
  function OnlyLine(line: string): string {
    ReplaceAll(line, "it(", "it.only(")
  }

  /** The contents of the temporary spec, or None when no line holds the
      id. */
  function TemporarySpecOf(lines: seq<string>, id: string): Option<seq<string>> {
    match FirstIdLine(lines, id)
    case None => None
    case Some(m) =>
      var w := LastItLine(lines, m);
      Some(lines[w := OnlyLine(lines[w])])
  }

  /** The rewrite turns an `it('…',` line into one holding `it.only(`, and
      leaves a line without `it(` as it is. */
  lemma {:induction false} OnlyLineProperties(line: string)
    ensures IsItLine(line) ==> Contains(OnlyLine(line), "it.only(")
    ensures !Contains(line, "it(") ==> OnlyLine(line) == line
  {
    if IsItLine(line) {
      var i: nat, j: nat :| i <= |line| && j <= |line| && OccursAt(line, "it('", i) &&
                            i + 5 <= j && OccursAt(line, "',", j);
      assert line[i..i + 3] == line[i..i + 4][..3];
      assert OccursAt(line, "it(", i);
      ReplaceAllIntroduces(line, "it(", "it.only(");
    }
    if !Contains(line, "it(") {
      ReplaceAllAbsent(line, "it(", "it.only(");
    }
  }

  /** No temporary spec exactly when no line holds the id. Otherwise exactly
      one line is rewritten: the last `it('…',` line up to the first id line
      (line 0 when there is none); every other line is copied unchanged. */
  lemma {:induction false} TemporarySpecProperties(lines: seq<string>, id: string)
    ensures TemporarySpecOf(lines, id).None? <==> !MentionsId(lines, id)
    ensures TemporarySpecOf(lines, id).Some? ==>
              var r := TemporarySpecOf(lines, id).value;
              var m := FirstIdLine(lines, id).value;
              var w := LastItLine(lines, m);
              |r| == |lines| && w <= m &&
              (forall k | 0 <= k < |lines| && k != w :: r[k] == lines[k]) &&
              r[w] == OnlyLine(lines[w])
  {
  }

  /** Where the loop stops at line `i`, the temporary spec rewrites the
      last `it('…',` line up to `i`. */
  lemma {:induction false} TemporarySpecAt(lines: seq<string>, id: string, i: nat)
    requires i < |lines| && Contains(lines[i], id)
    requires forall k | 0 <= k < i :: !Contains(lines[k], id)
    ensures TemporarySpecOf(lines, id) == Some(lines[LastItLine(lines, i) := OnlyLine(lines[LastItLine(lines, i)])])
  {
    assert MentionsId(lines, id);
    var v := FirstIdLine(lines, id).value;
    assert !(v < i);
    assert !(i < v);
  }

  /** Where the loop runs out of lines, there is no temporary spec. */
  lemma {:induction false} NoTemporarySpec(lines: seq<string>, id: string)
    requires forall k | 0 <= k < |lines| :: !Contains(lines[k], id)
    ensures TemporarySpecOf(lines, id) == None
  {
  }

  /** `__getTemporarySpec`: the line loop, which remembers the last
      `it('…',` line and stops at the first line holding the id. */
  method TemporarySpec(lines: seq<string>, id: string) returns (contents: Option<seq<string>>)
    ensures contents == TemporarySpecOf(lines, id)
  {
    var lastItIndex := 0;
    var i := 0;
    while i < |lines|
      invariant 0 <= i <= |lines|
      invariant forall k | 0 <= k < i :: !Contains(lines[k], id)
      invariant lastItIndex == if i == 0 then 0 else LastItLine(lines, i - 1)
    {
      if IsItLine(lines[i]) {
        lastItIndex := i;
      }
      assert lastItIndex == LastItLine(lines, i);
      if Contains(lines[i], id) {
        TemporarySpecAt(lines, id, i);
        contents := Some(lines[lastItIndex := OnlyLine(lines[lastItIndex])]);
        return;
      }
      i := i + 1;
    }
    NoTemporarySpec(lines, id);
    contents := None;
  }

  /** A file the scan chooses always yields a temporary spec, since the
      model reads both searches as substring tests. The file scan tests
      `in`, but the spec rewrite calls `re.search` with the id as the
      pattern, so for an id with pattern characters the source can find
      the file and still make no spec; the model does not have that case. */
  lemma {:induction false} CandidateHasTemporarySpec(f: SpecFile, id: string)
    requires Candidate(f, id)
    ensures TemporarySpecOf(f.lines, id).Some?
  {
  }

  /** The `--env` value handed to the Cypress plugin. */
  function EnvArgument(executionId: string, tenantId: string, productId: string, tbcsBase: string,
                       sessionToken: string): string
  {
    "extid=" + executionId + ",tenantid=" + tenantId + ",productid=" + productId + ",tbcsurl=" + tbcsBase +
    ",sessiontoken=" + sessionToken
  }

  /** The settings of the `CYPRESS` configuration section. */
  datatype CypressConfig = CypressConfig(baseDir: string, cypressBin: string, specFolder: string)

  /** The Cypress call: run the temporary copy of the chosen spec. */
  function CypressCall(cfg: CypressConfig, env: string, fileName: string): (call: seq<string>)
    ensures |call| == 6 && call[0] == cfg.cypressBin && call[1] == "run"
    ensures call[2] == "--env" && call[3] == env && call[4] == "--spec"
    ensures StartsWith(call[5], cfg.specFolder + "/**/") && EndsWith(call[5], fileName + TmpFileEnding)
  {
    var spec := cfg.specFolder + "/**/" + fileName + TmpFileEnding;
    assert spec == (cfg.specFolder + "/**/") + (fileName + TmpFileEnding);
    [cfg.cypressBin, "run", "--env", env, "--spec", spec]
  }

  /** A path the cleanup glob `<spec root>/**/*<ending>` matches. */
  predicate InSpecGlob(p: string, specRoot: string) {
    StartsWith(p, specRoot + "/") && EndsWith(p, TmpFileEnding)
  }

  /** Every temporary spec written for a file found below the spec root is
      one the cleanup glob matches. */
  lemma {:induction false} TemporarySpecIsCleanedUp(specRoot: string, f: SpecFile)
    requires specRoot != "" && !EndsWith(specRoot, "/")
    requires f.folder == specRoot || StartsWith(f.folder, specRoot + "/")
    requires f.name != "" && !StartsWith(f.name, "/")
    ensures InSpecGlob(PathJoin(f.folder, f.name) + TmpFileEnding, specRoot)
  {
    var p := PathJoin(f.folder, f.name);
    var prefix := specRoot + "/";
    if f.folder == specRoot {
      assert p == prefix + f.name;
    } else if EndsWith(f.folder, "/") {
      assert p == f.folder + f.name;
      assert p[..|prefix|] == f.folder[..|prefix|];
    } else {
      assert p == f.folder + ("/" + f.name);
      assert p[..|prefix|] == f.folder[..|prefix|];
    }
    assert (p + TmpFileEnding)[..|prefix|] == p[..|prefix|];
  }

  class Cypress {
    const productId: string
    const testCaseId: string
    const executionId: string
    const testCaseName: string
    const externalId: string
    const config: CypressConfig
    /** The session id file the constructor writes, and its text. */
    const sessionIdFile: string
    const sessionIdText: string

    /** The constructor reads `automation.externalId` (KeyError without it)
        and writes the test session id to `<base dir>/testSessionId.txt`. */
    constructor (tc: TestCaseRecord, executionId: string, testSessionId: string, config: CypressConfig)
      requires tc.externalId.Some?
      ensures productId == tc.productId && testCaseId == tc.id && this.executionId == executionId
      ensures testCaseName == tc.name && externalId == tc.externalId.value && this.config == config
      ensures sessionIdFile == config.baseDir + "/testSessionId.txt" && sessionIdText == testSessionId
    {
      productId := tc.productId;
      testCaseId := tc.id;
      this.executionId := executionId;
      testCaseName := tc.name;
      externalId := tc.externalId.value;
      this.config := config;
      sessionIdFile := config.baseDir + "/testSessionId.txt";
      sessionIdText := testSessionId;
    }

    /** The folder `os.walk` starts from and the cleanup glob searches. */
    function SpecRoot(): string
      reads this
    {
      PathJoin(config.baseDir, config.specFolder)
    }

    /** `execute_test_case`: nothing is started without an external id or
        without a spec mentioning it. Otherwise the temporary spec is
        written next to the chosen file and Cypress runs it; every exception
        while starting Cypress is caught. `tempFile` is the path and the
        lines written. */
    method ExecuteTestCase(parallel: bool, walk: seq<SpecFile>, tenantId: string, tbcsBase: string,
                           sessionToken: string, fault: LaunchFault)
      returns (r: Result<Option<Process>, PyError>, tempFile: Option<(string, seq<string>)>)
      ensures externalId == "" || FirstCandidate(walk, externalId).None? ==> r == Ok(None) && tempFile == None
      ensures externalId != "" && FirstCandidate(walk, externalId).Some? ==>
                var f := walk[FirstCandidate(walk, externalId).value];
                tempFile.Some? && tempFile.value.0 == PathJoin(f.folder, f.name) + TmpFileEnding &&
                TemporarySpecOf(f.lines, externalId) == Some(tempFile.value.1) &&
                r == StartProcess(CypressCall(config, EnvArgument(executionId, tenantId, productId, tbcsBase, sessionToken),
                                              f.name), parallel, fault, true)
    {
      if externalId == "" {
        return Ok(None), None;
      }
      var found := FindSpec(walk, externalId);
      if found.None? {
        return Ok(None), None;
      }
      var f := walk[found.value];
      var fullPath := PathJoin(f.folder, f.name);
      var contents := TemporarySpec(f.lines, externalId);
      if contents.None? {
        assert false;
      }
      tempFile := Some((fullPath + TmpFileEnding, contents.value));
      var call := CypressCall(config, EnvArgument(executionId, tenantId, productId, tbcsBase, sessionToken), f.name);
      r := StartProcess(call, parallel, fault, true);
    }

    /** `final_cleanup`: every temporary spec the glob finds below the spec
        root, then the session id file, is removed; a removal that raises
        OSError (those in `failing`) is skipped and the rest go on. */
    method FinalCleanup(existing: set<string>, failing: set<string>) returns (remaining: set<string>)
      ensures remaining <= existing
      ensures forall p | p in existing && p !in failing :: p in remaining <==> !InSpecGlob(p, SpecRoot()) && p != sessionIdFile
      ensures forall p | p in existing && p in failing :: p in remaining
    {
      var fileList := set p | p in existing && InSpecGlob(p, SpecRoot());
      remaining := existing;
      while fileList != {}
        invariant fileList <= existing && remaining <= existing
        invariant forall p | p in existing :: p in remaining <==> p in failing || !InSpecGlob(p, SpecRoot()) || p in fileList
        decreases fileList
      {
        var p :| p in fileList;
        if p !in failing {
          remaining := remaining - {p};
        }
        fileList := fileList - {p};
      }
      if sessionIdFile !in failing {
        remaining := remaining - {sessionIdFile};
      }
    }
  }
}
