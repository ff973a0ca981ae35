/** The keyword-driven Robot Framework adapter. `execute_test_case`
    rewrites every step description into a Robot keyword call, collects the
    libraries and resources the steps name, writes a `.robot` file from the
    test case's step blocks and starts robot on it. */
module RFKdt {
  import opened Common
  import opened Tbcs
  import opened Adapters
  import opened ComparisonUtils
  import RobotFramework

  // ---------------------------------------------------------------------
  // The test case name as a file name

  predicate IsAsciiAlnum(c: char) {
    ('a' <= c <= 'z') || ('A' <= c <= 'Z') || ('0' <= c <= '9')
  }

  /** The characters the adapter keeps in a test case name. */
  predicate NameChar(c: char) {
    IsAsciiAlnum(c) || c == '.' || c == '_' || c == '-' || c == ' '
  }

  function SanitizeChar(c: char): char {
    if NameChar(c) then c else '_'
  }

  /** The name with every character other than a letter, a digit or one of
      `._- ` replaced by `_`: same length, only allowed characters, allowed
      characters unchanged. */
  function SanitizeName(s: string): (r: string)
    ensures |r| == |s|
    ensures forall i | 0 <= i < |s| :: NameChar(r[i])
    ensures forall i | 0 <= i < |s| :: NameChar(s[i]) ==> r[i] == s[i]
    ensures forall i | 0 <= i < |s| :: !NameChar(s[i]) ==> r[i] == '_'
  {
    if |s| == 0 then "" else [SanitizeChar(s[0])] + SanitizeName(s[1..])
  }

  /** Sanitising twice changes nothing, and no path separator survives. */
  lemma {:induction false} SanitizeNameIdempotent(s: string)
    ensures SanitizeName(SanitizeName(s)) == SanitizeName(s)
    ensures '/' !in SanitizeName(s) && '\\' !in SanitizeName(s) && ':' !in SanitizeName(s)
  {
    var t := SanitizeName(s);
    assert forall i | 0 <= i < |t| :: SanitizeName(t)[i] == t[i];
  }

  // ---------------------------------------------------------------------
  // Rewriting one step

  datatype KdtParam = KdtParam(id: string, name: string)

  /** A keyword as `get_keyword` returns it, reduced to what the adapter
      reads. */
  datatype KeywordDef = KeywordDef(name: string, library: string, parameters: seq<KdtParam>)

  /** One named argument: `name=value`, `name=` for the configured empty
      marker, nothing for an empty value. */
  function ParamText(name: string, value: string, emptyMarker: string): string {
    if value != "" && value != emptyMarker then "    " + name + "=" + value
    else if value == emptyMarker then "    " + name + "="
    else ""
  }

  /** The named arguments of the first `n` parameters; `values(stepId,
      parId)` is the value the service stores for that step. */
  function KeywordArgs(stepId: string, ps: seq<KdtParam>, values: (string, string) -> string, emptyMarker: string): string {
    if |ps| == 0 then ""
    else
      var p := ps[|ps| - 1];
      KeywordArgs(stepId, ps[..|ps| - 1], values, emptyMarker) + ParamText(p.name, values(stepId, p.id), emptyMarker)
  }

  /** With a non-empty marker, a keyword whose values are all empty gets no
      arguments at all. */
  lemma {:induction false} KeywordArgsAllEmpty(stepId: string, ps: seq<KdtParam>, values: (string, string) -> string,
                                               emptyMarker: string)
    requires emptyMarker != ""
    requires forall i | 0 <= i < |ps| :: values(stepId, ps[i].id) == ""
    ensures KeywordArgs(stepId, ps, values, emptyMarker) == ""
  {
    if |ps| > 0 {
      KeywordArgsAllEmpty(stepId, ps[..|ps| - 1], values, emptyMarker);
    }
  }

  /** One more parameter appends its argument text. */
  lemma {:induction false} KeywordArgsStep(stepId: string, ps: seq<KdtParam>, i: nat, values: (string, string) -> string,
                        emptyMarker: string)
    requires i < |ps|
    ensures KeywordArgs(stepId, ps[..i + 1], values, emptyMarker) ==
            KeywordArgs(stepId, ps[..i], values, emptyMarker) + ParamText(ps[i].name, values(stepId, ps[i].id), emptyMarker)
  {
    assert ps[..i + 1][..i] == ps[..i];
  }

  /** The loop over the keyword's parameters. */
  method ComposeKeywordCall(stepId: string, k: KeywordDef, values: (string, string) -> string, emptyMarker: string)
    returns (description: string)
    ensures description == k.name + KeywordArgs(stepId, k.parameters, values, emptyMarker)
    ensures StartsWith(description, k.name)
  {
    description := k.name;
    var i := 0;
    while i < |k.parameters|
      invariant 0 <= i <= |k.parameters|
      invariant description == k.name + KeywordArgs(stepId, k.parameters[..i], values, emptyMarker)
    {
      var par := k.parameters[i];
      var value := values(stepId, par.id);
      var arg := "";
      if value != "" && value != emptyMarker {
        arg := "    " + par.name + "=" + value;
      } else if value == emptyMarker {
        arg := "    " + par.name + "=";
      }
      assert arg == ParamText(par.name, value, emptyMarker);
      KeywordArgsStep(stepId, k.parameters, i, values, emptyMarker);
      AppendAssociative(k.name, KeywordArgs(stepId, k.parameters[..i], values, emptyMarker), arg);
      description := description + arg;
      i := i + 1;
    }
    assert k.parameters[..i] == k.parameters;
    assert description[..|k.name|] == k.name;
  }

  /** The new description of a step and the library or resource it names
      ("" when none). A keyword step takes its keyword's name and
      arguments and its library; a keyword that no longer exists leaves the
      step as it is. Any other step may carry `KEYWORD%%LIBRARY` before its
      first double blank. */
  function StepOutcome(step: TestStep, keywords: map<string, KeywordDef>, values: (string, string) -> string,
                       emptyMarker: string): (string, string)
  {
    if step.testStepType == "Keyword" then
      if step.keywordId in keywords then
        var k := keywords[step.keywordId];
        (k.name + KeywordArgs(step.id, k.parameters, values, emptyMarker), k.library)
      else (step.description, "")
    else
      var composed := Before(step.description, "  ");
      if Contains(composed, "%%") then
        (ReplaceAll(step.description, composed, Before(composed, "%%")), Before(After(composed, "%%").value, "%%"))
      else (step.description, "")
  }

  /** What rewriting does to one step: a found keyword's call starts with
      its name and names its library; `KEYWORD%%LIBRARY` loses everything
      from the first `%%` in the step's first segment; anything else is left
      unchanged and names nothing. */
  lemma {:induction false} StepOutcomeProperties(step: TestStep, keywords: map<string, KeywordDef>, values: (string, string) -> string,
                              emptyMarker: string)
    ensures var r := StepOutcome(step, keywords, values, emptyMarker);
            (step.testStepType == "Keyword" && step.keywordId in keywords ==>
              StartsWith(r.0, keywords[step.keywordId].name) && r.1 == keywords[step.keywordId].library) &&
            (step.testStepType == "Keyword" && step.keywordId !in keywords ==> r == (step.description, "")) &&
            (step.testStepType != "Keyword" && !Contains(Before(step.description, "  "), "%%") ==> r == (step.description, "")) &&
            (step.testStepType != "Keyword" && Contains(Before(step.description, "  "), "%%") ==>
              var composed := Before(step.description, "  ");
              r.0 == Before(composed, "%%") + ReplaceAll(step.description[|composed|..], composed, Before(composed, "%%")))
  {
    var r := StepOutcome(step, keywords, values, emptyMarker);
    if step.testStepType == "Keyword" && step.keywordId in keywords {
      var k := keywords[step.keywordId];
      assert r.0[..|k.name|] == k.name;
    }
    if step.testStepType != "Keyword" {
      var composed := Before(step.description, "  ");
      if Contains(composed, "%%") {
        assert StartsWith(step.description, composed);
        assert |step.description| > 0;
      }
    }
  }

  // ---------------------------------------------------------------------
  // Libraries and resources

  datatype Origin = FromLibrary | FromResource

  /** `LIB:NAME` is split at the first ':'; without one the prefix is
      `none`. The source tests `prefix in "library"`, a substring test, and
      sends everything else to the resources. */
  function Classify(raw: string): (Origin, string) {
    var prefix := if Contains(raw, ":") then Before(raw, ":") else "none";
    var libOrRes := if Contains(raw, ":") then After(raw, ":").value else raw;
    if Contains("library", prefix) then (FromLibrary, libOrRes)
    else if Contains("resource", prefix) then (FromResource, libOrRes)
    else (FromResource, libOrRes)
  }

  /** Without a ':' a name is a resource; with one, the text after the
      first ':' is the name and it is a library exactly when the prefix is
      a substring of "library" (so `lib:`, `Library` does not count, and an
      empty prefix does). */
  lemma {:induction false} ClassifyProperties(raw: string)
    ensures !Contains(raw, ":") ==> Classify(raw) == (FromResource, raw)
    ensures Contains(raw, ":") ==> Classify(raw).1 == After(raw, ":").value &&
                                   (Classify(raw).0 == FromLibrary <==> Contains("library", Before(raw, ":")))
  {
    if !Contains(raw, ":") {
      var lib := "library";
      forall i: nat | i <= |lib| ensures !OccursAt(lib, "none", i) {
        if i + 4 <= |lib| {
          assert lib[i..i + 4][0] == lib[i] != 'n';
        }
      }
    }
  }

  /** The two lists the adapter appends to. */
  datatype Imports = Imports(lib: seq<string>, res: seq<string>)

  const NoImports := Imports([], [])

  function AddUnique(xs: seq<string>, x: string): seq<string> {
    if x in xs then xs else xs + [x]
  }

  predicate NoDuplicates(xs: seq<string>) {
    forall i, j | 0 <= i < j < |xs| :: xs[i] != xs[j]
  }

  function Absorb(acc: Imports, raw: string): Imports {
    if raw == "" then acc
    else
      var (origin, name) := Classify(raw);
      if origin == FromLibrary then acc.(lib := AddUnique(acc.lib, name))
      else acc.(res := AddUnique(acc.res, name))
  }

  /** The lists after the steps' names `raws`, in order, starting from `acc`. */
  function CollectFrom(acc: Imports, raws: seq<string>): Imports {
    if |raws| == 0 then acc else Absorb(CollectFrom(acc, raws[..|raws| - 1]), raws[|raws| - 1])
  }

  lemma {:induction false} CollectFromConcat(acc: Imports, a: seq<string>, b: seq<string>)
    ensures CollectFrom(acc, a + b) == CollectFrom(CollectFrom(acc, a), b)
  {
    if |b| == 0 {
      assert a + b == a;
    } else {
      assert (a + b)[..|a + b| - 1] == a + b[..|b| - 1];
      CollectFromConcat(acc, a, b[..|b| - 1]);
    }
  }

  /** The list an origin goes to. */
  function Names(acc: Imports, origin: Origin): seq<string> {
    if origin == FromLibrary then acc.lib else acc.res
  }

  /** A step's name that classifies as `name` of that origin. */
  predicate Gives(raw: string, origin: Origin, name: string) {
    raw != "" && Classify(raw) == (origin, name)
  }

  /** Some step's name classifies as `name` of that origin. */
  predicate Named(raws: seq<string>, origin: Origin, name: string) {
    exists i | 0 <= i < |raws| :: Gives(raws[i], origin, name)
  }

  /** Absorbing a name adds exactly that name, under its origin. */
  lemma {:induction false} AbsorbMember(acc: Imports, raw: string, origin: Origin, name: string)
    ensures name in Names(Absorb(acc, raw), origin) <==>
            name in Names(acc, origin) || Gives(raw, origin, name)
  {
  }

  lemma {:induction false} NamedStep(raws: seq<string>, origin: Origin, name: string)
    requires |raws| > 0
    ensures Named(raws, origin, name) <==>
            Named(raws[..|raws| - 1], origin, name) || Gives(raws[|raws| - 1], origin, name)
  {
    var front := raws[..|raws| - 1];
    if Named(raws, origin, name) {
      var i :| 0 <= i < |raws| && Gives(raws[i], origin, name);
      if i < |front| {
        assert front[i] == raws[i];
      }
    }
    if Named(front, origin, name) {
      var i :| 0 <= i < |front| && Gives(front[i], origin, name);
      assert raws[i] == front[i];
    }
  }

  lemma {:induction false} CollectMember(acc: Imports, raws: seq<string>, origin: Origin, name: string)
    ensures name in Names(CollectFrom(acc, raws), origin) <==> name in Names(acc, origin) || Named(raws, origin, name)
  {
    if |raws| > 0 {
      var front := raws[..|raws| - 1];
      var last := raws[|raws| - 1];
      CollectMember(acc, front, origin, name);
      var c0 := CollectFrom(acc, front);
      assert CollectFrom(acc, raws) == Absorb(c0, last);
      AbsorbMember(c0, last, origin, name);
      NamedStep(raws, origin, name);
    }
  }

  lemma {:induction false} CollectNoDuplicates(acc: Imports, raws: seq<string>)
    requires NoDuplicates(acc.lib) && NoDuplicates(acc.res)
    ensures NoDuplicates(CollectFrom(acc, raws).lib) && NoDuplicates(CollectFrom(acc, raws).res)
  {
    if |raws| > 0 {
      CollectNoDuplicates(acc, raws[..|raws| - 1]);
    }
  }

  /** Each list holds every library (resource) some step names, once, and
      nothing else. */
  lemma {:induction false} CollectProperties(raws: seq<string>)
    ensures var r := CollectFrom(NoImports, raws);
            NoDuplicates(r.lib) && NoDuplicates(r.res) &&
            (forall x :: (x in r.lib) <==> Named(raws, FromLibrary, x)) &&
            (forall x :: (x in r.res) <==> Named(raws, FromResource, x))
  {
    CollectNoDuplicates(NoImports, raws);
    forall x ensures x in CollectFrom(NoImports, raws).lib <==> Named(raws, FromLibrary, x) {
      CollectMember(NoImports, raws, FromLibrary, x);
    }
    forall x ensures x in CollectFrom(NoImports, raws).res <==> Named(raws, FromResource, x) {
      CollectMember(NoImports, raws, FromResource, x);
    }
  }

  // ---------------------------------------------------------------------
  // Rewriting all blocks

  /** The rewritten steps and the names they carry, step by step. */
  function ProcessSteps(steps: seq<TestStep>, keywords: map<string, KeywordDef>, values: (string, string) -> string,
                        emptyMarker: string): (r: (seq<TestStep>, seq<string>))
    ensures |r.0| == |steps| && |r.1| == |steps|
    ensures forall j | 0 <= j < |steps| ::
              r.0[j] == steps[j].(description := StepOutcome(steps[j], keywords, values, emptyMarker).0) &&
              r.1[j] == StepOutcome(steps[j], keywords, values, emptyMarker).1
  {
    if |steps| == 0 then ([], [])
    else
      var front := ProcessSteps(steps[..|steps| - 1], keywords, values, emptyMarker);
      var last := steps[|steps| - 1];
      var out := StepOutcome(last, keywords, values, emptyMarker);
      (front.0 + [last.(description := out.0)], front.1 + [out.1])
  }

  /** The rewritten blocks, and the names their steps carry in order. */
  function ProcessBlocks(blocks: seq<StepBlock>, keywords: map<string, KeywordDef>, values: (string, string) -> string,
                         emptyMarker: string): (r: (seq<StepBlock>, seq<string>))
    ensures |r.0| == |blocks|
    ensures forall i | 0 <= i < |blocks| ::
              r.0[i] == blocks[i].(steps := ProcessSteps(blocks[i].steps, keywords, values, emptyMarker).0)
  {
    if |blocks| == 0 then ([], [])
    else
      var front := ProcessBlocks(blocks[..|blocks| - 1], keywords, values, emptyMarker);
      var last := blocks[|blocks| - 1];
      var p := ProcessSteps(last.steps, keywords, values, emptyMarker);
      (front.0 + [last.(steps := p.0)], front.1 + p.1)
  }

  /** One more block appends its rewrite and its steps' names. */
  lemma {:induction false} ProcessBlocksStep(blocks: seq<StepBlock>, i: nat, keywords: map<string, KeywordDef>,
                          values: (string, string) -> string, emptyMarker: string)
    requires i < |blocks|
    ensures var before := ProcessBlocks(blocks[..i], keywords, values, emptyMarker);
            var p := ProcessSteps(blocks[i].steps, keywords, values, emptyMarker);
            ProcessBlocks(blocks[..i + 1], keywords, values, emptyMarker) ==
              (before.0 + [blocks[i].(steps := p.0)], before.1 + p.1)
  {
    assert blocks[..i + 1][..i] == blocks[..i];
  }

  /** Rewriting keeps every block's title and every step's id, type and
      keyword; only descriptions change. */
  lemma {:induction false} ProcessBlocksKeepsStructure(blocks: seq<StepBlock>, keywords: map<string, KeywordDef>,
                                    values: (string, string) -> string, emptyMarker: string)
    ensures var r := ProcessBlocks(blocks, keywords, values, emptyMarker).0;
            |r| == |blocks| &&
            forall i | 0 <= i < |blocks| ::
              r[i].title == blocks[i].title && |r[i].steps| == |blocks[i].steps| &&
              forall j | 0 <= j < |blocks[i].steps| ::
                r[i].steps[j] == blocks[i].steps[j].(description := r[i].steps[j].description)
  {
  }

  /** One more step appends its rewrite and the name it carries. */
  lemma {:induction false} ProcessStepsStep(steps: seq<TestStep>, j: nat, keywords: map<string, KeywordDef>,
                         values: (string, string) -> string, emptyMarker: string)
    requires j < |steps|
    ensures var before := ProcessSteps(steps[..j], keywords, values, emptyMarker);
            var out := StepOutcome(steps[j], keywords, values, emptyMarker);
            ProcessSteps(steps[..j + 1], keywords, values, emptyMarker) ==
              (before.0 + [steps[j].(description := out.0)], before.1 + [out.1])
  {
    assert steps[..j + 1][..j] == steps[..j];
  }

  /** One more name is absorbed into what was collected. */
  lemma {:induction false} CollectFromStep(acc: Imports, raws: seq<string>, raw: string)
    ensures CollectFrom(acc, raws + [raw]) == Absorb(CollectFrom(acc, raws), raw)
  {
    assert (raws + [raw])[..|raws|] == raws;
  }

  /** The inner loop over one block's steps. */
  method ProcessBlockSteps(steps: seq<TestStep>, acc0: Imports, keywords: map<string, KeywordDef>,
                           values: (string, string) -> string, emptyMarker: string)
    returns (newSteps: seq<TestStep>, acc: Imports)
    ensures newSteps == ProcessSteps(steps, keywords, values, emptyMarker).0
    ensures acc == CollectFrom(acc0, ProcessSteps(steps, keywords, values, emptyMarker).1)
  {
    newSteps := [];
    acc := acc0;
    var j := 0;
    while j < |steps|
      invariant 0 <= j <= |steps|
      invariant newSteps == ProcessSteps(steps[..j], keywords, values, emptyMarker).0
      invariant acc == CollectFrom(acc0, ProcessSteps(steps[..j], keywords, values, emptyMarker).1)
    {
      var step := steps[j];
      var description, rawLibOrRes := ProcessStep(step, keywords, values, emptyMarker);
      ProcessStepsStep(steps, j, keywords, values, emptyMarker);
      CollectFromStep(acc0, ProcessSteps(steps[..j], keywords, values, emptyMarker).1, rawLibOrRes);
      newSteps := newSteps + [step.(description := description)];
      acc := Absorb(acc, rawLibOrRes);
      j := j + 1;
    }
    assert steps[..j] == steps;
  }

  /** The body of the inner loop for one step: its new description and the
      library or resource name it brings in ("" for none). */
  method ProcessStep(step: TestStep, keywords: map<string, KeywordDef>, values: (string, string) -> string,
                     emptyMarker: string)
    returns (description: string, rawLibOrRes: string)
    ensures (description, rawLibOrRes) == StepOutcome(step, keywords, values, emptyMarker)
  {
    rawLibOrRes := "";
    description := step.description;
    if step.testStepType == "Keyword" {
      if step.keywordId in keywords {
        var kwd := keywords[step.keywordId];
        rawLibOrRes := kwd.library;
        description := ComposeKeywordCall(step.id, kwd, values, emptyMarker);
      }
    } else {
      var composed := Before(step.description, "  ");
      if Contains(composed, "%%") {
        description := ReplaceAll(step.description, composed, Before(composed, "%%"));
        rawLibOrRes := Before(After(composed, "%%").value, "%%");
      }
    }
  }

  // ---------------------------------------------------------------------
  // The robot file

  const RunKeywordsSeparator := "    AND\n    ...    "

  /** The block titles that make a teardown and a setup; titles are
      compared as `is_equal_ignore_separators` compares them. */
  const TeardownTitles: seq<string> := ["Reset Environment", "Teardown", "Cleanup"]
  const SetupTitles: seq<string> := ["Preparation", "Setup"]

  predicate IsTeardown(title: string) {
    IsEqualIgnoreSeparators(title, TeardownTitles[0]) || IsEqualIgnoreSeparators(title, TeardownTitles[1]) ||
    IsEqualIgnoreSeparators(title, TeardownTitles[2])
  }

  predicate IsSetup(title: string) {
    IsEqualIgnoreSeparators(title, SetupTitles[0]) || IsEqualIgnoreSeparators(title, SetupTitles[1])
  }

  /** No title is both a teardown and a setup title: the five words'
      keys start with five different letters. */
  lemma {:induction false} FixtureKindsDisjoint(title: string)
    ensures !(IsTeardown(title) && IsSetup(title))
  {
    TitleKeyHeads(TeardownTitles + SetupTitles);
  }

  /** The first letter of a title's key: its first character, upper-cased,
      when that is no separator. */
  lemma {:induction false} TitleKeyHead(title: string, head: char)
    requires |title| > 0 && !IsSeparator(title[0]) && UpperChar(title[0]) == head
    ensures |Canonical(title)| > 0 && Canonical(title)[0] == head
  {
    CanonicalHead(title);
  }

  /** The first letters of the five titles' keys, teardown titles first. */
  lemma {:induction false} TitleKeyHeads(titles: seq<string>)
    requires titles == TeardownTitles + SetupTitles
    ensures |titles| == 5
    ensures |Canonical(titles[0])| > 0 && Canonical(titles[0])[0] == 'R'
    ensures |Canonical(titles[1])| > 0 && Canonical(titles[1])[0] == 'T'
    ensures |Canonical(titles[2])| > 0 && Canonical(titles[2])[0] == 'C'
    ensures |Canonical(titles[3])| > 0 && Canonical(titles[3])[0] == 'P'
    ensures |Canonical(titles[4])| > 0 && Canonical(titles[4])[0] == 'S'
  {
    TitleKeyHead(titles[0], 'R');
    TitleKeyHead(titles[1], 'T');
    TitleKeyHead(titles[2], 'C');
    TitleKeyHead(titles[3], 'P');
    TitleKeyHead(titles[4], 'S');
  }

  /** What a block title makes of its block. */
  datatype Fixture = TeardownBlock | SetupBlock | PlainBlock

  /** The title tests `execute_test_case` makes. A title cannot be both a
      teardown and a setup title (`FixtureKindsDisjoint`), so one kind per
      block loses nothing. */
  function TitleKind(title: string): (kind: Fixture)
    ensures kind == TeardownBlock <==> IsTeardown(title)
    ensures kind == SetupBlock <==> IsSetup(title)
  {
    FixtureKindsDisjoint(title);
    if IsTeardown(title) then TeardownBlock else if IsSetup(title) then SetupBlock else PlainBlock
  }

  /** The fixture keyword written before the steps of a block of `n` steps. */
  function FixtureHeader(kind: Fixture, n: nat): string {
    match kind
    case TeardownBlock => "[Teardown]    " + (if n > 1 then "Run Keywords    " else "")
    case SetupBlock => "[Setup]    " + (if n > 1 then "Run Keywords    " else "")
    case PlainBlock => ""
  }

  /** The text of the first `i` steps of a block: in a fixture block the
      steps are chained with `AND` continuation lines. */
  function StepPieces(steps: seq<TestStep>, i: nat, fixture: bool): string
    requires i <= |steps|
  {
    if i == 0 then "" else StepPieces(steps, i - 1, fixture) + StepPiece(steps, i - 1, fixture)
  }

  /** Step `j`'s description and what follows it. */
  function StepPiece(steps: seq<TestStep>, j: nat, fixture: bool): string
    requires j < |steps|
  {
    steps[j].description + (if fixture && j < |steps| - 1 then RunKeywordsSeparator else "\n\t")
  }

  lemma {:induction false} FixturePiecesJoin(steps: seq<TestStep>, i: nat)
    requires 1 <= i <= |steps|
    ensures StepPieces(steps, i, true) ==
            Join(Descriptions(steps)[..i], RunKeywordsSeparator) + (if i < |steps| then RunKeywordsSeparator else "\n\t")
  {
    var d := Descriptions(steps);
    if i == 1 {
      assert d[..1] == [steps[0].description];
    } else {
      FixturePiecesJoin(steps, i - 1);
      assert d[..i] == d[..i - 1] + [d[i - 1]];
      JoinSnoc(d[..i - 1], d[i - 1], RunKeywordsSeparator);
    }
  }

  /** One block's text: the comment line naming it, the fixture keyword,
      the steps. Blocks without steps write nothing. */
  function BlockText(b: StepBlock, kind: Fixture): string {
    if |b.steps| == 0 then ""
    else ("#    " + b.title + "\n\t") + FixtureHeader(kind, |b.steps|) + StepPieces(b.steps, |b.steps|, kind != PlainBlock)
  }

  /** A teardown or setup block with several steps becomes one `Run
      Keywords` call chaining them with `AND`; with one step, that step is
      the fixture keyword. */
  lemma {:induction false} FixtureBlockText(b: StepBlock, kind: Fixture)
    requires kind != PlainBlock && |b.steps| > 0
    ensures var keyword := if kind == TeardownBlock then "[Teardown]    " else "[Setup]    ";
            BlockText(b, kind) ==
            ("#    " + b.title + "\n\t") +
            (if |b.steps| > 1 then keyword + "Run Keywords    " else keyword) +
            Join(Descriptions(b.steps), RunKeywordsSeparator) + "\n\t"
  {
    FixturePiecesJoin(b.steps, |b.steps|);
    assert Descriptions(b.steps)[..|b.steps|] == Descriptions(b.steps);
  }

  /** A block that is neither gets one line per step, each step's
      description followed by a line break. */
  lemma {:induction false} PlainBlockLines(steps: seq<TestStep>, i: nat)
    requires i <= |steps|
    ensures |StepPieces(steps, i, false)| >= 2 * i
    ensures forall j | 0 <= j < i :: Contains(StepPieces(steps, i, false), steps[j].description + "\n\t")
  {
    if i > 0 {
      PlainBlockLines(steps, i - 1);
      var front := StepPieces(steps, i - 1, false);
      var line := steps[i - 1].description + "\n\t";
      assert StepPieces(steps, i, false) == front + line;
      forall j | 0 <= j < i ensures Contains(front + line, steps[j].description + "\n\t") {
        var target := steps[j].description + "\n\t";
        if j < i - 1 {
          var k: nat :| k <= |front| && OccursAt(front, target, k);
          assert (front + line)[k..k + |target|] == front[k..k + |target|];
          assert OccursAt(front + line, target, k);
        } else {
          assert (front + line)[|front|..|front| + |line|] == line;
          assert OccursAt(front + line, line, |front|);
        }
      }
    }
  }

  /** The blocks' text, each block classified by `classify`. */
  function BlocksText(blocks: seq<StepBlock>, classify: string -> Fixture): string {
    if |blocks| == 0 then ""
    else BlocksText(blocks[..|blocks| - 1], classify) + BlockText(blocks[|blocks| - 1], classify(blocks[|blocks| - 1].title))
  }

  function LibraryLine(item: string): string {
    "Library    " + item + "\n"
  }

  function ResourceLine(item: string, resourceDir: string): string {
    "Resource    " + resourceDir + "/" + item + "\n"
  }

  function VariableLine(cell: DdtCell): string {
    "${" + cell.column + "}    " + cell.value + "\n"
  }

  function LibraryLines(lib: seq<string>): string {
    if |lib| == 0 then "" else LibraryLines(lib[..|lib| - 1]) + LibraryLine(lib[|lib| - 1])
  }

  function ResourceLines(res: seq<string>, resourceDir: string): string {
    if |res| == 0 then "" else ResourceLines(res[..|res| - 1], resourceDir) + ResourceLine(res[|res| - 1], resourceDir)
  }

  function VariableLines(ddtRow: seq<DdtCell>): string {
    if |ddtRow| == 0 then "" else VariableLines(ddtRow[..|ddtRow| - 1]) + VariableLine(ddtRow[|ddtRow| - 1])
  }

  function SettingsText(imports: Imports, resourceDir: string): string {
    (if |imports.lib| > 0 || |imports.res| > 0 then SettingsHeader else "") +
    (if |imports.lib| > 0 then LibraryLines(imports.lib) + "\n" else "") +
    (if |imports.res| > 0 then ResourceLines(imports.res, resourceDir) + "\n" else "")
  }

  function VariablesText(ddtRow: seq<DdtCell>): string {
    if |ddtRow| > 0 then VariablesHeader + VariableLines(ddtRow) + "\n" else ""
  }

  const SettingsHeader := "*** Settings ***\n"
  const VariablesHeader := "*** Variables ***\n"
  const TestCasesHeader := "*** Test Cases ***\n"

  /** The `.robot` file: settings, variables, then the single test case. */
  function RobotFileText(name: string, imports: Imports, resourceDir: string, ddtRow: seq<DdtCell>,
                         blocks: seq<StepBlock>, classify: string -> Fixture): string {
    SettingsText(imports, resourceDir) + VariablesText(ddtRow) + (TestCasesHeader + name + "\n\t") +
    BlocksText(blocks, classify)
  }

  /** The settings section is written exactly when a library or resource
      was collected, and the test case section always follows the settings
      and the variables. */
  lemma {:induction false} RobotFileSections(name: string, imports: Imports, resourceDir: string, ddtRow: seq<DdtCell>,
                          blocks: seq<StepBlock>, classify: string -> Fixture)
    ensures var text := RobotFileText(name, imports, resourceDir, ddtRow, blocks, classify);
            (StartsWith(text, SettingsHeader) <==> |imports.lib| > 0 || |imports.res| > 0) &&
            OccursAt(text, TestCasesHeader + name + "\n\t",
                     |SettingsText(imports, resourceDir)| + |VariablesText(ddtRow)|)
  {
    var s := SettingsText(imports, resourceDir);
    var v := VariablesText(ddtRow);
    var rest := TestCasesHeader + name + "\n\t";
    var tail := BlocksText(blocks, classify);
    OccursBetween(s + v, rest, tail);
    if |imports.lib| > 0 || |imports.res| > 0 {
      assert StartsWith(s, SettingsHeader);
      StartsWithAppend(s, v, SettingsHeader);
      StartsWithAppend(s + v, rest, SettingsHeader);
      StartsWithAppend(s + v + rest, tail, SettingsHeader);
    } else {
      var text := s + v + rest + tail;
      assert s == "";
      if |ddtRow| > 0 {
        assert text[4] == v[4] == 'V';
      } else {
        assert text[4] == rest[4] == 'T';
      }
    }
  }

  /** One block, given its kind. */
  method WriteBlock(b: StepBlock, kind: Fixture) returns (text: string)
    ensures text == BlockText(b, kind)
  {
    text := "";
    if |b.steps| > 0 {
      var fixtureKeyword := "";
      if kind == TeardownBlock {
        fixtureKeyword := "[Teardown]    ";
        if |b.steps| > 1 {
          fixtureKeyword := fixtureKeyword + "Run Keywords    ";
        }
      } else if kind == SetupBlock {
        fixtureKeyword := "[Setup]    ";
        if |b.steps| > 1 {
          fixtureKeyword := fixtureKeyword + "Run Keywords    ";
        }
      }
      var pieces := "";
      var count := 0;
      while count < |b.steps|
        invariant 0 <= count <= |b.steps|
        invariant pieces == StepPieces(b.steps, count, kind != PlainBlock)
      {
        var step := b.steps[count];
        var piece;
        if kind != PlainBlock {
          if count < |b.steps| - 1 {
            piece := step.description + RunKeywordsSeparator;
          } else {
            piece := step.description + "\n\t";
          }
        } else {
          piece := step.description + "\n\t";
        }
        pieces := pieces + piece;
        count := count + 1;
      }
      text := ("#    " + b.title + "\n\t") + fixtureKeyword + pieces;
    }
  }

  /** The settings section. */
  method WriteSettings(imports: Imports, resourceDir: string) returns (settings: string)
    ensures settings == SettingsText(imports, resourceDir)
  {
    var header, libraries, resources := "", "", "";
    if |imports.lib| > 0 || |imports.res| > 0 {
      header := SettingsHeader;
    }
    if |imports.lib| > 0 {
      var lines := "";
      var i := 0;
      while i < |imports.lib|
        invariant 0 <= i <= |imports.lib| && lines == LibraryLines(imports.lib[..i])
      {
        assert imports.lib[..i + 1][..i] == imports.lib[..i];
        lines := lines + LibraryLine(imports.lib[i]);
        i := i + 1;
      }
      assert imports.lib[..i] == imports.lib;
      libraries := lines + "\n";
    }
    if |imports.res| > 0 {
      var lines := "";
      var i := 0;
      while i < |imports.res|
        invariant 0 <= i <= |imports.res| && lines == ResourceLines(imports.res[..i], resourceDir)
      {
        assert imports.res[..i + 1][..i] == imports.res[..i];
        lines := lines + ResourceLine(imports.res[i], resourceDir);
        i := i + 1;
      }
      assert imports.res[..i] == imports.res;
      resources := lines + "\n";
    }
    settings := header + libraries + resources;
  }

  /** The variables section, one variable per DDT cell. */
  method WriteVariables(ddtRow: seq<DdtCell>) returns (variables: string)
    ensures variables == VariablesText(ddtRow)
  {
    variables := "";
    if |ddtRow| > 0 {
      var lines := "";
      var i := 0;
      while i < |ddtRow|
        invariant 0 <= i <= |ddtRow| && lines == VariableLines(ddtRow[..i])
      {
        assert ddtRow[..i + 1][..i] == ddtRow[..i];
        lines := lines + VariableLine(ddtRow[i]);
        i := i + 1;
      }
      assert ddtRow[..i] == ddtRow;
      variables := VariablesHeader + lines + "\n";
    }
  }

  /** The blocks of the test case; `classify` makes the title tests. */
  method WriteBlocks(blocks: seq<StepBlock>, classify: string -> Fixture) returns (body: string)
    ensures body == BlocksText(blocks, classify)
  {
    body := "";
    var k := 0;
    while k < |blocks|
      invariant 0 <= k <= |blocks| && body == BlocksText(blocks[..k], classify)
    {
      assert blocks[..k + 1][..k] == blocks[..k];
      var part := WriteBlock(blocks[k], classify(blocks[k].title));
      body := body + part;
      k := k + 1;
    }
    assert blocks[..k] == blocks;
  }

  /** Writing the file, section by section. */
  method WriteRobotFile(name: string, imports: Imports, resourceDir: string, ddtRow: seq<DdtCell>,
                        blocks: seq<StepBlock>, classify: string -> Fixture) returns (text: string)
    ensures text == RobotFileText(name, imports, resourceDir, ddtRow, blocks, classify)
  {
    var settings := WriteSettings(imports, resourceDir);
    var variables := WriteVariables(ddtRow);
    var body := WriteBlocks(blocks, classify);
    text := settings + variables + (TestCasesHeader + name + "\n\t") + body;
  }

  // ---------------------------------------------------------------------
  // The robot call

  /** `python -m robot`, selecting the test by tag `ID:<external id>` when
      the external id is non-empty and by name otherwise, with the result
      listener and the output files named after the test case. */
  function KdtCall(resultDir: string, externalId: string, name: string, listener: RobotFramework.ListenerArgs,
                   scriptDir: string): seq<string>
  {
    ["python", "-m", "robot", "--outputdir", resultDir] +
    (if externalId != "" then ["-i", "ID:" + externalId] else ["-t", name]) +
    ["--listener", RobotFramework.ListenerArgument(listener)] + RobotFramework.OutputArgs(name, scriptDir)
  }

  lemma {:induction false} KdtCallShape(resultDir: string, externalId: string, name: string, listener: RobotFramework.ListenerArgs,
                     scriptDir: string)
    ensures var call := KdtCall(resultDir, externalId, name, listener, scriptDir);
            |call| == 16 && call[..5] == ["python", "-m", "robot", "--outputdir", resultDir] &&
            (externalId != "" <==> call[5] == "-i") &&
            (externalId != "" ==> call[6] == "ID:" + externalId) &&
            (externalId == "" ==> call[6] == name) &&
            call[14] == name + "-output.xml" && call[15] == scriptDir
  {
    var head: seq<string> := ["python", "-m", "robot", "--outputdir", resultDir];
    var selection := if externalId != "" then ["-i", "ID:" + externalId] else ["-t", name];
    var tail := ["--listener", RobotFramework.ListenerArgument(listener)] + RobotFramework.OutputArgs(name, scriptDir);
    var call := KdtCall(resultDir, externalId, name, listener, scriptDir);
    assert call == head + selection + tail;
    assert call[5] == selection[0] && call[6] == selection[1];
    assert "-t" != "-i" by {
      assert "-t"[1] != "-i"[1];
    }
  }

  // ---------------------------------------------------------------------
  // The adapter

  /** The upload requests of a list of result files, in listing order. */
  function Uploads(files: seq<string>): (qs: seq<CheckRequest>)
    ensures |qs| == |files|
    ensures forall k | 0 <= k < |qs| :: qs[k] == ResultUploaded(files[k])
  {
    if |files| == 0 then [] else Uploads(files[..|files| - 1]) + [ResultUploaded(files[|files| - 1])]
  }

  class RFKdt {
    const productId: string
    const testCaseId: string
    const executionId: string
    /** The sanitised test case name. */
    const testCaseName: string
    const externalId: string
    const testCaseType: string
    const scriptDir: string
    const resultDir: string
    const resourceDir: string
    /** The abstract test case's step blocks; `execute_test_case` rewrites
        their descriptions in place. */
    var blocks: seq<StepBlock>

    /** The constructor raises KeyError without an external id (see
        `ExternalIdOf`); constructing it therefore requires one. */
    constructor (tc: TestCaseRecord, executionId: string, testCaseType: string, blocks: seq<StepBlock>,
                 scriptDir: string, resultBase: string, resourceDir: string)
      requires tc.externalId.Some?
      ensures productId == tc.productId && testCaseId == tc.id && this.executionId == executionId
      ensures testCaseName == SanitizeName(tc.name) && externalId == tc.externalId.value
      ensures this.testCaseType == testCaseType && this.blocks == blocks
      ensures this.scriptDir == scriptDir && resultDir == resultBase + "/" + SanitizeName(tc.name)
      ensures this.resourceDir == resourceDir
    {
      productId := tc.productId;
      testCaseId := tc.id;
      this.executionId := executionId;
      externalId := tc.externalId.value;
      this.testCaseType := testCaseType;
      this.blocks := blocks;
      this.scriptDir := scriptDir;
      var name := SanitizeName(tc.name);
      testCaseName := name;
      resultDir := resultBase + "/" + name;
      this.resourceDir := resourceDir;
    }

    /** `check_result`: every `.xml` and then every `.html` file found in
        the result directory is uploaded to the execution, and the verdict
        comes from the exit code as in the Robot Framework adapter. The two
        directory listings are parameters. */
    method CheckResult(api: Api, xmlFiles: seq<string>, htmlFiles: seq<string>, returncode: int)
      returns (verdict: string)
      modifies api`log
      ensures api.log == old(api.log) + CheckEvents(productId, testCaseId, executionId, Uploads(xmlFiles + htmlFiles))
      ensures verdict == RobotFramework.RobotCheckResult(returncode).0
      ensures verdict == "Passed" <==> returncode == 0
    {
      SendChecks(api, productId, testCaseId, executionId, Uploads(xmlFiles + htmlFiles));
      verdict := RobotFramework.RobotCheckResult(returncode).0;
    }

    /** The step loop of `execute_test_case`. */
    method RewriteBlocks(keywords: map<string, KeywordDef>, values: (string, string) -> string, emptyMarker: string)
      returns (imports: Imports)
      modifies this`blocks
      ensures blocks == ProcessBlocks(old(blocks), keywords, values, emptyMarker).0
      ensures imports == CollectFrom(NoImports, ProcessBlocks(old(blocks), keywords, values, emptyMarker).1)
    {
      var source := blocks;
      var rewritten: seq<StepBlock> := [];
      imports := NoImports;
      var i := 0;
      while i < |source|
        invariant 0 <= i <= |source|
        invariant rewritten == ProcessBlocks(source[..i], keywords, values, emptyMarker).0
        invariant imports == CollectFrom(NoImports, ProcessBlocks(source[..i], keywords, values, emptyMarker).1)
      {
        ghost var before := ProcessBlocks(source[..i], keywords, values, emptyMarker).1;
        ProcessBlocksStep(source, i, keywords, values, emptyMarker);
        CollectFromConcat(NoImports, before, ProcessSteps(source[i].steps, keywords, values, emptyMarker).1);
        var newSteps;
        newSteps, imports := ProcessBlockSteps(source[i].steps, imports, keywords, values, emptyMarker);
        rewritten := rewritten + [source[i].(steps := newSteps)];
        i := i + 1;
      }
      assert source[..i] == source;
      blocks := rewritten;
    }

    /** `execute_test_case`: a test case that is not structured ends the
        agent (`exit(-1)`); otherwise the blocks are rewritten, the robot
        file is written (`robotFile`, stored as `<script dir>/<name>.robot`)
        and robot is started with every exception caught. The listener gets
        the rewritten test case as serialised by `serialize`. */
    method ExecuteTestCase(parallel: bool, ddtRow: seq<DdtCell>, keywords: map<string, KeywordDef>,
                           values: (string, string) -> string, emptyMarker: string,
                           listener: RobotFramework.ListenerArgs, serialize: seq<StepBlock> -> string, fault: LaunchFault)
      returns (r: Result<Option<Process>, PyError>, robotFile: Option<string>)
      modifies this`blocks
      ensures testCaseType != "StructuredTestCase" ==>
                r == Err(SystemExit(-1)) && robotFile == None && blocks == old(blocks)
      ensures testCaseType == "StructuredTestCase" ==>
                var p := ProcessBlocks(old(blocks), keywords, values, emptyMarker);
                blocks == p.0 &&
                robotFile == Some(RobotFileText(testCaseName, CollectFrom(NoImports, p.1), resourceDir, ddtRow, p.0, TitleKind)) &&
                r == StartProcess(KdtCall(resultDir, externalId, testCaseName,
                                          listener.(testCaseJson := serialize(p.0), executionId := executionId), scriptDir),
                                  parallel, fault, true)
    {
      if testCaseType != "StructuredTestCase" {
        return Err(SystemExit(-1)), None;
      }
      var imports := RewriteBlocks(keywords, values, emptyMarker);
      var text := WriteRobotFile(testCaseName, imports, resourceDir, ddtRow, blocks, TitleKind);
      robotFile := Some(text);
      var selection := if externalId != "" then ["-i", "ID:" + externalId] else ["-t", testCaseName];
      var listenerArg := RobotFramework.ListenerArgument(listener.(testCaseJson := serialize(blocks),
                                                                   executionId := executionId));
      var call := ["python", "-m", "robot", "--outputdir", resultDir] + selection + ["--listener", listenerArg] +
                  RobotFramework.OutputArgs(testCaseName, scriptDir);
      r := StartProcess(call, parallel, fault, true);
    }
  }
}
