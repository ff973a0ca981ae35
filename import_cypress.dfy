/** The Cypress specification import: a line scanner that builds one user
    story per file from `describe(`, `it(`, `TBCS_DESCRIPTION(`,
    `TBCS_AUTID(` and `cy.log(` lines, and the epic that collects the
    stories of all files. */
module ImportCypress {
  import opened Common

  // ---------------------------------------------------------------------
  // The scanned tree

  datatype CyTestCase = CyTestCase(name: string, description: string, externalId: string, steps: seq<string>)

  datatype CyUserStory = CyUserStory(name: string, testCases: seq<CyTestCase>, fileName: string)

  datatype CyEpic = CyEpic(name: string, stories: seq<CyUserStory>)

  // ---------------------------------------------------------------------
  // Matching one line

  /** The group of `^\s*word\('(.*)'.*` on a line: after the indentation
      comes `word('`, and the group runs greedily to the last quote of the
      line. */
  function Captured(line: string, word: string): (r: Option<string>)
    ensures r.Some? ==> StartsWith(line[LeadingSpace(line)..], word + "('")
  {
    var start := LeadingSpace(line);
    if StartsWith(line[start..], word + "('") then
      GreedyGroup(line, start + |word| + 2, 0, '\'')
    else None
  }

  /** The captured text sits between `word('` and the last quote: a line
      written as indentation, the word, `('`, a text, a quote and a tail
      without quotes gives back exactly that text. */
  lemma {:induction false} CapturedRoundTrip(indent: string, word: string, text: string, tail: string)
    requires forall k | 0 <= k < |indent| :: IsSpace(indent[k])
    requires |word| > 0 && !IsSpace(word[0])
    requires forall k | 0 <= k < |tail| :: tail[k] != '\''
    ensures Captured(indent + word + "('" + text + "'" + tail, word) == Some(text)
  {
    var open := word + "('";
    var rest := open + text + "'" + tail;
    var line := indent + word + "('" + text + "'" + tail;
    assert line == indent + rest;
    IndentRun(indent, rest);
    LineLayout(indent, open, text, tail);
    CapturedFromLayout(line, word, |indent|, text);
  }

  /** Where the pieces of such a line sit. */
  lemma {:induction false} LineLayout(indent: string, open: string, text: string, tail: string)
    ensures var line := indent + open + text + "'" + tail;
            var start := |indent| + |open|;
            |line| == start + |text| + 1 + |tail| &&
            line[|indent|..start] == open && line[start..start + |text|] == text &&
            line[start + |text|] == '\'' &&
            forall k | start + |text| < k < |line| :: line[k] == tail[k - start - |text| - 1]
  {
  }

  /** A line whose indentation ends at `n`, followed by `word('`, the text,
      a quote and no further quote captures the text. */
  lemma {:induction false} CapturedFromLayout(line: string, word: string, n: nat, text: string)
    requires LeadingSpace(line) == n
    requires n + |word| + 2 + |text| < |line|
    requires line[n..n + |word| + 2] == word + "('" && line[n + |word| + 2..n + |word| + 2 + |text|] == text
    requires line[n + |word| + 2 + |text|] == '\''
    requires forall k | n + |word| + 2 + |text| < k < |line| :: line[k] != '\''
    ensures Captured(line, word) == Some(text)
  {
    var open := word + "('";
    var start := n + |word| + 2;
    var j := start + |text|;
    assert |open| == |word| + 2;
    assert line[start..j] == text;
    assert StartsWith(line[LeadingSpace(line)..], open) by {
      assert line[n..][..|open|] == line[n..start];
    }
    LastIndexAt(line, '\'', j);
    assert GreedyGroup(line, start, 0, '\'') == Some(text);
    CapturedIsGroup(line, word);
  }

  /** A line that starts, after its indentation, with `word('` captures
      the greedy group after it. */
  lemma {:induction false} CapturedIsGroup(line: string, word: string)
    requires StartsWith(line[LeadingSpace(line)..], word + "('")
    ensures Captured(line, word) == GreedyGroup(line, LeadingSpace(line) + |word| + 2, 0, '\'')
  {
  }

  /** The run of leading whitespace ends where the indentation does. */
  lemma {:induction false} IndentRun(indent: string, rest: string)
    requires forall k | 0 <= k < |indent| :: IsSpace(indent[k])
    requires |rest| > 0 && !IsSpace(rest[0])
    ensures LeadingSpace(indent + rest) == |indent|
  {
    var line := indent + rest;
    var n := LeadingSpace(line);
    assert line[|indent|] == rest[0];
    assert forall k | 0 <= k < |indent| :: line[k] == indent[k];
  }

  /** The last occurrence is the one after which the character no longer
      occurs. */
  lemma {:induction false} LastIndexAt(s: string, c: char, j: nat)
    requires j < |s| && s[j] == c && forall k | j < k < |s| :: s[k] != c
    ensures LastIndexOf(s, c) == Some(j)
    decreases |s|
  {
    if j < |s| - 1 {
      assert forall k | j < k < |s| - 1 :: s[..|s| - 1][k] == s[k];
      LastIndexAt(s[..|s| - 1], c, j);
    }
  }

  /** What a line is, by the first pattern that matches, in the order
      describe, it, TBCS_DESCRIPTION, TBCS_AUTID, cy.log. */
  datatype LineKind = Describe(text: string) | It(text: string) | Description(text: string) |
                      AutId(text: string) | Log(text: string) | Other

  const DescribeWord := "describe"
  const ItWord := "it"
  const DescriptionWord := "TBCS_DESCRIPTION"
  const AutIdWord := "TBCS_AUTID"
  const LogWord := "cy.log"

  function Classify(line: string): (r: LineKind)
    ensures r.Describe? <==> Captured(line, DescribeWord).Some?
    ensures r.It? <==> Captured(line, DescribeWord).None? && Captured(line, ItWord).Some?
    ensures r.Other? <==> Captured(line, DescribeWord).None? && Captured(line, ItWord).None? &&
                          Captured(line, DescriptionWord).None? && Captured(line, AutIdWord).None? &&
                          Captured(line, LogWord).None?
    ensures r.Describe? ==> Some(r.text) == Captured(line, DescribeWord)
    ensures r.It? ==> Some(r.text) == Captured(line, ItWord)
  {
    match Captured(line, DescribeWord)
    case Some(t) => Describe(t)
    case None =>
      match Captured(line, ItWord)
      case Some(t) => It(t)
      case None =>
        match Captured(line, DescriptionWord)
        case Some(t) => Description(t)
        case None =>
          match Captured(line, AutIdWord)
          case Some(t) => AutId(t)
          case None =>
            match Captured(line, LogWord)
            case Some(t) => Log(t)
            case None => Other
  }

  // ---------------------------------------------------------------------
  // Scanning a file

  /** Which object the `testcase` variable refers to: none yet, the last
      test case of the current story, or a test case of a story an
      earlier `describe` line replaced (changes to it are not returned). */
  datatype CaseRef = NoCase | LastCase | Detached

  /** The scanner's variables; `failed` once a line raised, which ends the
      loop (the exception is caught around it). */
  datatype ScanState = ScanState(story: Option<CyUserStory>, current: CaseRef, failed: bool)

  /** `LastCase` refers to an existing test case. */
  predicate Coherent(s: ScanState) {
    s.current == LastCase ==> s.story.Some? && |s.story.value.testCases| > 0
  }

  /** The current test case, changed by `f`. */
  function UpdateCurrent(s: ScanState, f: CyTestCase -> CyTestCase): (r: ScanState)
    requires Coherent(s)
    ensures Coherent(r) && r.current == s.current && r.failed == s.failed
    ensures s.current != LastCase ==> r == s
    ensures s.current == LastCase ==>
              var cases := s.story.value.testCases;
              r.story.Some? && r.story.value.name == s.story.value.name &&
              r.story.value.testCases == cases[..|cases| - 1] + [f(cases[|cases| - 1])]
  {
    if s.current != LastCase then s
    else
      var story := s.story.value;
      var n := |story.testCases| - 1;
      ScanState(Some(story.(testCases := story.testCases[..n] + [f(story.testCases[n])])), LastCase, s.failed)
  }

  /** One line of the loop. A describe line starts a new story; an it line
      appends one test case named after the story; the metadata lines
      overwrite the current test case's description or external id; a log
      line appends a step. An it line before any story (AttributeError on
      `None.Name`) and a metadata or log line before any test case
      (UnboundLocalError) raise. */
  function Step(s: ScanState, line: string): (r: ScanState)
    requires Coherent(s)
    ensures Coherent(r)
    ensures s.failed ==> r == s
    ensures !s.failed && Classify(line).Other? ==> r == s
    ensures !s.failed && Classify(line).Describe? ==>
              r.story == Some(CyUserStory(Classify(line).text, [], "")) && !r.failed
    ensures !s.failed && Classify(line).It? ==>
              r.failed == s.story.None? &&
              (s.story.Some? ==> r.current == LastCase && r.story.value.name == s.story.value.name &&
                                 r.story.value.testCases ==
                                 s.story.value.testCases + [CyTestCase(s.story.value.name + " " + Classify(line).text,
                                                                       "", "", [])])
    ensures !s.failed && !Classify(line).Describe? && !Classify(line).It? && !Classify(line).Other? ==>
              r.failed == (s.current == NoCase) && (s.current == Detached ==> r == s) &&
              (r.story.Some? <==> s.story.Some?) &&
              (r.story.Some? ==>
                 r.story.value.name == s.story.value.name &&
                 |r.story.value.testCases| == |s.story.value.testCases|)
    ensures !s.failed && s.current == LastCase && Classify(line).Description? ==>
              var cases := s.story.value.testCases;
              var n := |cases| - 1;
              r.story.Some? && r.current == LastCase &&
              r.story.value.testCases == cases[..n] + [cases[n].(description := Classify(line).text)]
    ensures !s.failed && s.current == LastCase && Classify(line).AutId? ==>
              var cases := s.story.value.testCases;
              var n := |cases| - 1;
              r.story.Some? && r.current == LastCase &&
              r.story.value.testCases == cases[..n] + [cases[n].(externalId := Classify(line).text)]
    ensures !s.failed && s.current == LastCase && Classify(line).Log? ==>
              var cases := s.story.value.testCases;
              var n := |cases| - 1;
              r.story.Some? && r.current == LastCase &&
              r.story.value.testCases == cases[..n] + [cases[n].(steps := cases[n].steps + [Classify(line).text])]
  {
    if s.failed then s
    else
      match Classify(line)
      case Describe(t) =>
        ScanState(Some(CyUserStory(t, [], "")), if s.current == NoCase then NoCase else Detached, false)
      case It(t) =>
        if s.story.None? then s.(failed := true)
        else
          var story := s.story.value;
          ScanState(Some(story.(testCases := story.testCases + [CyTestCase(story.name + " " + t, "", "", [])])),
                    LastCase, false)
      case Description(t) =>
        if s.current == NoCase then s.(failed := true) else UpdateCurrent(s, (tc: CyTestCase) => tc.(description := t))
      case AutId(t) =>
        if s.current == NoCase then s.(failed := true) else UpdateCurrent(s, (tc: CyTestCase) => tc.(externalId := t))
      case Log(t) =>
        if s.current == NoCase then s.(failed := true) else UpdateCurrent(s, (tc: CyTestCase) => tc.(steps := tc.steps + [t]))
      case Other => s
  }

  const Start := ScanState(None, NoCase, false)

  /** The scanner's state after the given lines. */
  function Scan(lines: seq<string>): (r: ScanState)
    ensures Coherent(r)
  {
    if |lines| == 0 then Start else Step(Scan(lines[..|lines| - 1]), lines[|lines| - 1])
  }

  /** The text of the last describe line, if any. */
  function LastDescribe(lines: seq<string>): Option<string> {
    if |lines| == 0 then None
    else if Classify(lines[|lines| - 1]).Describe? then Some(Classify(lines[|lines| - 1]).text)
    else LastDescribe(lines[..|lines| - 1])
  }

  /** The number of it lines after the last describe line. */
  function ItsSinceDescribe(lines: seq<string>): nat {
    if |lines| == 0 then 0
    else if Classify(lines[|lines| - 1]).Describe? then 0
    else ItsSinceDescribe(lines[..|lines| - 1]) + (if Classify(lines[|lines| - 1]).It? then 1 else 0)
  }

  /** When no line raised, the returned story is the one the last describe
      line started, and it has one test case per it line after it. */
  lemma {:induction false} ScanWithoutFailure(lines: seq<string>)
    requires !Scan(lines).failed
    ensures Scan(lines).story.Some? <==> LastDescribe(lines).Some?
    ensures Scan(lines).story.Some? ==> Scan(lines).story.value.name == LastDescribe(lines).value &&
                                        |Scan(lines).story.value.testCases| == ItsSinceDescribe(lines)
  {
    if |lines| > 0 {
      var init := lines[..|lines| - 1];
      assert !Scan(init).failed;
      ScanWithoutFailure(init);
    }
  }

  /** Once a line raised, later lines change nothing. */
  lemma {:induction false} ScanStopsAtFailure(lines: seq<string>, k: nat)
    requires k <= |lines| && Scan(lines[..k]).failed
    ensures Scan(lines) == Scan(lines[..k])
    decreases |lines| - k
  {
    if k < |lines| {
      assert lines[..k + 1][..k] == lines[..k];
      ScanStopsAtFailure(lines, k + 1);
    } else {
      assert lines[..k] == lines;
    }
  }

  /** An it line ahead of every describe line makes the file yield no
      story. */
  lemma {:induction false} ItBeforeDescribe(line: string, rest: seq<string>)
    requires Classify(line).It?
    ensures Scan([line] + rest).story == None
  {
    assert ([line] + rest)[..1] == [line];
    assert [line][..0] == [];
    ScanStopsAtFailure([line] + rest, 1);
  }

  /** `__getStoryFromFile`: the lines are scanned in order until one
      raises; the story built so far (possibly none) is returned. */
  method StoryFromFile(lines: seq<string>) returns (story: Option<CyUserStory>)
    ensures story == Scan(lines).story
  {
    var state := Start;
    var i := 0;
    while i < |lines|
      invariant 0 <= i <= |lines| && state == Scan(lines[..i]) && !state.failed
    {
      assert lines[..i + 1][..i] == lines[..i];
      state := Step(state, lines[i]);
      i := i + 1;
      if state.failed {
        ScanStopsAtFailure(lines, i);
        return state.story;
      }
    }
    assert lines[..i] == lines;
    story := state.story;
  }

  // ---------------------------------------------------------------------
  // The epic

  /** A source file: its name and its lines. */
  datatype SourceFile = SourceFile(name: string, lines: seq<string>)

  /** The stories of the files that yield one, each with its file name, in
      file order. */
  function Stories(files: seq<SourceFile>): (r: seq<CyUserStory>)
    ensures |r| <= |files|
    ensures forall s | s in r :: exists f | f in files :: s.fileName == f.name
  {
    if |files| == 0 then []
    else
      var f := files[|files| - 1];
      var init := files[..|files| - 1];
      assert forall g | g in init :: g in files;
      Stories(init) + match Scan(f.lines).story
                      case None => []
                      case Some(s) => [s.(fileName := f.name)]
  }

  /** The file loop of the import: every file's story, when it has one,
      gets the file name and is appended to the epic. */
  method ScanFiles(epicName: string, files: seq<SourceFile>) returns (epic: CyEpic)
    ensures epic == CyEpic(epicName, Stories(files))
  {
    epic := CyEpic(epicName, []);
    var i := 0;
    while i < |files|
      invariant 0 <= i <= |files| && epic == CyEpic(epicName, Stories(files[..i]))
    {
      assert files[..i + 1][..i] == files[..i];
      var us := StoryFromFile(files[i].lines);
      if us.Some? {
        epic := epic.(stories := epic.stories + [us.value.(fileName := files[i].name)]);
      }
      i := i + 1;
    }
    assert files[..i] == files;
  }
}
