/** The Robot Framework test case import: the suite visitor that collects
    test cases, keywords, setups and teardowns from a parsed `.robot`
    file, and the check whether a test step block needs updating. */
module ImportTcRf {
  import opened Common
  import opened Tbcs

  /** A collected test case. */
  datatype TcRecord = TcRecord(name: string, steps: seq<string>, tags: seq<string>, description: seq<string>)

  /** A collected keyword. */
  datatype KwRecord = KwRecord(name: string, arguments: seq<string>, steps: seq<string>, tags: seq<string>,
                               description: seq<string>, codeblock: string)

  /** The lists the visitor appends to. They are class attributes, so they
      hold whatever visitors of earlier files left in them. */
  datatype SharedLists = SharedLists(testCases: seq<TcRecord>, keywords: seq<KwRecord>, testSetup: seq<string>,
                                     testTeardown: seq<string>)

  /** Python's `lst[i]` on a list of length `n`: negative indices count
      from the end; anything else out of range raises IndexError. */
  function PyIndex(i: int, n: nat): (r: Option<nat>)
    ensures r.Some? <==> -(n as int) <= i < n
    ensures r.Some? ==> r.value < n && (i >= 0 ==> r.value == i) && (i < 0 ==> r.value == n + i)
  {
    if 0 <= i < n then Some(i)
    else if -(n as int) <= i < 0 then Some(n + i)
    else None
  }

  /** A keyword call or a setup/teardown as one line: the name, four
      blanks, and the arguments joined by four blanks. */
  function StepText(keyword: string, args: seq<string>): (r: string)
    ensures StartsWith(r, keyword + "    ")
    ensures |args| == 0 ==> r == keyword + "    "
  {
    var head := keyword + "    ";
    var r := head + Join(args, "    ");
    assert r[..|head|] == head;
    r
  }

  /** The tags that name an id (`ID:` prefix), without the prefix. */
  function IdTags(values: seq<string>): (r: seq<string>)
    ensures |r| <= |values|
    ensures forall t | t in r :: "ID:" + t in values
  {
    if |values| == 0 then []
    else
      var v := values[|values| - 1];
      var init := values[..|values| - 1];
      assert forall w | w in init :: w in values;
      IdTags(init) +
      (if StartsWith(v, "ID:") then
         assert "ID:" + v[3..] == v by { assert v[..3] == "ID:"; }
         [v[3..]]
       else [])
  }

  /** A tag written as `ID:` and an id is collected as that id; any other
      tag is dropped. */
  lemma {:induction false} IdTagsSingle(id: string, other: string)
    requires !StartsWith(other, "ID:")
    ensures IdTags(["ID:" + id]) == [id]
    ensures IdTags([other]) == []
  {
    assert ["ID:" + id][..0] == [];
    assert [other][..0] == [];
    var v := "ID:" + id;
    assert v[..3] == "ID:" && v[3..] == id;
  }

  /** An argument's name: `value[2:-1]`, which strips `${` and `}`. */
  function ArgName(value: string): (r: string)
    ensures |value| >= 3 ==> r == value[2..|value| - 1]
    ensures |value| < 3 ==> r == ""
  {
    if |value| >= 3 then value[2..|value| - 1] else ""
  }

  /** The names of an argument list, in order. */
  function ArgNames(values: seq<string>): (r: seq<string>)
    ensures |r| == |values| && forall j | 0 <= j < |values| :: r[j] == ArgName(values[j])
  {
    seq(|values|, j requires 0 <= j < |values| => ArgName(values[j]))
  }

  lemma {:induction false} ArgNameOfVariable(name: string)
    ensures ArgName("${" + name + "}") == name
  {
    var v := "${" + name + "}";
    assert v[2..|v| - 1] == name;
  }

  /** The visitor. The lists are shared with earlier visitors; the
      counters and the mode start afresh for each visitor (an assignment
      through `self` creates an instance attribute). */
  class TestSuiteParser {
    var testCases: seq<TcRecord>
    var keywords: seq<KwRecord>
    var testSetup: seq<string>
    var testTeardown: seq<string>
    var tcCounter: int
    var kwdCounter: int
    var testCase: bool

    constructor (shared: SharedLists)
      ensures testCases == shared.testCases && keywords == shared.keywords
      ensures testSetup == shared.testSetup && testTeardown == shared.testTeardown
      ensures tcCounter == -1 && kwdCounter == -1 && testCase
    {
      testCases := shared.testCases;
      keywords := shared.keywords;
      testSetup := shared.testSetup;
      testTeardown := shared.testTeardown;
      tcCounter := -1;
      kwdCounter := -1;
      testCase := true;
    }

    /** A test case name opens a record, advances the test case counter
        and enters test case mode. */
    method VisitTestCaseName(name: string)
      modifies this`testCases, this`tcCounter, this`testCase
      ensures testCases == old(testCases) + [TcRecord(name, [], [], [])]
      ensures tcCounter == old(tcCounter) + 1 && testCase
    {
      testCases := testCases + [TcRecord(name, [], [], [])];
      tcCounter := tcCounter + 1;
      testCase := true;
    }

    /** A keyword name opens a record, advances the keyword counter and
        enters keyword mode. */
    method VisitKeywordName(name: string)
      modifies this`keywords, this`kwdCounter, this`testCase
      ensures keywords == old(keywords) + [KwRecord(name, [], [], [], [], "")]
      ensures kwdCounter == old(kwdCounter) + 1 && !testCase
    {
      keywords := keywords + [KwRecord(name, [], [], [], [], "")];
      kwdCounter := kwdCounter + 1;
      testCase := false;
    }

    /** A keyword call becomes a step of the record the mode and the
        counter select. */
    method VisitKeywordCall(keyword: string, args: seq<string>) returns (r: Result<(), PyError>)
      modifies this`testCases, this`keywords
      ensures testCase ==> keywords == old(keywords)
      ensures !testCase ==> testCases == old(testCases)
      ensures testCase && PyIndex(tcCounter, |old(testCases)|).None? ==>
                r == Err(IndexError) && testCases == old(testCases)
      ensures testCase && PyIndex(tcCounter, |old(testCases)|).Some? ==>
                var k := PyIndex(tcCounter, |old(testCases)|).value;
                r == Ok(()) &&
                testCases == old(testCases)[k := old(testCases)[k].(steps := old(testCases)[k].steps +
                                                                              [StepText(keyword, args)])]
      ensures !testCase && PyIndex(kwdCounter, |old(keywords)|).None? ==>
                r == Err(IndexError) && keywords == old(keywords)
      ensures !testCase && PyIndex(kwdCounter, |old(keywords)|).Some? ==>
                var k := PyIndex(kwdCounter, |old(keywords)|).value;
                r == Ok(()) &&
                keywords == old(keywords)[k := old(keywords)[k].(steps := old(keywords)[k].steps +
                                                                          [StepText(keyword, args)])]
    {
      var text := StepText(keyword, args);
      if testCase {
        var k := PyIndex(tcCounter, |testCases|);
        if k.None? {
          return Err(IndexError);
        }
        testCases := testCases[k.value := testCases[k.value].(steps := testCases[k.value].steps + [text])];
      } else {
        var k := PyIndex(kwdCounter, |keywords|);
        if k.None? {
          return Err(IndexError);
        }
        keywords := keywords[k.value := keywords[k.value].(steps := keywords[k.value].steps + [text])];
      }
      r := Ok(());
    }

    method VisitTestSetup(name: string, args: seq<string>)
      modifies this`testSetup
      ensures testSetup == old(testSetup) + [StepText(name, args)]
    {
      testSetup := testSetup + [StepText(name, args)];
    }

    method VisitTestTeardown(name: string, args: seq<string>)
      modifies this`testTeardown
      ensures testTeardown == old(testTeardown) + [StepText(name, args)]
    {
      testTeardown := testTeardown + [StepText(name, args)];
    }

    /** Tags: the id tags go to the current test case, in either mode; the
        index is taken only when an id tag is there. */
    method VisitTags(values: seq<string>) returns (r: Result<(), PyError>)
      modifies this`testCases
      ensures IdTags(values) == [] ==> r == Ok(()) && testCases == old(testCases)
      ensures IdTags(values) != [] && PyIndex(tcCounter, |old(testCases)|).None? ==>
                r == Err(IndexError) && testCases == old(testCases)
      ensures PyIndex(tcCounter, |old(testCases)|).Some? ==>
                var k := PyIndex(tcCounter, |old(testCases)|).value;
                r == Ok(()) &&
                testCases == old(testCases)[k := old(testCases)[k].(tags := old(testCases)[k].tags + IdTags(values))]
    {
      var k := PyIndex(tcCounter, |testCases|);
      var tags: seq<string> := [];
      var i := 0;
      while i < |values|
        invariant 0 <= i <= |values|
        invariant tags == IdTags(values[..i])
        invariant k.None? ==> tags == []
      {
        assert values[..i + 1][..i] == values[..i];
        var value := values[i];
        if StartsWith(value, "ID:") {
          if k.None? {
            IdTagsExtend(values, i + 1);
            return Err(IndexError);
          }
          tags := tags + [value[3..]];
        }
        i := i + 1;
      }
      assert values[..i] == values;
      if k.Some? {
        var updated := testCases[k.value].(tags := testCases[k.value].tags + tags);
        if tags == [] {
          assert updated == testCases[k.value];
          assert testCases[k.value := updated] == testCases;
        } else {
          testCases := testCases[k.value := updated];
        }
      }
      r := Ok(());
    }

    /** Arguments are recorded in keyword mode only, on the current
        keyword. */
    method VisitArguments(values: seq<string>) returns (r: Result<(), PyError>)
      modifies this`keywords
      ensures testCase || |values| == 0 ==> r == Ok(()) && keywords == old(keywords)
      ensures !testCase && |values| > 0 && PyIndex(kwdCounter, |old(keywords)|).None? ==>
                r == Err(IndexError) && keywords == old(keywords)
      ensures !testCase && PyIndex(kwdCounter, |old(keywords)|).Some? ==>
                var k := PyIndex(kwdCounter, |old(keywords)|).value;
                r == Ok(()) && |keywords| == |old(keywords)| &&
                keywords == old(keywords)[k := old(keywords)[k].(arguments := old(keywords)[k].arguments +
                                                                              ArgNames(values))]
    {
      r := Ok(());
      if testCase {
        return;
      }
      var k := PyIndex(kwdCounter, |keywords|);
      if |values| > 0 && k.None? {
        return Err(IndexError);
      }
      var names: seq<string> := [];
      var i := 0;
      while i < |values|
        invariant 0 <= i <= |values| && names == ArgNames(values[..i])
      {
        names := names + [ArgName(values[i])];
        i := i + 1;
      }
      assert values[..i] == values;
      if k.Some? {
        var updated := keywords[k.value].(arguments := keywords[k.value].arguments + names);
        if names == [] {
          assert updated == keywords[k.value];
          assert keywords[k.value := updated] == keywords;
        } else {
          keywords := keywords[k.value := updated];
        }
      }
    }

    /** Documentation goes to the record the mode and the counter
        select. */
    method VisitDocumentation(value: string) returns (r: Result<(), PyError>)
      modifies this`testCases, this`keywords
      ensures testCase ==> keywords == old(keywords)
      ensures !testCase ==> testCases == old(testCases)
      ensures testCase && PyIndex(tcCounter, |old(testCases)|).None? ==>
                r == Err(IndexError) && testCases == old(testCases)
      ensures testCase && PyIndex(tcCounter, |old(testCases)|).Some? ==>
                var k := PyIndex(tcCounter, |old(testCases)|).value;
                r == Ok(()) &&
                testCases == old(testCases)[k := old(testCases)[k].(description := old(testCases)[k].description +
                                                                                    [value])]
      ensures !testCase && PyIndex(kwdCounter, |old(keywords)|).None? ==>
                r == Err(IndexError) && keywords == old(keywords)
      ensures !testCase && PyIndex(kwdCounter, |old(keywords)|).Some? ==>
                var k := PyIndex(kwdCounter, |old(keywords)|).value;
                r == Ok(()) &&
                keywords == old(keywords)[k := old(keywords)[k].(description := old(keywords)[k].description +
                                                                                [value])]
    {
      if testCase {
        var k := PyIndex(tcCounter, |testCases|);
        if k.None? {
          return Err(IndexError);
        }
        testCases := testCases[k.value := testCases[k.value].(description := testCases[k.value].description +
                                                                              [value])];
      } else {
        var k := PyIndex(kwdCounter, |keywords|);
        if k.None? {
          return Err(IndexError);
        }
        keywords := keywords[k.value := keywords[k.value].(description := keywords[k.value].description + [value])];
      }
      r := Ok(());
    }
  }

  /** Once an id tag is among the first values, the id tags of the whole
      list are not empty. */
  lemma {:induction false} IdTagsExtend(values: seq<string>, n: nat)
    requires 0 < n <= |values| && StartsWith(values[n - 1], "ID:")
    ensures IdTags(values) != []
  {
    assert values[..n][..n - 1] == values[..n - 1];
    assert IdTags(values[..n]) != [];
    IdTagsPrefix(values, n);
  }

  /** The id tags of a prefix are at most those of the whole list. */
  lemma {:induction false} IdTagsPrefix(values: seq<string>, n: nat)
    requires n <= |values|
    ensures |IdTags(values[..n])| <= |IdTags(values)|
    decreases |values| - n
  {
    if n < |values| {
      assert values[..n + 1][..n] == values[..n];
      IdTagsPrefix(values, n + 1);
    } else {
      assert values[..n] == values;
    }
  }

  /** A second file parsed in the same process: its first test case name
      makes the counter 0 again, so its first step lands in the first
      file's first test case, and its own record stays empty. */
  method SecondFileStep(earlier: TcRecord, name: string, keyword: string) returns (p: TestSuiteParser)
    ensures |p.testCases| == 2
    ensures p.testCases[0] == earlier.(steps := earlier.steps + [keyword + "    "])
    ensures p.testCases[1] == TcRecord(name, [], [], [])
  {
    p := new TestSuiteParser(SharedLists([earlier], [], [], []));
    p.VisitTestCaseName(name);
    var r := p.VisitKeywordCall(keyword, []);
  }

  // ---------------------------------------------------------------------
  // Deciding on a step block update

  /** A block must be rewritten when it is missing, its step count
      differs, or some step's description differs at the same position. */
  predicate NeedsUpdate(robotBlock: seq<string>, tbcsBlock: Option<seq<TestStep>>) {
    tbcsBlock.None? || |robotBlock| != |tbcsBlock.value| ||
    exists i | 0 <= i < |robotBlock| :: robotBlock[i] != tbcsBlock.value[i].description
  }

  /** An existing block is kept exactly when its descriptions are the
      Robot block. */
  lemma {:induction false} NeedsUpdateExactly(robotBlock: seq<string>, steps: seq<TestStep>)
    ensures !NeedsUpdate(robotBlock, Some(steps)) <==> Descriptions(steps) == robotBlock
  {
    if Descriptions(steps) == robotBlock {
      assert forall i | 0 <= i < |robotBlock| :: robotBlock[i] == steps[i].description;
    }
  }

  /** `check_for_update`: a missing block is created first (at no
      position; the id is the server's answer), and the update is needed. */
  method CheckForUpdate(api: Api, productId: string, testCaseId: string, robotBlock: seq<string>,
                        tbcsBlock: Option<seq<TestStep>>, blockName: string, newBlockId: string)
    returns (update: bool)
    modifies api`log
    ensures update <==> NeedsUpdate(robotBlock, tbcsBlock)
    ensures tbcsBlock.None? ==>
              api.log == old(api.log) + [StepBlockAdded(productId, testCaseId, AddTestStepBlockBody(blockName, -1),
                                                        newBlockId)]
    ensures tbcsBlock.Some? ==> api.log == old(api.log)
  {
    if tbcsBlock.None? {
      api.Send(StepBlockAdded(productId, testCaseId, AddTestStepBlockBody(blockName, -1), newBlockId));
      return true;
    }
    var steps := tbcsBlock.value;
    if |robotBlock| != |steps| {
      return true;
    }
    var count := 0;
    while count < |robotBlock|
      invariant 0 <= count <= |robotBlock|
      invariant forall i | 0 <= i < count :: robotBlock[i] == steps[i].description
    {
      if robotBlock[count] != steps[count].description {
        return true;
      }
      count := count + 1;
    }
    update := false;
  }
}
