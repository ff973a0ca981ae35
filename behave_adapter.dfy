/** The Behave adapter: it writes a Gherkin feature file for a structured
    test case, runs `behave` on it, and reads the verdict and the step
    results back from behave's JSON report. The fetched user story, the
    keywords and the parameter values come in as values; the JSON report
    comes in parsed. */
module BehaveAdapter {
  import opened Common
  import opened Tbcs
  import opened Adapters
  import opened ComparisonUtils

  // ---------------------------------------------------------------------
  // Feature file

  /** The feature is named after the test case's user story when there is
      one with a non-empty name; `story` is the fetched story's name, None
      when the test case has no `userStoryId` or it is None. */
  function FeatureName(story: Option<string>): (name: string)
    ensures name == "generic" <==> story.None? || story.value == "" || story.value == "generic"
    ensures story.Some? && story.value != "" ==> name == story.value
  {
    if story.Some? && story.value != "" then story.value else "generic"
  }

  datatype Gherkin = Given | When | Then | And

  /** The block titles that give a block's first step Given, When and
      Then; titles are compared as `is_equal_ignore_separators` compares
      them. */
  const GivenTitles: seq<string> := ["Preparation", "Given"]
  const WhenTitles: seq<string> := ["Test", "When"]
  const ThenTitles: seq<string> := ["ResultCheck", "Then"]

  predicate IsGivenTitle(title: string) {
    IsEqualIgnoreSeparators(title, GivenTitles[0]) || IsEqualIgnoreSeparators(title, GivenTitles[1])
  }

  predicate IsWhenTitle(title: string) {
    IsEqualIgnoreSeparators(title, WhenTitles[0]) || IsEqualIgnoreSeparators(title, WhenTitles[1])
  }

  predicate IsThenTitle(title: string) {
    IsEqualIgnoreSeparators(title, ThenTitles[0]) || IsEqualIgnoreSeparators(title, ThenTitles[1])
  }

  /** The Gherkin keyword a block title gives the block's first step. */
  function BlockKeyword(title: string): Gherkin {
    if IsGivenTitle(title) then Given
    else if IsWhenTitle(title) then When
    else if IsThenTitle(title) then Then
    else And
  }

  /** Words whose first letters differ, ignoring case, are not equal
      ignoring separators. */
  lemma {:induction false} HeadsDiffer(a: string, b: string)
    requires |a| > 0 && |b| > 0 && !IsSeparator(a[0]) && !IsSeparator(b[0]) && UpperChar(a[0]) != UpperChar(b[0])
    ensures !IsEqualIgnoreSeparators(a, b)
  {
    CanonicalHead(a);
    CanonicalHead(b);
  }

  lemma {:induction false} GivenTitlesGiveGiven()
    ensures BlockKeyword(GivenTitles[0]) == Given && BlockKeyword(GivenTitles[1]) == Given
  {
  }

  lemma {:induction false} WhenTitlesGiveWhen()
    ensures BlockKeyword(WhenTitles[0]) == When && BlockKeyword(WhenTitles[1]) == When
  {
    HeadsDiffer(WhenTitles[0], GivenTitles[0]);
    HeadsDiffer(WhenTitles[0], GivenTitles[1]);
    HeadsDiffer(WhenTitles[1], GivenTitles[0]);
    HeadsDiffer(WhenTitles[1], GivenTitles[1]);
  }

  /** Words whose second letters differ, ignoring case, are not equal
      ignoring separators. */
  lemma {:induction false} SecondsDiffer(a: string, b: string)
    requires |a| > 1 && |b| > 1 && !IsSeparator(a[0]) && !IsSeparator(b[0]) && !IsSeparator(a[1]) && !IsSeparator(b[1])
    requires UpperChar(a[1]) != UpperChar(b[1])
    ensures !IsEqualIgnoreSeparators(a, b)
  {
    CanonicalSecond(a);
    CanonicalSecond(b);
  }

  lemma {:induction false} ResultCheckGivesThen()
    ensures BlockKeyword(ThenTitles[0]) == Then
  {
    HeadsDiffer(ThenTitles[0], GivenTitles[0]);
    HeadsDiffer(ThenTitles[0], GivenTitles[1]);
    HeadsDiffer(ThenTitles[0], WhenTitles[0]);
    HeadsDiffer(ThenTitles[0], WhenTitles[1]);
  }

  /** "Then" and "Test" share their first letter only. */
  lemma {:induction false} ThenGivesThen()
    ensures BlockKeyword(ThenTitles[1]) == Then
  {
    HeadsDiffer(ThenTitles[1], GivenTitles[0]);
    HeadsDiffer(ThenTitles[1], GivenTitles[1]);
    SecondsDiffer(ThenTitles[1], WhenTitles[0]);
    HeadsDiffer(ThenTitles[1], WhenTitles[1]);
  }

  /** Titles are compared without separators and letter case: titles with
      the same key give the same keyword. */
  lemma {:induction false} BlockKeywordIgnoresSeparators(a: string, b: string)
    requires Canonical(a) == Canonical(b)
    ensures BlockKeyword(a) == BlockKeyword(b)
  {
    assert IsGivenTitle(a) == IsGivenTitle(b) by {
      SameKeySameComparison(a, b, GivenTitles[0]);
      SameKeySameComparison(a, b, GivenTitles[1]);
    }
    assert IsWhenTitle(a) == IsWhenTitle(b) by {
      SameKeySameComparison(a, b, WhenTitles[0]);
      SameKeySameComparison(a, b, WhenTitles[1]);
    }
    assert IsThenTitle(a) == IsThenTitle(b) by {
      SameKeySameComparison(a, b, ThenTitles[0]);
      SameKeySameComparison(a, b, ThenTitles[1]);
    }
  }

  /** Titles with the same key compare alike with any word. */
  lemma {:induction false} SameKeySameComparison(a: string, b: string, word: string)
    requires Canonical(a) == Canonical(b)
    ensures IsEqualIgnoreSeparators(a, word) == IsEqualIgnoreSeparators(b, word)
  {
  }

  /** The indented keyword written before a step. */
  function Prefix(g: Gherkin): string {
    match g
    case Given => "    Given "
    case When => "     When "
    case Then => "     Then "
    case And => "      And "
  }

  /** A keyword as `get_keyword` returns it: its name and its parameters as
      `(id, name)` pairs. */
  datatype BehaveKeyword = BehaveKeyword(name: string, parameters: seq<(string, string)>)

  /** `text.replace('{' + name + '}', value)` for each `(name, value)` in
      order. */
  function Substitute(text: string, pairs: seq<(string, string)>): string {
    if |pairs| == 0 then text
    else
      var p := pairs[|pairs| - 1];
      ReplaceAll(Substitute(text, pairs[..|pairs| - 1]), "{" + p.0 + "}", p.1)
  }

  /** Text without any placeholder of the list is left as it is, provided no
      value brings one in. */
  lemma {:induction false} SubstituteWithoutPlaceholders(text: string, pairs: seq<(string, string)>)
    requires forall i, j | 0 <= i < |pairs| && 0 <= j < |pairs| ::
               !Contains(text, "{" + pairs[i].0 + "}") && !Contains(pairs[j].1, "{" + pairs[i].0 + "}")
    ensures Substitute(text, pairs) == text
  {
    if |pairs| > 0 {
      var p := pairs[|pairs| - 1];
      SubstituteWithoutPlaceholders(text, pairs[..|pairs| - 1]);
      ReplaceAllAbsent(text, "{" + p.0 + "}", p.1);
    }
  }

  /** The last placeholder of the list that occurs in the text before its
      replacement leaves its value in the result. */
  lemma {:induction false} SubstituteIntroducesValue(text: string, pairs: seq<(string, string)>)
    requires |pairs| > 0
    requires Contains(Substitute(text, pairs[..|pairs| - 1]), "{" + pairs[|pairs| - 1].0 + "}")
    ensures Contains(Substitute(text, pairs), pairs[|pairs| - 1].1)
  {
    var p := pairs[|pairs| - 1];
    ReplaceAllIntroduces(Substitute(text, pairs[..|pairs| - 1]), "{" + p.0 + "}", p.1);
  }

  /** The `(name, value)` pairs of a non-data-driven keyword step;
      `values(stepId, parId)` stands for `get_keyword_parameters_and_values`. */
  function FetchedPairs(stepId: string, ps: seq<(string, string)>, values: (string, string) -> string)
    : (r: seq<(string, string)>)
    ensures |r| == |ps| && forall i | 0 <= i < |ps| :: r[i] == (ps[i].1, values(stepId, ps[i].0))
  {
    seq(|ps|, i requires 0 <= i < |ps| => (ps[i].1, values(stepId, ps[i].0)))
  }

  /** The text of a keyword step: the keyword's name with its placeholders
      filled from the step's DDT parameters, or from the fetched values. */
  function KeywordStepText(step: TestStep, k: BehaveKeyword, values: (string, string) -> string): string {
    match step.ddtParameters
    case Some(ps) => Substitute(k.name, ps)
    case None => Substitute(k.name, FetchedPairs(step.id, k.parameters, values))
  }

  /** One step of one block, in file order; `first` marks the first step of
      its block. */
  datatype Slot = Slot(title: string, first: bool, step: TestStep)

  function BlockSlots(b: StepBlock): (r: seq<Slot>)
    ensures |r| == |b.steps|
    ensures forall j | 0 <= j < |r| :: r[j] == Slot(b.title, j == 0, b.steps[j])
  {
    seq(|b.steps|, j requires 0 <= j < |b.steps| => Slot(b.title, j == 0, b.steps[j]))
  }

  /** The steps of all blocks in order. */
  function Slots(blocks: seq<StepBlock>): seq<Slot> {
    if |blocks| == 0 then [] else Slots(blocks[..|blocks| - 1]) + BlockSlots(blocks[|blocks| - 1])
  }

  lemma {:induction false} SlotsPrefix(blocks: seq<StepBlock>, i: nat)
    requires i <= |blocks|
    ensures Slots(blocks[..i]) <= Slots(blocks)
  {
    if i < |blocks| {
      SlotsPrefix(blocks[..|blocks| - 1], i);
      assert blocks[..|blocks| - 1][..i] == blocks[..i];
    } else {
      assert blocks[..i] == blocks;
    }
  }

  /** What writing the feature file has produced so far: the text, the
      last keyword text (`kwd_text`, unbound until a keyword is found), the
      `stepOutput` of each step by its position in `Slots`, the position of
      the next step, and whether the step loop raised. */
  datatype FeatureState = FeatureState(text: string, kwdText: Option<string>, outputs: map<nat, string>, count: nat,
                                       failed: bool)

  /** A step typed "Keyword" whose keyword the service knows. */
  predicate Known(step: TestStep, keywords: map<string, BehaveKeyword>) {
    step.testStepType == "Keyword" && step.keywordId in keywords
  }

  /** A step typed "Keyword" whose keyword is not found. */
  predicate Orphan(step: TestStep, keywords: map<string, BehaveKeyword>) {
    step.testStepType == "Keyword" && step.keywordId !in keywords
  }

  /** The prefix a step is written with. */
  function StepPrefix(slot: Slot, classify: string -> Gherkin): string {
    Prefix(if slot.first then classify(slot.title) else And)
  }

  /** Writing one step. A test step writes its description; a keyword step
      its keyword text. An unknown keyword writes the previous keyword's
      text again, and raises UnboundLocalError when there is none. A step of
      any other type writes only its prefix. */
  function Next(st: FeatureState, slot: Slot, classify: string -> Gherkin, keywords: map<string, BehaveKeyword>,
                values: (string, string) -> string): FeatureState
  {
    if st.failed then st
    else
      var prefix := StepPrefix(slot, classify);
      var step := slot.step;
      if step.testStepType == "TestStep" then
        var line := prefix + step.description + "\n";
        st.(text := st.text + line, outputs := st.outputs[st.count := step.description], count := st.count + 1)
      else if step.testStepType == "Keyword" then
        if step.keywordId in keywords then
          var t := KeywordStepText(step, keywords[step.keywordId], values);
          var line := prefix + t + "\n";
          st.(text := st.text + line, kwdText := Some(t), outputs := st.outputs[st.count := t], count := st.count + 1)
        else if st.kwdText.Some? then
          var line := prefix + st.kwdText.value + "\n";
          st.(text := st.text + line, count := st.count + 1)
        else st.(text := st.text + prefix, failed := true)
      else st.(text := st.text + prefix, count := st.count + 1)
  }

  function Fold(st: FeatureState, slots: seq<Slot>, classify: string -> Gherkin, keywords: map<string, BehaveKeyword>,
                values: (string, string) -> string): FeatureState
  {
    if |slots| == 0 then st
    else Next(Fold(st, slots[..|slots| - 1], classify, keywords, values), slots[|slots| - 1], classify, keywords, values)
  }

  lemma {:induction false} FoldSnoc(st: FeatureState, a: seq<Slot>, x: Slot, classify: string -> Gherkin,
                 keywords: map<string, BehaveKeyword>, values: (string, string) -> string)
    ensures Fold(st, a + [x], classify, keywords, values) == Next(Fold(st, a, classify, keywords, values), x, classify, keywords, values)
  {
    assert (a + [x])[..|a|] == a;
  }

  lemma {:induction false} FoldConcat(st: FeatureState, a: seq<Slot>, b: seq<Slot>, classify: string -> Gherkin,
                                      keywords: map<string, BehaveKeyword>, values: (string, string) -> string)
    ensures Fold(st, a + b, classify, keywords, values) ==
            Fold(Fold(st, a, classify, keywords, values), b, classify, keywords, values)
  {
    if |b| == 0 {
      assert a + b == a;
    } else {
      var front := b[..|b| - 1];
      FoldConcat(st, a, front, classify, keywords, values);
      assert a + b == (a + front) + [b[|b| - 1]];
      FoldSnoc(st, a + front, b[|b| - 1], classify, keywords, values);
    }
  }

  /** Once the loop has raised, later steps change nothing. */
  lemma {:induction false} FoldFailedPrefix(st: FeatureState, a: seq<Slot>, full: seq<Slot>, classify: string -> Gherkin,
                                            keywords: map<string, BehaveKeyword>, values: (string, string) -> string)
    requires a <= full && Fold(st, a, classify, keywords, values).failed
    ensures Fold(st, full, classify, keywords, values) == Fold(st, a, classify, keywords, values)
  {
    if |full| > |a| {
      assert a <= full[..|full| - 1];
      FoldFailedPrefix(st, a, full[..|full| - 1], classify, keywords, values);
    } else {
      assert a == full;
    }
  }

  /** Some keyword step is unknown while no earlier step's keyword was found. */
  predicate RaisesIn(slots: seq<Slot>, keywords: map<string, BehaveKeyword>) {
    exists k | 0 <= k < |slots| :: Orphan(slots[k].step, keywords) && forall j | 0 <= j < k :: !Known(slots[j].step, keywords)
  }

  /** Some step's keyword is found. */
  predicate AnyKnown(slots: seq<Slot>, keywords: map<string, BehaveKeyword>) {
    exists k | 0 <= k < |slots| :: Known(slots[k].step, keywords)
  }

  lemma {:induction false} RaisesInStep(slots: seq<Slot>, keywords: map<string, BehaveKeyword>)
    requires |slots| > 0
    ensures var front, last := slots[..|slots| - 1], slots[|slots| - 1].step;
            (RaisesIn(slots, keywords) <==> RaisesIn(front, keywords) || (!AnyKnown(front, keywords) && Orphan(last, keywords))) &&
            (AnyKnown(slots, keywords) <==> AnyKnown(front, keywords) || Known(last, keywords))
  {
    var front, n := slots[..|slots| - 1], |slots| - 1;
    assert forall k | 0 <= k < n :: front[k] == slots[k];
    if RaisesIn(slots, keywords) {
      var k :| 0 <= k < |slots| && Orphan(slots[k].step, keywords) && forall j | 0 <= j < k :: !Known(slots[j].step, keywords);
      if k < n {
        assert Orphan(front[k].step, keywords) && forall j | 0 <= j < k :: !Known(front[j].step, keywords);
      } else {
        assert forall j | 0 <= j < n :: !Known(front[j].step, keywords);
      }
    }
    if RaisesIn(front, keywords) {
      var k :| 0 <= k < n && Orphan(front[k].step, keywords) && forall j | 0 <= j < k :: !Known(front[j].step, keywords);
      assert Orphan(slots[k].step, keywords) && forall j | 0 <= j < k :: !Known(slots[j].step, keywords);
    }
    if !AnyKnown(front, keywords) && Orphan(slots[n].step, keywords) {
      assert forall j | 0 <= j < n :: !Known(slots[j].step, keywords);
    }
    AnyKnownStep(slots, keywords);
  }

  lemma {:induction false} AnyKnownStep(slots: seq<Slot>, keywords: map<string, BehaveKeyword>)
    requires |slots| > 0
    ensures AnyKnown(slots, keywords) <==> AnyKnown(slots[..|slots| - 1], keywords) || Known(slots[|slots| - 1].step, keywords)
  {
    var front, n := slots[..|slots| - 1], |slots| - 1;
    if AnyKnown(front, keywords) {
      var k :| 0 <= k < n && Known(front[k].step, keywords);
      assert Known(slots[k].step, keywords);
    }
    if AnyKnown(slots, keywords) {
      var k :| 0 <= k < |slots| && Known(slots[k].step, keywords);
      if k < n {
        assert Known(front[k].step, keywords);
      }
    }
  }

  /** What one step does to the failure flag and to `kwd_text`. */
  lemma {:induction false} NextFailure(st: FeatureState, slot: Slot, classify: string -> Gherkin,
                                       keywords: map<string, BehaveKeyword>, values: (string, string) -> string)
    ensures var r := Next(st, slot, classify, keywords, values);
            (st.failed ==> r.failed) &&
            (!st.failed ==> (r.failed <==> Orphan(slot.step, keywords) && st.kwdText.None?)) &&
            (!r.failed ==> (r.kwdText.Some? <==> st.kwdText.Some? || Known(slot.step, keywords)))
  {
  }

  /** The loop raises UnboundLocalError exactly when some keyword step is
      unknown and no earlier step's keyword was found; `kwd_text` is bound
      exactly when some step's keyword was found. */
  lemma {:induction false} FoldFailure(st: FeatureState, slots: seq<Slot>, classify: string -> Gherkin,
                                       keywords: map<string, BehaveKeyword>, values: (string, string) -> string)
    requires !st.failed && st.kwdText.None?
    ensures var r := Fold(st, slots, classify, keywords, values);
            (r.failed <==> RaisesIn(slots, keywords)) &&
            (!r.failed ==> (r.kwdText.Some? <==> AnyKnown(slots, keywords)))
  {
    if |slots| > 0 {
      var front := slots[..|slots| - 1];
      FoldFailure(st, front, classify, keywords, values);
      NextFailure(Fold(st, front, classify, keywords, values), slots[|slots| - 1], classify, keywords, values);
      RaisesInStep(slots, keywords);
    }
  }

  /** The `stepOutput` a step gets: its description for a test step, its
      keyword text for a found keyword step, none for any other step. */
  function StepOutput(step: TestStep, keywords: map<string, BehaveKeyword>, values: (string, string) -> string)
    : Option<string>
  {
    if step.testStepType == "TestStep" then Some(step.description)
    else if Known(step, keywords) then Some(KeywordStepText(step, keywords[step.keywordId], values))
    else None
  }

  lemma {:induction false} NextOutputs(st: FeatureState, slot: Slot, classify: string -> Gherkin, keywords: map<string, BehaveKeyword>,
                    values: (string, string) -> string)
    requires !Next(st, slot, classify, keywords, values).failed
    ensures var r := Next(st, slot, classify, keywords, values);
            !st.failed && r.count == st.count + 1 &&
            r.outputs == match StepOutput(slot.step, keywords, values)
                         case Some(o) => st.outputs[st.count := o]
                         case None => st.outputs
  {
  }

  /** The outputs of a run of steps, in order. */
  function StepOutputs(slots: seq<Slot>, keywords: map<string, BehaveKeyword>, values: (string, string) -> string)
    : (r: seq<Option<string>>)
    ensures |r| == |slots| && forall k | 0 <= k < |slots| :: r[k] == StepOutput(slots[k].step, keywords, values)
  {
    seq(|slots|, k requires 0 <= k < |slots| => StepOutput(slots[k].step, keywords, values))
  }

  /** `after` is `before` with the outputs `outs` placed from position
      `base` on: each present output at its position, every other entry
      kept as it was. */
  ghost predicate Placed(base: nat, outs: seq<Option<string>>, before: map<nat, string>, after: map<nat, string>) {
    (forall k | 0 <= k < |outs| && outs[k].Some? :: base + k in after && after[base + k] == outs[k].value) &&
    (forall n: nat | n < base || base + |outs| <= n || outs[n - base].None? ::
       (n in after <==> n in before) && (n in before ==> after[n] == before[n]))
  }

  /** Placing one more output after the others. */
  lemma {:induction false} PlacedStep(base: nat, outs: seq<Option<string>>, before: map<nat, string>, mid: map<nat, string>,
                   after: map<nat, string>)
    requires |outs| > 0 && Placed(base, outs[..|outs| - 1], before, mid)
    requires after == match outs[|outs| - 1] case Some(o) => mid[base + |outs| - 1 := o] case None => mid
    ensures Placed(base, outs, before, after)
  {
    var n := |outs| - 1;
    var front := outs[..n];
    forall k | 0 <= k < |outs| && outs[k].Some?
      ensures base + k in after && after[base + k] == outs[k].value
    {
      if k < n {
        assert front[k] == outs[k];
      }
    }
    forall m: nat | m < base || base + |outs| <= m || outs[m - base].None?
      ensures (m in after <==> m in before) && (m in before ==> after[m] == before[m])
    {
      if base <= m < base + n {
        assert front[m - base] == outs[m - base];
      }
    }
  }

  /** A loop that did not raise has visited every step: each step with an
      output (`StepOutput`) has it at its position, and every other entry is
      kept as it was. */
  lemma {:induction false} FoldOutputs(st: FeatureState, slots: seq<Slot>, classify: string -> Gherkin,
                                       keywords: map<string, BehaveKeyword>, values: (string, string) -> string)
    requires !Fold(st, slots, classify, keywords, values).failed
    ensures var r := Fold(st, slots, classify, keywords, values);
            r.count == st.count + |slots| && Placed(st.count, StepOutputs(slots, keywords, values), st.outputs, r.outputs)
  {
    if |slots| > 0 {
      var n := |slots| - 1;
      var front := slots[..n];
      var r0 := Fold(st, front, classify, keywords, values);
      NextOutputs(r0, slots[n], classify, keywords, values);
      FoldOutputs(st, front, classify, keywords, values);
      var outs := StepOutputs(slots, keywords, values);
      assert outs[..n] == StepOutputs(front, keywords, values);
      PlacedStep(st.count, outs, st.outputs, r0.outputs, Fold(st, slots, classify, keywords, values).outputs);
    }
  }

  /** Each step is written after everything before it, starting with its
      Gherkin prefix: the block title's keyword for a block's first step,
      `And` for the others. */
  lemma {:induction false} NextAppends(st: FeatureState, slot: Slot, classify: string -> Gherkin, keywords: map<string, BehaveKeyword>,
                    values: (string, string) -> string)
    requires !st.failed
    ensures StartsWith(Next(st, slot, classify, keywords, values).text, st.text + StepPrefix(slot, classify))
  {
    var prefix := StepPrefix(slot, classify);
    var r := Next(st, slot, classify, keywords, values);
    var rest := r.text[|st.text| + |prefix|..];
    assert r.text == st.text + prefix + rest;
  }

  /** The header of the feature file. */
  function FeatureHeader(featureName: string, testCaseName: string): string {
    "Feature: " + featureName + "\n\n" + "  Scenario: " + testCaseName + "\n"
  }

  /** The state the step loop starts from. */
  function StartState(featureName: string, testCaseName: string, outputs: map<nat, string>): FeatureState {
    FeatureState(FeatureHeader(featureName, testCaseName), None, outputs, 0, false)
  }

  /** The behave call: write the JSON report, run the feature file. */
  function BehaveCall(resultFile: string, featureFile: string): seq<string> {
    ["behave", "-o", resultFile, "--format=json.pretty", featureFile]
  }

  // ---------------------------------------------------------------------
  // Result report

  /** A step of behave's JSON report; `status` is its `result.status`,
      None when the step has no `result`. */
  datatype GherkinStep = GherkinStep(name: string, status: Option<string>)
  datatype Scenario = Scenario(name: string, status: string, steps: seq<GherkinStep>)
  /** A feature of the report; `elements` is None when the key is absent. */
  datatype FeatureResult = FeatureResult(elements: Option<seq<Scenario>>)

  /** The scenarios of all features, in report order. */
  function AllScenarios(features: seq<FeatureResult>): seq<Scenario> {
    if |features| == 0 then []
    else
      var last := features[|features| - 1];
      AllScenarios(features[..|features| - 1]) + (if last.elements.Some? then last.elements.value else [])
  }

  /** The last scenario with the name. */
  function LastNamed(scs: seq<Scenario>, name: string): (r: Option<nat>)
    ensures r.Some? ==> r.value < |scs| && scs[r.value].name == name &&
                        forall k | r.value < k < |scs| :: scs[k].name != name
    ensures r.None? <==> forall k | 0 <= k < |scs| :: scs[k].name != name
  {
    if |scs| == 0 then None
    else if scs[|scs| - 1].name == name then Some(|scs| - 1)
    else LastNamed(scs[..|scs| - 1], name)
  }

  /** The last scenario of the list with the name. */
  function Chosen(scs: seq<Scenario>, name: string): Option<Scenario> {
    match LastNamed(scs, name)
    case None => None
    case Some(k) => Some(scs[k])
  }

  function VerdictOf(scs: seq<Scenario>, name: string): string {
    match LastNamed(scs, name)
    case None => "open"
    case Some(k) => scs[k].status
  }

  /** One more scenario: it is chosen when it carries the name, otherwise
      the choice so far stands. */
  lemma {:induction false} ChosenStep(scs: seq<Scenario>, x: Scenario, name: string)
    ensures Chosen(scs + [x], name) == if x.name == name then Some(x) else Chosen(scs, name)
    ensures VerdictOf(scs + [x], name) == if x.name == name then x.status else VerdictOf(scs, name)
  {
    assert (scs + [x])[..|scs|] == scs;
    if x.name != name {
      var l := LastNamed(scs, name);
      assert LastNamed(scs + [x], name) == l;
      if l.Some? {
        assert (scs + [x])[l.value] == scs[l.value];
      }
    }
  }

  /** The scenario the adapter reads its verdict from. */
  function ChosenScenario(features: seq<FeatureResult>, name: string): Option<Scenario> {
    Chosen(AllScenarios(features), name)
  }

  /** The verdict before any step is looked at: the chosen scenario's
      status, "open" when no scenario has the test case's name. */
  function ScenarioVerdict(features: seq<FeatureResult>, name: string): string {
    VerdictOf(AllScenarios(features), name)
  }

  /** The step result one TestBench step gets: reported only when the
      Gherkin step at its position has its `stepOutput` as name and a
      passed or failed result. */
  function StepReport(stepId: string, output: string, g: GherkinStep): (r: seq<(string, string)>)
    ensures |r| <= 1
    ensures |r| == 1 <==> g.name == output && (g.status == Some("passed") || g.status == Some("failed"))
    ensures |r| == 1 ==> r[0].0 == stepId && (r[0].1 == "Passed" <==> g.status == Some("passed"))
  {
    if g.name == output && g.status == Some("passed") then [(stepId, "Passed")]
    else if g.name == output && g.status == Some("failed") then [(stepId, "Failed")]
    else []
  }

  /** The step results reported while pairing the steps with the
      scenario's steps position by position, and whether the pairing
      raised: IndexError when the scenario has too few steps, KeyError when
      a step has no `stepOutput`. */
  datatype Association = Association(reports: seq<(string, string)>, raised: bool)

  function Associate(steps: seq<Slot>, outputs: map<nat, string>, g: seq<GherkinStep>): Association {
    if |steps| == 0 then Association([], false)
    else
      var a := Associate(steps[..|steps| - 1], outputs, g);
      var k := |steps| - 1;
      if a.raised then a
      else if k >= |g| || k !in outputs then a.(raised := true)
      else a.(reports := a.reports + StepReport(steps[k].step.id, outputs[k], g[k]))
  }

  /** One more step: the pairing raises at it, or adds its report. */
  lemma {:induction false} AssociateNext(steps: seq<Slot>, outputs: map<nat, string>, g: seq<GherkinStep>, reports: seq<(string, string)>)
    requires |steps| > 0 && Associate(steps[..|steps| - 1], outputs, g) == Association(reports, false)
    ensures |steps| - 1 >= |g| || |steps| - 1 !in outputs ==> Associate(steps, outputs, g) == Association(reports, true)
    ensures |steps| - 1 < |g| && |steps| - 1 in outputs ==>
              Associate(steps, outputs, g) ==
              Association(reports + StepReport(steps[|steps| - 1].step.id, outputs[|steps| - 1], g[|steps| - 1]), false)
  {
  }

  /** A reported result belongs to a step with an output that names the
      Gherkin step at its position, and says Passed exactly when that step
      passed. */
  ghost predicate Justified(r: (string, string), steps: seq<Slot>, outputs: map<nat, string>, g: seq<GherkinStep>) {
    exists k: nat | k < |steps| :: k < |g| && k in outputs && steps[k].step.id == r.0 && g[k].name == outputs[k] &&
                                  (r.1 == "Passed" <==> g[k].status == Some("passed"))
  }

  /** What is justified by the first steps stays justified. */
  lemma {:induction false} JustifiedGrows(r: (string, string), steps: seq<Slot>, n: nat, outputs: map<nat, string>, g: seq<GherkinStep>)
    requires n <= |steps| && Justified(r, steps[..n], outputs, g)
    ensures Justified(r, steps, outputs, g)
  {
    var k: nat :| k < n && k < |g| && k in outputs && steps[..n][k].step.id == r.0 && g[k].name == outputs[k] &&
                  (r.1 == "Passed" <==> g[k].status == Some("passed"));
    assert steps[k] == steps[..n][k];
  }

  /** The pairing raises exactly when there are more steps than Gherkin
      steps or a step has no output. Otherwise at most one result per step
      is reported, each for a step whose output names the Gherkin step at
      its position. */
  lemma {:induction false} AssociateProperties(steps: seq<Slot>, outputs: map<nat, string>, g: seq<GherkinStep>)
    ensures var a := Associate(steps, outputs, g);
            (a.raised <==> |steps| > |g| || exists k: nat | k < |steps| :: k !in outputs) &&
            |a.reports| <= |steps| &&
            (!a.raised ==> forall r | r in a.reports :: Justified(r, steps, outputs, g))
  {
    if |steps| > 0 {
      var k := |steps| - 1;
      var front := steps[..k];
      AssociateProperties(front, outputs, g);
      var a0 := Associate(front, outputs, g);
      var a := Associate(steps, outputs, g);
      if !a.raised {
        assert !a0.raised;
        forall r | r in a.reports
          ensures Justified(r, steps, outputs, g)
        {
          if r in a0.reports {
            JustifiedGrows(r, steps, k, outputs, g);
          } else {
            assert r in StepReport(steps[k].step.id, outputs[k], g[k]);
          }
        }
      }
    }
  }

  /** The verdict of `check_result` once the report has been read: Failed
      when the scenario failed or behave's exit code is positive. */
  function BehaveVerdict(verdict: string, returncode: int): (r: string)
    ensures r == "Failed" <==> verdict == "failed" || returncode > 0
    ensures r == "Passed" <==> !(verdict == "failed" || returncode > 0)
  {
    if verdict == "failed" || returncode > 0 then "Failed" else "Passed"
  }

  /** An unmatched scenario with exit code 0, and a negative exit code with
      any verdict but "failed", both pass. */
  lemma {:induction false} BehaveVerdictLoopholes(returncode: int, verdict: string)
    ensures BehaveVerdict("open", 0) == "Passed"
    ensures returncode < 0 && verdict != "failed" ==> BehaveVerdict(verdict, returncode) == "Passed"
  {
  }

  class Behave {
    const productId: string
    const testCaseId: string
    const executionId: string
    const testCaseName: string
    /** The concrete test case's step blocks. */
    const blocks: seq<StepBlock>
    const resultDir: string
    const featureFileName: string
    /** The `stepOutput` entries written into the steps, by position in
        `Slots(blocks)`. */
    var stepOutputs: map<nat, string>
    /** `__resultFile`, set by `execute_test_case`. */
    var resultFile: Option<string>

    constructor (tc: TestCaseRecord, blocks: seq<StepBlock>, executionId: string, scenarioDir: string, resultDir: string)
      ensures productId == tc.productId && testCaseId == tc.id && this.executionId == executionId
      ensures testCaseName == tc.name && this.blocks == blocks && this.resultDir == resultDir
      ensures featureFileName == scenarioDir + "/" + tc.name + ".feature"
      ensures stepOutputs == map[] && resultFile == None
    {
      productId := tc.productId;
      testCaseId := tc.id;
      this.executionId := executionId;
      testCaseName := tc.name;
      this.blocks := blocks;
      this.resultDir := resultDir;
      featureFileName := scenarioDir + "/" + tc.name + ".feature";
      stepOutputs := map[];
      resultFile := None;
    }

    /** One pass of the inner step loop: write the prefix and the step's
        text and record its `stepOutput`; `failed` when the step raises. */
    method WriteStep(text: string, kwdText: Option<string>, count: nat, slot: Slot, classify: string -> Gherkin,
                     keywords: map<string, BehaveKeyword>, values: (string, string) -> string)
      returns (text': string, kwdText': Option<string>, count': nat, failed: bool)
      modifies this`stepOutputs
      ensures Next(FeatureState(text, kwdText, old(stepOutputs), count, false), slot, classify, keywords, values) ==
              FeatureState(text', kwdText', stepOutputs, count', failed)
    {
      var prefix := Prefix(if slot.first then classify(slot.title) else And);
      var step := slot.step;
      text', kwdText', count', failed := text, kwdText, count, false;
      if step.testStepType == "TestStep" {
        var line := prefix + step.description + "\n";
        text' := text + line;
        stepOutputs := stepOutputs[count := step.description];
        count' := count + 1;
      } else if step.testStepType == "Keyword" {
        if step.keywordId in keywords {
          var t := KeywordStepText(step, keywords[step.keywordId], values);
          var line := prefix + t + "\n";
          text' := text + line;
          kwdText' := Some(t);
          stepOutputs := stepOutputs[count := t];
          count' := count + 1;
        } else if kwdText.Some? {
          var line := prefix + kwdText.value + "\n";
          text' := text + line;
          count' := count + 1;
        } else {
          text' := text + prefix;
          failed := true;
        }
      } else {
        text' := text + prefix;
        count' := count + 1;
      }
    }

    /** The inner loop over the steps of one block. */
    method WriteBlock(text: string, kwdText: Option<string>, count: nat, b: StepBlock, classify: string -> Gherkin,
                      keywords: map<string, BehaveKeyword>, values: (string, string) -> string)
      returns (text': string, kwdText': Option<string>, count': nat, failed: bool)
      modifies this`stepOutputs
      ensures Fold(FeatureState(text, kwdText, old(stepOutputs), count, false), BlockSlots(b), classify, keywords, values) ==
              FeatureState(text', kwdText', stepOutputs, count', failed)
    {
      ghost var start := FeatureState(text, kwdText, stepOutputs, count, false);
      ghost var slots := BlockSlots(b);
      text', kwdText', count' := text, kwdText, count;
      assert slots[..0] == [];
      var j := 0;
      while j < |b.steps|
        invariant 0 <= j <= |b.steps|
        invariant Fold(start, slots[..j], classify, keywords, values) == FeatureState(text', kwdText', stepOutputs, count', false)
      {
        var slot := Slot(b.title, j == 0, b.steps[j]);
        assert slots[j] == slot;
        TakeSnoc(slots, j);
        FoldSnoc(start, slots[..j], slot, classify, keywords, values);
        text', kwdText', count', failed := WriteStep(text', kwdText', count', slot, classify, keywords, values);
        if failed {
          FoldFailedPrefix(start, slots[..j + 1], slots, classify, keywords, values);
          return;
        }
        j := j + 1;
      }
      assert slots[..j] == slots;
      failed := false;
    }

    /** The nested step loop of `execute_test_case`, from the header on. It
        writes `stepOutput` into `stepOutputs` as it goes and stops at the
        step that raises. */
    method WriteSteps(header: string, classify: string -> Gherkin, keywords: map<string, BehaveKeyword>,
                      values: (string, string) -> string)
      returns (text: string, failed: bool)
      modifies this`stepOutputs
      ensures var st := Fold(FeatureState(header, None, old(stepOutputs), 0, false), Slots(blocks), classify, keywords, values);
              text == st.text && stepOutputs == st.outputs && failed == st.failed
    {
      ghost var start := FeatureState(header, None, stepOutputs, 0, false);
      text := header;
      var kwdText: Option<string> := None;
      var count: nat := 0;
      var i := 0;
      while i < |blocks|
        invariant 0 <= i <= |blocks|
        invariant Fold(start, Slots(blocks[..i]), classify, keywords, values) ==
                  FeatureState(text, kwdText, stepOutputs, count, false)
      {
        ghost var done := Slots(blocks[..i]);
        assert Slots(blocks[..i + 1]) == done + BlockSlots(blocks[i]) by {
          assert blocks[..i + 1][..i] == blocks[..i];
        }
        FoldConcat(start, done, BlockSlots(blocks[i]), classify, keywords, values);
        var blockFailed;
        text, kwdText, count, blockFailed := WriteBlock(text, kwdText, count, blocks[i], classify, keywords, values);
        if blockFailed {
          SlotsPrefix(blocks, i + 1);
          FoldFailedPrefix(start, Slots(blocks[..i + 1]), Slots(blocks), classify, keywords, values);
          return text, true;
        }
        i := i + 1;
      }
      assert blocks[..i] == blocks;
      failed := false;
    }

    /** `execute_test_case`: a test case that is not structured ends the
        agent with `exit(-1)`. Otherwise the feature file is written (and
        returned as `featureText`) and behave is started on it; every
        exception while starting behave is caught. An unknown first keyword
        raises out of the step loop before behave is started. */
    method ExecuteTestCase(parallel: bool, testCaseType: string, story: Option<string>,
                           keywords: map<string, BehaveKeyword>, values: (string, string) -> string, fault: LaunchFault)
      returns (r: Result<Option<Process>, PyError>, featureText: Option<string>)
      modifies this`stepOutputs, this`resultFile
      ensures testCaseType != "StructuredTestCase" ==>
                r == Err(SystemExit(-1)) && featureText == None &&
                stepOutputs == old(stepOutputs) && resultFile == old(resultFile)
      ensures testCaseType == "StructuredTestCase" ==>
                var st := Fold(StartState(FeatureName(story), testCaseName, old(stepOutputs)), Slots(blocks),
                               BlockKeyword, keywords, values);
                featureText == Some(st.text) && stepOutputs == st.outputs &&
                (st.failed ==> r == Err(UnboundLocalError) && resultFile == old(resultFile)) &&
                (!st.failed ==> resultFile == Some(resultDir + "/" + testCaseName + ".json") &&
                                r == StartProcess(BehaveCall(resultFile.value, featureFileName), parallel, fault, true))
    {
      if testCaseType != "StructuredTestCase" {
        return Err(SystemExit(-1)), None;
      }
      var header := FeatureHeader(FeatureName(story), testCaseName);
      var text, failed := WriteSteps(header, BlockKeyword, keywords, values);
      featureText := Some(text);
      if failed {
        return Err(UnboundLocalError), featureText;
      }
      resultFile := Some(resultDir + "/" + testCaseName + ".json");
      var call := BehaveCall(resultFile.value, featureFileName);
      r := StartProcess(call, parallel, fault, true);
    }

    /** The inner loop over the steps of one block, whose first step is at
        position `stepCount` (`|done|`). */
    method AssociateBlock(ghost done: seq<Slot>, stepCount: nat, b: StepBlock, reports: seq<(string, string)>,
                          g: seq<GherkinStep>)
      returns (reports': seq<(string, string)>, raised: bool)
      requires stepCount == |done| && Associate(done, stepOutputs, g) == Association(reports, false)
      ensures Association(reports', raised) == Associate(done + BlockSlots(b), stepOutputs, g)
    {
      ghost var all := done + BlockSlots(b);
      assert all[..|done|] == done;
      reports' := reports;
      var j := 0;
      while j < |b.steps|
        invariant 0 <= j <= |b.steps|
        invariant Associate(all[..stepCount + j], stepOutputs, g) == Association(reports', false)
      {
        ghost var upto := all[..stepCount + j + 1];
        assert |upto| == stepCount + j + 1;
        assert upto[..|upto| - 1] == all[..stepCount + j];
        assert upto[stepCount + j] == all[stepCount + j] == BlockSlots(b)[j];
        AssociateNext(upto, stepOutputs, g, reports');
        if stepCount + j >= |g| || stepCount + j !in stepOutputs {
          AssociateRaisedPrefix(upto, all, stepOutputs, g);
          return reports', true;
        }
        reports' := reports' + StepReport(b.steps[j].id, stepOutputs[stepCount + j], g[stepCount + j]);
        assert Associate(upto, stepOutputs, g) == Association(reports', false);
        j := j + 1;
      }
      assert all[..stepCount + j] == all;
      raised := false;
    }

    /** The loop of `check_result` that pairs each TestBench step with the
        Gherkin step at the same position. */
    method AssociateSteps(g: seq<GherkinStep>) returns (reports: seq<(string, string)>, raised: bool)
      ensures Association(reports, raised) == Associate(Slots(blocks), stepOutputs, g)
    {
      reports := [];
      assert blocks[..0] == [];
      var stepCount := 0;
      var i := 0;
      while i < |blocks|
        invariant 0 <= i <= |blocks|
        invariant stepCount == |Slots(blocks[..i])|
        invariant Associate(Slots(blocks[..i]), stepOutputs, g) == Association(reports, false)
      {
        ghost var done := Slots(blocks[..i]);
        assert Slots(blocks[..i + 1]) == done + BlockSlots(blocks[i]) by {
          assert blocks[..i + 1][..i] == blocks[..i];
        }
        reports, raised := AssociateBlock(done, stepCount, blocks[i], reports, g);
        if raised {
          SlotsPrefix(blocks, i + 1);
          AssociateRaisedStays(Slots(blocks[..i + 1]), Slots(blocks), stepOutputs, g);
          return;
        }
        stepCount := stepCount + |blocks[i].steps|;
        i := i + 1;
      }
      assert blocks[..i] == blocks;
      raised := false;
    }

    /** The scan of `check_result` for the last scenario named after the
        test case, and its status. */
    method FindScenario(features: seq<FeatureResult>) returns (myScenario: Option<Scenario>, v: string)
      ensures myScenario == ChosenScenario(features, testCaseName) && v == ScenarioVerdict(features, testCaseName)
    {
      myScenario := None;
      v := "open";
      var i := 0;
      while i < |features|
        invariant 0 <= i <= |features|
        invariant myScenario == ChosenScenario(features[..i], testCaseName)
        invariant v == ScenarioVerdict(features[..i], testCaseName)
      {
        assert features[..i + 1][..i] == features[..i];
        assert AllScenarios(features[..i + 1]) ==
               AllScenarios(features[..i]) + (if features[i].elements.Some? then features[i].elements.value else []);
        if features[i].elements.Some? {
          myScenario, v := ScanScenarios(AllScenarios(features[..i]), features[i].elements.value, myScenario, v);
        } else {
          assert AllScenarios(features[..i]) + [] == AllScenarios(features[..i]);
        }
        i := i + 1;
      }
      assert features[..i] == features;
    }

    /** The inner loop over the scenarios of one feature. */
    method ScanScenarios(ghost before: seq<Scenario>, scs: seq<Scenario>, myScenario: Option<Scenario>, v: string)
      returns (myScenario': Option<Scenario>, v': string)
      requires myScenario == Chosen(before, testCaseName) && v == VerdictOf(before, testCaseName)
      ensures myScenario' == Chosen(before + scs, testCaseName) && v' == VerdictOf(before + scs, testCaseName)
    {
      myScenario', v' := myScenario, v;
      assert before + scs[..0] == before;
      var j := 0;
      while j < |scs|
        invariant 0 <= j <= |scs|
        invariant myScenario' == Chosen(before + scs[..j], testCaseName)
        invariant v' == VerdictOf(before + scs[..j], testCaseName)
      {
        assert before + scs[..j + 1] == (before + scs[..j]) + [scs[j]];
        ChosenStep(before + scs[..j], scs[j], testCaseName);
        if scs[j].name == testCaseName {
          v' := scs[j].status;
          myScenario' := Some(scs[j]);
        }
        j := j + 1;
      }
      assert scs[..j] == scs;
    }

    /** `check_result`. The result file is uploaded to the execution first
        (`uploaded` is false when that upload raises, and without a result
        file there is nothing to upload); `report` is the parsed JSON report,
        None when it cannot be opened or parsed; `cleanupFault` is set when
        the configured removal of the feature file raises. Every exception
        makes the verdict "Failed"; requests sent before it stay sent. */
    method CheckResult(api: Api, returncode: int, uploaded: bool, report: Option<seq<FeatureResult>>,
                       cleanupFault: bool)
      returns (verdict: string, reports: seq<(string, string)>)
      modifies api`log
      ensures resultFile.None? || !uploaded ==> verdict == "Failed" && reports == [] && api.log == old(api.log)
      ensures resultFile.Some? && uploaded ==>
                api.log == old(api.log) + CheckEvents(productId, testCaseId, executionId,
                                                      [ResultUploaded(resultFile.value)] + StepRequests(reports))
      ensures report.None? ==> verdict == "Failed" && reports == []
      ensures resultFile.Some? && uploaded && report.Some? ==>
                var v := ScenarioVerdict(report.value, testCaseName);
                var a := if v != "open" then Associate(Slots(blocks), stepOutputs, ChosenScenario(report.value, testCaseName).value.steps)
                         else Association([], false);
                reports == a.reports &&
                verdict == (if a.raised || cleanupFault then "Failed" else BehaveVerdict(v, returncode))
    {
      if resultFile.None? || !uploaded {
        return "Failed", [];
      }
      var upload := [ResultUploaded(resultFile.value)];
      ghost var uploadEvents := CheckEvents(productId, testCaseId, executionId, upload);
      assert uploadEvents == [FileUploaded(productId, testCaseId, executionId, resultFile.value)] by {
        assert |uploadEvents| == 1 && uploadEvents[0] == CheckEvent(productId, testCaseId, executionId, upload[0]);
      }
      api.Send(FileUploaded(productId, testCaseId, executionId, resultFile.value));
      if report.None? {
        assert upload + StepRequests([]) == upload;
        return "Failed", [];
      }
      var myScenario, v := FindScenario(report.value);
      reports := [];
      verdict := "Failed";
      var raised := false;
      if v != "open" {
        reports, raised := AssociateSteps(myScenario.value.steps);
      }
      SendChecks(api, productId, testCaseId, executionId, StepRequests(reports));
      CheckEventsConcat(productId, testCaseId, executionId, upload, StepRequests(reports));
      AppendAssociative(old(api.log), uploadEvents, CheckEvents(productId, testCaseId, executionId, StepRequests(reports)));
      if raised || cleanupFault {
        return "Failed", reports;
      }
      verdict := BehaveVerdict(v, returncode);
    }
  }

  /** The requests reporting step results. */
  function StepRequests(reports: seq<(string, string)>): (qs: seq<CheckRequest>)
    ensures |qs| == |reports|
    ensures forall k | 0 <= k < |qs| :: qs[k] == StepReported(reports[k].0, reports[k].1)
  {
    if |reports| == 0 then []
    else StepRequests(reports[..|reports| - 1]) + [StepReported(reports[|reports| - 1].0, reports[|reports| - 1].1)]
  }

  lemma {:induction false} AssociateRaisedStays(a: seq<Slot>, full: seq<Slot>, outputs: map<nat, string>,
                                                g: seq<GherkinStep>)
    requires a <= full && Associate(a, outputs, g).raised
    ensures Associate(full, outputs, g) == Associate(a, outputs, g)
  {
    if |full| > |a| {
      assert a <= full[..|full| - 1];
      AssociateRaisedStays(a, full[..|full| - 1], outputs, g);
    } else {
      assert a == full;
    }
  }

  /** Once the pairing has raised, later steps change nothing. */
  lemma {:induction false} AssociateRaisedPrefix(a: seq<Slot>, full: seq<Slot>, outputs: map<nat, string>,
                                                 g: seq<GherkinStep>)
    requires a <= full && |a| > 0 && !Associate(a[..|a| - 1], outputs, g).raised
    requires |a| - 1 >= |g| || |a| - 1 !in outputs
    ensures Associate(full, outputs, g) == Association(Associate(a[..|a| - 1], outputs, g).reports, true)
  {
    if |full| > |a| {
      assert a <= full[..|full| - 1];
      AssociateRaisedPrefix(a, full[..|full| - 1], outputs, g);
    } else {
      assert a == full;
    }
  }
}
