/** The client of the TestBench CS service: the requests the agent and the
    import scripts send, kept as a ghost log, the two fields the client
    updates in place (the current test session id and the keyword cache),
    the GraphQL text builders and the request bodies whose fields are
    filled conditionally. Transport, authentication and status checks are
    not part of this model; values the server assigns (ids, fetched
    records) are parameters. */
module Tbcs {
  import opened Common

  datatype SessionStatus = Planned | Ready | InProgress | Completed

  /** The body of a `patch_session` request. */
  datatype SessionPatch =
    | SetStatus(status: SessionStatus)
    | AssignUser(userId: string, status: SessionStatus)
    | SetTimes(startTime: string, stopTime: string)

  /** One observable effect of the agent, in the order it happens. All but
      `Cleanup` are requests to the service; `Cleanup` is an adapter's
      `final_cleanup`, kept in the same log so that its order relative to
      the reports is visible. */
  datatype Event =
    | SessionPosted(productId: string, name: string, sessionId: string)
    | SessionPatched(productId: string, sessionId: string, patch: SessionPatch)
    | SessionJoined(productId: string, sessionId: string)
    | ExecutionPosted(productId: string, testCaseId: string, ddt: Option<(string, string)>, executionId: string)
    | ExecutionAdded(productId: string, sessionId: string, testCaseId: string, executionId: string)
    | ExecutionPatched(productId: string, testCaseId: string, executionId: string, result: string)
    | FileUploaded(productId: string, testCaseId: string, executionId: string, path: string)
    | DescriptionPatched(productId: string, testCaseId: string, text: string)
    | SuiteCompleted(productId: string, suiteId: string)
    | Cleanup(executionId: string)
    | KeywordCreated(productId: string, variables: seq<(string, string)>, keywordId: string)
    | KeywordUpdated(productId: string, keywordId: string, variables: seq<(string, string)>)
    | KeywordParamCreated(productId: string, keywordId: string, variables: seq<(string, string)>, paramId: string)
    | StepResultReported(productId: string, testCaseId: string, stepId: string, executionId: string, result: string)
    | DefectCreated(productId: string, name: string, description: string, defectId: string)
    | DefectAssigned(productId: string, defectId: string, parentId: string)
    | StepBlockAdded(productId: string, testCaseId: string, body: StepBlockBody, blockId: string)

  /** A test step as the test case record holds it; `ddtParameters` is
      the `(name, value)` list of the step's `keyword` entry when that entry
      is not None (a data-driven step). */
  datatype TestStep = TestStep(id: string, testStepType: string, description: string, keywordId: string,
                               ddtParameters: Option<seq<(string, string)>>)

  datatype StepBlock = StepBlock(title: string, steps: seq<TestStep>)

  /** The descriptions of a run of steps, in order. */
  function Descriptions(steps: seq<TestStep>): (r: seq<string>)
    ensures |r| == |steps| && forall i | 0 <= i < |steps| :: r[i] == steps[i].description
  {
    seq(|steps|, i requires 0 <= i < |steps| => steps[i].description)
  }

  datatype KeywordParam = KeywordParam(id: string, name: string, description: Option<string>)

  /** A keyword as `get_keyword_list` returns it. */
  datatype Keyword = Keyword(id: string, name: string, description: string, originalText: string,
                             parameters: seq<KeywordParam>)

  /** The client object. `keywordList` is `None` while the attribute still
      holds its initial `{}`; a fetched list, even an empty one, is never
      equal to `{}` again. */
  class Api {
    const userId: string
    const tenantId: string
    var testSessionId: string
    var keywordList: Option<seq<Keyword>>
    ghost var log: seq<Event>

    constructor (userId: string, tenantId: string)
      ensures this.userId == userId && this.tenantId == tenantId
      ensures testSessionId == "" && keywordList == None && log == []
    {
      this.userId := userId;
      this.tenantId := tenantId;
      testSessionId := "";
      keywordList := None;
      log := [];
    }

    /** `post_session`: the id the server assigns is stored as the current
        test session and returned. */
    method PostSession(productId: string, name: string, serverId: string) returns (sessionId: string)
      modifies this`testSessionId, this`log
      ensures sessionId == serverId && testSessionId == serverId
      ensures log == old(log) + [SessionPosted(productId, name, serverId)]
    {
      testSessionId := serverId;
      sessionId := serverId;
      log := log + [SessionPosted(productId, name, serverId)];
    }

    /** Any request that only sends data (a patch, a join, an upload, a
        report): it is appended to the log and changes nothing else. */
    method Send(e: Event)
      modifies this`log
      ensures log == old(log) + [e]
    {
      log := log + [e];
    }

    /** The cache fill in `get_or_create_kwd`: the list is fetched only
        while the attribute is still `{}`. */
    method CachedKeywords(fetched: seq<Keyword>) returns (list: seq<Keyword>)
      modifies this`keywordList
      ensures old(keywordList).None? ==> list == fetched && keywordList == Some(fetched)
      ensures old(keywordList).Some? ==> list == old(keywordList).value && keywordList == old(keywordList)
    {
      if keywordList.None? {
        keywordList := Some(fetched);
      }
      list := keywordList.value;
    }
  }

  // ---------------------------------------------------------------------
  // GraphQL text builders

  /** A variable value, by its exact Python type; `bool` is its own type,
      not `int`. */
  datatype GqlValue = GqlInt(i: int) | GqlFloat(f: real) | GqlBool(b: bool) | GqlString(s: string) | GqlOther

  function GqlTypeName(v: GqlValue): string {
    match v
    case GqlInt(_) => "Int"
    case GqlFloat(_) => "Float"
    case GqlBool(_) => "Boolean"
    case _ => "String"
  }

  function DefinitionEntry(name: string): (r: string)
    ensures |r| > 0
  {
    " " + name + " : " + "$" + name
  }

  function SignatureEntry(name: string, v: GqlValue): (r: string)
    ensures |r| > 0
  {
    "$" + name + ": " + GqlTypeName(v) + "!"
  }

  function DefinitionEntries(vars: seq<(string, GqlValue)>): (r: seq<string>)
    ensures |r| == |vars| && forall i | 0 <= i < |vars| :: r[i] == DefinitionEntry(vars[i].0)
  {
    if |vars| == 0 then [] else [DefinitionEntry(vars[0].0)] + DefinitionEntries(vars[1..])
  }

  function SignatureEntries(vars: seq<(string, GqlValue)>): (r: seq<string>)
    ensures |r| == |vars| && forall i | 0 <= i < |vars| :: r[i] == SignatureEntry(vars[i].0, vars[i].1)
  {
    if |vars| == 0 then [] else [SignatureEntry(vars[0].0, vars[0].1)] + SignatureEntries(vars[1..])
  }

  /** A join of non-empty parts is empty only when there are no parts. */
  lemma {:induction false} JoinEmpty(parts: seq<string>, sep: string)
    requires forall i | 0 <= i < |parts| :: |parts[i]| > 0
    ensures Join(parts, sep) == "" <==> |parts| == 0
  {
    if |parts| > 0 {
      assert |Join(parts, sep)| >= |parts[0]|;
    }
  }

  /** `__gql_definition`: the entries ` k : $k` in dictionary order,
      separated by `, ` and wrapped in braces. */
  method GqlDefinition(vars: seq<(string, GqlValue)>) returns (definition: string)
    ensures definition == "{" + Join(DefinitionEntries(vars), ", ") + "}"
  {
    definition := "";
    var i := 0;
    while i < |vars|
      invariant 0 <= i <= |vars|
      invariant definition == Join(DefinitionEntries(vars[..i]), ", ")
    {
      var entry := " " + vars[i].0 + " : " + "$" + vars[i].0;
      DefinitionStep(vars, i, definition);
      if definition != "" {
        definition := definition + ", ";
      }
      definition := definition + entry;
      i := i + 1;
    }
    assert vars[..i] == vars;
    definition := "{" + definition + "}";
  }

  lemma {:induction false} DefinitionEntriesSnoc(vars: seq<(string, GqlValue)>, v: (string, GqlValue))
    ensures DefinitionEntries(vars + [v]) == DefinitionEntries(vars) + [DefinitionEntry(v.0)]
  {
    if |vars| > 0 {
      assert (vars + [v])[1..] == vars[1..] + [v];
      DefinitionEntriesSnoc(vars[1..], v);
    }
  }

  /** One iteration of the definition loop extends the join by one entry. */
  lemma {:induction false} DefinitionStep(vars: seq<(string, GqlValue)>, i: nat, acc: string)
    requires i < |vars| && acc == Join(DefinitionEntries(vars[..i]), ", ")
    ensures (if acc != "" then acc + ", " else acc) + DefinitionEntry(vars[i].0) == Join(DefinitionEntries(vars[..i + 1]), ", ")
  {
    var parts := DefinitionEntries(vars[..i]);
    var x := DefinitionEntry(vars[i].0);
    assert vars[..i + 1] == vars[..i] + [vars[i]];
    DefinitionEntriesSnoc(vars[..i], vars[i]);
    JoinEmpty(parts, ", ");
    if acc != "" {
      JoinSnoc(parts, x, ", ");
    } else {
      assert parts == [];
      assert parts + [x] == [x];
    }
  }

  /** `__gql_signature`: "" for no variables, otherwise the entries
      `$k: T!` in dictionary order, separated by `, ` and parenthesised. */
  method GqlSignature(vars: seq<(string, GqlValue)>) returns (signature: string)
    ensures |vars| == 0 ==> signature == ""
    ensures |vars| > 0 ==> signature == "(" + Join(SignatureEntries(vars), ", ") + ")"
  {
    signature := "";
    if |vars| > 0 {
      var i := 0;
      while i < |vars|
        invariant 0 <= i <= |vars|
        invariant signature == Join(SignatureEntries(vars[..i]), ", ")
      {
        var entry := "$" + vars[i].0 + ": " + GqlTypeName(vars[i].1) + "!";
        SignatureStep(vars, i, signature);
        if signature != "" {
          signature := signature + ", ";
        }
        signature := signature + entry;
        i := i + 1;
      }
      assert vars[..i] == vars;
      signature := "(" + signature + ")";
    }
  }

  lemma {:induction false} SignatureEntriesSnoc(vars: seq<(string, GqlValue)>, v: (string, GqlValue))
    ensures SignatureEntries(vars + [v]) == SignatureEntries(vars) + [SignatureEntry(v.0, v.1)]
  {
    if |vars| > 0 {
      assert (vars + [v])[1..] == vars[1..] + [v];
      SignatureEntriesSnoc(vars[1..], v);
    }
  }

  /** One iteration of the signature loop extends the join by one entry. */
  lemma {:induction false} SignatureStep(vars: seq<(string, GqlValue)>, i: nat, acc: string)
    requires i < |vars| && acc == Join(SignatureEntries(vars[..i]), ", ")
    ensures (if acc != "" then acc + ", " else acc) + SignatureEntry(vars[i].0, vars[i].1)
            == Join(SignatureEntries(vars[..i + 1]), ", ")
  {
    var parts := SignatureEntries(vars[..i]);
    var x := SignatureEntry(vars[i].0, vars[i].1);
    assert vars[..i + 1] == vars[..i] + [vars[i]];
    SignatureEntriesSnoc(vars[..i], vars[i]);
    JoinEmpty(parts, ", ");
    if acc != "" {
      JoinSnoc(parts, x, ", ");
    } else {
      assert parts == [];
      assert parts + [x] == [x];
    }
  }

  // ---------------------------------------------------------------------
  // DDT rows

  datatype DdtColumn = DdtColumn(id: string, name: string)
  datatype DdtEntry = DdtEntry(columnId: string, value: string)
  datatype DdtRowData = DdtRowData(id: string, data: seq<DdtEntry>)
  datatype DdtTable = DdtTable(rowData: seq<DdtRowData>, columnsMetaData: seq<DdtColumn>)

  /** One `{'column': …, 'value': …}` pair of a resolved row. */
  datatype DdtCell = DdtCell(column: string, value: string)

  /** `next(row['data'] for row in rows if row['id'] == rowId)`. */
  function FindRow(rows: seq<DdtRowData>, rowId: string): (r: Option<seq<DdtEntry>>)
    ensures r.None? <==> forall i | 0 <= i < |rows| :: rows[i].id != rowId
    ensures r.Some? ==> exists i | 0 <= i < |rows| :: rows[i].id == rowId && r.value == rows[i].data &&
                          forall j | 0 <= j < i :: rows[j].id != rowId
  {
    if |rows| == 0 then None
    else if rows[0].id == rowId then Some(rows[0].data)
    else
      var r := FindRow(rows[1..], rowId);
      assert r.Some? ==> exists i | 0 <= i < |rows| - 1 :: rows[1..][i].id == rowId && r.value == rows[1..][i].data &&
                          forall j | 0 <= j < i :: rows[1..][j].id != rowId;
      r
  }

  /** The name of the first column with the given id. */
  function ColumnName(cols: seq<DdtColumn>, columnId: string): (r: Option<string>)
    ensures r.None? <==> forall i | 0 <= i < |cols| :: cols[i].id != columnId
    ensures r.Some? ==> exists i | 0 <= i < |cols| :: cols[i].id == columnId && r.value == cols[i].name &&
                          forall j | 0 <= j < i :: cols[j].id != columnId
  {
    if |cols| == 0 then None
    else if cols[0].id == columnId then Some(cols[0].name)
    else
      var r := ColumnName(cols[1..], columnId);
      assert r.Some? ==> exists i | 0 <= i < |cols| - 1 :: cols[1..][i].id == columnId && r.value == cols[1..][i].name &&
                          forall j | 0 <= j < i :: cols[1..][j].id != columnId;
      r
  }

  /** The list comprehension over the row's entries; the first entry whose
      column is unknown raises StopIteration. */
  function ResolveCells(entries: seq<DdtEntry>, cols: seq<DdtColumn>): (r: Result<seq<DdtCell>, PyError>)
    ensures r.Ok? <==> forall i | 0 <= i < |entries| :: ColumnName(cols, entries[i].columnId).Some?
    ensures r.Err? ==> r.error == StopIteration
    ensures r.Ok? ==> |r.value| == |entries| &&
                      forall i | 0 <= i < |entries| ::
                        r.value[i] == DdtCell(ColumnName(cols, entries[i].columnId).value, entries[i].value)
  {
    if |entries| == 0 then Ok([])
    else match ColumnName(cols, entries[0].columnId)
      case None => Err(StopIteration)
      case Some(name) =>
        match ResolveCells(entries[1..], cols)
        case Err(e) => Err(e)
        case Ok(rest) => Ok([DdtCell(name, entries[0].value)] + rest)
  }

  /** `get_ddt_row`: the cells of the first row with the given id, in
      entry order, each named after the first column with its id. */
  function GetDdtRow(table: DdtTable, rowId: string): (r: Result<seq<DdtCell>, PyError>)
    ensures r.Err? ==> r.error == StopIteration
    ensures FindRow(table.rowData, rowId).None? ==> r.Err?
    ensures FindRow(table.rowData, rowId).Some? ==>
              r == ResolveCells(FindRow(table.rowData, rowId).value, table.columnsMetaData)
  {
    match FindRow(table.rowData, rowId)
    case None => Err(StopIteration)
    case Some(entries) => ResolveCells(entries, table.columnsMetaData)
  }

  // ---------------------------------------------------------------------
  // Request bodies with optional fields

  datatype TestStepBody = TestStepBody(testStepType: string, testStepBlockId: string, description: string,
                                       keywordId: string, position: Option<int>)

  /** `add_test_step`: a position follows the previous step unless the
      previous step id is the -1 marker. */
  function AddTestStepBody(stepType: string, blockId: string, description: string, keywordId: string,
                           previousStepId: int): (body: TestStepBody)
    ensures body.position.None? <==> previousStepId == -1
    ensures body.position.Some? ==> body.position.value == previousStepId + 1
    ensures body.testStepType == stepType && body.testStepBlockId == blockId
    ensures body.description == description && body.keywordId == keywordId
  {
    TestStepBody(stepType, blockId, description, keywordId,
                 if previousStepId != -1 then Some(previousStepId + 1) else None)
  }

  datatype StepBlockBody = StepBlockBody(title: string, position: Option<int>)

  /** `add_test_step_block`: only a non-negative position is sent. */
  function AddTestStepBlockBody(title: string, position: int): (body: StepBlockBody)
    ensures body.title == title
    ensures body.position.Some? <==> position >= 0
    ensures body.position.Some? ==> body.position.value == position
  {
    StepBlockBody(title, if position >= 0 then Some(position) else None)
  }

  datatype CustomFieldBlockBody = CustomFieldBlockBody(name: Option<string>, productIds: Option<seq<int>>,
                                                       customFieldIds: Option<seq<int>>)

  /** `patch_custom_field_block`: only the non-empty arguments are sent. */
  function PatchCustomFieldBlockBody(name: string, productList: seq<int>, cfIdList: seq<int>): (body: CustomFieldBlockBody)
    ensures body.name.Some? <==> name != ""
    ensures body.productIds.Some? <==> |productList| > 0
    ensures body.customFieldIds.Some? <==> |cfIdList| > 0
    ensures body.name.Some? ==> body.name.value == name
    ensures body.productIds.Some? ==> body.productIds.value == productList
    ensures body.customFieldIds.Some? ==> body.customFieldIds.value == cfIdList
  {
    CustomFieldBlockBody(if name != "" then Some(name) else None,
                         if |productList| > 0 then Some(productList) else None,
                         if |cfIdList| > 0 then Some(cfIdList) else None)
  }

  datatype CustomFieldBody = CustomFieldBody(name: string, caption: string, fieldType: string, defaultValue: string)

  /** `add_custom_field`: an empty label is replaced by the name. */
  function AddCustomFieldBody(name: string, caption: string, fieldType: string, default: string): (body: CustomFieldBody)
    ensures body.name == name && body.fieldType == fieldType && body.defaultValue == default
    ensures caption == "" ==> body.caption == name
    ensures caption != "" ==> body.caption == caption
  {
    CustomFieldBody(name, if caption == "" then name else caption, fieldType, default)
  }

  predicate IsDigit(c: char) {
    '0' <= c <= '9'
  }

  function DigitsValue(s: string): (n: nat)
    requires forall i | 0 <= i < |s| :: IsDigit(s[i])
  {
    if |s| == 0 then 0
    else
      assert IsDigit(s[|s| - 1]);
      DigitsValue(s[..|s| - 1]) * 10 + (s[|s| - 1] as int - '0' as int)
  }

  /** Python's `int(s)` for an optionally signed run of decimal digits;
      anything else raises ValueError. */
  function ParseInt(s: string): (r: Result<int, PyError>)
    ensures r.Err? ==> r.error == ValueError
    ensures r.Ok? <==> |s| > 0 && (IsDigit(s[0]) || ((s[0] == '-' || s[0] == '+') && |s| > 1)) &&
                       forall k | 0 < k < |s| :: IsDigit(s[k])
    ensures r.Ok? && s[0] == '-' ==> r.value <= 0
    ensures r.Ok? && s[0] != '-' ==> r.value >= 0
  {
    var digits := if |s| > 0 && (s[0] == '-' || s[0] == '+') then s[1..] else s;
    if |digits| == 0 || exists i | 0 <= i < |digits| :: !IsDigit(digits[i]) then Err(ValueError)
    else if s[0] == '-' then Ok(0 - DigitsValue(digits) as int)
    else Ok(DigitsValue(digits))
  }

  /** The decimal text of a natural number is a run of digits worth it. */
  lemma {:induction false} NatTextDigits(n: nat)
    ensures |IntToString(n)| > 0
    ensures forall i | 0 <= i < |IntToString(n)| :: IsDigit(IntToString(n)[i])
    ensures DigitsValue(IntToString(n)) == n
    decreases n
  {
    var t := IntToString(n);
    if n >= 10 {
      var front, last := IntToString(n / 10), IntToString(n % 10);
      NatTextDigits(n / 10);
      NatTextDigits(n % 10);
      assert t == front + last;
      assert |last| == 1;
      assert t[..|t| - 1] == front;
    }
  }

  /** `int()` reads back every integer's decimal text. */
  lemma {:induction false} ParseIntRoundTrip(n: int)
    ensures ParseInt(IntToString(n)) == Ok(n)
  {
    var t := IntToString(n);
    if n < 0 {
      NatTextDigits(-n);
      assert t == "-" + IntToString(-n);
      assert t[1..] == IntToString(-n);
    } else {
      NatTextDigits(n);
    }
  }

  /** The optional part of `add_keyword_usage`'s parameters: the epic and
      the user story are named only when their ids parse to a positive
      number; an id that does not parse raises ValueError. */
  function KeywordUsageOptionalIds(epicId: string, userStoryId: string): (r: Result<string, PyError>)
    ensures r.Ok? <==> ParseInt(epicId).Ok? && ParseInt(userStoryId).Ok?
    ensures r.Ok? ==> (StartsWith(r.value, "\n epicId: ") <==> ParseInt(epicId).value > 0)
    ensures r.Ok? && ParseInt(epicId).value <= 0 && ParseInt(userStoryId).value <= 0 ==> r.value == ""
    ensures r.Ok? && ParseInt(epicId).value <= 0 && ParseInt(userStoryId).value > 0 ==>
              r.value == "\n userStoryId: " + userStoryId + ", "
    ensures r.Ok? && ParseInt(epicId).value > 0 ==>
              r.value == "\n epicId: " + epicId + ", " +
                         (if ParseInt(userStoryId).value > 0 then "\n userStoryId: " + userStoryId + ", " else "")
    ensures r.Ok? ==> (EndsWith(r.value, "\n userStoryId: " + userStoryId + ", ") <==> ParseInt(userStoryId).value > 0)
  {
    match ParseInt(epicId)
    case Err(e) => Err(e)
    case Ok(epic) =>
      var first := if epic > 0 then "\n epicId: " + epicId + ", " else "";
      match ParseInt(userStoryId)
      case Err(e) => Err(e)
      case Ok(story) =>
        var result := if story > 0 then first + "\n userStoryId: " + userStoryId + ", " else first;
        assert epic <= 0 && story > 0 ==> !StartsWith(result, "\n epicId: ") by {
          if epic <= 0 && story > 0 {
            assert result[..10] == "\n userStor";
          }
        }
        assert story <= 0 ==> !EndsWith(result, "\n userStoryId: " + userStoryId + ", ") by {
          if story <= 0 && epic > 0 {
            EpicPartNotStoryPart(epicId, userStoryId);
          }
        }
        Ok(result)
  }

  /** The epic part alone never ends like a user-story part: its only line
      break is its first character, and it goes on with "epicId". */
  lemma {:induction false} EpicPartNotStoryPart(epicId: string, userStoryId: string)
    requires ParseInt(epicId).Ok?
    ensures !EndsWith("\n epicId: " + epicId + ", ", "\n userStoryId: " + userStoryId + ", ")
  {
    var part := "\n epicId: " + epicId + ", ";
    var suffix := "\n userStoryId: " + userStoryId + ", ";
    if |suffix| <= |part| {
      var k := |part| - |suffix|;
      if k == 0 {
        assert part[2] == 'e' && suffix[2] == 'u';
        assert part[k..][2] != suffix[2];
      } else {
        if k < 10 {
          assert part[k] == "\n epicId: "[k];
        } else {
          assert part[k] == epicId[k - 10];
        }
        assert part[k..][0] != suffix[0];
      }
    }
  }
}
