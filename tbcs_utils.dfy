/** Lookup and filter helpers over records fetched from the service, test
    session creation, keyword reuse with signature matching, and the
    normalisation of the configured server address. */
module TbcsUtils {
  import opened Common
  import opened Tbcs
  import opened ComparisonUtils

  // ---------------------------------------------------------------------
  // Filtering fetched records

  /** The `str()` ids under `idKey` of the items the filter matches, in
      input order. The first matching item without that key raises
      KeyError. Stated over prefixes, the way the loop builds it. */
  function SelectIds(items: seq<Item>, filter: Filter, search: (string, string) -> bool, idKey: string)
    : (r: Result<seq<string>, PyError>)
    ensures r.Err? ==> r.error == KeyError(idKey)
    ensures r.Err? <==> exists i | 0 <= i < |items| :: MatchesAll(items[i], filter, search) && idKey !in items[i]
    ensures r.Ok? ==> |r.value| <= |items|
    ensures r.Ok? ==> forall id :: id in r.value <==>
              exists i | 0 <= i < |items| :: MatchesAll(items[i], filter, search) && idKey in items[i] && items[i][idKey] == id
  {
    if |items| == 0 then Ok([])
    else
      var init := items[..|items| - 1];
      var last := items[|items| - 1];
      assert forall i | 0 <= i < |init| :: init[i] == items[i];
      match SelectIds(init, filter, search, idKey)
      case Err(e) => Err(e)
      case Ok(ids) =>
        if !MatchesAll(last, filter, search) then Ok(ids)
        else if idKey !in last then Err(KeyError(idKey))
        else Ok(ids + [last[idKey]])
  }

  /** One item contributes nothing when the filter rejects it, raises when
      it matches without the id key, and otherwise contributes its id
      once. */
  lemma {:induction false} SelectIdsSingle(x: Item, filter: Filter, search: (string, string) -> bool, idKey: string)
    ensures !MatchesAll(x, filter, search) ==> SelectIds([x], filter, search, idKey) == Ok([])
    ensures MatchesAll(x, filter, search) && idKey !in x ==> SelectIds([x], filter, search, idKey) == Err(KeyError(idKey))
    ensures MatchesAll(x, filter, search) && idKey in x ==> SelectIds([x], filter, search, idKey) == Ok([x[idKey]])
  {
    assert [x][..0] == [];
    assert SelectIds([], filter, search, idKey) == Ok([]);
    if idKey in x {
      assert [] + [x[idKey]] == [x[idKey]];
    }
  }

  /** The ids of a concatenation are the ids of the first part followed by
      those of the second, so the ids keep the input order and each
      matching item gives exactly one of them; the whole raises iff a part
      does. */
  lemma {:induction false} SelectIdsConcat(a: seq<Item>, b: seq<Item>, filter: Filter,
                                            search: (string, string) -> bool, idKey: string)
    ensures SelectIds(a + b, filter, search, idKey).Ok? <==>
            SelectIds(a, filter, search, idKey).Ok? && SelectIds(b, filter, search, idKey).Ok?
    ensures SelectIds(a + b, filter, search, idKey).Ok? ==>
            SelectIds(a + b, filter, search, idKey).value ==
            SelectIds(a, filter, search, idKey).value + SelectIds(b, filter, search, idKey).value
    decreases |b|
  {
    if |b| == 0 {
      assert a + b == a;
    } else {
      var init := b[..|b| - 1];
      var last := b[|b| - 1];
      assert (a + b)[..|a + b| - 1] == a + init;
      assert (a + b)[|a + b| - 1] == last;
      SelectIdsConcat(a, init, filter, search, idKey);
      var whole := SelectIds(a + init, filter, search, idKey);
      var left := SelectIds(a, filter, search, idKey);
      var right := SelectIds(init, filter, search, idKey);
      if whole.Ok? && MatchesAll(last, filter, search) && idKey in last {
        assert whole.value + [last[idKey]] == left.value + (right.value + [last[idKey]]);
      }
    }
  }

  /** The loop shared by `get_products`, `get_test_suites` and
      `get_test_sessions`. */
  method MatchingIds(items: seq<Item>, filter: Filter, search: (string, string) -> bool, idKey: string)
    returns (r: Result<seq<string>, PyError>)
    ensures r == SelectIds(items, filter, search, idKey)
  {
    var ids: seq<string> := [];
    var i := 0;
    while i < |items|
      invariant 0 <= i <= |items|
      invariant SelectIds(items[..i], filter, search, idKey) == Ok(ids)
    {
      assert items[..i + 1][..i] == items[..i];
      var matching, _ := IsMatching(items[i], filter, search);
      if matching {
        if idKey !in items[i] {
          SelectIdsErrExtends(items, i + 1, filter, search, idKey);
          return Err(KeyError(idKey));
        }
        ids := ids + [items[i][idKey]];
      }
      i := i + 1;
    }
    assert items[..i] == items;
    r := Ok(ids);
  }

  /** Once a prefix raises, the whole list raises. */
  lemma {:induction false} SelectIdsErrExtends(items: seq<Item>, k: nat, filter: Filter, search: (string, string) -> bool, idKey: string)
    requires k <= |items| && SelectIds(items[..k], filter, search, idKey).Err?
    ensures SelectIds(items, filter, search, idKey).Err?
  {
    var i :| 0 <= i < k && MatchesAll(items[..k][i], filter, search) && idKey !in items[..k][i];
    assert items[..k][i] == items[i];
  }

  /** `get_products`: the ids of the matching products. */
  method GetProducts(products: seq<Item>, filter: Filter, search: (string, string) -> bool)
    returns (r: Result<seq<string>, PyError>)
    ensures r == SelectIds(products, filter, search, "id")
  {
    r := MatchingIds(products, filter, search, "id");
  }

  /** `get_test_suites`: the ids of the matching test suites. */
  method GetTestSuites(suites: seq<Item>, filter: Filter, search: (string, string) -> bool)
    returns (r: Result<seq<string>, PyError>)
    ensures r == SelectIds(suites, filter, search, "testSuiteId")
  {
    r := MatchingIds(suites, filter, search, "testSuiteId");
  }

  /** `get_test_sessions`: the ids of the matching test sessions. */
  method GetTestSessions(sessions: seq<Item>, filter: Filter, search: (string, string) -> bool)
    returns (r: Result<seq<string>, PyError>)
    ensures r == SelectIds(sessions, filter, search, "testSessionId")
  {
    r := MatchingIds(sessions, filter, search, "testSessionId");
  }

  // ---------------------------------------------------------------------
  // Test session creation

  /** The name `create_test_session` posts: the configured prefix and a
      dash when the prefix is not empty, then the suite name, a dash and
      the timestamp. */
  function SessionName(prefix: string, sessionName: string, timestamp: string): string {
    (if prefix != "" then prefix + "-" else "") + sessionName + "-" + timestamp
  }

  lemma {:induction false} SessionNameShape(prefix: string, sessionName: string, timestamp: string)
    ensures EndsWith(SessionName(prefix, sessionName, timestamp), "-" + timestamp)
    ensures prefix != "" ==> StartsWith(SessionName(prefix, sessionName, timestamp), prefix + "-" + sessionName)
    ensures prefix == "" ==> StartsWith(SessionName(prefix, sessionName, timestamp), sessionName)
    ensures |SessionName(prefix, sessionName, timestamp)| ==
            |sessionName| + 1 + |timestamp| + (if prefix != "" then |prefix| + 1 else 0)
  {
    var name := SessionName(prefix, sessionName, timestamp);
    var head := (if prefix != "" then prefix + "-" else "") + sessionName;
    assert name == head + ("-" + timestamp);
    assert name[|name| - |"-" + timestamp|..] == "-" + timestamp;
    assert name[..|head|] == head;
  }

  /** `create_test_session`: the session is posted under its generated name,
      becomes the client's current session, and is then patched to Planned
      with the user as responsible and participant. The timestamp is the
      clock reading, given as a parameter; the id is the one the server
      assigns. */
  method CreateTestSession(api: Api, productId: string, sessionName: string, prefix: string, timestamp: string,
                           serverId: string)
    returns (sessionId: string)
    modifies api`testSessionId, api`log
    ensures sessionId == serverId && api.testSessionId == serverId
    ensures api.log == old(api.log) + [SessionPosted(productId, SessionName(prefix, sessionName, timestamp), serverId),
                                       SessionPatched(productId, serverId, AssignUser(api.userId, Planned))]
  {
    var pre := "";
    if prefix != "" {
      pre := prefix + "-";
    }
    sessionId := api.PostSession(productId, pre + sessionName + "-" + timestamp, serverId);
    api.Send(SessionPatched(productId, sessionId, AssignUser(api.userId, Planned)));
  }

  // ---------------------------------------------------------------------
  // Custom fields

  datatype CustomFieldDef = CustomFieldDef(id: string, name: string)
  datatype CustomFieldEntry = CustomFieldEntry(customFieldId: string, value: string)

  /** The id of the first definition with the given name. */
  function FirstDefinitionId(defs: seq<CustomFieldDef>, name: string): (r: Option<string>)
    ensures r.None? <==> forall i | 0 <= i < |defs| :: defs[i].name != name
    ensures r.Some? ==> exists i | 0 <= i < |defs| :: defs[i].name == name && defs[i].id == r.value &&
                          forall j | 0 <= j < i :: defs[j].name != name
  {
    if |defs| == 0 then None
    else if defs[0].name == name then Some(defs[0].id)
    else
      var r := FirstDefinitionId(defs[1..], name);
      assert r.Some? ==> exists i | 0 <= i < |defs| - 1 :: defs[1..][i].name == name && defs[1..][i].id == r.value &&
                          forall j | 0 <= j < i :: defs[1..][j].name != name;
      r
  }

  /** The value of the first entry for the given field id. */
  function FirstEntryValue(entries: seq<CustomFieldEntry>, id: string): (r: Option<string>)
    ensures r.None? <==> forall i | 0 <= i < |entries| :: entries[i].customFieldId != id
    ensures r.Some? ==> exists i | 0 <= i < |entries| :: entries[i].customFieldId == id && entries[i].value == r.value &&
                          forall j | 0 <= j < i :: entries[j].customFieldId != id
  {
    if |entries| == 0 then None
    else if entries[0].customFieldId == id then Some(entries[0].value)
    else
      var r := FirstEntryValue(entries[1..], id);
      assert r.Some? ==> exists i | 0 <= i < |entries| - 1 :: entries[1..][i].customFieldId == id &&
                          entries[1..][i].value == r.value && forall j | 0 <= j < i :: entries[1..][j].customFieldId != id;
      r
  }

  /** What `get_custom_field` returns: "" when no definition has the name or
      the test case has no entry for its id; otherwise the first entry's
      value for the first definition's id. */
  function CustomFieldValue(defs: seq<CustomFieldDef>, entries: seq<CustomFieldEntry>, name: string): string {
    match FirstDefinitionId(defs, name)
    case None => ""
    case Some(id) =>
      match FirstEntryValue(entries, id)
      case None => ""
      case Some(v) => v
  }

  /** `get_custom_field`: two searches with a `found` flag and a break. */
  method GetCustomField(defs: seq<CustomFieldDef>, entries: seq<CustomFieldEntry>, name: string)
    returns (value: string)
    ensures value == CustomFieldValue(defs, entries, name)
    ensures (forall i | 0 <= i < |defs| :: defs[i].name != name) ==> value == ""
  {
    var found := false;
    var fieldId := "";
    var i := 0;
    while i < |defs|
      invariant 0 <= i <= |defs|
      invariant !found && forall j | 0 <= j < i :: defs[j].name != name
    {
      if defs[i].name == name {
        fieldId := defs[i].id;
        found := true;
        break;
      }
      i := i + 1;
    }
    if !found {
      return "";
    }
    assert i < |defs| && defs[i].name == name && fieldId == defs[i].id;
    assert FirstDefinitionId(defs, name) == Some(fieldId) by {
      FirstDefinitionIdAt(defs, name, i);
    }
    found := false;
    value := "";
    var k := 0;
    while k < |entries|
      invariant 0 <= k <= |entries|
      invariant forall j | 0 <= j < k :: entries[j].customFieldId != fieldId
    {
      if entries[k].customFieldId == fieldId {
        value := entries[k].value;
        found := true;
        FirstEntryValueAt(entries, fieldId, k);
        return value;
      }
      k := k + 1;
    }
    value := "";
  }

  lemma {:induction false} FirstDefinitionIdAt(defs: seq<CustomFieldDef>, name: string, i: nat)
    requires i < |defs| && defs[i].name == name && forall j | 0 <= j < i :: defs[j].name != name
    ensures FirstDefinitionId(defs, name) == Some(defs[i].id)
  {
    var r := FirstDefinitionId(defs, name);
    var w :| 0 <= w < |defs| && defs[w].name == name && defs[w].id == r.value &&
             forall j | 0 <= j < w :: defs[j].name != name;
    assert w == i;
  }

  lemma {:induction false} FirstEntryValueAt(entries: seq<CustomFieldEntry>, id: string, k: nat)
    requires k < |entries| && entries[k].customFieldId == id && forall j | 0 <= j < k :: entries[j].customFieldId != id
    ensures FirstEntryValue(entries, id) == Some(entries[k].value)
  {
    var r := FirstEntryValue(entries, id);
    var w :| 0 <= w < |entries| && entries[w].customFieldId == id && entries[w].value == r.value &&
             forall j | 0 <= j < w :: entries[j].customFieldId != id;
    assert w == k;
  }

  // ---------------------------------------------------------------------
  // Keyword reuse

  /** `par_in_List`, over the parameter names of the list. */
  method ParInList(parName: string, names: seq<string>) returns (result: bool)
    ensures result <==> parName in names
  {
    result := false;
    var i := 0;
    while i < |names|
      invariant 0 <= i <= |names|
      invariant parName !in names[..i]
    {
      if names[i] == parName {
        result := true;
        break;
      }
      i := i + 1;
    }
    assert !result ==> names[..i] == names;
  }

  datatype NewParam = NewParam(name: string, description: Option<string>)

  /** The keyword an import script asks for; `description` is None when the
      source dictionary holds Python's `None`. */
  datatype NewKeyword = NewKeyword(name: string, description: Option<string>, parlist: seq<NewParam>)

  datatype KwdAction = Created | Reused | Updated

  /** The dictionary `get_or_create_kwd` returns. */
  datatype KwdResult = KwdFound(id: string, parList: seq<KeywordParam>, action: KwdAction) | SignatureMismatch

  function NewParamNames(ps: seq<NewParam>): (r: seq<string>)
    ensures |r| == |ps| && forall i | 0 <= i < |ps| :: r[i] == ps[i].name
  {
    if |ps| == 0 then [] else [ps[0].name] + NewParamNames(ps[1..])
  }

  function ParamNames(ps: seq<KeywordParam>): (r: seq<string>)
    ensures |r| == |ps| && forall i | 0 <= i < |ps| :: r[i] == ps[i].name
  {
    if |ps| == 0 then [] else [ps[0].name] + ParamNames(ps[1..])
  }

  /** The three tests: equal names ignoring case, the original text equal
      to the name ignoring separators, or the stored name with placeholders
      matching the name (`parameterized` stands for
      `is_equal_parameterized`). */
  predicate KeywordMatches(k: Keyword, name: string, parameterized: (string, string) -> bool) {
    Upper(k.name) == Upper(name) || IsEqualIgnoreSeparators(k.originalText, name) || parameterized(k.name, name)
  }

  function FirstMatchFrom(list: seq<Keyword>, name: string, parameterized: (string, string) -> bool, from: nat)
    : (r: Option<nat>)
    decreases |list| - from
    ensures r.Some? ==> from <= r.value < |list| && KeywordMatches(list[r.value], name, parameterized)
    ensures r.Some? ==> forall j {:trigger KeywordMatches(list[j], name, parameterized)} | from <= j < r.value :: !KeywordMatches(list[j], name, parameterized)
    ensures r.None? ==> forall j {:trigger KeywordMatches(list[j], name, parameterized)} | from <= j < |list| :: !KeywordMatches(list[j], name, parameterized)
  {
    if from >= |list| then None
    else if KeywordMatches(list[from], name, parameterized) then Some(from)
    else FirstMatchFrom(list, name, parameterized, from + 1)
  }

  lemma {:induction false} FirstMatchFromSkip(list: seq<Keyword>, name: string, parameterized: (string, string) -> bool, from: nat)
    requires from < |list| && !KeywordMatches(list[from], name, parameterized)
    ensures FirstMatchFrom(list, name, parameterized, from) == FirstMatchFrom(list, name, parameterized, from + 1)
  {
  }

  /** The first cached keyword that passes any of the three tests. */
  function FirstMatch(list: seq<Keyword>, name: string, parameterized: (string, string) -> bool): Option<nat> {
    FirstMatchFrom(list, name, parameterized, 0)
  }

  /** How many names of `names` are missing from `other`. */
  function Missing(names: seq<string>, other: seq<string>): (n: nat)
    ensures n <= |names|
  {
    if |names| == 0 then 0 else (if names[0] in other then 0 else 1) + Missing(names[1..], other)
  }

  lemma {:induction false} MissingZero(names: seq<string>, other: seq<string>)
    ensures Missing(names, other) == 0 <==> forall n | n in names :: n in other
  {
    if |names| > 0 {
      MissingZero(names[1..], other);
      assert forall n | n in names :: n == names[0] || n in names[1..];
    }
  }

  /** The mismatch count of steps 1 and 2: new parameters missing from the
      stored keyword plus stored parameters missing from the new one. */
  function MismatchCount(newPars: seq<NewParam>, oldPars: seq<KeywordParam>): nat {
    Missing(NewParamNames(newPars), ParamNames(oldPars)) + Missing(ParamNames(oldPars), NewParamNames(newPars))
  }

  /** The signatures agree exactly when both sides name the same set of
      parameters. */
  lemma {:induction false} MismatchZeroIff(newPars: seq<NewParam>, oldPars: seq<KeywordParam>)
    ensures MismatchCount(newPars, oldPars) == 0 <==>
            (forall n | n in NewParamNames(newPars) :: n in ParamNames(oldPars)) &&
            (forall n | n in ParamNames(oldPars) :: n in NewParamNames(newPars))
  {
    var a, b := NewParamNames(newPars), ParamNames(oldPars);
    MissingZero(a, b);
    MissingZero(b, a);
    assert MismatchCount(newPars, oldPars) == Missing(a, b) + Missing(b, a);
  }

  function DescriptionText(k: NewKeyword): string {
    if k.description.Some? then k.description.value else ""
  }

  /** The variables sent when a keyword is created. */
  function CreateVariables(k: NewKeyword): seq<(string, string)> {
    (if DescriptionText(k) != "" then [("description", DescriptionText(k))] else []) +
    [("originalText", k.name), ("name", k.name)]
  }

  /** The variables sent when a stored keyword is updated. */
  function UpdateVariables(k: NewKeyword): seq<(string, string)> {
    (if DescriptionText(k) != "" then [("description", DescriptionText(k))] else []) + [("name", k.name)]
  }

  function ParamVariables(p: NewParam): seq<(string, string)> {
    [("paramName", p.name)] + (if p.description.Some? then [("paramDescription", p.description.value)] else [])
  }

  /** With an update level above 0, a stored keyword whose description or
      name differs is updated. */
  predicate NeedsUpdate(k: NewKeyword, stored: Keyword, updateLevel: int) {
    updateLevel > 0 && (DescriptionText(k) != stored.description || k.name != stored.name)
  }

  /** The parameters of a newly created keyword that go into `par_list`:
      only those that had a description, with the ids the server assigned. */
  function CreatedParams(parlist: seq<NewParam>, ids: seq<string>): (r: seq<KeywordParam>)
    requires |ids| == |parlist|
    ensures |r| <= |parlist|
    ensures forall i | 0 <= i < |r| :: r[i].description.Some?
  {
    if |parlist| == 0 then []
    else
      (if parlist[0].description.Some? then [KeywordParam(ids[0], parlist[0].name, parlist[0].description)] else []) +
      CreatedParams(parlist[1..], ids[1..])
  }

  /** The described parameters, in order. */
  function DescribedNames(parlist: seq<NewParam>): seq<string> {
    if |parlist| == 0 then []
    else (if parlist[0].description.Some? then [parlist[0].name] else []) + DescribedNames(parlist[1..])
  }

  lemma {:induction false} CreatedParamsAreDescribed(parlist: seq<NewParam>, ids: seq<string>)
    requires |ids| == |parlist|
    ensures ParamNames(CreatedParams(parlist, ids)) == DescribedNames(parlist)
  {
    if |parlist| > 0 {
      CreatedParamsAreDescribed(parlist[1..], ids[1..]);
      var head := if parlist[0].description.Some? then [KeywordParam(ids[0], parlist[0].name, parlist[0].description)] else [];
      ParamNamesConcat(head, CreatedParams(parlist[1..], ids[1..]));
    }
  }

  lemma {:induction false} ParamNamesConcat(a: seq<KeywordParam>, b: seq<KeywordParam>)
    ensures ParamNames(a + b) == ParamNames(a) + ParamNames(b)
  {
    if |a| > 0 {
      assert (a + b)[1..] == a[1..] + b;
      ParamNamesConcat(a[1..], b);
    } else {
      assert a + b == b;
    }
  }

  /** The decision `get_or_create_kwd` takes for the cached list `list`
      (update levels 0 and 1). */
  function KeywordDecision(list: seq<Keyword>, k: NewKeyword, signatureCheck: bool, updateLevel: int,
                           parameterized: (string, string) -> bool, newKeywordId: string, newParamIds: seq<string>)
    : KwdResult
    requires |newParamIds| == |k.parlist|
  {
    match FirstMatch(list, k.name, parameterized)
    case Some(i) =>
      var stored := list[i];
      if MismatchCount(k.parlist, stored.parameters) == 0 || !signatureCheck then
        KwdFound(stored.id, stored.parameters, if NeedsUpdate(k, stored, updateLevel) then Updated else Reused)
      else SignatureMismatch
    case None => KwdFound(newKeywordId, CreatedParams(k.parlist, newParamIds), Created)
  }

  function ParamEvents(productId: string, keywordId: string, parlist: seq<NewParam>, ids: seq<string>): seq<Event>
    requires |ids| == |parlist|
  {
    if |parlist| == 0 then []
    else [KeywordParamCreated(productId, keywordId, ParamVariables(parlist[0]), ids[0])] +
         ParamEvents(productId, keywordId, parlist[1..], ids[1..])
  }

  /** The requests `get_or_create_kwd` sends: an update of the matched
      keyword when one is needed (even when the signature check then
      fails), or the creation of the keyword and of each of its
      parameters. */
  function KeywordEvents(list: seq<Keyword>, productId: string, k: NewKeyword, updateLevel: int,
                         parameterized: (string, string) -> bool, newKeywordId: string, newParamIds: seq<string>)
    : seq<Event>
    requires |newParamIds| == |k.parlist|
  {
    match FirstMatch(list, k.name, parameterized)
    case Some(i) =>
      if NeedsUpdate(k, list[i], updateLevel) then [KeywordUpdated(productId, list[i].id, UpdateVariables(k))] else []
    case None =>
      [KeywordCreated(productId, CreateVariables(k), newKeywordId)] + ParamEvents(productId, newKeywordId, k.parlist, newParamIds)
  }

  /** Reuse keeps every parameter of the stored keyword; a mismatch is
      reported only under the signature check and only when the two sides
      name different parameters; creation lists exactly the described
      parameters. */
  lemma {:induction false} KeywordDecisionProperties(list: seq<Keyword>, k: NewKeyword, signatureCheck: bool, updateLevel: int,
                                  parameterized: (string, string) -> bool, newKeywordId: string, newParamIds: seq<string>)
    requires |newParamIds| == |k.parlist|
    ensures var r := KeywordDecision(list, k, signatureCheck, updateLevel, parameterized, newKeywordId, newParamIds);
            (r.SignatureMismatch? <==>
               FirstMatch(list, k.name, parameterized).Some? && signatureCheck &&
               !((forall n | n in NewParamNames(k.parlist) :: n in ParamNames(list[FirstMatch(list, k.name, parameterized).value].parameters)) &&
                 (forall n | n in ParamNames(list[FirstMatch(list, k.name, parameterized).value].parameters) :: n in NewParamNames(k.parlist))))
    ensures var r := KeywordDecision(list, k, signatureCheck, updateLevel, parameterized, newKeywordId, newParamIds);
            r.KwdFound? && r.action != Created ==>
              exists i | 0 <= i < |list| :: KeywordMatches(list[i], k.name, parameterized) &&
                                            r.id == list[i].id && r.parList == list[i].parameters
    ensures var r := KeywordDecision(list, k, signatureCheck, updateLevel, parameterized, newKeywordId, newParamIds);
            r.KwdFound? && r.action == Created ==>
              (forall i | 0 <= i < |list| :: !KeywordMatches(list[i], k.name, parameterized)) &&
              r.id == newKeywordId && ParamNames(r.parList) == DescribedNames(k.parlist)
  {
    match FirstMatch(list, k.name, parameterized)
    case Some(i) => MismatchZeroIff(k.parlist, list[i].parameters);
    case None => CreatedParamsAreDescribed(k.parlist, newParamIds);
  }

  lemma {:induction false} KeywordOutcomeOnMatch(list: seq<Keyword>, productId: string, k: NewKeyword, signatureCheck: bool,
                                                 updateLevel: int, parameterized: (string, string) -> bool,
                                                 newKeywordId: string, newParamIds: seq<string>, i: nat)
    requires |newParamIds| == |k.parlist| && FirstMatch(list, k.name, parameterized) == Some(i)
    ensures KeywordDecision(list, k, signatureCheck, updateLevel, parameterized, newKeywordId, newParamIds) ==
            if MismatchCount(k.parlist, list[i].parameters) == 0 || !signatureCheck then
              KwdFound(list[i].id, list[i].parameters, if NeedsUpdate(k, list[i], updateLevel) then Updated else Reused)
            else SignatureMismatch
    ensures KeywordEvents(list, productId, k, updateLevel, parameterized, newKeywordId, newParamIds) ==
            if NeedsUpdate(k, list[i], updateLevel) then [KeywordUpdated(productId, list[i].id, UpdateVariables(k))] else []
  {
  }

  lemma {:induction false} KeywordOutcomeOnNone(list: seq<Keyword>, productId: string, k: NewKeyword, signatureCheck: bool,
                                                updateLevel: int, parameterized: (string, string) -> bool,
                                                newKeywordId: string, newParamIds: seq<string>)
    requires |newParamIds| == |k.parlist| && FirstMatch(list, k.name, parameterized) == None
    ensures KeywordDecision(list, k, signatureCheck, updateLevel, parameterized, newKeywordId, newParamIds) ==
            KwdFound(newKeywordId, CreatedParams(k.parlist, newParamIds), Created)
    ensures KeywordEvents(list, productId, k, updateLevel, parameterized, newKeywordId, newParamIds) ==
            [KeywordCreated(productId, CreateVariables(k), newKeywordId)] + ParamEvents(productId, newKeywordId, k.parlist, newParamIds)
  {
  }

  /** `get_or_create_kwd` for update levels 0 and 1. The cache is filled
      only while it is empty (`{}`); a keyword created here is not added to
      it, so a second call with the same name creates the keyword again.
      `fetched` is what `get_keyword_list` would return; `newKeywordId` and
      `newParamIds` are the ids the server assigns on creation. */
  method GetOrCreateKwd(api: Api, productId: string, k: NewKeyword, signatureCheck: bool, updateLevel: int,
                        fetched: seq<Keyword>, parameterized: (string, string) -> bool,
                        newKeywordId: string, newParamIds: seq<string>)
    returns (r: KwdResult)
    requires updateLevel <= 1 && |newParamIds| == |k.parlist|
    modifies api`keywordList, api`log
    ensures api.keywordList == if old(api.keywordList).None? then Some(fetched) else old(api.keywordList)
    ensures r == KeywordDecision(api.keywordList.value, k, signatureCheck, updateLevel, parameterized,
                                 newKeywordId, newParamIds)
    ensures api.log == old(api.log) + KeywordEvents(api.keywordList.value, productId, k, updateLevel, parameterized,
                                                    newKeywordId, newParamIds)
  {
    var list := api.CachedKeywords(fetched);
    var found := FindKeyword(list, k.name, parameterized);
    match found
    case Some(i) =>
      KeywordOutcomeOnMatch(list, productId, k, signatureCheck, updateLevel, parameterized, newKeywordId, newParamIds, i);
      r := UseStoredKeyword(api, productId, k, list[i], signatureCheck, updateLevel);
    case None =>
      KeywordOutcomeOnNone(list, productId, k, signatureCheck, updateLevel, parameterized, newKeywordId, newParamIds);
      r := CreateKeyword(api, productId, k, newKeywordId, newParamIds);
  }

  /** The scan of the cached list in `get_or_create_kwd`: the position of
      the first keyword that passes one of the three tests, if any. */
  method FindKeyword(list: seq<Keyword>, name: string, parameterized: (string, string) -> bool) returns (found: Option<nat>)
    ensures found == FirstMatch(list, name, parameterized)
    ensures found.Some? ==> found.value < |list| && KeywordMatches(list[found.value], name, parameterized) &&
                            forall j | 0 <= j < found.value :: !KeywordMatches(list[j], name, parameterized)
    ensures found.None? ==> forall j | 0 <= j < |list| :: !KeywordMatches(list[j], name, parameterized)
  {
    var i := 0;
    while i < |list|
      invariant 0 <= i <= |list|
      invariant FirstMatchFrom(list, name, parameterized, i) == FirstMatch(list, name, parameterized)
    {
      if KeywordMatches(list[i], name, parameterized) {
        return Some(i);
      }
      FirstMatchFromSkip(list, name, parameterized, i);
      i := i + 1;
    }
    return None;
  }

  /** The branch for a matching cached keyword: update it when needed, then
      apply the signature check. */
  method UseStoredKeyword(api: Api, productId: string, k: NewKeyword, stored: Keyword, signatureCheck: bool,
                          updateLevel: int)
    returns (r: KwdResult)
    modifies api`log
    ensures r == if MismatchCount(k.parlist, stored.parameters) == 0 || !signatureCheck then
                   KwdFound(stored.id, stored.parameters, if NeedsUpdate(k, stored, updateLevel) then Updated else Reused)
                 else SignatureMismatch
    ensures api.log == old(api.log) +
                       if NeedsUpdate(k, stored, updateLevel) then [KeywordUpdated(productId, stored.id, UpdateVariables(k))]
                       else []
  {
    var description := DescriptionText(k);
    var updated := 0;
    if updateLevel > 0 && (description != stored.description || k.name != stored.name) {
      updated := 1;
      api.Send(KeywordUpdated(productId, stored.id, UpdateVariables(k)));
    }
    var mismatch := CountMismatch(k.parlist, stored.parameters);
    if mismatch == 0 || !signatureCheck {
      if updated > 0 {
        r := KwdFound(stored.id, stored.parameters, Updated);
      } else {
        r := KwdFound(stored.id, stored.parameters, Reused);
      }
    } else {
      r := SignatureMismatch;
    }
  }

  /** The branch for a keyword not in the cache: create it, then each of
      its parameters, keeping the described ones for `par_list`. */
  method CreateKeyword(api: Api, productId: string, k: NewKeyword, newKeywordId: string, newParamIds: seq<string>)
    returns (r: KwdResult)
    requires |newParamIds| == |k.parlist|
    modifies api`log
    ensures r == KwdFound(newKeywordId, CreatedParams(k.parlist, newParamIds), Created)
    ensures api.log == old(api.log) + [KeywordCreated(productId, CreateVariables(k), newKeywordId)] +
                                      ParamEvents(productId, newKeywordId, k.parlist, newParamIds)
  {
    api.Send(KeywordCreated(productId, CreateVariables(k), newKeywordId));
    var parList: seq<KeywordParam> := [];
    var j := 0;
    while j < |k.parlist|
      invariant 0 <= j <= |k.parlist|
      invariant parList == CreatedParams(k.parlist[..j], newParamIds[..j])
      invariant api.log == old(api.log) + [KeywordCreated(productId, CreateVariables(k), newKeywordId)] +
                                          ParamEvents(productId, newKeywordId, k.parlist[..j], newParamIds[..j])
    {
      var arg := k.parlist[j];
      api.Send(KeywordParamCreated(productId, newKeywordId, ParamVariables(arg), newParamIds[j]));
      CreatedParamsSnoc(k.parlist, newParamIds, j);
      ParamEventsSnoc(productId, newKeywordId, k.parlist, newParamIds, j);
      if arg.description.Some? {
        parList := parList + [KeywordParam(newParamIds[j], arg.name, arg.description)];
      }
      j := j + 1;
    }
    assert k.parlist[..j] == k.parlist && newParamIds[..j] == newParamIds;
    r := KwdFound(newKeywordId, parList, Created);
  }

  /** Steps 1 and 2 of the signature check. */
  method CountMismatch(newPars: seq<NewParam>, oldPars: seq<KeywordParam>) returns (mismatch: nat)
    ensures mismatch == MismatchCount(newPars, oldPars)
  {
    var newNames, oldNames := NewParamNames(newPars), ParamNames(oldPars);
    mismatch := 0;
    var i := 0;
    while i < |newNames|
      invariant 0 <= i <= |newNames|
      invariant mismatch + Missing(newNames[i..], oldNames) == Missing(newNames, oldNames)
    {
      assert newNames[i..][1..] == newNames[i + 1..];
      var found := ParInList(newNames[i], oldNames);
      if !found {
        mismatch := mismatch + 1;
      }
      i := i + 1;
    }
    var second := 0;
    var j := 0;
    while j < |oldNames|
      invariant 0 <= j <= |oldNames|
      invariant second + Missing(oldNames[j..], newNames) == Missing(oldNames, newNames)
    {
      assert oldNames[j..][1..] == oldNames[j + 1..];
      var found := ParInList(oldNames[j], newNames);
      if !found {
        second := second + 1;
      }
      j := j + 1;
    }
    mismatch := mismatch + second;
  }

  lemma {:induction false} CreatedParamsSnoc(parlist: seq<NewParam>, ids: seq<string>, j: nat)
    requires |ids| == |parlist| && j < |parlist|
    ensures CreatedParams(parlist[..j + 1], ids[..j + 1]) ==
            CreatedParams(parlist[..j], ids[..j]) +
            (if parlist[j].description.Some? then [KeywordParam(ids[j], parlist[j].name, parlist[j].description)] else [])
  {
    CreatedParamsConcat(parlist[..j], [parlist[j]], ids[..j], [ids[j]]);
    assert parlist[..j + 1] == parlist[..j] + [parlist[j]];
    assert ids[..j + 1] == ids[..j] + [ids[j]];
  }

  lemma {:induction false} CreatedParamsConcat(p1: seq<NewParam>, p2: seq<NewParam>, i1: seq<string>, i2: seq<string>)
    requires |i1| == |p1| && |i2| == |p2|
    ensures CreatedParams(p1 + p2, i1 + i2) == CreatedParams(p1, i1) + CreatedParams(p2, i2)
  {
    if |p1| > 0 {
      assert (p1 + p2)[1..] == p1[1..] + p2;
      assert (i1 + i2)[1..] == i1[1..] + i2;
      CreatedParamsConcat(p1[1..], p2, i1[1..], i2);
    } else {
      assert p1 + p2 == p2 && i1 + i2 == i2;
    }
  }

  lemma {:induction false} ParamEventsSnoc(productId: string, keywordId: string, parlist: seq<NewParam>, ids: seq<string>, j: nat)
    requires |ids| == |parlist| && j < |parlist|
    ensures ParamEvents(productId, keywordId, parlist[..j + 1], ids[..j + 1]) ==
            ParamEvents(productId, keywordId, parlist[..j], ids[..j]) +
            [KeywordParamCreated(productId, keywordId, ParamVariables(parlist[j]), ids[j])]
  {
    ParamEventsConcat(productId, keywordId, parlist[..j], [parlist[j]], ids[..j], [ids[j]]);
    assert parlist[..j + 1] == parlist[..j] + [parlist[j]];
    assert ids[..j + 1] == ids[..j] + [ids[j]];
  }

  lemma {:induction false} ParamEventsConcat(productId: string, keywordId: string, p1: seq<NewParam>, p2: seq<NewParam>,
                                             i1: seq<string>, i2: seq<string>)
    requires |i1| == |p1| && |i2| == |p2|
    ensures ParamEvents(productId, keywordId, p1 + p2, i1 + i2) ==
            ParamEvents(productId, keywordId, p1, i1) + ParamEvents(productId, keywordId, p2, i2)
  {
    if |p1| > 0 {
      assert (p1 + p2)[1..] == p1[1..] + p2;
      assert (i1 + i2)[1..] == i1[1..] + i2;
      ParamEventsConcat(productId, keywordId, p1[1..], p2, i1[1..], i2);
    } else {
      assert p1 + p2 == p2 && i1 + i2 == i2;
    }
  }

  // ---------------------------------------------------------------------
  // Test step blocks

  /** `get_test_step_block`: None without a test sequence or without a
      block of exactly that title; otherwise the first such block. */
  function GetTestStepBlock(testSequence: Option<seq<StepBlock>>, blockName: string): (r: Option<StepBlock>)
    ensures testSequence.None? ==> r.None?
    ensures testSequence.Some? ==>
              (r.None? <==> forall i | 0 <= i < |testSequence.value| :: testSequence.value[i].title != blockName)
    ensures r.Some? ==> testSequence.Some? && r.value.title == blockName
    ensures r.Some? ==> (exists i | 0 <= i < |testSequence.value| :: testSequence.value[i] == r.value &&
                           forall j | 0 <= j < i :: testSequence.value[j].title != blockName)
    decreases if testSequence.Some? then |testSequence.value| else 0
  {
    match testSequence
    case None => None
    case Some(blocks) =>
      if |blocks| == 0 then None
      else if blocks[0].title == blockName then Some(blocks[0])
      else
        var r := GetTestStepBlock(Some(blocks[1..]), blockName);
        assert r.Some? ==> exists i | 0 <= i < |blocks| - 1 :: blocks[1..][i] == r.value &&
                             forall j | 0 <= j < i :: blocks[1..][j].title != blockName;
        r
  }

  // ---------------------------------------------------------------------
  // Server address

  const DefaultServer: string := "https://cloud01-eu.testbench.com"

  predicate EndsWithSlash(s: string) {
    |s| > 0 && (s[|s| - 1] == '/' || s[|s| - 1] == '\\')
  }

  /** The `TBCS_BASE` handling of `handle_default_args` as written: the
      last character is read before the empty value is replaced by the
      default, so an empty address raises IndexError. */
  function ServerBaseAsWritten(base: string): (r: Result<string, PyError>)
    ensures r.Err? <==> base == ""
  {
    if |base| == 0 then Err(IndexError)
    else
      var trimmed := if base[|base| - 1] == '/' || base[|base| - 1] == '\\' then base[..|base| - 1] else base;
      Ok(if trimmed == "" then DefaultServer else trimmed)
  }

  /** An empty configured address crashes the argument handling instead of
      falling back to the default. */
  lemma {:induction false} ServerBaseEmptyRaises()
    ensures ServerBaseAsWritten("") == Err(IndexError)
  {
  }

  /** The intended handling: one trailing slash or backslash is dropped,
      and an address left empty becomes the default. */
  function ServerBase(base: string): (r: string)
    ensures r != ""
    ensures base == "" ==> r == DefaultServer
    ensures base != "" ==> ServerBaseAsWritten(base) == Ok(r)
    ensures EndsWithSlash(base) && |base| > 1 ==> r == base[..|base| - 1]
    ensures !EndsWithSlash(base) && base != "" ==> r == base
  {
    if base == "" then DefaultServer
    else
      var trimmed := if EndsWithSlash(base) then base[..|base| - 1] else base;
      if trimmed == "" then DefaultServer else trimmed
  }
}
