/** The test-execution orchestrator: choosing an adapter for a test case,
    turning a test case execution into a running command, draining the
    running commands in round-robin order while reporting each one exactly
    once, and driving a test session through Planned, Ready, InProgress and
    Completed. The service is the `Api` client and its log; processes are
    entries of a `ProcessTable` whose `poll` answers "still running" a
    fixed number of times and then the exit code. */
module Agent {
  import opened Common
  import opened Tbcs
  import opened TbcsUtils
  import opened ComparisonUtils
  import opened Adapters

  // ---------------------------------------------------------------------
  // Choosing the adapter

  /** The adapter name the custom field selects: the configured default
      when the field is empty. */
  function AdapterName(fieldValue: string, default: string): (name: string)
    ensures fieldValue == "" ==> name == default
    ensures fieldValue != "" ==> name == fieldValue
  {
    if fieldValue == "" then default else fieldValue
  }

  /** An adapter instance as the agent uses it: its class name and the ids
      it reports under. */
  datatype AdapterRef = AdapterRef(kind: string, productId: string, testCaseId: string, executionId: string)

  /** The adapters whose constructor reads `automation.externalId`. */
  predicate ReadsExternalId(kind: string) {
    kind == "AdapterTemplate" || kind == "Cypress" || kind == "RFKdt"
  }

  /** `get_adapter_instance`: None for a name outside the registry; the
      constructor's KeyError is not caught. */
  function AdapterInstance(fieldValue: string, default: string, registry: set<string>,
                           tc: TestCaseRecord, executionId: string)
    : (r: Result<Option<AdapterRef>, PyError>)
    ensures AdapterName(fieldValue, default) !in registry ==> r == Ok(None)
    ensures r.Err? <==> AdapterName(fieldValue, default) in registry &&
                         ReadsExternalId(AdapterName(fieldValue, default)) && tc.externalId.None?
    ensures r.Err? ==> r.error == KeyError("externalId")
    ensures r.Ok? && r.value.Some? ==>
              r.value.value == AdapterRef(AdapterName(fieldValue, default), tc.productId, tc.id, executionId) &&
              r.value.value.kind in registry
  {
    var name := AdapterName(fieldValue, default);
    if name !in registry then Ok(None)
    else if ReadsExternalId(name) && tc.externalId.None? then Err(KeyError("externalId"))
    else Ok(Some(AdapterRef(name, tc.productId, tc.id, executionId)))
  }

  // ---------------------------------------------------------------------
  // The parallel flag

  /** A Python value as far as the `== ''` comparison can tell. */
  datatype PyValue = PyNone | PyBool(b: bool) | PyStr(s: string)

  function AsPyValue(o: Option<bool>): PyValue {
    match o
    case None => PyNone
    case Some(b) => PyBool(b)
  }

  /** The parallel flag as written: the converted value is compared with
      the empty string, which it can never be, so the configured default
      is never used. */
  function ParallelAsWritten(fieldValue: string, configParallel: Option<bool>): Option<bool> {
    var parsed := StringToBoolean(fieldValue);
    if AsPyValue(parsed) == PyStr("") then configParallel else parsed
  }

  /** Whatever the configuration says, the flag is exactly the converted
      field value; an unset field therefore gives None. */
  lemma {:induction false} ParallelFallbackDead(fieldValue: string, configParallel: Option<bool>)
    ensures ParallelAsWritten(fieldValue, configParallel) == StringToBoolean(fieldValue)
    ensures ParallelAsWritten("", configParallel) == None
  {
    StringToBooleanRejectsPadding("");
  }

  /** The intended choice: an unset field falls back to the configuration,
      a set one is converted. */
  function ParallelSetting(fieldValue: string, configParallel: Option<bool>): (r: Option<bool>)
    ensures fieldValue == "" ==> r == configParallel
    ensures fieldValue != "" ==> r == ParallelAsWritten(fieldValue, configParallel)
    ensures r == Some(true) <==> (fieldValue == "" && configParallel == Some(true)) || fieldValue in TrueWords
  {
    if fieldValue == "" then configParallel else StringToBoolean(fieldValue)
  }

  /** The two differ exactly on the unset field with a configured value. */
  lemma {:induction false} ParallelSettingDiffers(configParallel: Option<bool>)
    requires configParallel.Some?
    ensures ParallelSetting("", configParallel) != ParallelAsWritten("", configParallel)
  {
    ParallelFallbackDead("", configParallel);
  }

  /** Python truthiness of the flag: only True starts in the background. */
  predicate Truthy(parallel: Option<bool>) {
    parallel == Some(true)
  }

  // ---------------------------------------------------------------------
  // Running commands

  /** Everything `execute_test_case` reads or receives for one test case
      execution: the concrete test case, the custom field values, the
      fetched DDT table with the execution's row id (None when the
      execution has no DDT ids) and what the adapter's own
      `execute_test_case` returns, with a process given by its index in
      the process table. */
  datatype ExecutionInput = ExecutionInput(executionId: string, testCase: TestCaseRecord,
                                           adapterField: string, parallelField: string,
                                           ddt: Option<(DdtTable, string)>,
                                           launch: Result<Option<nat>, PyError>)

  /** The configuration the agent reads. */
  datatype AgentConfig = AgentConfig(adapterDefault: string, registry: set<string>, parallel: Option<bool>)

  /** The record `execute_test_case` returns for a started test. */
  datatype RunningCommand = RunningCommand(name: string, adapter: AdapterRef, process: Option<nat>,
                                           parallel: Option<bool>, ddtRow: Option<seq<DdtCell>>)

  /** The DDT row `execute_test_case` hands to the adapter: None without
      DDT ids, otherwise `get_ddt_row` of the execution's row, which raises
      StopIteration when the row or one of its columns is missing. */
  function DdtRowOf(ddt: Option<(DdtTable, string)>): (r: Result<Option<seq<DdtCell>>, PyError>)
    ensures ddt.None? ==> r == Ok(None)
    ensures ddt.Some? && FindRow(ddt.value.0.rowData, ddt.value.1).None? ==> r == Err(StopIteration)
    ensures ddt.Some? ==> (r.Ok? <==> GetDdtRow(ddt.value.0, ddt.value.1).Ok?)
    ensures ddt.Some? && r.Ok? ==> r.value == Some(GetDdtRow(ddt.value.0, ddt.value.1).value)
    ensures r.Err? ==> r.error == StopIteration
  {
    match ddt
    case None => Ok(None)
    case Some((table, rowId)) =>
      match GetDdtRow(table, rowId)
      case Err(e) => Err(e)
      case Ok(cells) => Ok(Some(cells))
  }

  /** `execute_test_case`: the DDT row is fetched first and a missing row
      raises; then no command when no adapter is found or when the adapter
      returns a falsy handle; a command holding the handle otherwise. */
  function ExecuteTestCase(input: ExecutionInput, cfg: AgentConfig): (r: Result<Option<RunningCommand>, PyError>)
  {
    match DdtRowOf(input.ddt)
    case Err(e) => Err(e)
    case Ok(ddtRow) =>
    match AdapterInstance(input.adapterField, cfg.adapterDefault, cfg.registry, input.testCase, input.executionId)
    case Err(e) => Err(e)
    case Ok(None) => Ok(None)
    case Ok(Some(adapter)) =>
      var parallel := ParallelAsWritten(input.parallelField, cfg.parallel);
      match input.launch
      case Err(e) => Err(e)
      case Ok(None) => Ok(None)
      case Ok(Some(p)) => Ok(Some(RunningCommand(input.testCase.name, adapter, Some(p), parallel, ddtRow)))
  }

  /** A missing DDT row or column raises StopIteration before the adapter
      is looked at. Otherwise a command is produced exactly when the
      adapter is registered and constructed and the launch gave a handle;
      it always holds that handle and the resolved row, the adapter is the
      registered one, and an empty adapter field means the default adapter.
      Its flag is the converted field alone, so an unset 'Parallel' field
      gives None and the test runs blocking whatever the configuration
      says. */
  lemma {:induction false} ExecuteTestCaseOutcome(input: ExecutionInput, cfg: AgentConfig)
    ensures var r := ExecuteTestCase(input, cfg);
            var a := AdapterInstance(input.adapterField, cfg.adapterDefault, cfg.registry, input.testCase, input.executionId);
            var row := DdtRowOf(input.ddt);
            (row.Err? ==> r == Err(StopIteration)) &&
            (input.ddt.Some? && FindRow(input.ddt.value.0.rowData, input.ddt.value.1).None? ==> r == Err(StopIteration)) &&
            (r.Ok? && r.value.Some? <==>
               row.Ok? && a.Ok? && a.value.Some? && input.launch.Ok? && input.launch.value.Some?) &&
            (r.Ok? && r.value.Some? ==>
               r.value.value.process == input.launch.value &&
               r.value.value.ddtRow == row.value &&
               r.value.value.adapter == a.value.value &&
               r.value.value.adapter.executionId == input.executionId &&
               r.value.value.parallel == StringToBoolean(input.parallelField) &&
               (input.parallelField == "" ==> !Truthy(r.value.value.parallel)) &&
               r.value.value.adapter.kind == AdapterName(input.adapterField, cfg.adapterDefault)) &&
            (row.Ok? && AdapterName(input.adapterField, cfg.adapterDefault) !in cfg.registry ==> r == Ok(None)) &&
            (row.Ok? && a == Ok(None) ==> r == Ok(None)) &&
            (row.Ok? && a.Err? ==> r == Err(a.error))
  {
    ParallelFallbackDead(input.parallelField, cfg.parallel);
  }

  // ---------------------------------------------------------------------
  // Processes

  /** A process as `poll` sees it: how many more polls report it as still
      running, and its exit code. */
  datatype ProcState = ProcState(polls: nat, returncode: int)

  /** The remaining "still running" answers of all processes. */
  function TotalPolls(procs: seq<ProcState>): nat {
    if |procs| == 0 then 0 else procs[0].polls + TotalPolls(procs[1..])
  }

  lemma {:induction false} TotalPollsDecrement(procs: seq<ProcState>, i: nat)
    requires i < |procs| && procs[i].polls > 0
    ensures TotalPolls(procs[i := ProcState(procs[i].polls - 1, procs[i].returncode)]) == TotalPolls(procs) - 1
  {
    var q := procs[i := ProcState(procs[i].polls - 1, procs[i].returncode)];
    if i == 0 {
      assert q[1..] == procs[1..];
    } else {
      assert q[1..] == procs[1..][i - 1 := ProcState(procs[i].polls - 1, procs[i].returncode)];
      TotalPollsDecrement(procs[1..], i - 1);
    }
  }

  /** The processes the started commands refer to. */
  class ProcessTable {
    var procs: seq<ProcState>

    constructor (procs: seq<ProcState>)
      ensures this.procs == procs
    {
      this.procs := procs;
    }

    /** `poll()`: None while the process runs, then its exit code. */
    method Poll(id: nat) returns (r: Option<int>)
      requires id < |procs|
      modifies this
      ensures old(procs)[id].polls > 0 ==>
                r == None && procs == old(procs)[id := ProcState(old(procs)[id].polls - 1, old(procs)[id].returncode)]
      ensures old(procs)[id].polls == 0 ==> r == Some(old(procs)[id].returncode) && procs == old(procs)
    {
      var st := procs[id];
      if st.polls > 0 {
        procs := procs[id := ProcState(st.polls - 1, st.returncode)];
        r := None;
      } else {
        r := Some(st.returncode);
      }
    }
  }

  // ---------------------------------------------------------------------
  // Reporting one command

  /** The text that marks an uploaded screenshot in a test case
      description. */
  const ScreenshotMarker: string := "![ File not found or not an image!]"

  /** The query parameter the file id follows. */
  const FileIdsKey: string := "fileIds="

  /** The description after a screenshot upload: an existing screenshot
      link gets the new file id spliced in after `fileIds=` up to the next
      blank; otherwise a link is appended. */
  function ScreenshotDescription(description: string, fileId: string, tbcsBase: string, tenantId: string,
                                 productId: string): string
  {
    if Contains(description, ScreenshotMarker) then
      var start := PyFind(description, FileIdsKey, 0) + |FileIdsKey|;
      var end := PyFind(description, " ", start as nat);
      SliceTo(description, start) + fileId + SliceFrom(description, end)
    else
      description + "\n\n" + ScreenshotMarker + ScreenshotLink(fileId, tbcsBase, tenantId, productId)
  }

  /** The link target appended after the marker. */
  function ScreenshotLink(fileId: string, tbcsBase: string, tenantId: string, productId: string): string {
    "(" + tbcsBase + "/api/tenants/" + tenantId + "/products/" + productId +
    "/file/download?element=TestCase&" + FileIdsKey + fileId + " 'screenshot.png')"
  }

  /** A description without a screenshot link keeps its text and gains
      one, so the next upload takes the splicing branch. */
  lemma {:induction false} ScreenshotAppendsLink(description: string, fileId: string, tbcsBase: string, tenantId: string,
                              productId: string)
    requires !Contains(description, ScreenshotMarker)
    ensures var r := ScreenshotDescription(description, fileId, tbcsBase, tenantId, productId);
            StartsWith(r, description) && Contains(r, ScreenshotMarker)
  {
    var r := ScreenshotDescription(description, fileId, tbcsBase, tenantId, productId);
    var head := description + "\n\n";
    var link := ScreenshotLink(fileId, tbcsBase, tenantId, productId);
    assert r == head + ScreenshotMarker + link;
    assert r[..|description|] == description;
    assert r[|head|..|head| + |ScreenshotMarker|] == ScreenshotMarker;
    assert OccursAt(r, ScreenshotMarker, |head|);
  }

  /** With a screenshot link present (the marker at `m`, the first
      `fileIds=` after it at `i`, a blank after the id at `j`), an upload
      replaces the id, and a second upload replaces the id the first one
      wrote: the description keeps one link that names the latest file. */
  lemma {:induction false} ScreenshotReplacesId(description: string, m: nat, i: nat, j: nat, first: string, second: string,
                             tbcsBase: string, tenantId: string, productId: string)
    requires OccursAt(description, ScreenshotMarker, m) && m + |ScreenshotMarker| <= i
    requires IndexOf(description, FileIdsKey) == Some(i)
    requires i + 8 <= j < |description| && description[j] == ' '
    requires forall k | i + 8 <= k < j :: description[k] != ' '
    requires forall k | 0 <= k < |first| :: first[k] != ' '
    ensures ScreenshotDescription(description, first, tbcsBase, tenantId, productId) ==
            description[..i + 8] + first + description[j..]
    ensures ScreenshotDescription(ScreenshotDescription(description, first, tbcsBase, tenantId, productId),
                                  second, tbcsBase, tenantId, productId) ==
            description[..i + 8] + second + description[j..]
  {
    SpliceAt(description, m, i, j, first, tbcsBase, tenantId, productId);
    var once := description[..i + 8] + first + description[j..];
    SplicedShape(description, m, i, j, first);
    SpliceAt(once, m, i, i + 8 + |first|, second, tbcsBase, tenantId, productId);
    SpliceTwice(description, once, i, j, first, second);
  }

  /** Splicing into the spliced text replaces exactly what was spliced in. */
  lemma {:induction false} SpliceTwice(description: string, once: string, i: nat, j: nat, first: string, second: string)
    requires i + 8 <= j <= |description| && once == description[..i + 8] + first + description[j..]
    ensures once[..i + 8] + second + once[i + 8 + |first|..] == description[..i + 8] + second + description[j..]
  {
    assert once[..i + 8] == description[..i + 8];
    assert once[i + 8 + |first|..] == description[j..];
  }

  /** After a splice the marker, the first `fileIds=` and the blank that
      ends the id are where the next splice needs them. */
  lemma {:induction false} SplicedShape(description: string, m: nat, i: nat, j: nat, first: string)
    requires OccursAt(description, ScreenshotMarker, m) && m + |ScreenshotMarker| <= i
    requires IndexOf(description, FileIdsKey) == Some(i)
    requires i + 8 <= j < |description| && description[j] == ' '
    requires forall k | 0 <= k < |first| :: first[k] != ' '
    ensures var once := description[..i + 8] + first + description[j..];
            var j' := i + 8 + |first|;
            OccursAt(once, ScreenshotMarker, m) && IndexOf(once, FileIdsKey) == Some(i) &&
            j' < |once| && once[j'] == ' ' && (forall k | i + 8 <= k < j' :: once[k] != ' ') &&
            once[j'..] == description[j..]
  {
    var once := description[..i + 8] + first + description[j..];
    var j' := i + 8 + |first|;
    SpliceParts(description, i + 8, j, first);
    SliceOfPrefix(once, description, i + 8, m, m + |ScreenshotMarker|);
    FirstOccurrenceKept(description, once, FileIdsKey, i);
    assert once[j'] == once[j'..][0] == description[j..][0] == ' ';
  }

  /** An upload into a description with a link splices the id between the
      first `fileIds=` and the next blank. */
  lemma {:induction false} SpliceAt(description: string, m: nat, i: nat, j: nat, id: string,
                 tbcsBase: string, tenantId: string, productId: string)
    requires OccursAt(description, ScreenshotMarker, m)
    requires IndexOf(description, FileIdsKey) == Some(i)
    requires i + 8 <= j < |description| && description[j] == ' '
    requires forall k | i + 8 <= k < j :: description[k] != ' '
    ensures ScreenshotDescription(description, id, tbcsBase, tenantId, productId) ==
            description[..i + 8] + id + description[j..]
  {
    assert Contains(description, ScreenshotMarker);
    assert PyFind(description, FileIdsKey, 0) == i;
    FirstBlankAt(description, i + 8, j);
    assert SliceTo(description, i + 8) == description[..i + 8];
    assert SliceFrom(description, j) == description[j..];
  }

  /** `find(' ', from)` is the first blank at or after `from`. */
  lemma {:induction false} FirstBlankAt(s: string, from: nat, j: nat)
    requires from <= j < |s| && s[j] == ' ' && forall k | from <= k < j :: s[k] != ' '
    ensures PyFind(s, " ", from) == j
  {
    assert OccursAt(s, " ", j) by {
      assert s[j..j + 1] == [s[j]];
    }
    forall k | from <= k < j ensures !OccursAt(s, " ", k) {
      assert s[k..k + 1][0] == s[k];
    }
  }

  /** Replacing the text after the first `pat` keeps that occurrence first. */
  lemma {:induction false} FirstOccurrenceKept(s: string, t: string, pat: string, i: nat)
    requires IndexOf(s, pat) == Some(i)
    requires i + |pat| <= |t| && t[..i + |pat|] == s[..i + |pat|]
    ensures IndexOf(t, pat) == Some(i)
  {
    var n := i + |pat|;
    assert forall j | 0 <= j < n :: t[j] == s[j] by {
      forall j | 0 <= j < n ensures t[j] == s[j] {
        assert t[..n][j] == s[..n][j];
      }
    }
    assert t[i..n] == s[i..n];
    assert OccursAt(t, pat, i);
    forall k: nat | k < i ensures !OccursAt(t, pat, k) {
      assert !OccursAt(s, pat, k);
      assert t[k..k + |pat|] == s[k..k + |pat|];
    }
  }

  /** The splice keeps a screenshot marker that precedes the id. */
  lemma {:induction false} MarkerKept(description: string, m: nat, i: nat, j: nat, first: string)
    requires OccursAt(description, ScreenshotMarker, m) && m + |ScreenshotMarker| <= i
    requires i + 8 <= j <= |description|
    ensures Contains(description[..i + 8] + first + description[j..], ScreenshotMarker)
  {
    var once := description[..i + 8] + first + description[j..];
    assert once[m..m + |ScreenshotMarker|] == description[m..m + |ScreenshotMarker|];
    assert OccursAt(once, ScreenshotMarker, m);
  }

  /** The verdict `collect_test_results` reports for a command: the
      adapter's `check_result` when there is a process, "Failed"
      otherwise. */
  function VerdictOf(judge: RunningCommand -> Result<string, PyError>, cmd: RunningCommand): (r: Result<string, PyError>)
    ensures cmd.process.None? ==> r == Ok("Failed")
    ensures cmd.process.Some? ==> r == judge(cmd)
  {
    if cmd.process.Some? then judge(cmd) else Ok("Failed")
  }

  /** What reporting needs besides the command: the adapter's verdict (it
      may raise), the requests its `check_result` sends before returning a
      verdict, the screenshot option, and the description text the patch
      after a screenshot upload sends. */
  datatype Reporting = Reporting(judge: RunningCommand -> Result<string, PyError>,
                                 checked: RunningCommand -> seq<CheckRequest>, screenshot: Option<string>,
                                 patchedText: RunningCommand -> string)

  /** The reporting context of the agent: the text sent after an upload is
      the description fetched after it with the uploaded file id put in, by
      `ScreenshotDescription`. The file id the upload returns and the
      description fetched from the server are parameters. */
  function AgentReporting(judge: RunningCommand -> Result<string, PyError>,
                          checked: RunningCommand -> seq<CheckRequest>, screenshot: Option<string>,
                          uploadedId: RunningCommand -> string, description: RunningCommand -> string,
                          tbcsBase: string, tenantId: string, productId: string): (ctx: Reporting)
    ensures ctx.judge == judge && ctx.checked == checked && ctx.screenshot == screenshot
    ensures forall c :: ctx.patchedText(c) ==
                        ScreenshotDescription(description(c), uploadedId(c), tbcsBase, tenantId, productId)
  {
    Reporting(judge, checked, screenshot,
              c => ScreenshotDescription(description(c), uploadedId(c), tbcsBase, tenantId, productId))
  }

  predicate Reportable(ctx: Reporting, cmd: RunningCommand) {
    VerdictOf(ctx.judge, cmd).Ok?
  }

  /** The requests `check_result` sent for a command; a command without a
      process is not checked at all. */
  function Checked(ctx: Reporting, cmd: RunningCommand): (events: seq<Event>)
    ensures cmd.process.None? ==> events == []
    ensures forall k | 0 <= k < |events| :: events[k].FileUploaded? || events[k].StepResultReported?
  {
    var a := cmd.adapter;
    if cmd.process.Some? then CheckEvents(a.productId, a.testCaseId, a.executionId, ctx.checked(cmd)) else []
  }

  /** The events of one popped command: the requests of its check, its
      result, the screenshot upload and description patch when a screenshot
      is configured, and its cleanup. */
  function Block(ctx: Reporting, cmd: RunningCommand): (events: seq<Event>)
    requires Reportable(ctx, cmd)
    ensures var n := |Checked(ctx, cmd)|;
            |events| >= n + 2 && events[..n] == Checked(ctx, cmd) &&
            events[n] == ExecutionPatched(cmd.adapter.productId, cmd.adapter.testCaseId, cmd.adapter.executionId,
                                          VerdictOf(ctx.judge, cmd).value) &&
            (ctx.screenshot.None? ==> |events| == n + 2)
    ensures events[|events| - 1] == Cleanup(cmd.adapter.executionId)
    ensures forall k | 0 <= k < |events| - 1 && k != |Checked(ctx, cmd)| ::
              !events[k].ExecutionPatched? && !events[k].Cleanup?
    ensures forall k | 0 <= k < |events| :: !events[k].SessionPatched?
  {
    var a := cmd.adapter;
    var shot := match ctx.screenshot
      case None => []
      case Some(path) =>
        [FileUploaded(a.productId, a.testCaseId, a.executionId, path),
         DescriptionPatched(a.productId, a.testCaseId, ctx.patchedText(cmd))];
    Checked(ctx, cmd) +
    [ExecutionPatched(a.productId, a.testCaseId, a.executionId, VerdictOf(ctx.judge, cmd).value)] + shot +
    [Cleanup(a.executionId)]
  }

  /** The events of the commands popped so far, in the order they left the
      queue. */
  function Reports(ctx: Reporting, order: seq<RunningCommand>): seq<Event>
    requires forall c | c in order :: Reportable(ctx, c)
  {
    if |order| == 0 then []
    else Reports(ctx, order[..|order| - 1]) + Block(ctx, order[|order| - 1])
  }

  lemma {:induction false} ReportsSnoc(ctx: Reporting, order: seq<RunningCommand>, c: RunningCommand)
    requires forall x | x in order :: Reportable(ctx, x)
    requires Reportable(ctx, c)
    ensures Reports(ctx, order + [c]) == Reports(ctx, order) + Block(ctx, c)
  {
    assert (order + [c])[..|order|] == order;
  }

  /** How many times an event satisfying `patch` (or `cleanup`) for the
      execution id occurs in a log. */
  function CountPatched(log: seq<Event>, executionId: string): nat {
    if |log| == 0 then 0
    else CountPatched(log[..|log| - 1], executionId) +
         (if log[|log| - 1].ExecutionPatched? && log[|log| - 1].executionId == executionId then 1 else 0)
  }

  function CountCleanups(log: seq<Event>, executionId: string): nat {
    if |log| == 0 then 0
    else CountCleanups(log[..|log| - 1], executionId) +
         (if log[|log| - 1] == Cleanup(executionId) then 1 else 0)
  }

  /** How many commands in a list belong to the execution id. */
  function CountCommands(cmds: seq<RunningCommand>, executionId: string): nat {
    if |cmds| == 0 then 0
    else CountCommands(cmds[..|cmds| - 1], executionId) +
         (if cmds[|cmds| - 1].adapter.executionId == executionId then 1 else 0)
  }

  lemma {:induction false} CountsConcat(a: seq<Event>, b: seq<Event>, executionId: string)
    ensures CountPatched(a + b, executionId) == CountPatched(a, executionId) + CountPatched(b, executionId)
    ensures CountCleanups(a + b, executionId) == CountCleanups(a, executionId) + CountCleanups(b, executionId)
    decreases |b|
  {
    if |b| == 0 {
      assert a + b == a;
    } else {
      assert (a + b)[..|a + b| - 1] == a + b[..|b| - 1];
      CountsConcat(a, b[..|b| - 1], executionId);
    }
  }

  /** One block patches and cleans up its own execution once each. */
  lemma {:induction false} BlockCounts(ctx: Reporting, cmd: RunningCommand, executionId: string)
    requires Reportable(ctx, cmd)
    ensures var n := if cmd.adapter.executionId == executionId then 1 else 0;
            CountPatched(Block(ctx, cmd), executionId) == n && CountCleanups(Block(ctx, cmd), executionId) == n
  {
    var b := Block(ctx, cmd);
    var n := |Checked(ctx, cmd)|;
    assert b == b[..n] + [b[n]] + b[n + 1..|b| - 1] + [b[|b| - 1]];
    PatchBetween(b[..n], b[n], b[n + 1..|b| - 1], b[|b| - 1], executionId);
  }

  /** A patch and a cleanup with only other events around them count once
      each, for their own execution. */
  lemma {:induction false} PatchBetween(before: seq<Event>, patch: Event, between: seq<Event>, cleanup: Event,
                                        executionId: string)
    requires patch.ExecutionPatched? && cleanup.Cleanup? && patch.executionId == cleanup.executionId
    requires forall k | 0 <= k < |before| :: !before[k].ExecutionPatched? && !before[k].Cleanup?
    requires forall k | 0 <= k < |between| :: !between[k].ExecutionPatched? && !between[k].Cleanup?
    ensures var n := if patch.executionId == executionId then 1 else 0;
            CountPatched(before + [patch] + between + [cleanup], executionId) == n &&
            CountCleanups(before + [patch] + between + [cleanup], executionId) == n
  {
    CountsConcat(before + [patch] + between, [cleanup], executionId);
    CountsConcat(before + [patch], between, executionId);
    CountsConcat(before, [patch], executionId);
    assert [patch][..0] == [];
    assert [cleanup][..0] == [];
    NoCounts(before, executionId);
    NoCounts(between, executionId);
  }

  lemma {:induction false} NoCounts(s: seq<Event>, executionId: string)
    requires forall k | 0 <= k < |s| :: !s[k].ExecutionPatched? && !s[k].Cleanup?
    ensures CountPatched(s, executionId) == 0 && CountCleanups(s, executionId) == 0
  {
    if |s| > 0 {
      NoCounts(s[..|s| - 1], executionId);
    }
  }

  /** Exactly once: in the reports of the popped commands, each execution
      id is patched, and cleaned up, as many times as there are popped
      commands with that id. */
  lemma {:induction false} ReportsCount(ctx: Reporting, order: seq<RunningCommand>, executionId: string)
    requires forall c | c in order :: Reportable(ctx, c)
    ensures CountPatched(Reports(ctx, order), executionId) == CountCommands(order, executionId)
    ensures CountCleanups(Reports(ctx, order), executionId) == CountCommands(order, executionId)
  {
    if |order| > 0 {
      var init := order[..|order| - 1];
      var last := order[|order| - 1];
      assert forall c | c in init :: c in order;
      ReportsCount(ctx, init, executionId);
      var r0, b := Reports(ctx, init), Block(ctx, last);
      assert Reports(ctx, order) == r0 + b;
      CountsConcat(r0, b, executionId);
      BlockCounts(ctx, last, executionId);
      assert CountCommands(order, executionId) ==
             CountCommands(init, executionId) + (if last.adapter.executionId == executionId then 1 else 0);
    }
  }

  lemma {:induction false} CountCommandsConcat(a: seq<RunningCommand>, b: seq<RunningCommand>, executionId: string)
    ensures CountCommands(a + b, executionId) == CountCommands(a, executionId) + CountCommands(b, executionId)
    decreases |b|
  {
    if |b| == 0 {
      assert a + b == a;
    } else {
      assert (a + b)[..|a + b| - 1] == a + b[..|b| - 1];
      CountCommandsConcat(a, b[..|b| - 1], executionId);
    }
  }

  /** Taking one command out of a list takes its count out. */
  lemma {:induction false} CountCommandsRemove(b: seq<RunningCommand>, k: nat, executionId: string)
    requires k < |b|
    ensures CountCommands(b, executionId) ==
            CountCommands(b[..k] + b[k + 1..], executionId) + (if b[k].adapter.executionId == executionId then 1 else 0)
  {
    assert b == b[..k] + [b[k]] + b[k + 1..];
    CountCommandsConcat(b[..k], [b[k]], executionId);
    CountCommandsConcat(b[..k] + [b[k]], b[k + 1..], executionId);
    CountCommandsConcat(b[..k], b[k + 1..], executionId);
    assert [b[k]][..0] == [];
  }

  /** A permutation has the same number of commands per execution id. */
  lemma {:induction false} CountCommandsPermutation(a: seq<RunningCommand>, b: seq<RunningCommand>, executionId: string)
    requires multiset(a) == multiset(b)
    ensures CountCommands(a, executionId) == CountCommands(b, executionId)
    decreases |a|
  {
    if |a| == 0 {
      assert |b| == |multiset(b)| == 0;
    } else {
      var x := a[|a| - 1];
      var a' := a[..|a| - 1];
      assert a == a' + [x];
      assert x in multiset(b);
      var k :| 0 <= k < |b| && b[k] == x;
      var b' := b[..k] + b[k + 1..];
      RemoveMultiset(b, k);
      assert multiset(a') == multiset(a) - multiset{x};
      CountCommandsPermutation(a', b', executionId);
      CountCommandsRemove(b, k, executionId);
    }
  }

  lemma {:induction false} RemoveMultiset(b: seq<RunningCommand>, k: nat)
    requires k < |b|
    ensures multiset(b[..k] + b[k + 1..]) == multiset(b) - multiset{b[k]}
  {
    assert b == b[..k] + [b[k]] + b[k + 1..];
  }

  // ---------------------------------------------------------------------
  // Rotation

  /** The still-running head moved to the tail, unchanged. */
  function Rotate(queue: seq<RunningCommand>): (r: seq<RunningCommand>)
    requires |queue| > 0
    ensures |r| == |queue| && r[|r| - 1] == queue[0] && multiset(r) == multiset(queue)
  {
    assert queue == [queue[0]] + queue[1..];
    queue[1..] + [queue[0]]
  }

  function RotateTimes(queue: seq<RunningCommand>, n: nat): seq<RunningCommand>
    decreases n
  {
    if n == 0 || |queue| == 0 then queue else RotateTimes(Rotate(queue), n - 1)
  }

  /** `n` rotations move the first `n` commands behind the others, in
      order; with `n` the queue length the original order is restored. */
  lemma {:induction false} RotateTimesShape(queue: seq<RunningCommand>, n: nat)
    requires n <= |queue|
    ensures RotateTimes(queue, n) == queue[n..] + queue[..n]
    ensures RotateTimes(queue, |queue|) == queue
  {
    RotateTimesSplit(queue, n);
    RotateTimesSplit(queue, |queue|);
    assert queue[|queue|..] + queue[..|queue|] == queue;
  }

  /** Splitting a queue rotated once at `n - 1` is splitting it at `n`. */
  lemma {:induction false} RotatedSplit<T>(q: seq<T>, n: nat)
    requires 0 < n <= |q|
    ensures var r := q[1..] + [q[0]]; r[n - 1..] + r[..n - 1] == q[n..] + q[..n]
  {
    var r := q[1..] + [q[0]];
    assert r[n - 1..] == q[n..] + [q[0]];
    assert r[..n - 1] == q[1..n];
    assert q[..n] == [q[0]] + q[1..n];
  }

  lemma {:induction false} RotateTimesSplit(queue: seq<RunningCommand>, n: nat)
    requires n <= |queue|
    ensures RotateTimes(queue, n) == queue[n..] + queue[..n]
    decreases n
  {
    if n == 0 {
      assert queue[0..] + queue[..0] == queue;
    } else {
      var r := Rotate(queue);
      RotateTimesSplit(r, n - 1);
      RotatedSplit(queue, n);
    }
  }

  // ---------------------------------------------------------------------
  // Collecting the results

  /** A command the collector polls before popping. */
  predicate Polled(cmd: RunningCommand) {
    Truthy(cmd.parallel) && cmd.process.Some?
  }

  predicate HandlesKnown(cmds: seq<RunningCommand>, n: nat) {
    forall c | c in cmds :: c.process.Some? ==> c.process.value < n
  }

  /** No polled command's process answers "still running" any more. */
  predicate NoneWaiting(procs: seq<ProcState>, cmds: seq<RunningCommand>) {
    forall c | c in cmds && Polled(c) && c.process.value < |procs| :: procs[c.process.value].polls == 0
  }

  /** The processes no command of the list polls. */
  predicate NotPolledBy(cmds: seq<RunningCommand>, id: nat) {
    forall c | c in cmds && Polled(c) :: c.process.value != id
  }

  /** The popped head's part of one iteration: its verdict and the
      requests its check sends, the result patch, the screenshot upload and
      description patch, and the adapter's `final_cleanup`. A raising
      `check_result` sends nothing. */
  method ReportHead(api: Api, ctx: Reporting, cmd: RunningCommand) returns (r: Result<(), PyError>)
    modifies api`log
    ensures r.Ok? <==> Reportable(ctx, cmd)
    ensures r.Err? ==> VerdictOf(ctx.judge, cmd) == Err(r.error) && api.log == old(api.log)
    ensures r.Ok? ==> api.log == old(api.log) + Block(ctx, cmd)
  {
    var result := VerdictOf(ctx.judge, cmd);
    if result.Err? {
      return Err(result.error);
    }
    var a := cmd.adapter;
    if cmd.process.Some? {
      SendChecks(api, a.productId, a.testCaseId, a.executionId, ctx.checked(cmd));
    }
    api.Send(ExecutionPatched(a.productId, a.testCaseId, a.executionId, result.value));
    if ctx.screenshot.Some? {
      api.Send(FileUploaded(a.productId, a.testCaseId, a.executionId, ctx.screenshot.value));
      api.Send(DescriptionPatched(a.productId, a.testCaseId, ctx.patchedText(cmd)));
    }
    api.Send(Cleanup(a.executionId));
    r := Ok(());
  }

  /** What polling may change: nothing in the length or the exit codes,
      and nothing of a process no command of `cmds` polls. */
  predicate PollsOnly(procs0: seq<ProcState>, procs: seq<ProcState>, cmds: seq<RunningCommand>) {
    |procs| == |procs0| &&
    forall id | 0 <= id < |procs| ::
      procs[id].returncode == procs0[id].returncode && (NotPolledBy(cmds, id) ==> procs[id] == procs0[id])
  }

  /** The head check of one iteration: a polled command's process is
      asked once; any other command is not polled at all. */
  method PollHead(table: ProcessTable, cmd: RunningCommand, ghost cmds: seq<RunningCommand>,
                  ghost procs0: seq<ProcState>)
    returns (stillRunning: bool)
    requires cmd in cmds && PollsOnly(procs0, table.procs, cmds)
    requires cmd.process.Some? ==> cmd.process.value < |table.procs|
    modifies table
    ensures PollsOnly(procs0, table.procs, cmds)
    ensures !Polled(cmd) ==> !stillRunning && table.procs == old(table.procs)
    ensures stillRunning ==> TotalPolls(table.procs) < TotalPolls(old(table.procs))
    ensures !stillRunning ==> table.procs == old(table.procs)
    ensures Polled(cmd) ==> stillRunning == (old(table.procs)[cmd.process.value].polls > 0)
  {
    stillRunning := false;
    if Truthy(cmd.parallel) && cmd.process.Some? {
      var id := cmd.process.value;
      ghost var before := table.procs;
      var status := table.Poll(id);
      if status == None {
        TotalPollsDecrement(before, id);
        stillRunning := true;
        assert !NotPolledBy(cmds, id);
      }
    }
  }

  /** One iteration of the collector loop on a non-empty queue: a polled
      head whose process still runs is rotated to the tail; any other head
      is popped and reported. */
  method Iterate(api: Api, table: ProcessTable, ctx: Reporting, queue: seq<RunningCommand>,
                 ghost cmds: seq<RunningCommand>, ghost procs0: seq<ProcState>)
    returns (rest: seq<RunningCommand>, popped: bool, r: Result<(), PyError>)
    requires |queue| > 0 && queue[0] in cmds
    requires HandlesKnown(queue, |table.procs|) && PollsOnly(procs0, table.procs, cmds)
    modifies api`log, table
    ensures PollsOnly(procs0, table.procs, cmds) && HandlesKnown(rest, |table.procs|)
    ensures !popped ==> r.Ok? && rest == Rotate(queue) && api.log == old(api.log) &&
                        TotalPolls(table.procs) < TotalPolls(old(table.procs))
    ensures popped ==> rest == queue[1..] && table.procs == old(table.procs)
    ensures popped && r.Ok? ==> Reportable(ctx, queue[0]) && api.log == old(api.log) + Block(ctx, queue[0])
    ensures r.Err? ==> popped && VerdictOf(ctx.judge, queue[0]) == Err(r.error) && api.log == old(api.log)
    ensures Polled(queue[0]) ==> (popped <==> old(table.procs)[queue[0].process.value].polls == 0)
    ensures !Polled(queue[0]) ==> popped
  {
    var cmd := queue[0];
    var stillRunning := PollHead(table, cmd, cmds, procs0);
    if stillRunning {
      return Rotate(queue), false, Ok(());
    }
    rest := queue[1..];
    popped := true;
    r := ReportHead(api, ctx, cmd);
  }

  /** The collector's bookkeeping: the queue and the popped commands
      together are the commands it was given, every popped command was
      reported, and `reported` holds their events. */
  predicate Collected(ctx: Reporting, cmds: seq<RunningCommand>, queue: seq<RunningCommand>,
                      order: seq<RunningCommand>, reported: seq<Event>) {
    multiset(queue) + multiset(order) == multiset(cmds) &&
    (forall c | c in order :: Reportable(ctx, c)) &&
    reported == Reports(ctx, order)
  }

  /** Rotating the queue keeps the bookkeeping. */
  lemma {:induction false} CollectedRotate(ctx: Reporting, cmds: seq<RunningCommand>, queue: seq<RunningCommand>,
                        order: seq<RunningCommand>, reported: seq<Event>)
    requires |queue| > 0 && Collected(ctx, cmds, queue, order, reported)
    ensures Collected(ctx, cmds, Rotate(queue), order, reported)
  {
  }

  /** Popping and reporting the head keeps the bookkeeping. */
  lemma {:induction false} CollectedPop(ctx: Reporting, cmds: seq<RunningCommand>, queue: seq<RunningCommand>,
                     order: seq<RunningCommand>, reported: seq<Event>)
    requires |queue| > 0 && Collected(ctx, cmds, queue, order, reported) && Reportable(ctx, queue[0])
    ensures Collected(ctx, cmds, queue[1..], order + [queue[0]], reported + Block(ctx, queue[0]))
  {
    MoveHeadMultiset(queue, order);
    ReportsSnoc(ctx, order, queue[0]);
  }

  /** The head is one of the given commands; before the queue is empty
      fewer commands than given have been popped. */
  lemma {:induction false} CollectedHead(ctx: Reporting, cmds: seq<RunningCommand>, queue: seq<RunningCommand>,
                      order: seq<RunningCommand>, reported: seq<Event>)
    requires |queue| > 0 && Collected(ctx, cmds, queue, order, reported)
    ensures queue[0] in cmds
    ensures |order| < |cmds| && multiset(order) <= multiset(cmds)
  {
    assert queue[0] in multiset(queue);
    assert queue[0] in multiset(cmds);
    assert |multiset(order)| < |multiset(cmds)|;
  }

  /** `collect_test_results`: until the queue is empty, a polled command
      whose process still runs goes to the tail; any other head is popped,
      judged, reported, and cleaned up. The popped commands are returned in
      the order they left the queue. A raising `check_result` ends the
      loop before that command is reported or cleaned up. */
  method CollectTestResults(api: Api, table: ProcessTable, cmds: seq<RunningCommand>, ctx: Reporting)
    returns (r: Result<(), PyError>, ghost order: seq<RunningCommand>)
    requires HandlesKnown(cmds, |table.procs|)
    modifies api`log, table
    ensures PollsOnly(old(table.procs), table.procs, cmds)
    ensures forall c | c in order :: Reportable(ctx, c)
    ensures api.log == old(api.log) + Reports(ctx, order)
    ensures r.Ok? ==> multiset(order) == multiset(cmds)
    ensures r.Err? ==> |order| < |cmds| && multiset(order) <= multiset(cmds) &&
                       exists c | c in cmds :: VerdictOf(ctx.judge, c) == Err(r.error)
    ensures NoneWaiting(old(table.procs), cmds) ==> |order| <= |cmds| && order == cmds[..|order|]
    ensures r.Ok? && NoneWaiting(old(table.procs), cmds) ==> order == cmds
  {
    var queue := cmds;
    order := [];
    ghost var reported: seq<Event> := [];
    ghost var procs0 := table.procs;
    assert multiset(queue) + multiset(order) == multiset(cmds);
    while |queue| > 0
      invariant Collected(ctx, cmds, queue, order, reported)
      invariant PollsOnly(procs0, table.procs, cmds)
      invariant HandlesKnown(queue, |table.procs|)
      invariant api.log == old(api.log) + reported
      invariant NoneWaiting(procs0, cmds) ==> order + queue == cmds && table.procs == procs0
      decreases TotalPolls(table.procs), |queue|
    {
      CollectedHead(ctx, cmds, queue, order, reported);
      var cmd := queue[0];
      var rest, popped;
      rest, popped, r := Iterate(api, table, ctx, queue, cmds, procs0);
      if NoneWaiting(procs0, cmds) {
        assert popped;
        MoveHead(cmds, order, queue);
      }
      if r.Err? {
        if NoneWaiting(procs0, cmds) {
          assert cmds[..|order|] == order;
        }
        return;
      }
      if popped {
        CollectedPop(ctx, cmds, queue, order, reported);
        ghost var block := Block(ctx, cmd);
        AppendAssociative(old(api.log), reported, block);
        reported := reported + block;
        order := order + [cmd];
      } else {
        CollectedRotate(ctx, cmds, queue, order, reported);
      }
      queue := rest;
    }
    if NoneWaiting(procs0, cmds) {
      assert order + [] == order;
    }
    r := Ok(());
  }

  /** Exactly once: when the collector returns normally, every execution
      id is patched, and cleaned up, as many times as it has running
      commands. */
  lemma {:induction false} CollectedExactlyOnce(ctx: Reporting, cmds: seq<RunningCommand>, order: seq<RunningCommand>,
                             executionId: string)
    requires multiset(order) == multiset(cmds) && forall c | c in order :: Reportable(ctx, c)
    ensures CountPatched(Reports(ctx, order), executionId) == CountCommands(cmds, executionId)
    ensures CountCleanups(Reports(ctx, order), executionId) == CountCommands(cmds, executionId)
  {
    ReportsCount(ctx, order, executionId);
    CountCommandsPermutation(order, cmds, executionId);
  }

  // ---------------------------------------------------------------------
  // Session timestamps

  /** The start and stop times as written: the ISO text is split at '.',
      and the fraction is cut to three digits and followed by 'Z'. Without
      a '.' (a clock reading with zero microseconds) index 1 does not
      exist. */
  function SessionTimeAsWritten(iso: string): (r: Result<string, PyError>)
    ensures r.Err? <==> !Contains(iso, ".")
    ensures r.Err? ==> r.error == IndexError
  {
    match After(iso, ".")
    case None => Err(IndexError)
    case Some(rest) => Ok(Before(iso, ".") + "." + SliceTo(Before(rest, "."), 3) + "Z")
  }

  /** A reading with zero microseconds, as `isoformat` prints it, has no
      '.' and raises. */
  lemma {:induction false} SessionTimeWholeSecondRaises(date: string, time: string)
    requires !Contains(date, ".") && !Contains(time, ".")
    ensures SessionTimeAsWritten(date + "T" + time) == Err(IndexError)
  {
    var iso := date + "T" + time;
    forall k: nat | k <= |iso| ensures !OccursAt(iso, ".", k) {
      if k < |iso| {
        CharAt(iso, '.', k);
        if k < |date| {
          assert iso[k] == date[k];
          CharAt(date, '.', k);
        } else if k > |date| {
          assert iso[k] == time[k - |date| - 1];
          CharAt(time, '.', k - |date| - 1);
        }
      }
    }
  }

  /** A one-character pattern occurs exactly where that character is. */
  lemma {:induction false} CharAt(s: string, c: char, k: nat)
    requires k < |s|
    ensures OccursAt(s, [c], k) <==> s[k] == c
  {
    if s[k] == c {
      assert s[k..k + 1] == [c];
    }
  }

  /** The intended timestamp: a reading without a fraction gets ".000". */
  function SessionTime(iso: string): (r: string)
    ensures EndsWith(r, "Z")
    ensures Contains(iso, ".") ==> SessionTimeAsWritten(iso) == Ok(r)
    ensures !Contains(iso, ".") ==> r == iso + ".000Z"
  {
    match After(iso, ".")
    case None => iso + ".000Z"
    case Some(rest) => Before(iso, ".") + "." + SliceTo(Before(rest, "."), 3) + "Z"
  }

  /** For a reading `whole.fraction` with a fraction of at least three
      digits, the timestamp is the whole part, '.', the first three
      fraction digits and 'Z'. */
  lemma {:induction false} SessionTimeMilliseconds(whole: string, fraction: string)
    requires !Contains(whole, ".") && !Contains(fraction, ".") && |fraction| >= 3
    ensures SessionTime(whole + "." + fraction) == whole + "." + fraction[..3] + "Z"
  {
    var iso := whole + "." + fraction;
    assert OccursAt(iso, ".", |whole|) by {
      assert iso[|whole|..|whole| + 1] == ".";
    }
    forall j: nat | j < |whole| ensures !OccursAt(iso, ".", j) {
      CharAt(iso, '.', j);
      assert iso[j] == whole[j];
      CharAt(whole, '.', j);
    }
    assert IndexOf(iso, ".") == Some(|whole|);
    assert iso[..|whole|] == whole;
    assert iso[|whole| + 1..] == fraction;
  }

  // ---------------------------------------------------------------------
  // Dispatching a session's test case executions

  /** The running commands `execute_test_session` queues: one per
      execution that yields a command, in list order; the first raising
      execution aborts. */
  function Dispatched(inputs: seq<ExecutionInput>, cfg: AgentConfig): (r: Result<seq<RunningCommand>, PyError>)
    ensures r.Ok? ==> |r.value| <= |inputs|
  {
    if |inputs| == 0 then Ok([])
    else
      match Dispatched(inputs[..|inputs| - 1], cfg)
      case Err(e) => Err(e)
      case Ok(cs) =>
        match ExecuteTestCase(inputs[|inputs| - 1], cfg)
        case Err(e) => Err(e)
        case Ok(None) => Ok(cs)
        case Ok(Some(c)) => Ok(cs + [c])
  }

  /** The queue holds exactly the commands the executions yield: each
      queued command comes from some execution, every execution ran and
      its command (if any) is queued; an error is one some execution
      raised. */
  lemma {:induction false} DispatchedProperties(inputs: seq<ExecutionInput>, cfg: AgentConfig)
    ensures var r := Dispatched(inputs, cfg);
            r.Ok? ==> forall c | c in r.value :: exists i | 0 <= i < |inputs| :: ExecuteTestCase(inputs[i], cfg) == Ok(Some(c))
    ensures var r := Dispatched(inputs, cfg);
            r.Ok? ==> forall i | 0 <= i < |inputs| :: ExecuteTestCase(inputs[i], cfg).Ok? &&
                        (ExecuteTestCase(inputs[i], cfg).value.Some? ==> ExecuteTestCase(inputs[i], cfg).value.value in r.value)
    ensures var r := Dispatched(inputs, cfg);
            r.Err? ==> exists i | 0 <= i < |inputs| :: ExecuteTestCase(inputs[i], cfg) == Err(r.error)
  {
    var outs := Outcomes(inputs, cfg);
    DispatchedIsGather(inputs, cfg);
    GatherProperties(outs);
    var r := Dispatched(inputs, cfg);
    if r.Err? {
      var i :| 0 <= i < |outs| && outs[i] == Err(r.error);
      assert ExecuteTestCase(inputs[i], cfg) == Err(r.error);
    } else {
      forall c | c in r.value
        ensures exists i | 0 <= i < |inputs| :: ExecuteTestCase(inputs[i], cfg) == Ok(Some(c))
      {
        var i :| 0 <= i < |outs| && outs[i] == Ok(Some(c));
        assert ExecuteTestCase(inputs[i], cfg) == Ok(Some(c));
      }
    }
  }

  /** What each execution yields, in list order. */
  function Outcomes(inputs: seq<ExecutionInput>, cfg: AgentConfig): (outs: seq<Result<Option<RunningCommand>, PyError>>)
    ensures |outs| == |inputs| && forall i | 0 <= i < |inputs| :: outs[i] == ExecuteTestCase(inputs[i], cfg)
  {
    seq(|inputs|, i requires 0 <= i < |inputs| => ExecuteTestCase(inputs[i], cfg))
  }

  lemma {:induction false} DispatchedIsGather(inputs: seq<ExecutionInput>, cfg: AgentConfig)
    ensures Dispatched(inputs, cfg) == Gather(Outcomes(inputs, cfg))
  {
    if |inputs| > 0 {
      var init := inputs[..|inputs| - 1];
      DispatchedIsGather(init, cfg);
      var outs := Outcomes(inputs, cfg);
      assert Outcomes(init, cfg) == outs[..|outs| - 1];
    }
  }

  /** Collecting optional results in order; the first error aborts. */
  function Gather<T, E>(outs: seq<Result<Option<T>, E>>): Result<seq<T>, E> {
    if |outs| == 0 then Ok([])
    else
      match Gather(outs[..|outs| - 1])
      case Err(e) => Err(e)
      case Ok(cs) =>
        match outs[|outs| - 1]
        case Err(e) => Err(e)
        case Ok(None) => Ok(cs)
        case Ok(Some(c)) => Ok(cs + [c])
  }

  lemma {:induction false} GatherProperties<T, E>(outs: seq<Result<Option<T>, E>>)
    ensures var r := Gather(outs);
            r.Ok? ==> forall c | c in r.value :: exists i | 0 <= i < |outs| :: outs[i] == Ok(Some(c))
    ensures var r := Gather(outs);
            r.Ok? ==> forall i | 0 <= i < |outs| :: outs[i].Ok? && (outs[i].value.Some? ==> outs[i].value.value in r.value)
    ensures var r := Gather(outs);
            r.Err? ==> exists i | 0 <= i < |outs| :: outs[i] == Err(r.error)
  {
    if |outs| > 0 {
      var init, n := outs[..|outs| - 1], |outs| - 1;
      GatherProperties(init);
      assert forall i | 0 <= i < n :: init[i] == outs[i];
      var r0 := Gather(init);
      if r0.Err? {
        var i :| 0 <= i < n && init[i] == Err(r0.error);
        assert outs[i] == Err(r0.error);
      } else if outs[n].Ok? {
        var r := Gather(outs);
        forall c | c in r.value
          ensures exists i | 0 <= i < |outs| :: outs[i] == Ok(Some(c))
        {
          if c in r0.value {
            var i :| 0 <= i < n && init[i] == Ok(Some(c));
            assert outs[i] == Ok(Some(c));
          }
        }
      }
    }
  }

  /** Once a prefix raises, the whole list raises the same error. */
  /** An execution whose DDT row is missing from its table aborts the
      dispatch: `execute_test_session` then raises after the InProgress
      patch, with nothing dispatched or collected. */
  lemma {:induction false} MissingRowAbortsDispatch(inputs: seq<ExecutionInput>, cfg: AgentConfig, i: nat)
    requires i < |inputs| && inputs[i].ddt.Some?
    requires FindRow(inputs[i].ddt.value.0.rowData, inputs[i].ddt.value.1).None?
    ensures Dispatched(inputs, cfg).Err?
  {
    ExecuteTestCaseOutcome(inputs[i], cfg);
    DispatchedProperties(inputs, cfg);
  }

  lemma {:induction false} DispatchedErrExtends(inputs: seq<ExecutionInput>, k: nat, cfg: AgentConfig)
    requires k <= |inputs| && Dispatched(inputs[..k], cfg).Err?
    ensures Dispatched(inputs, cfg) == Dispatched(inputs[..k], cfg)
    decreases |inputs| - k
  {
    if k < |inputs| {
      assert inputs[..k + 1][..k] == inputs[..k];
      DispatchedErrExtends(inputs, k + 1, cfg);
    } else {
      assert inputs[..k] == inputs;
    }
  }

  /** The dispatched commands hold the handles the launches returned. */
  lemma {:induction false} DispatchedHandles(inputs: seq<ExecutionInput>, cfg: AgentConfig, n: nat)
    requires forall i | 0 <= i < |inputs| :: LaunchKnown(inputs[i], n)
    requires Dispatched(inputs, cfg).Ok?
    ensures HandlesKnown(Dispatched(inputs, cfg).value, n)
    ensures forall c | c in Dispatched(inputs, cfg).value :: c.process.Some?
  {
    DispatchedProperties(inputs, cfg);
    forall c | c in Dispatched(inputs, cfg).value ensures c.process.Some? && c.process.value < n {
      var i :| 0 <= i < |inputs| && ExecuteTestCase(inputs[i], cfg) == Ok(Some(c));
      ExecuteTestCaseOutcome(inputs[i], cfg);
    }
  }

  /** A launch handle refers to a process of the table. */
  predicate LaunchKnown(input: ExecutionInput, n: nat) {
    input.launch.Ok? && input.launch.value.Some? ==> input.launch.value.value < n
  }

  /** The dispatch loop of `execute_test_session`. */
  method DispatchAll(inputs: seq<ExecutionInput>, cfg: AgentConfig) returns (r: Result<seq<RunningCommand>, PyError>)
    ensures r == Dispatched(inputs, cfg)
  {
    var running: seq<RunningCommand> := [];
    var i := 0;
    while i < |inputs|
      invariant 0 <= i <= |inputs|
      invariant Dispatched(inputs[..i], cfg) == Ok(running)
    {
      assert inputs[..i + 1][..i] == inputs[..i];
      var cmd := ExecuteTestCase(inputs[i], cfg);
      if cmd.Err? {
        DispatchedErrExtends(inputs, i + 1, cfg);
        return Err(cmd.error);
      }
      if cmd.value.Some? {
        running := running + [cmd.value.value];
      }
      i := i + 1;
    }
    assert inputs[..i] == inputs;
    r := Ok(running);
  }

  // ---------------------------------------------------------------------
  // The session lifecycle

  /** What `execute_test_session` sends before dispatching. */
  function SessionOpening(productId: string, sessionId: string): seq<Event> {
    [SessionPatched(productId, sessionId, SetStatus(InProgress)), SessionJoined(productId, sessionId)]
  }

  /** What it sends after collecting. */
  function SessionClosing(productId: string, sessionId: string, startTime: string, stopTime: string): seq<Event> {
    [SessionPatched(productId, sessionId, SetTimes(startTime, stopTime)),
     SessionPatched(productId, sessionId, SetStatus(Completed))]
  }

  /** The events of a session run that completes: opening, the reports of
      the popped commands, closing. */
  function SessionRun(productId: string, sessionId: string, ctx: Reporting, order: seq<RunningCommand>,
                      startTime: string, stopTime: string): seq<Event>
    requires forall c | c in order :: Reportable(ctx, c)
  {
    SessionOpening(productId, sessionId) + Reports(ctx, order) + SessionClosing(productId, sessionId, startTime, stopTime)
  }

  /** `execute_test_session`: InProgress and the join come first, then the
      start time is taken, the executions are dispatched in order, the
      commands are collected, the stop time is taken, and the times and
      then Completed are patched, also when nothing was dispatched. Both
      times are taken as written, so a whole-second clock reading raises
      IndexError: at the start before anything is dispatched, at the stop
      after the collection. A raising step leaves the session InProgress,
      without its times and without Completed. The clock readings are
      parameters. */
  method ExecuteTestSession(api: Api, table: ProcessTable, productId: string, sessionId: string,
                            inputs: seq<ExecutionInput>, cfg: AgentConfig, ctx: Reporting,
                            startIso: string, stopIso: string)
    returns (r: Result<(), PyError>, ghost order: seq<RunningCommand>)
    requires forall i | 0 <= i < |inputs| :: LaunchKnown(inputs[i], |table.procs|)
    modifies api`log, table
    ensures forall c | c in order :: Reportable(ctx, c)
    ensures !Contains(startIso, ".") ==>
              r == Err(IndexError) && order == [] && api.log == old(api.log) + SessionOpening(productId, sessionId)
    ensures Contains(startIso, ".") && Dispatched(inputs, cfg).Err? ==>
              r == Err(Dispatched(inputs, cfg).error) && order == [] &&
              api.log == old(api.log) + SessionOpening(productId, sessionId)
    ensures !Contains(stopIso, ".") ==> r.Err?
    ensures r.Ok? ==> Dispatched(inputs, cfg).Ok? && multiset(order) == multiset(Dispatched(inputs, cfg).value) &&
                      SessionTimeAsWritten(startIso).Ok? && SessionTimeAsWritten(stopIso).Ok? &&
                      api.log == old(api.log) +
                                 SessionRun(productId, sessionId, ctx, order, SessionTimeAsWritten(startIso).value,
                                            SessionTimeAsWritten(stopIso).value)
    ensures r.Err? ==> api.log == old(api.log) + SessionOpening(productId, sessionId) + Reports(ctx, order)
  {
    OpenSession(api, productId, sessionId);
    order := [];
    var start := SessionTimeAsWritten(startIso);
    if start.Err? {
      return Err(start.error), order;
    }
    var startTime := start.value;
    var running := DispatchAll(inputs, cfg);
    if running.Err? {
      return Err(running.error), order;
    }
    DispatchedHandles(inputs, cfg, |table.procs|);
    var collected;
    collected, order := CollectTestResults(api, table, running.value, ctx);
    if collected.Err? {
      return collected, order;
    }
    var stop := SessionTimeAsWritten(stopIso);
    if stop.Err? {
      return Err(stop.error), order;
    }
    var stopTime := stop.value;
    CloseSession(api, productId, sessionId, startTime, stopTime);
    AppendAssociative(old(api.log) + SessionOpening(productId, sessionId), Reports(ctx, order),
                      SessionClosing(productId, sessionId, startTime, stopTime));
    AppendAssociative(old(api.log), SessionOpening(productId, sessionId) + Reports(ctx, order),
                      SessionClosing(productId, sessionId, startTime, stopTime));
    AppendAssociative(old(api.log), SessionOpening(productId, sessionId), Reports(ctx, order));
    r := Ok(());
  }

  /** The status patch to InProgress and the join. */
  method OpenSession(api: Api, productId: string, sessionId: string)
    modifies api`log
    ensures api.log == old(api.log) + SessionOpening(productId, sessionId)
  {
    api.Send(SessionPatched(productId, sessionId, SetStatus(InProgress)));
    api.Send(SessionJoined(productId, sessionId));
  }

  /** The time patch and the status patch to Completed. */
  method CloseSession(api: Api, productId: string, sessionId: string, startTime: string, stopTime: string)
    modifies api`log
    ensures api.log == old(api.log) + SessionClosing(productId, sessionId, startTime, stopTime)
  {
    api.Send(SessionPatched(productId, sessionId, SetTimes(startTime, stopTime)));
    api.Send(SessionPatched(productId, sessionId, SetStatus(Completed)));
  }

  /** The session statuses a log sets for one session, in order. */
  function Statuses(log: seq<Event>, sessionId: string): seq<SessionStatus> {
    if |log| == 0 then []
    else Statuses(log[..|log| - 1], sessionId) + StatusOf(log[|log| - 1], sessionId)
  }

  /** The status one event sets for the session, if any. */
  function StatusOf(e: Event, sessionId: string): seq<SessionStatus> {
    if e.SessionPatched? && e.sessionId == sessionId && (e.patch.SetStatus? || e.patch.AssignUser?)
    then [e.patch.status]
    else []
  }

  lemma {:induction false} StatusesConcat(a: seq<Event>, b: seq<Event>, sessionId: string)
    ensures Statuses(a + b, sessionId) == Statuses(a, sessionId) + Statuses(b, sessionId)
    decreases |b|
  {
    if |b| == 0 {
      assert a + b == a;
    } else {
      assert (a + b)[..|a + b| - 1] == a + b[..|b| - 1];
      StatusesConcat(a, b[..|b| - 1], sessionId);
    }
  }

  /** Reporting results never changes a session status. */
  lemma {:induction false} ReportsSetNoStatus(ctx: Reporting, order: seq<RunningCommand>, sessionId: string)
    requires forall c | c in order :: Reportable(ctx, c)
    ensures Statuses(Reports(ctx, order), sessionId) == []
  {
    if |order| > 0 {
      var init := order[..|order| - 1];
      assert forall c | c in init :: c in order;
      ReportsSetNoStatus(ctx, init, sessionId);
      var r0, b := Reports(ctx, init), Block(ctx, order[|order| - 1]);
      assert Reports(ctx, order) == r0 + b;
      NoStatusIn(b, sessionId);
      StatusesConcat(r0, b, sessionId);
    }
  }

  lemma {:induction false} NoStatusIn(log: seq<Event>, sessionId: string)
    requires forall k | 0 <= k < |log| :: !log[k].SessionPatched?
    ensures Statuses(log, sessionId) == []
  {
    if |log| > 0 {
      NoStatusIn(log[..|log| - 1], sessionId);
    }
  }

  /** A completed session run sets InProgress and then Completed. */
  lemma {:induction false} SessionRunStatuses(ctx: Reporting, order: seq<RunningCommand>, productId: string, sessionId: string,
                           startTime: string, stopTime: string)
    requires forall c | c in order :: Reportable(ctx, c)
    ensures Statuses(SessionRun(productId, sessionId, ctx, order, startTime, stopTime), sessionId) ==
            [InProgress, Completed]
  {
    var opening := SessionOpening(productId, sessionId);
    var closing := SessionClosing(productId, sessionId, startTime, stopTime);
    var reports := Reports(ctx, order);
    assert SessionRun(productId, sessionId, ctx, order, startTime, stopTime) == opening + reports + closing;
    OpeningClosingStatuses(productId, sessionId, startTime, stopTime);
    ReportsSetNoStatus(ctx, order, sessionId);
    StatusesConcat(opening + reports, closing, sessionId);
    StatusesConcat(opening, reports, sessionId);
    assert [InProgress] + [] + [Completed] == [InProgress, Completed];
  }

  /** The opening sets InProgress, the closing sets Completed. */
  lemma {:induction false} OpeningClosingStatuses(productId: string, sessionId: string, startTime: string, stopTime: string)
    ensures Statuses(SessionOpening(productId, sessionId), sessionId) == [InProgress]
    ensures Statuses(SessionClosing(productId, sessionId, startTime, stopTime), sessionId) == [Completed]
  {
    StatusesPair(SessionOpening(productId, sessionId), sessionId);
    StatusesPair(SessionClosing(productId, sessionId, startTime, stopTime), sessionId);
  }

  /** The statuses of a two-event log, one event at a time. */
  lemma {:induction false} StatusesPair(log: seq<Event>, sessionId: string)
    requires |log| == 2
    ensures Statuses(log, sessionId) == StatusOf(log[0], sessionId) + StatusOf(log[1], sessionId)
  {
    var head := log[..1];
    assert head[..0] == [];
    assert Statuses(head, sessionId) == StatusOf(log[0], sessionId);
  }

  // ---------------------------------------------------------------------
  // Processing a test suite (the suite part of the main loop)

  /** One test case entry of a suite: the fields the test case filter
      sees, its test case id, and its DDT table and row when
      `ddtTableIds` is set. */
  datatype SuiteCase = SuiteCase(fields: Item, testCaseId: string, ddt: Option<(string, string)>)

  /** A test suite as `get_suite` returns it. */
  datatype Suite = Suite(suiteId: string, name: string, responsibles: seq<int>, testCases: seq<SuiteCase>)

  /** The test cases the filter selects, in suite order. */
  function FilteredCases(cases: seq<SuiteCase>, filter: Filter, search: (string, string) -> bool)
    : (r: seq<SuiteCase>)
    ensures |r| <= |cases|
    ensures forall c :: c in r <==> c in cases && MatchesAll(c.fields, filter, search)
  {
    if |cases| == 0 then []
    else
      var last := cases[|cases| - 1];
      assert cases == cases[..|cases| - 1] + [last];
      FilteredCases(cases[..|cases| - 1], filter, search) +
      (if MatchesAll(last.fields, filter, search) then [last] else [])
  }

  /** The filter loop of the suite processing. */
  method FilterCases(cases: seq<SuiteCase>, filter: Filter, search: (string, string) -> bool)
    returns (r: seq<SuiteCase>)
    ensures r == FilteredCases(cases, filter, search)
  {
    r := [];
    var i := 0;
    while i < |cases|
      invariant 0 <= i <= |cases|
      invariant r == FilteredCases(cases[..i], filter, search)
    {
      assert cases[..i + 1][..i] == cases[..i];
      var matching, _ := IsMatching(cases[i].fields, filter, search);
      if matching {
        r := r + [cases[i]];
      }
      i := i + 1;
    }
    assert cases[..i] == cases;
  }

  /** The execution posts of a suite session: for the k-th selected case
      an execution is posted (a DDT execution when the case has a table)
      and the id the server assigns, `executionIds(k)`, is added to the
      session. */
  function Postings(productId: string, sessionId: string, cases: seq<SuiteCase>, executionIds: nat -> string)
    : (r: seq<Event>)
    ensures |r| == 2 * |cases|
    ensures forall k | 0 <= k < |r| :: r[k].ExecutionPosted? || r[k].ExecutionAdded?
  {
    if |cases| == 0 then []
    else
      var k := |cases| - 1;
      Postings(productId, sessionId, cases[..k], executionIds) +
      [ExecutionPosted(productId, cases[k].testCaseId, cases[k].ddt, executionIds(k)),
       ExecutionAdded(productId, sessionId, cases[k].testCaseId, executionIds(k))]
  }

  /** One execution per selected case, in order: the k-th case's post is
      at position 2k and its addition to the session right after it. */
  lemma {:induction false} PostingsShape(productId: string, sessionId: string, cases: seq<SuiteCase>,
                                         executionIds: nat -> string, k: nat)
    requires k < |cases|
    ensures Postings(productId, sessionId, cases, executionIds)[2 * k] ==
            ExecutionPosted(productId, cases[k].testCaseId, cases[k].ddt, executionIds(k))
    ensures Postings(productId, sessionId, cases, executionIds)[2 * k + 1] ==
            ExecutionAdded(productId, sessionId, cases[k].testCaseId, executionIds(k))
    decreases |cases|
  {
    var n := |cases| - 1;
    if k < n {
      var init := cases[..n];
      PostingsShape(productId, sessionId, init, executionIds, k);
      assert init[k] == cases[k];
    }
  }

  /** The posting loop of the suite processing. */
  method PostExecutions(api: Api, productId: string, sessionId: string, cases: seq<SuiteCase>,
                        executionIds: nat -> string)
    modifies api`log
    ensures api.log == old(api.log) + Postings(productId, sessionId, cases, executionIds)
  {
    var i := 0;
    while i < |cases|
      invariant 0 <= i <= |cases|
      invariant api.log == old(api.log) + Postings(productId, sessionId, cases[..i], executionIds)
    {
      assert cases[..i + 1][..i] == cases[..i];
      ghost var before := api.log;
      var executionId := executionIds(i);
      api.Send(ExecutionPosted(productId, cases[i].testCaseId, cases[i].ddt, executionId));
      api.Send(ExecutionAdded(productId, sessionId, cases[i].testCaseId, executionId));
      ghost var pair := [ExecutionPosted(productId, cases[i].testCaseId, cases[i].ddt, executionId),
                         ExecutionAdded(productId, sessionId, cases[i].testCaseId, executionId)];
      assert api.log == before + pair;
      AppendAssociative(old(api.log), Postings(productId, sessionId, cases[..i], executionIds), pair);
      i := i + 1;
    }
    assert cases[..i] == cases;
  }

  /** What the suite processing sends before the session runs: the session
      post and its Planned assignment, one execution per selected case,
      and Ready. */
  function Prepared(productId: string, userId: string, suite: Suite, prefix: string, timestamp: string,
                    sessionId: string, cases: seq<SuiteCase>, executionIds: nat -> string): seq<Event> {
    [SessionPosted(productId, SessionName(prefix, suite.name, timestamp), sessionId),
     SessionPatched(productId, sessionId, AssignUser(userId, Planned))] +
    Postings(productId, sessionId, cases, executionIds) +
    [SessionPatched(productId, sessionId, SetStatus(Ready))]
  }

  /** The suite part of the main loop for one suite. `int(user_id)` that
      does not parse raises; a user who is not responsible skips the suite
      with nothing sent (`Ok(false)`). Otherwise a session is created, the
      filtered cases get their executions, the session is set Ready and
      run, and the suite is patched Completed (`Ok(true)`); a raising
      session run, a whole-second clock reading included, propagates and
      the suite is not patched. The session id
      and the execution ids are the server's answers; `inputs` are the
      executions `get_session` returns for the new session. */
  method ProcessSuite(api: Api, table: ProcessTable, productId: string, suite: Suite, filter: Filter,
                      search: (string, string) -> bool, prefix: string, timestamp: string, serverSessionId: string,
                      executionIds: nat -> string, inputs: seq<ExecutionInput>, cfg: AgentConfig, ctx: Reporting,
                      startIso: string, stopIso: string)
    returns (r: Result<bool, PyError>, ghost order: seq<RunningCommand>)
    requires forall i | 0 <= i < |inputs| :: LaunchKnown(inputs[i], |table.procs|)
    modifies api`log, api`testSessionId, table
    ensures forall c | c in order :: Reportable(ctx, c)
    ensures ParseInt(api.userId).Err? ==> r == Err(ValueError) && api.log == old(api.log)
    ensures ParseInt(api.userId).Ok? && ParseInt(api.userId).value !in suite.responsibles ==>
              r == Ok(false) && api.log == old(api.log)
    ensures r == Ok(true) ==>
              ParseInt(api.userId).Ok? && ParseInt(api.userId).value in suite.responsibles &&
              SessionTimeAsWritten(startIso).Ok? && SessionTimeAsWritten(stopIso).Ok? &&
              api.log == old(api.log) +
                         Prepared(productId, api.userId, suite, prefix, timestamp, serverSessionId,
                                  FilteredCases(suite.testCases, filter, search), executionIds) +
                         SessionRun(productId, serverSessionId, ctx, order, SessionTimeAsWritten(startIso).value,
                                    SessionTimeAsWritten(stopIso).value) +
                         [SuiteCompleted(productId, suite.suiteId)]
    ensures !Contains(startIso, ".") || !Contains(stopIso, ".") ==> r != Ok(true)
    ensures r.Err? && ParseInt(api.userId).Ok? ==>
              api.log == old(api.log) +
                         Prepared(productId, api.userId, suite, prefix, timestamp, serverSessionId,
                                  FilteredCases(suite.testCases, filter, search), executionIds) +
                         SessionOpening(productId, serverSessionId) + Reports(ctx, order)
  {
    order := [];
    var user := ParseInt(api.userId);
    if user.Err? {
      return Err(user.error), order;
    }
    if user.value !in suite.responsibles {
      return Ok(false), order;
    }
    var sessionId := TbcsUtils.CreateTestSession(api, productId, suite.name, prefix, timestamp, serverSessionId);
    ghost var head := [SessionPosted(productId, SessionName(prefix, suite.name, timestamp), sessionId),
                       SessionPatched(productId, sessionId, AssignUser(api.userId, Planned))];
    var cases := FilterCases(suite.testCases, filter, search);
    PostExecutions(api, productId, sessionId, cases, executionIds);
    ghost var posts := Postings(productId, sessionId, cases, executionIds);
    api.Send(SessionPatched(productId, sessionId, SetStatus(Ready)));
    ghost var ready := [SessionPatched(productId, sessionId, SetStatus(Ready))];
    AppendAssociative(old(api.log), head, posts);
    AppendAssociative(old(api.log), head + posts, ready);
    assert api.log == old(api.log) + Prepared(productId, api.userId, suite, prefix, timestamp, serverSessionId,
                                               cases, executionIds);
    var run;
    run, order := ExecuteTestSession(api, table, productId, sessionId, inputs, cfg, ctx, startIso, stopIso);
    if run.Err? {
      return Err(run.error), order;
    }
    api.Send(SuiteCompleted(productId, suite.suiteId));
    r := Ok(true);
  }

  /** A processed suite's session goes Planned, Ready, InProgress,
      Completed. */
  lemma {:induction false} SuiteStatuses(productId: string, userId: string, suite: Suite, prefix: string, timestamp: string,
                      sessionId: string, cases: seq<SuiteCase>, executionIds: nat -> string, ctx: Reporting,
                      order: seq<RunningCommand>, startTime: string, stopTime: string)
    requires forall c | c in order :: Reportable(ctx, c)
    ensures Statuses(Prepared(productId, userId, suite, prefix, timestamp, sessionId, cases, executionIds) +
                     SessionRun(productId, sessionId, ctx, order, startTime, stopTime) +
                     [SuiteCompleted(productId, suite.suiteId)], sessionId) ==
            [Planned, Ready, InProgress, Completed]
  {
    var prepared := Prepared(productId, userId, suite, prefix, timestamp, sessionId, cases, executionIds);
    var run := SessionRun(productId, sessionId, ctx, order, startTime, stopTime);
    var done := [SuiteCompleted(productId, suite.suiteId)];
    PreparedStatuses(productId, userId, suite, prefix, timestamp, sessionId, cases, executionIds);
    SessionRunStatuses(ctx, order, productId, sessionId, startTime, stopTime);
    assert Statuses(done, sessionId) == [] by {
      assert done[..0] == [];
    }
    StatusesThree(prepared, run, done, sessionId);
  }

  /** The statuses of three consecutive stretches of the log, stretch by stretch. */
  lemma {:induction false} StatusesThree(a: seq<Event>, b: seq<Event>, c: seq<Event>, sessionId: string)
    ensures Statuses(a + b + c, sessionId) == Statuses(a, sessionId) + Statuses(b, sessionId) + Statuses(c, sessionId)
  {
    StatusesConcat(a, b, sessionId);
    StatusesConcat(a + b, c, sessionId);
  }

  /** A session run that raises, at the clock or elsewhere, leaves the
      session InProgress: after the opening only reports follow. */
  lemma {:induction false} RaisedRunStatuses(ctx: Reporting, order: seq<RunningCommand>, productId: string,
                                             sessionId: string)
    requires forall c | c in order :: Reportable(ctx, c)
    ensures Statuses(SessionOpening(productId, sessionId) + Reports(ctx, order), sessionId) == [InProgress]
  {
    OpeningClosingStatuses(productId, sessionId, "", "");
    ReportsSetNoStatus(ctx, order, sessionId);
    StatusesConcat(SessionOpening(productId, sessionId), Reports(ctx, order), sessionId);
  }

  /** A suite whose session run raises stops at Planned, Ready, InProgress
      and never reaches Completed. */
  lemma {:induction false} SuiteStatusesRaised(productId: string, userId: string, suite: Suite, prefix: string,
                      timestamp: string, sessionId: string, cases: seq<SuiteCase>, executionIds: nat -> string,
                      ctx: Reporting, order: seq<RunningCommand>)
    requires forall c | c in order :: Reportable(ctx, c)
    ensures Statuses(Prepared(productId, userId, suite, prefix, timestamp, sessionId, cases, executionIds) +
                     SessionOpening(productId, sessionId) + Reports(ctx, order), sessionId) ==
            [Planned, Ready, InProgress]
  {
    var prepared := Prepared(productId, userId, suite, prefix, timestamp, sessionId, cases, executionIds);
    var opening := SessionOpening(productId, sessionId);
    var reports := Reports(ctx, order);
    PreparedStatuses(productId, userId, suite, prefix, timestamp, sessionId, cases, executionIds);
    RaisedRunStatuses(ctx, order, productId, sessionId);
    AppendAssociative(prepared, opening, reports);
    StatusesConcat(prepared, opening + reports, sessionId);
  }

  /** The preparation sets Planned and then Ready. */
  lemma {:induction false} PreparedStatuses(productId: string, userId: string, suite: Suite, prefix: string,
                      timestamp: string, sessionId: string, cases: seq<SuiteCase>, executionIds: nat -> string)
    ensures Statuses(Prepared(productId, userId, suite, prefix, timestamp, sessionId, cases, executionIds), sessionId) ==
            [Planned, Ready]
  {
    var head := [SessionPosted(productId, SessionName(prefix, suite.name, timestamp), sessionId),
                 SessionPatched(productId, sessionId, AssignUser(userId, Planned))];
    var posts := Postings(productId, sessionId, cases, executionIds);
    var ready := [SessionPatched(productId, sessionId, SetStatus(Ready))];
    assert Statuses(head, sessionId) == [Planned] by {
      StatusesPair(head, sessionId);
    }
    assert Statuses(posts, sessionId) == [] by {
      NoStatusIn(posts, sessionId);
    }
    assert Statuses(ready, sessionId) == [Ready] by {
      assert ready[..0] == [];
    }
    StatusesConcat(head, posts, sessionId);
    StatusesConcat(head + posts, ready, sessionId);
  }
}
