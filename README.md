# TestBench CS test automation agent — a Dafny model

This project models the core of the TestBench CS test automation agent.
The agent watches TestBench CS products for test suites and test sessions that are ready to run.
For each test case execution it chooses an adapter for the test tool (Robot Framework, keyword-driven Robot Framework, Cypress, Behave or the template adapter).
It starts the tool's process and collects the running processes in round-robin order.
It reports each verdict back to the service exactly once, cleans up after each test, and drives the test session through Planned, Ready, InProgress and Completed.

Alongside the orchestrator the model covers:

- the helpers its decisions depend on: filter matching, separator-insensitive comparison, the string-to-boolean reading of custom fields, lookups over fetched records, keyword reuse with signature matching, the GraphQL text builders and the request bodies;
- the adapters' command lines, generated files and verdicts;
- the Robot Framework result listener;
- the three import scripts' parsers: Cypress specs, Robot Framework suites and the Behave step catalogue;
- the Cypress reporter plugin and the publisher that imports Cypress results.

Modelling choices:

- **The service.** The TestBench CS service is an object with a ghost log of the requests sent to it: `Tbcs.Api` for the Python client, `TbcsPublish.TestBenchAutomation` for the Cypress publisher. Everything the service answers (ids, fetched test cases, keyword lists) is a parameter.
- **Processes.** Processes are entries of `Agent.ProcessTable`. There, `poll()` answers "still running" a finite number of times and then gives the exit code. That bound is what makes the collector loop terminate.
- **Exceptions.** Python exceptions that the code does not catch are `Err` values of `Common.Result`.
- **Form of the code.** Code that updates state step by step is written as imperative Dafny. Each such method is proved against a specification function, and the properties the code promises are lemmas about those functions. This covers the collector, the dispatch loop, the visitors, the listener, the reporter's hooks and the placeholder rewrite loop. Pure decision logic is written as functions.

## Model

| member | source | states |
|---|---|---|
| ComparisonUtils.ItemValue | utils/comparison_utils.py:29 | a missing key reads as the empty string, a present one as its value |
| ComparisonUtils.IsMatching | utils/comparison_utils.py:27-36 | the answer is true exactly when every filter entry holds (so an empty filter matches everything); the loop stops at the first entry that fails, having found all earlier ones to hold |
| ComparisonUtils.Upper | utils/comparison_utils.py:84 | the upper-cased text has the same length and each character upper-cased |
| ComparisonUtils.Lower | utils/comparison_utils.py:84 | the lower-cased text has the same length and each character lower-cased |
| ComparisonUtils.Canonical | utils/comparison_utils.py:84-86 | the comparison key is never longer than the text |
| ComparisonUtils.Without | utils/comparison_utils.py:84 | removing a character leaves no copy of it and never lengthens the text |
| ComparisonUtils.ReplaceCharIsWithout | utils/comparison_utils.py:84 | replacing a one-character pattern by nothing removes exactly that character |
| ComparisonUtils.WithoutSeparators | utils/comparison_utils.py:84-85 | dropping blanks, hyphens and underscores one after another and upper-casing gives the character-by-character key |
| ComparisonUtils.SeparatorFreeKeyIsCanonical | utils/comparison_utils.py:84-85 | the key the three chained replace calls and upper() compute is that key |
| ComparisonUtils.IsEqualIgnoreSeparators | utils/comparison_utils.py:84-86 | two strings compare equal exactly when their keys are equal |
| ComparisonUtils.CanonicalConcat | utils/comparison_utils.py:84-86 | the key of a concatenation is the concatenation of the keys |
| ComparisonUtils.SeparatorInsertionInvariant | utils/comparison_utils.py:84-86 | inserting a blank, hyphen or underscore anywhere into either argument does not change the answer |
| ComparisonUtils.CanonicalOfUpper | utils/comparison_utils.py:84-86 | upper-casing first does not change the key |
| ComparisonUtils.CanonicalOfLower | utils/comparison_utils.py:84-86 | lower-casing first does not change the key |
| ComparisonUtils.CanonicalHead | utils/comparison_utils.py:84-86 | a text starting with a non-separator has a key starting with that character upper-cased |
| ComparisonUtils.CanonicalSecond | utils/comparison_utils.py:84-86 | and, when its second character is no separator either, continuing with that one upper-cased |
| ComparisonUtils.CaseInvariant | utils/comparison_utils.py:84-86 | changing the letter case of either argument does not change the answer |
| ComparisonUtils.StringToBoolean | utils/comparison_utils.py:110-115 | True for exactly the nine true words, False for exactly the nine false words, None for anything else |
| ComparisonUtils.WordsUnpadded | utils/comparison_utils.py:110-112 | every listed word is non-empty and has no blank at either end |
| ComparisonUtils.StringToBooleanRejectsPadding | utils/comparison_utils.py:110-115 | the empty string and any blank-padded text read as None |
| ComparisonUtils.StringToBooleanRejectsCapitals | utils/comparison_utils.py:110-115 | all-capital spellings such as TRUE or NO read as None |
| ComparisonUtils.WordListsDisjoint | utils/comparison_utils.py:110-115 | no word is both a true word and a false word |
| Tbcs.Api.constructor | utils/tbcs_api.py:57-83 | a fresh client holds the given user and tenant, no current session, no keyword cache and an empty request log |
| Tbcs.Api.PostSession | utils/tbcs_api.py:311-338 | the id the server assigns becomes the current session id and is returned; exactly one session-creation request is logged |
| Tbcs.Api.Send | utils/tbcs_api.py:340-367 | a request that only sends data appends exactly its own event to the log and changes nothing else |
| Tbcs.Api.CachedKeywords | utils/tbcs_utils.py:457-459 | the keyword list is fetched only while the cache is unset; once set, the cached list is returned unchanged |
| Tbcs.DefinitionEntries | utils/tbcs_api.py:1752-1755 | one definition entry per variable, in dictionary order |
| Tbcs.SignatureEntries | utils/tbcs_api.py:1775-1786 | one signature entry per variable, in dictionary order, typed by the value's exact Python type |
| Tbcs.JoinEmpty | utils/tbcs_api.py:1775-1789 | a join of non-empty entries is empty exactly when there are no entries |
| Tbcs.GqlDefinition | utils/tbcs_api.py:1752-1759 | the definition is "{" + the entries ` k : $k` joined by ", " + "}", so no variables give "{}" |
| Tbcs.GqlSignature | utils/tbcs_api.py:1775-1791 | no variables give ""; otherwise "(" + the entries `$k: T!` joined by ", " + ")" |
| Tbcs.SignatureEntriesSnoc | utils/tbcs_api.py:1776-1786 | one more variable adds exactly one entry at the end |
| Tbcs.SignatureStep | utils/tbcs_api.py:1777-1786 | one loop iteration (separator only after a non-empty prefix) extends the join by the next entry |
| Tbcs.FindRow | utils/tbcs_api.py:853 | the data of the first row with the id, or nothing exactly when no row has it |
| Tbcs.ColumnName | utils/tbcs_api.py:855 | the name of the first column with the id, or nothing exactly when no column has it |
| Tbcs.ResolveCells | utils/tbcs_api.py:854-857 | succeeds iff every entry's column exists; then one cell per entry, in order, with the first matching column's name and the entry's value; otherwise StopIteration |
| Tbcs.GetDdtRow | utils/tbcs_api.py:850-858 | a missing row raises StopIteration; otherwise the cells of the first row with the id, resolved as above |
| Tbcs.AddTestStepBody | utils/tbcs_api.py:1401-1410 | the position is sent iff the previous step id is not -1, and is that id plus one |
| Tbcs.AddTestStepBlockBody | utils/tbcs_api.py:1273-1276 | the position is sent iff it is non-negative |
| Tbcs.PatchCustomFieldBlockBody | utils/tbcs_api.py:1193-1199 | each of name, product ids and custom field ids is sent iff it is non-empty, with its own value |
| Tbcs.AddCustomFieldBody | utils/tbcs_api.py:1232-1236 | an empty label is replaced by the name; the type and default are kept |
| Tbcs.ParseInt | utils/tbcs_api.py:2178-2181 | `int(s)` succeeds exactly on a digit, or a sign followed by at least one more character, with only digits after the first character; otherwise ValueError (the empty string included); a leading '-' gives a value of at most 0, any other text one of at least 0 |
| Tbcs.NatTextDigits | utils/tbcs_api.py:2178-2181 | the decimal text of a natural number is a non-empty run of digits whose value is that number |
| Tbcs.ParseIntRoundTrip | utils/tbcs_api.py:2178-2181 | `int()` reads back every integer's decimal text: parsing the text of n gives n |
| Tbcs.KeywordUsageOptionalIds | utils/tbcs_api.py:2177-2181 | fails iff either id is not an integer; the text starts with the epic part iff the epic id is positive and ends with the user-story part iff that id is positive; with both positive it is the epic part followed by the user-story part, with neither it is empty |
| Tbcs.EpicPartNotStoryPart | utils/tbcs_api.py:2178-2181 | the epic part alone never ends like a user-story part, so the user-story part is detectable at the end |
| TbcsUtils.SelectIds | utils/tbcs_utils.py:76-78 | KeyError exactly when a matching item lacks the id key; otherwise an id is returned iff some matching item carries it, and there are no more ids than items |
| TbcsUtils.SelectIdsSingle | utils/tbcs_utils.py:76-78 | one item gives nothing when the filter rejects it, KeyError when it matches without the id key, and exactly its id otherwise |
| TbcsUtils.SelectIdsConcat | utils/tbcs_utils.py:76-78 | the ids of a concatenation are the first part's ids followed by the second's, and it raises iff a part raises; with the singleton case this gives one id per matching item, in input order |
| TbcsUtils.MatchingIds | utils/tbcs_utils.py:76-78 | the filtering loop computes exactly the matching ids, raising on the first matching item without an id |
| TbcsUtils.SelectIdsErrExtends | utils/tbcs_utils.py:76-78 | once a prefix of the list raises, the whole list raises |
| TbcsUtils.GetProducts | utils/tbcs_utils.py:74-84 | the ids under "id" of the products the filter matches, in order |
| TbcsUtils.GetTestSuites | utils/tbcs_utils.py:160-170 | the ids under "testSuiteId" of the suites the filter matches, in order |
| TbcsUtils.GetTestSessions | utils/tbcs_utils.py:197-207 | the ids under "testSessionId" of the sessions the filter matches, in order |
| TbcsUtils.SessionNameShape | utils/tbcs_utils.py:234-237 | the name is `[prefix-]name-timestamp`, with the prefix part only when the prefix is non-empty |
| TbcsUtils.CreateTestSession | utils/tbcs_utils.py:234-244 | the session is posted under that name, then patched Planned with the user as responsible and participant; its server id is returned and becomes current |
| TbcsUtils.FirstDefinitionId | utils/tbcs_utils.py:275-279 | the id of the first definition with the name, or nothing exactly when none has it |
| TbcsUtils.FirstEntryValue | utils/tbcs_utils.py:291-295 | the value of the first entry for the field id, or nothing exactly when none has it |
| TbcsUtils.GetCustomField | utils/tbcs_utils.py:271-303 | "" when no definition has the name or the test case has no entry for its id; otherwise the first entry's value for the first definition's id |
| TbcsUtils.FirstDefinitionIdAt | utils/tbcs_utils.py:275-279 | the search stops at the first definition with the name |
| TbcsUtils.FirstEntryValueAt | utils/tbcs_utils.py:291-295 | the search stops at the first entry with the id |
| TbcsUtils.ParInList | utils/tbcs_utils.py:403-410 | true iff some element of the list has the same name |
| TbcsUtils.NewParamNames | utils/tbcs_utils.py:497-498 | the names of the requested parameters, in order |
| TbcsUtils.ParamNames | utils/tbcs_utils.py:510-511 | the names of the stored parameters, in order |
| TbcsUtils.FirstMatchFrom | utils/tbcs_utils.py:474-476 | the index of the first cached keyword passing any of the three name tests, and no earlier one passes |
| TbcsUtils.Missing | utils/tbcs_utils.py:497-524 | a count of names missing from the other list, never more than the names |
| TbcsUtils.MissingZero | utils/tbcs_utils.py:497-524 | nothing is missing iff every name is in the other list |
| TbcsUtils.MismatchZeroIff | utils/tbcs_utils.py:495-524 | the signature check finds no mismatch iff both sides name the same set of parameters |
| TbcsUtils.CreatedParams | utils/tbcs_utils.py:545-556 | a created keyword's parameter list holds only parameters that had a description |
| TbcsUtils.CreatedParamsAreDescribed | utils/tbcs_utils.py:545-556 | the created parameter list names exactly the described parameters, in order |
| TbcsUtils.ParamNamesConcat | utils/tbcs_utils.py:526-528 | the names of a concatenation are the concatenated names |
| TbcsUtils.KeywordDecisionProperties | utils/tbcs_utils.py:474-558 | a mismatch (with the signature check on and a one-sided parameter) returns the mismatch marker; reuse returns the stored keyword's parameters; no match creates the keyword with action created |
| TbcsUtils.FindKeyword | utils/tbcs_utils.py:474-476 | the scan stops at the first cached keyword that passes one of the three name tests, and reports none exactly when no cached keyword passes |
| TbcsUtils.GetOrCreateKwd | utils/tbcs_utils.py:457-558 | fills the cache only while it is unset, decides on the first matching cached keyword, sends exactly the update/create requests of that decision, and never adds a created keyword to the cache |
| TbcsUtils.UseStoredKeyword | utils/tbcs_utils.py:478-537 | for a matched keyword: update sent only when the level is above 0 and name or description differ; result reused, updated or signature mismatch accordingly |
| TbcsUtils.CreateKeyword | utils/tbcs_utils.py:542-558 | one keyword creation followed by one parameter creation per requested parameter, in order; action created with only the described parameters |
| TbcsUtils.CountMismatch | utils/tbcs_utils.py:495-524 | the two loops of the signature check count exactly the one-sided parameters |
| TbcsUtils.CreatedParamsSnoc | utils/tbcs_utils.py:545-556 | one more requested parameter extends the created list by at most that parameter |
| TbcsUtils.CreatedParamsConcat | utils/tbcs_utils.py:545-556 | the created list of a concatenation is the concatenation of the created lists |
| TbcsUtils.ParamEventsSnoc | utils/tbcs_utils.py:545-554 | one more requested parameter adds exactly its one creation request |
| TbcsUtils.ParamEventsConcat | utils/tbcs_utils.py:545-554 | the parameter requests of a concatenation are the concatenated requests |
| TbcsUtils.GetTestStepBlock | utils/tbcs_utils.py:586-599 | None without a test sequence, without blocks or without an exact title match; otherwise the first block with that title |
| TbcsUtils.ServerBaseAsWritten | utils/tbcs_utils.py:658-662 | the address handling as written raises IndexError exactly for an empty address |
| TbcsUtils.ServerBaseEmptyRaises | utils/tbcs_utils.py:658 | an empty configured address raises before the default can apply |
| TbcsUtils.ServerBase | utils/tbcs_utils.py:658-662 | never empty; the default for an empty address; one trailing slash or backslash dropped; agrees with the code wherever the code does not raise |
| Adapters.StartProcessOutcome | adapters/AdapterTemplate.py:106-116 | a process comes back exactly when starting it raised nothing, in the background exactly when `parallel` is set; a SubprocessError gives None, and any other fault propagates unless the adapter catches everything |
| Adapters.ExitCodeVerdict | adapters/AdapterTemplate.py:138-143 | "Passed" iff the exit code is 0, otherwise "Failed" |
| Adapters.CheckEvent | adapters/Behave.py:159-191 | a result-file upload is recorded as a file upload and a step result as a step-result report, both for the adapter's product, test case and execution |
| Adapters.CheckEvents | adapters/RFKdt.py:236-239 | one record per request, each the record of the request at the same position |
| Adapters.SendChecks | adapters/RFKdt.py:236-239 | the log grows by exactly the records of the requests, in order |
| Adapters.CheckEventsConcat | adapters/RFKdt.py:236-239 | the records of two request lists sent one after the other are the records of the first followed by those of the second |
| Adapters.ExternalIdOf | adapters/AdapterTemplate.py:58 | the automation's external id, or KeyError exactly when it is absent |
| Adapters.AdapterTemplate.constructor | adapters/AdapterTemplate.py:49-58 | product id, test case id, execution id, name and external id are stored as given |
| Adapters.AdapterTemplate.ExecuteTestCase | adapters/AdapterTemplate.py:88-116 | a non-empty DDT row raises ValueError at the tuple unpacking; otherwise the empty call is started in the background iff `parallel` |
| RobotFramework.DdtVariables | adapters/RobotFramework.py:72-73 | one `--variable col:value` pair per DDT cell, in row order |
| RobotFramework.DdtSuffixLength | adapters/RobotFramework.py:74 | the name suffix is empty exactly for an empty DDT row |
| RobotFramework.RobotCallShape | adapters/RobotFramework.py:50-81 | the call starts with `robot --outputdir <dir> -t <name> --listener …`, carries the DDT pairs, and ends with the output file named after the suffixed name and the search directory |
| RobotFramework.RobotCheckResult | adapters/RobotFramework.py:94-109 | "Passed" iff the exit code is 0; 252 is diagnosed as a missing test, 1 to 250 as that many failed tests |
| RobotFramework.RobotFramework.constructor | adapters/RobotFramework.py:21-29 | the ids and name are stored as given and the external id is fixed to 0 |
| RobotFramework.RobotFramework.ExecuteTestCase | adapters/RobotFramework.py:48-92 | the DDT suffix is appended to the stored name, so a second call suffixes again; the started call is the one above; any launch exception gives None |
| RFKdt.SanitizeName | adapters/RFKdt.py:45 | same length; every kept character is alphanumeric or one of `._- ` and unchanged; every other character becomes '_' |
| RFKdt.SanitizeNameIdempotent | adapters/RFKdt.py:45 | sanitising twice changes nothing, and no path separator or ':' survives |
| RFKdt.KeywordArgsAllEmpty | adapters/RFKdt.py:94-102 | a keyword whose parameter values are all empty gets no arguments |
| RFKdt.ComposeKeywordCall | adapters/RFKdt.py:92-102 | the keyword's name followed by `    name=value` for each non-empty value, `    name=` for the empty-string marker, and nothing for an empty value, in parameter order |
| RFKdt.StepOutcomeProperties | adapters/RFKdt.py:85-112 | a found keyword's step starts with its name and names its library; a missing keyword leaves the step unchanged; `KEYWORD%%LIB` in the first segment is replaced by part 0 and names part 1; any other step is unchanged and names nothing |
| RFKdt.ClassifyProperties | adapters/RFKdt.py:114-132 | without ':' a name is a resource; with one, the name is the text after the first ':' and it is a library exactly when the prefix is a substring of "library" |
| RFKdt.CollectFromConcat | adapters/RFKdt.py:79-132 | collecting two runs of steps one after the other is collecting their concatenation |
| RFKdt.CollectMember | adapters/RFKdt.py:124-132 | a name is in a list exactly when it was there before or some step names it with that origin |
| RFKdt.CollectNoDuplicates | adapters/RFKdt.py:125-132 | appending only absent names keeps both lists free of duplicates |
| RFKdt.CollectProperties | adapters/RFKdt.py:75-132 | each list holds every library (resource) some step names, once, and nothing else |
| RFKdt.ProcessSteps | adapters/RFKdt.py:82-112 | each step is rewritten by its own outcome and nothing else changes, in order |
| RFKdt.ProcessBlocks | adapters/RFKdt.py:79-112 | each block's steps are rewritten in place, block by block |
| RFKdt.ProcessBlocksKeepsStructure | adapters/RFKdt.py:79-112 | rewriting keeps every title and every step's id, type and keyword; only descriptions change |
| RFKdt.ProcessStep | adapters/RFKdt.py:85-112 | one step of the loop computes the outcome whose properties `StepOutcomeProperties` states |
| RFKdt.ProcessBlockSteps | adapters/RFKdt.py:82-132 | the inner loop yields the rewritten steps and the lists extended by their names |
| RFKdt.FixtureKindsDisjoint | adapters/RFKdt.py:163-177 | no title is both a teardown title and a setup title |
| RFKdt.TitleKind | adapters/RFKdt.py:163-177 | a block is a teardown exactly for Reset Environment/Teardown/Cleanup and a setup exactly for Preparation/Setup, compared ignoring separators and case |
| Tbcs.Descriptions | adapters/RFKdt.py:178-193 | the steps' descriptions in order |
| RFKdt.FixturePiecesJoin | adapters/RFKdt.py:178-191 | in a fixture block the step texts are joined by `    AND\n    ...    ` and end with a line break |
| RFKdt.FixtureBlockText | adapters/RFKdt.py:161-191 | a teardown or setup block with several steps becomes one `Run Keywords` line of its steps |
| RFKdt.PlainBlockLines | adapters/RFKdt.py:192-193 | in any other block each step's description is written on its own line |
| RFKdt.RobotFileSections | adapters/RFKdt.py:139-158 | the file starts with the settings section exactly when a library or resource was collected; the test case section follows the settings and the variables |
| RFKdt.WriteBlock | adapters/RFKdt.py:161-193 | the block's text is its comment line, its fixture keyword and its steps |
| RFKdt.WriteSettings | adapters/RFKdt.py:139-150 | one `Library` line per library and one `Resource` line per resource, each list followed by a blank line |
| RFKdt.WriteVariables | adapters/RFKdt.py:152-156 | one variable line per DDT cell, and no section without a row |
| RFKdt.WriteBlocks | adapters/RFKdt.py:160-193 | only non-empty blocks are written, in order |
| RFKdt.WriteRobotFile | adapters/RFKdt.py:137-195 | the file is the settings, the variables, the test case header and the blocks |
| RFKdt.KdtCallShape | adapters/RFKdt.py:197-215 | `python -m robot --outputdir <dir>`, then `-i ID:<id>` exactly when the external id is non-empty and `-t <name>` otherwise, and the output files named after the sanitised name |
| RFKdt.RFKdt.constructor | adapters/RFKdt.py:25-51 | the name is sanitised and the result directory is named after the sanitised name |
| RFKdt.RFKdt.RewriteBlocks | adapters/RFKdt.py:75-132 | the stored blocks are rewritten in place and the collected lists returned |
| RFKdt.RFKdt.ExecuteTestCase | adapters/RFKdt.py:64-229 | a test case that is not structured ends the process with exit(-1) and writes nothing; otherwise the blocks are rewritten, the file written and robot started with the call above |
| RFKdt.RFKdt.CheckResult | adapters/RFKdt.py:231-255 | every `.xml` and then every `.html` result file is uploaded to the execution, in listing order; the verdict is "Passed" iff the exit code is 0, with the diagnoses of `RobotFramework.RobotCheckResult` |
| RFKdt.Uploads | adapters/RFKdt.py:236-239 | one upload request per result file, in listing order |
| CypressAdapter.PathJoin | adapters/Cypress.py:66 | the joined path ends with the file name |
| CypressAdapter.FirstCandidate | adapters/Cypress.py:61-74 | the first file in walk order that is not a temporary spec and has a line holding the id, or nothing exactly when there is none |
| CypressAdapter.ScanLines | adapters/Cypress.py:68-74 | the line loop finds the id iff some line holds it as a substring |
| CypressAdapter.FindSpec | adapters/Cypress.py:58-78 | the nested scan with its `file_found` flag chooses exactly the first candidate |
| CypressAdapter.FirstIdLine | adapters/Cypress.py:152-156 | the first line holding the id, or nothing exactly when no line holds it |
| CypressAdapter.LastItLine | adapters/Cypress.py:140-150 | the last `it('…',` line up to the given line, or line 0 when there is none |
| CypressAdapter.OnlyLineProperties | adapters/Cypress.py:154 | the rewrite puts `it.only(` into an `it('…',` line and leaves a line without `it(` unchanged |
| CypressAdapter.TemporarySpecProperties | adapters/Cypress.py:139-164 | no temporary spec exactly when no line holds the id; otherwise only the last `it` line before the first id line is rewritten and every other line is copied unchanged |
| CypressAdapter.TemporarySpec | adapters/Cypress.py:139-164 | the line loop with `lastItIndex` computes exactly that temporary spec |
| CypressAdapter.CandidateHasTemporarySpec | adapters/Cypress.py:69-82 | a file the scan chooses always yields a temporary spec |
| CypressAdapter.CypressCall | adapters/Cypress.py:84-89 | `<bin> run --env <env> --spec <folder>/**/<file><ending>` |
| CypressAdapter.TemporarySpecIsCleanedUp | adapters/Cypress.py:119-121 | every temporary spec written for a file below the spec root is matched by the cleanup glob |
| CypressAdapter.Cypress.constructor | adapters/Cypress.py:23-41 | the ids, name and external id are stored, and the session id file holds the current session id |
| CypressAdapter.Cypress.ExecuteTestCase | adapters/Cypress.py:45-104 | nothing is started and nothing written without an external id or without a candidate; otherwise the temporary spec of the first candidate is written and Cypress started on it |
| CypressAdapter.Cypress.FinalCleanup | adapters/Cypress.py:116-133 | every temporary spec below the spec root and the session id file are removed, and a removal that fails is skipped without raising |
| BehaveAdapter.FeatureName | adapters/Behave.py:68-75 | the user story's name when there is one and it is non-empty; "generic" otherwise |
| BehaveAdapter.HeadsDiffer | adapters/Behave.py:87-98 | titles whose first letters differ ignoring case are not equal ignoring separators |
| BehaveAdapter.GivenTitlesGiveGiven | adapters/Behave.py:87-90 | Preparation and Given give Given |
| BehaveAdapter.WhenTitlesGiveWhen | adapters/Behave.py:91-94 | Test and When give When |
| BehaveAdapter.SecondsDiffer | adapters/Behave.py:91-98 | titles whose second letters differ ignoring case are not equal ignoring separators |
| BehaveAdapter.ResultCheckGivesThen | adapters/Behave.py:95-98 | ResultCheck gives Then |
| BehaveAdapter.ThenGivesThen | adapters/Behave.py:91-98 | Then is not taken for Test and gives Then |
| BehaveAdapter.BlockKeywordIgnoresSeparators | adapters/Behave.py:86-100 | titles equal once separators and case are ignored give the same keyword |
| BehaveAdapter.SubstituteWithoutPlaceholders | adapters/Behave.py:116-122 | text holding no placeholder of the list is left unchanged |
| BehaveAdapter.SubstituteIntroducesValue | adapters/Behave.py:116-122 | a placeholder still present when its pair is applied is replaced by its value |
| BehaveAdapter.FetchedPairs | adapters/Behave.py:119-122 | a non-data-driven step takes one fetched value per keyword parameter, in order |
| BehaveAdapter.BlockSlots | adapters/Behave.py:80-104 | one slot per step of the block; only the first is marked first |
| BehaveAdapter.SlotsPrefix | adapters/Behave.py:80-83 | the steps of a prefix of the blocks come first |
| BehaveAdapter.FoldSnoc | adapters/Behave.py:80-126 | writing one more step is one more step of the loop |
| BehaveAdapter.FoldConcat | adapters/Behave.py:80-126 | writing two runs of steps is writing their concatenation |
| BehaveAdapter.FoldFailedPrefix | adapters/Behave.py:109-126 | once the loop has raised, later steps change nothing |
| BehaveAdapter.FoldFailure | adapters/Behave.py:109-126 | the loop raises UnboundLocalError exactly when some keyword step is unknown and no earlier keyword was found |
| BehaveAdapter.NextOutputs | adapters/Behave.py:106-124 | a test step's output is its description, a found keyword's output its substituted text, and only that position changes |
| BehaveAdapter.FoldOutputs | adapters/Behave.py:80-126 | a loop that did not raise gave every step with an output that output at its position and changed nothing else |
| BehaveAdapter.NextAppends | adapters/Behave.py:86-102 | each step is written after everything before it, starting with its Given/When/Then/And prefix |
| BehaveAdapter.LastNamed | adapters/Behave.py:167-172 | the last scenario with the test case's name, or nothing exactly when none has it |
| BehaveAdapter.StepReport | adapters/Behave.py:184-192 | a step result is reported only when the Gherkin step's name equals the step's output and it passed or failed, with that verdict |
| BehaveAdapter.AssociateProperties | adapters/Behave.py:176-194 | pairing raises exactly when there are more steps than Gherkin steps or a step has no output; otherwise each report belongs to a step whose output names the Gherkin step at its position |
| BehaveAdapter.BehaveVerdict | adapters/Behave.py:205-208 | "Failed" iff the verdict is "failed" or the exit code is positive |
| BehaveAdapter.BehaveVerdictLoopholes | adapters/Behave.py:205-208 | an unmatched scenario with exit code 0, and a negative exit code with any verdict but "failed", both give "Passed" |
| BehaveAdapter.Behave.constructor | adapters/Behave.py:24-42 | the feature file is named after the test case in the scenario folder |
| BehaveAdapter.Behave.WriteStep | adapters/Behave.py:86-126 | one pass of the inner loop does exactly one step of the writing |
| BehaveAdapter.Behave.WriteBlock | adapters/Behave.py:81-126 | the inner loop writes exactly the block's steps |
| BehaveAdapter.Behave.WriteSteps | adapters/Behave.py:80-126 | the nested loop writes exactly all blocks' steps and stores their outputs |
| BehaveAdapter.Behave.ExecuteTestCase | adapters/Behave.py:52-151 | a test case that is not structured ends the process with exit(-1); otherwise the feature file is written and behave started on it, unless the step loop raised |
| BehaveAdapter.Behave.AssociateBlock | adapters/Behave.py:178-194 | the inner loop pairs exactly the block's steps |
| BehaveAdapter.Behave.AssociateSteps | adapters/Behave.py:176-194 | the nested loop pairs exactly all steps with the Gherkin steps |
| BehaveAdapter.Behave.FindScenario | adapters/Behave.py:165-172 | the verdict starts "open" and the last scenario with the test case's name sets it |
| BehaveAdapter.Behave.ScanScenarios | adapters/Behave.py:169-172 | the inner loop over one feature's scenarios keeps the last match |
| BehaveAdapter.Behave.CheckResult | adapters/Behave.py:153-208 | the result file is uploaded first; without a result file, or when the upload raises, nothing is sent and the verdict is "Failed"; after the upload, the Passed or Failed result of every step paired with a Gherkin step is reported, in step order; any exception while importing results gives "Failed", keeping the requests already sent; otherwise the final verdict rule applies |
| BehaveAdapter.StepRequests | adapters/Behave.py:186-191 | one step-result request per paired step, in order, carrying that step's id and result |
| BehaveAdapter.AssociateRaisedStays | adapters/Behave.py:182 | once pairing has raised, later steps change nothing |
| BehaveAdapter.AssociateRaisedPrefix | adapters/Behave.py:182-184 | a step beyond the Gherkin steps or without output makes the pairing raise there |
| RobotListener.AllSteps | addons/robotListener.py:62-63 | exactly the steps of the blocks, block by block and in order |
| RobotListener.StepKeyword | addons/robotListener.py:68 | the step's description up to the first double blank; the whole description without one |
| RobotListener.StepVerdict | addons/robotListener.py:82-87 | PASS gives Passed, FAIL gives Failed, anything else Undefined |
| RobotListener.DefectName | addons/robotListener.py:99 | `Execution <eid> - <step description>` |
| RobotListener.DefectParent | addons/robotListener.py:108 | `<test case id>-<eid>-<step id>` |
| RobotListener.DefectParentSplits | addons/robotListener.py:108 | a test case id without '-' is recovered from the parent id as its text before the first '-' |
| RobotListener.FirstSeparator | addons/robotListener.py:108 | a separator-free text followed by '-' is cut at that '-' |
| RobotListener.Listener.constructor | addons/robotListener.py:38-53 | the listener starts with `skip` cleared, nothing reported, and the shared step list as it is |
| RobotListener.Listener.StartTest | addons/robotListener.py:58-63 | every step of every block is appended to the shared list, which is never cleared |
| RobotListener.Listener.StartKeyword | addons/robotListener.py:65-70 | IndexError on an empty list; otherwise `skip` is set when the head step names the keyword, ignoring separators and case, and kept otherwise |
| RobotListener.Listener.EndKeyword | addons/robotListener.py:72-93 | IndexError on an empty list; a head match clears `skip`; while `skip` is set nothing is reported or popped; otherwise the mapped status is reported for the head step and exactly that step is popped |
| RobotListener.Listener.LogMessage | addons/robotListener.py:95-110 | only a FAIL message with defect creation on sends anything: one defect named after the head step, then its assignment to that step; IndexError on an empty list |
| ImportCypress.Captured | import_cypress.py:90-113 | a line matches `word('…'` after its indentation; the captured text is what lies between `('` and the last quote |
| ImportCypress.CapturedRoundTrip | import_cypress.py:90-113 | an indented `word('text'tail` line without a quote in the tail captures exactly `text` (the group is greedy up to the last quote) |
| ImportCypress.IndentRun | import_cypress.py:90 | the leading whitespace run ends where the indentation does |
| ImportCypress.LastIndexAt | import_cypress.py:90 | the last occurrence of a character is the one after which it no longer occurs |
| ImportCypress.Classify | import_cypress.py:89-118 | the first pattern that matches wins, in the order describe, it, TBCS_DESCRIPTION, TBCS_AUTID, cy.log |
| ImportCypress.UpdateCurrent | import_cypress.py:105-117 | only the current test case, the last of the story, is changed |
| ImportCypress.Step | import_cypress.py:89-120 | a describe line starts a new empty story; an it line appends one test case named `<story> <text>`; metadata overwrites and a log line appends to the current test case; an it line before any story or metadata before any test case raises; a raised scan is unchanged |
| ImportCypress.Scan | import_cypress.py:89-118 | the scanner's state after the lines stays coherent |
| ImportCypress.ScanWithoutFailure | import_cypress.py:90-100 | without an error, the story is the one the last describe line started, with one test case per it line after it |
| ImportCypress.ScanStopsAtFailure | import_cypress.py:87-122 | once a line raised, later lines change nothing and the story built so far is returned |
| ImportCypress.ItBeforeDescribe | import_cypress.py:95-99 | an it line before every describe line makes the file yield no story |
| ImportCypress.StoryFromFile | import_cypress.py:85-122 | the line loop returns the story of the scan, stopping at the first line that raises |
| ImportCypress.Stories | import_cypress.py:127-133 | at most one story per file, each carrying the name of a scanned file |
| ImportCypress.ScanFiles | import_cypress.py:126-133 | the epic holds the story of every file that yields one, in file order, with its file name |
| ImportTcRf.PyIndex | import_tc_rf.py:45 | a list index succeeds exactly for `-n <= i < n`; a non-negative index is itself, a negative one counts from the end; anything else is an IndexError |
| ImportTcRf.StepText | import_tc_rf.py:43-45 | a step line always starts with the keyword followed by four blanks, and is exactly that when there are no arguments |
| ImportTcRf.IdTags | import_tc_rf.py:57-60 | never more ids than tags, and every collected id came from a tag `ID:` + id |
| ImportTcRf.IdTagsSingle | import_tc_rf.py:59-60 | a tag `ID:x` yields `x`; a tag without the prefix yields nothing |
| ImportTcRf.ArgName | import_tc_rf.py:65 | the name drops the first two and the last character of the value; a value shorter than three characters gives the empty name |
| ImportTcRf.ArgNames | import_tc_rf.py:64-65 | one name per argument value, in the same order |
| ImportTcRf.ArgNameOfVariable | import_tc_rf.py:65 | the name recorded for `${name}` is `name` |
| ImportTcRf.TestSuiteParser.constructor | import_tc_rf.py:15-23 | a fresh visitor sees the lists earlier visitors filled, with both counters at -1 and test case mode on |
| ImportTcRf.TestSuiteParser.VisitTestCaseName | import_tc_rf.py:25-28 | one empty test case record is appended, the test case counter advances by one, and test case mode is entered |
| ImportTcRf.TestSuiteParser.VisitKeywordName | import_tc_rf.py:30-40 | one empty keyword record is appended, the keyword counter advances by one, and keyword mode is entered |
| ImportTcRf.TestSuiteParser.VisitKeywordCall | import_tc_rf.py:42-47 | the step line goes to the test case or keyword the mode and counter select, and the other list is untouched; a counter outside the list raises IndexError and changes nothing |
| ImportTcRf.TestSuiteParser.VisitTestSetup | import_tc_rf.py:49-51 | exactly one setup line is appended |
| ImportTcRf.TestSuiteParser.VisitTestTeardown | import_tc_rf.py:53-55 | exactly one teardown line is appended |
| ImportTcRf.TestSuiteParser.VisitTags | import_tc_rf.py:57-60 | the ids of the `ID:` tags are appended to the current test case in either mode; without id tags nothing happens, and an out-of-range counter raises IndexError only when an id tag is present |
| ImportTcRf.TestSuiteParser.VisitArguments | import_tc_rf.py:62-65 | in test case mode, or with no values, nothing changes; in keyword mode the names are appended to the current keyword, and an out-of-range counter raises IndexError |
| ImportTcRf.TestSuiteParser.VisitDocumentation | import_tc_rf.py:67-71 | the documentation goes to the record the mode and counter select; the other list is untouched; an out-of-range counter raises IndexError |
| ImportTcRf.IdTagsExtend | import_tc_rf.py:58-60 | once an id tag occurs among the values, the collected ids are not empty, which is why the loop's early IndexError matches the whole visit's |
| ImportTcRf.IdTagsPrefix | import_tc_rf.py:58-60 | a prefix of the tags never yields more ids than the whole list |
| ImportTcRf.SecondFileStep | import_tc_rf.py:16-27 | with the class-level lists shared, a second file's first test case steps land in the first file's first record, and the second file's own record stays empty |
| ImportTcRf.NeedsUpdateExactly | import_tc_rf.py:95-103 | an existing block is kept exactly when its step descriptions equal the Robot block, position by position |
| ImportTcRf.CheckForUpdate | import_tc_rf.py:88-103 | the answer is true iff the block is missing, the step counts differ, or some description differs; a missing block is created (position -1) first, and nothing else is sent |
| ImportStepsBdt.TrailingSpace | import_steps_bdt.py:63 | the counted run at the end of the line is all whitespace, and the character before it is not |
| ImportStepsBdt.Strip | import_steps_bdt.py:63 | the stripped line is no longer than the line and neither starts nor ends with whitespace |
| ImportStepsBdt.StripPadded | import_steps_bdt.py:63 | stripping removes exactly the whitespace around a text that has none at its ends |
| ImportStepsBdt.LastOpenIsLast | import_steps_bdt.py:50 | the greedy first group ends at the last `('` that a `')` still follows, or no such place exists |
| ImportStepsBdt.LastOpenAt | import_steps_bdt.py:50 | a place that opens, with none opening after it, is the one the greedy group chooses |
| ImportStepsBdt.StepMatch | import_steps_bdt.py:67-71 | a match yields the library between `@` and some `('` and the name up to a `')` after it; no match means no `('` is followed by a `')` |
| ImportStepsBdt.StepMatchLine | import_steps_bdt.py:67-71 | a line `@lib('name')` with no single quote in the name yields exactly `lib` and `name` |
| ImportStepsBdt.ParMatch | import_steps_bdt.py:72 | the first placeholder found starts at the first `"{` and ends at the first `}"` after it; no match means no `"{` is followed by a `}"` |
| ImportStepsBdt.PairCountConcat | import_steps_bdt.py:74-77 | the `"{` pairs of a concatenation are those of its parts plus one where they meet |
| ImportStepsBdt.ReplaceAllHead | import_steps_bdt.py:75 | replacing by a text that starts like the pattern keeps the first character and the emptiness of the text |
| ImportStepsBdt.ReplaceAllPairs | import_steps_bdt.py:75 | replacing a pattern by a text with fewer `"{` pairs and the same end characters never adds a pair, and removes one when the pattern occurs |
| ImportStepsBdt.PlaceholderStep | import_steps_bdt.py:74-77 | the matched text is a `"{p}"` placeholder, and one turn of the loop strictly lowers the number of `"{` pairs, which is why the loop ends |
| ImportStepsBdt.Rewritten | import_steps_bdt.py:72-77 | the rewritten name holds no placeholder, there are never more parameters than `"{` pairs, and a name without a placeholder is kept with no parameters |
| ImportStepsBdt.RewrittenStep | import_steps_bdt.py:74-77 | one turn: the first placeholder's group is the first parameter, and the rest is the rewrite of the text with every copy of that placeholder replaced by `"${p}"` |
| ImportStepsBdt.ReplacePlaceholders | import_steps_bdt.py:72-77 | the while loop computes the rewritten name and parameter list of the rewrite, and terminates |
| ImportStepsBdt.ReplaceAllPrefix | import_steps_bdt.py:75 | a prefix without the pattern's first character is untouched by the replacement |
| ImportStepsBdt.ParMatchAt | import_steps_bdt.py:72 | a placeholder with no double quote before it or inside it is the first match |
| ImportStepsBdt.OnePlaceholderMatch | import_steps_bdt.py:72 | in a text whose only double quotes are one placeholder's, that placeholder is the match and its group is the parameter name |
| ImportStepsBdt.OnePlaceholderReplaced | import_steps_bdt.py:75 | rewriting the placeholder touches nothing else in the text |
| ImportStepsBdt.OnePlaceholderGone | import_steps_bdt.py:77 | after the rewrite no placeholder is left to match |
| ImportStepsBdt.RewrittenOnce | import_steps_bdt.py:74-77 | a rewrite whose first turn leaves no placeholder takes exactly that one turn and yields one parameter |
| ImportStepsBdt.OnePlaceholder | import_steps_bdt.py:72-77 | a step text with one placeholder `"{x}"` becomes the text with `"${x}"` in its place, and `x` is its only parameter |
| ImportStepsBdt.ParamList | import_steps_bdt.py:76 | one parameter per name, in order, none with a description |
| ImportStepsBdt.StepRequest | import_steps_bdt.py:63-87 | a line asks for a keyword only when stripped it is longer than one character and starts with `@`; the keyword name carries the prefix and holds no placeholder; there are never more parameters than characters |
| ImportStepsBdt.PairCountBound | import_steps_bdt.py:74-77 | a text has no more `"{` pairs than characters, which bounds the parameter list |
| ImportStepsBdt.StepRequestLine | import_steps_bdt.py:63-87 | a line `@lib('text')` with whitespace around it asks for the keyword named prefix plus rewritten text, with the fixed description and the parameters the rewrite collected |
| ImportStepsBdt.StepEvents | import_steps_bdt.py:88-97 | a keyword the cache already matches sends nothing; a new one sends its creation first, then its parameters, then the update marking it implemented in the library in upper case |
| ImportStepsBdt.ParamEventsLength | import_steps_bdt.py:88 | one parameter request per parameter |
| ImportStepsBdt.ImportStep | import_steps_bdt.py:88-97 | the cache is loaded once and kept; the answer says created exactly when no cached keyword matches; the log grows by exactly the step's requests |
| ImportStepsBdt.Requests | import_steps_bdt.py:59-87 | there are never more keyword requests than lines read |
| ImportStepsBdt.CreatedCount | import_steps_bdt.py:91-99 | never more creations than requests |
| ImportStepsBdt.CreatedAnnounced | import_steps_bdt.py:91-99 | never more creations than log entries |
| ImportStepsBdt.CreatedAnnouncedConcat | import_steps_bdt.py:91-99 | creations in a log add up over its parts |
| ImportStepsBdt.ParamEventsAnnounceNothing | import_steps_bdt.py:88 | parameter requests create no keyword |
| ImportStepsBdt.CreatedCountAnnounced | import_steps_bdt.py:91-99 | the created counter equals the number of keyword creations the import sends |
| ImportStepsBdt.ImportSnoc | import_steps_bdt.py:59-103 | one more line adds exactly its own requests to the log and its own creation, if any, to the count |
| ImportStepsBdt.LineRequest | import_steps_bdt.py:63-87 | the line handling, with the rewrite loop, computes what the line asks for |
| ImportStepsBdt.ImportRequest | import_steps_bdt.py:88-101 | exactly one counter goes up for a request and none for a line without one; created means no cached match; the log grows by the request's events |
| ImportStepsBdt.ImportLine | import_steps_bdt.py:59-103 | one pass of the loop keeps the loop invariant: counters, cache and log stand as after one more line |
| ImportStepsBdt.ImportSteps | import_steps_bdt.py:54-103 | created plus reused equals the number of step lines; created equals the number of requests no cached keyword matches; the cache is loaded once a request was made; the log is exactly the requests of all lines in order |
| Agent.AdapterName | agent.py:48-53 | an empty custom field selects the configured default adapter; a set field selects itself |
| Agent.AdapterInstance | agent.py:43-62 | a name outside the registry yields no adapter; a KeyError escapes exactly when a registered adapter that reads `automation.externalId` gets a test case without one; otherwise the adapter is the selected registered class bound to the test case's product, id and execution |
| Agent.ParallelFallbackDead | agent.py:113-119 | as written the flag is always the converted field value, whatever the configuration says, so an unset field yields None (see Findings) |
| Agent.ParallelSetting | agent.py:113-119 | the intended flag: an unset field falls back to the configuration, a set one is converted, and the flag is True exactly for a true word or an unset field with a True configuration |
| Agent.ParallelSettingDiffers | agent.py:113-119 | the written and intended flags differ on every unset field with a configured value |
| Agent.DdtRowOf | agent.py:77-91 | no DDT ids give no row; otherwise the row `get_ddt_row` resolves, and StopIteration when the row id, or a column id of the row, is missing from the table |
| Agent.ExecuteTestCaseOutcome | agent.py:65-141 | a DDT execution whose row or column is missing from its table raises StopIteration before the adapter is looked at; otherwise a running command is produced exactly when the adapter is registered and constructed and the launch returned a handle, and it carries the resolved row; it holds that handle, that adapter and the execution id; its parallel flag is the converted 'Parallel' field alone, so an unset field runs the test blocking whatever the configuration says; an unknown adapter yields no command |
| Agent.TotalPollsDecrement | agent.py:152 | a "still running" answer uses up exactly one of the remaining answers, which bounds the rotations |
| Agent.ProcessTable.constructor | agent.py:152 | the table holds the given processes |
| Agent.ProcessTable.Poll | agent.py:152 | `poll()` answers None and uses up one answer while the process runs, and its exit code, changing nothing, once it has ended |
| Agent.ScreenshotAppendsLink | agent.py:184-189 | a description without a screenshot link keeps its text as a prefix and gains the marker, so the next upload splices |
| Agent.ScreenshotReplacesId | agent.py:183-187 | with a link present an upload replaces the id after `fileIds=` up to the next blank, and a second upload replaces the first one's id: the description keeps one link naming the latest file |
| Agent.SpliceTwice | agent.py:185-187 | splicing into a spliced text replaces exactly what the first splice put in |
| Agent.SplicedShape | agent.py:185-187 | after a splice the marker, the first `fileIds=` and the blank ending the id are where the next splice finds them |
| Agent.SpliceAt | agent.py:184-187 | an upload into a described link splices the id between the first `fileIds=` and the next blank |
| Agent.FirstBlankAt | agent.py:186 | `find(' ', start)` is the first blank at or after `start` |
| Agent.FirstOccurrenceKept | agent.py:185 | changing only text after the first `fileIds=` keeps that occurrence first |
| Agent.MarkerKept | agent.py:184 | the splice keeps the marker that precedes the id |
| Agent.VerdictOf | agent.py:160-163 | a command without a process is reported Failed; one with a process gets the adapter's `check_result` |
| Agent.AgentReporting | agent.py:172-197 | the description patched after an upload is the fetched description with the uploaded file id put in |
| Agent.Checked | agent.py:160-163 | a command without a process sends no check requests; a checked command's requests are only file uploads and step-result reports |
| Agent.Block | agent.py:157-203 | a popped command yields the requests of its check, then its result patch, and its cleanup last, with only the screenshot upload and description patch between the patch and the cleanup, and nothing there when no screenshot is configured; no event of a block patches a session |
| Agent.ReportsSnoc | agent.py:147-203 | popping one more command appends exactly its block to the reports |
| Agent.CountsConcat | agent.py:165-203 | patch and cleanup counts add up over the parts of a log |
| Agent.BlockCounts | agent.py:165-203 | one block patches and cleans up its own execution once each and no other |
| Agent.NoCounts | agent.py:172-197 | the screenshot events neither patch a result nor clean up |
| Agent.ReportsCount | agent.py:157-203 | each execution id is patched, and cleaned up, as often as popped commands carry it |
| Agent.CountCommandsConcat | agent.py:147-158 | command counts per execution id add up over the parts of a list |
| Agent.CountCommandsRemove | agent.py:153-158 | taking a command out of a list takes its count out |
| Agent.CountCommandsPermutation | agent.py:147-158 | a reordered queue has the same number of commands per execution id |
| Agent.RemoveMultiset | agent.py:153-158 | removing one element removes exactly that element from the multiset |
| Agent.Rotate | agent.py:153-154 | rotating moves the head to the tail unchanged and keeps every command |
| Agent.RotateTimesShape | agent.py:147-155 | n rotations put the first n commands behind the others in order; rotating as often as there are commands restores the queue |
| Agent.RotateTimesSplit | agent.py:147-155 | n rotations move the first n commands behind the rest |
| Agent.ReportHead | agent.py:157-203 | a popped head is reported with its block, its check's requests included; a raising `check_result` sends nothing |
| Agent.PollHead | agent.py:151-155 | only a parallel command with a process is polled; a "still running" answer lowers the remaining answers; polling touches no exit code and no process no command polls |
| Agent.Iterate | agent.py:147-203 | a polled head that still runs goes to the tail with nothing reported; any other head, a polled one whose process has ended included, is popped and reported, or the loop ends on a raising verdict with nothing sent |
| Agent.CollectedRotate | agent.py:153-155 | rotating keeps the queue and the popped commands together equal to the commands given |
| Agent.CollectedPop | agent.py:157-203 | popping and reporting the head keeps that bookkeeping |
| Agent.CollectedHead | agent.py:148 | the head is one of the given commands, and fewer than all have been popped while the queue is not empty |
| Agent.CollectTestResults | agent.py:144-203 | the loop ends; the log grows by exactly the reports of the popped commands in pop order; on a normal return every given command was popped exactly once; when no polled process is still running, nothing is rotated and the commands are popped in the given order; a raising verdict stops the loop before that command's report |
| Agent.CollectedExactlyOnce | agent.py:157-203 | on a normal return every execution is patched once and cleaned up once per running command it has |
| Agent.SessionTimeAsWritten | agent.py:217-218 | the timestamp raises IndexError exactly when the ISO text has no '.' (see Findings) |
| Agent.SessionTimeWholeSecondRaises | agent.py:217-218 | a clock reading printed without a fraction raises |
| Agent.CharAt | agent.py:217 | a one-character pattern occurs exactly where that character is |
| Agent.SessionTime | agent.py:217-218 | the intended timestamp ends in 'Z', agrees with the written one whenever that succeeds, and gives a whole-second reading ".000Z" |
| Agent.SessionTimeMilliseconds | agent.py:234-235 | a reading `whole.fraction` becomes the whole part, '.', the first three fraction digits and 'Z' |
| Agent.Dispatched | agent.py:223-228 | the queue never holds more commands than there are executions |
| Agent.DispatchedProperties | agent.py:223-228 | the queue holds the command of every execution that yields one, each queued command was produced by some execution, and an error means some execution raised it |
| Agent.MissingRowAbortsDispatch | agent.py:91 | one execution whose DDT row is missing from its table makes the whole dispatch raise; by the contract of `Agent.ExecuteTestSession` the session then raises after its InProgress patch, with nothing collected |
| Agent.DispatchedErrExtends | agent.py:224-225 | once a prefix of the executions raises, the whole dispatch raises the same error |
| Agent.DispatchedHandles | agent.py:124-141 | every queued command holds a process handle of the table |
| Agent.DispatchAll | agent.py:223-228 | the dispatch loop computes the queued commands |
| Agent.ExecuteTestSession | agent.py:206-238 | InProgress and the join come first; a start reading without '.' raises IndexError before anything is dispatched, and a stop reading without '.' raises after the collection; on success both readings had a fraction, the popped commands are exactly those dispatched and the log ends with the times as written and then Completed, also when nothing was dispatched; any raise leaves out times and Completed |
| Agent.OpenSession | agent.py:213-214 | the status patch to InProgress, then the join |
| Agent.CloseSession | agent.py:237-238 | the times patch, then the status patch to Completed |
| Agent.StatusesConcat | agent.py:206-238 | status changes add up over the parts of a log |
| Agent.ReportsSetNoStatus | agent.py:165-197 | reporting results never changes a session status |
| Agent.NoStatusIn | agent.py:165-197 | a log without session patches sets no status |
| Agent.SessionRunStatuses | agent.py:206-238 | a completed session run sets InProgress and then Completed, nothing else |
| Agent.RaisedRunStatuses | agent.py:206-238 | a session run that raises, a whole-second clock reading included, sets InProgress only |
| Agent.StatusesPair | agent.py:237-238 | the statuses of two events are those of each in order |
| Agent.FilteredCases | agent.py:298-301 | a test case is selected exactly when it is in the suite and the filter matches it; never more than the suite holds |
| Agent.FilterCases | agent.py:298-301 | the filter loop computes the selected test cases in suite order |
| Agent.Postings | agent.py:304-314 | two events per selected case, each an execution post or its addition to the session |
| Agent.PostingsShape | agent.py:304-314 | the k-th case's execution is posted (a DDT execution when it has a table) and then added to the session under the id the server assigned |
| Agent.PostExecutions | agent.py:304-314 | the posting loop sends exactly those events |
| Agent.ProcessSuite | agent.py:288-322 | an unparsable user id raises with nothing sent; a user who is not responsible skips the suite with nothing sent; otherwise the session is created, gets the filtered executions, goes Ready and runs; the suite is patched Completed only when the run completes, which never happens with a whole-second start or stop reading; a raising run leaves the preparation, the opening and the reports |
| Agent.SuiteStatuses | agent.py:294-322 | a processed suite's session goes Planned, Ready, InProgress, Completed |
| Agent.SuiteStatusesRaised | agent.py:294-322 | a suite whose session run raises leaves its session at Planned, Ready, InProgress |
| Agent.PreparedStatuses | agent.py:294-310 | the preparation sets Planned and then Ready, nothing else |
| TbcsPublish.TestStepsBlock | examples/cypress/cypress/support/tbcs/tbcs.publish.ts:203-207 | the block found is a "Test Steps" block with no later one; none is found exactly when no block has that title |
| TbcsPublish.StepsChangedIffDiffer | examples/cypress/cypress/support/tbcs/tbcs.publish.ts:201-220 | the steps count as changed exactly when they differ from the descriptions of the last "Test Steps" block, taken as no steps when there is none |
| TbcsPublish.CreatedBlockUnrecognised | examples/cypress/cypress/support/tbcs/tbcs.publish.ts:145 | the steps of a case the publisher created sit in a block titled "Test", which the change test does not read, so the same steps published again count as changed; in a "Test Steps" block, as an update creates, they count as unchanged |
| TbcsPublish.HasTestStepsChanged | examples/cypress/cypress/support/tbcs/tbcs.publish.ts:201-220 | the block scan and the position-by-position comparison compute exactly that change test |
| TbcsPublish.BlockSteps | examples/cypress/cypress/support/tbcs/tbcs.publish.ts:81-88 | one current step per stored step of the block |
| TbcsPublish.CurrentStepsFromTestSteps | examples/cypress/cypress/support/tbcs/tbcs.publish.ts:78-90 | every step scanned from the stored test case belongs to a block titled "Test Steps" and carries that block's id |
| TbcsPublish.ScanCurrentSteps | examples/cypress/cypress/support/tbcs/tbcs.publish.ts:78-90 | the scan loop collects the steps of every "Test Steps" block, block by block |
| TbcsPublish.CreatedSteps | examples/cypress/cypress/support/tbcs/tbcs.publish.ts:105-113 | one current step per logged step |
| TbcsPublish.StepResults | examples/cypress/cypress/support/tbcs/tbcs.publish.ts:181-190 | one result per current step, in order, each Passed except that a failed test fails the last one |
| TbcsPublish.Verdicts | examples/cypress/cypress/support/tbcs/tbcs.publish.ts:181-190 | the step results as a function meet the same description |
| TbcsPublish.StepVerdictsUnique | examples/cypress/cypress/support/tbcs/tbcs.publish.ts:181-190 | that description determines the step results completely |
| TbcsPublish.NoFailedBefore | examples/cypress/cypress/support/tbcs/tbcs.publish.ts:183-186 | steps marked Passed count no failure |
| TbcsPublish.FailedStepCount | examples/cypress/cypress/support/tbcs/tbcs.publish.ts:181-190 | exactly one step fails when the test failed and has steps, none otherwise; an empty step list stays empty |
| TbcsPublish.StepDeletes | examples/cypress/cypress/support/tbcs/tbcs.publish.ts:97-99 | one deletion per stored step |
| TbcsPublish.StepCreates | examples/cypress/cypress/support/tbcs/tbcs.publish.ts:105-106 | one creation per logged step |
| TbcsPublish.ResultAssigns | examples/cypress/cypress/support/tbcs/tbcs.publish.ts:191-193 | one assignment per step result |
| TbcsPublish.NullIfEmpty | examples/cypress/cypress/support/tbcs/tbcs.publish.ts:116 | an empty description is sent as null, any other as itself |
| TbcsPublish.PublishSkipsMissing | examples/cypress/cypress/support/tbcs/tbcs.publish.ts:124-128 | a test case that is not found while updates are skipped gets no request at all: no test case, no execution, no result |
| TbcsPublish.DeleteCallsNoResults | examples/cypress/cypress/support/tbcs/tbcs.publish.ts:95-101 | deleting blocks reports no result |
| TbcsPublish.PublishEndsWithResult | examples/cypress/cypress/support/tbcs/tbcs.publish.ts:68-199 | otherwise the execution result is set exactly once, as the last request, for the found or created test case and the handed-in or created execution |
| TbcsPublish.PublishChangedOnlyResult | examples/cypress/cypress/support/tbcs/tbcs.publish.ts:172-179 | with updates skipped and changed steps, no step result is reported |
| TbcsPublish.PublishReportsEveryStep | examples/cypress/cypress/support/tbcs/tbcs.publish.ts:180-194 | otherwise every prepared step gets its verdict, in order, right before the execution result |
| TbcsPublish.PublishCreatedSteps | examples/cypress/cypress/support/tbcs/tbcs.publish.ts:102-155 | a replaced or newly created test case reports its results for the steps just created, with the step ids the service assigned and the logged texts |
| TbcsPublish.StartReusesWrittenSession | examples/cypress/cypress/support/tbcs/tbcs.publish.ts:31-47 | a start that reads back the file an earlier start wrote reuses that session and sends nothing |
| TbcsPublish.StartWritesItsSession | examples/cypress/cypress/support/tbcs/tbcs.publish.ts:38-47 | a start that creates a session ends by writing the id it works in |
| TbcsPublish.TestBenchAutomation.constructor | examples/cypress/cypress/support/tbcs/tbcs.publish.ts:16 | a fresh publisher has no session and has sent nothing |
| TbcsPublish.TestBenchAutomation.Start | examples/cypress/cypress/support/tbcs/tbcs.publish.ts:16-52 | the session is the stored one unless the file reads "null"; only then is a session created, joined, set InProgress and written to the file |
| TbcsPublish.TestBenchAutomation.End | examples/cypress/cypress/support/tbcs/tbcs.publish.ts:54-66 | unless the run is driven from outside, the session is patched Completed; otherwise nothing is sent |
| TbcsPublish.TestBenchAutomation.DeleteBlocks | examples/cypress/cypress/support/tbcs/tbcs.publish.ts:95-101 | every stored block is deleted, each after its steps |
| TbcsPublish.TestBenchAutomation.CreateSteps | examples/cypress/cypress/support/tbcs/tbcs.publish.ts:105-113 | one step per logged step is created in order, and the current steps carry the assigned ids |
| TbcsPublish.TestBenchAutomation.AssignResults | examples/cypress/cypress/support/tbcs/tbcs.publish.ts:191-193 | every step result is reported, in order |
| TbcsPublish.TestBenchAutomation.Prepare | examples/cypress/cypress/support/tbcs/tbcs.publish.ts:76-156 | the test case is replaced when found, updatable and changed, created when missing, kept otherwise; the answer is the steps results go to |
| TbcsPublish.TestBenchAutomation.OpenExecution | examples/cypress/cypress/support/tbcs/tbcs.publish.ts:158-170 | the execution is the handed-in one or a new one; it is added to the session unless the run is driven from outside, and set InProgress |
| TbcsPublish.TestBenchAutomation.ReportResults | examples/cypress/cypress/support/tbcs/tbcs.publish.ts:172-195 | with updates skipped and changed steps, the test case is marked for review and only the execution result is set; otherwise every step result and then the execution result |
| TbcsPublish.TestBenchAutomation.PublishAutomatedTest | examples/cypress/cypress/support/tbcs/tbcs.publish.ts:68-199 | the requests sent are exactly those of the publication, whose properties the Publish lemmas state |
| TbcsPublish.Descriptions | examples/cypress/cypress/support/tbcs/tbcs.publish.ts:213-214 | the stored steps' descriptions, one per step, in order, as the comparison reads them |
| TbcsPublish.TestBenchAutomation.Send | examples/cypress/cypress/support/tbcs/tbcs.publish.ts:98 | a request appends exactly itself to the request log and changes nothing else |
| ResultReporter.Group | examples/cypress/cypress/support/tbcs/result-reporter.ts:111-113 | a captured value is found only where the pattern `open`, one or more characters and `)` occurs |
| ResultReporter.GroupIffBracketed | examples/cypress/cypress/support/tbcs/result-reporter.ts:68-69 | the value is captured exactly when the content matches the pattern, so the meta classifier and the capture agree |
| ResultReporter.LastGroupSkips | examples/cypress/cypress/support/tbcs/result-reporter.ts:110-122 | a meta command that does not carry the pattern leaves the value as the earlier ones set it |
| ResultReporter.LastGroupFrom | examples/cypress/cypress/support/tbcs/result-reporter.ts:109-122 | the value is the capture of some meta command, or "" when none carries the pattern |
| ResultReporter.Contents | examples/cypress/cypress/support/tbcs/result-reporter.ts:123-126 | the steps are the logged contents, one per command, in insertion order |
| ResultReporter.FindSuite | examples/cypress/cypress/support/tbcs/result-reporter.ts:28-33 | the scan returns the last suite with the name, or none when no suite has it |
| ResultReporter.FindCase | examples/cypress/cypress/support/tbcs/result-reporter.ts:43-48 | the scan returns the last test case with the name, or none when no test case has it |
| ResultReporter.WithSuiteUnique | examples/cypress/cypress/support/tbcs/result-reporter.ts:28-41 | get-or-create keeps at most one suite per name, returns a suite with the name, keeps the earlier suites, and adds exactly one only when none had the name |
| ResultReporter.WithCaseUnique | examples/cypress/cypress/support/tbcs/result-reporter.ts:43-55 | the same for the test cases of a suite |
| ResultReporter.RecordedCase | examples/cypress/cypress/support/tbcs/result-reporter.ts:97-105 | the recorded test holds the logged commands; failed iff its state is "failed", skipped iff "pending"; the error message is set only on a failure and kept otherwise |
| ResultReporter.RecordTestUnique | examples/cypress/cypress/support/tbcs/result-reporter.ts:94-105 | recording a test keeps one suite per title and one test case per title, and the recorded commands and verdict are found under the test's titles |
| ResultReporter.UniqueSuiteFound | examples/cypress/cypress/support/tbcs/result-reporter.ts:28-33 | with unique names the scan finds each suite at its own position |
| ResultReporter.UniqueCaseFound | examples/cypress/cypress/support/tbcs/result-reporter.ts:43-48 | with unique names the scan finds each test case at its own position |
| ResultReporter.TallyBound | examples/cypress/cypress/support/tbcs/result-reporter.ts:158-167 | no test is counted both failed and skipped, so failed plus skipped never exceeds the tests |
| ResultReporter.Tallied | examples/cypress/cypress/support/tbcs/result-reporter.ts:152-167 | a tallied suite counts each of its tests once, and failed plus skipped is at most that count |
| ResultReporter.SumFailedBound | examples/cypress/cypress/support/tbcs/result-reporter.ts:169-171 | the total failures never exceed the total tests |
| ResultReporter.Reporter.constructor | examples/cypress/cypress/support/tbcs/result-reporter.ts:9-20 | the plugin starts with no commands, no suites, not logged in |
| ResultReporter.Reporter.BeforeAllTests | examples/cypress/cypress/support/tbcs/result-reporter.ts:77-92 | the suites are cleared; the publisher is started only on the first run that imports results |
| ResultReporter.Reporter.BeforeEachTest | examples/cypress/cypress/support/tbcs/result-reporter.ts:23-26 | the commands of the previous test are dropped |
| ResultReporter.Reporter.CommandEnd | examples/cypress/cypress/support/tbcs/result-reporter.ts:57-75 | only `log` commands with an argument from a hook id starting with 'r' are recorded; a meta command goes to the meta commands, any other to the commands, and nothing else changes |
| ResultReporter.Reporter.GetOrCreateSuite | examples/cypress/cypress/support/tbcs/result-reporter.ts:28-41 | the suites gain a suite with the name only when none had it, and the index returned holds a suite with that name |
| ResultReporter.Reporter.GetOrCreateCase | examples/cypress/cypress/support/tbcs/result-reporter.ts:43-55 | only the chosen suite changes, by get-or-create of the test case |
| ResultReporter.Reporter.RecordTestCase | examples/cypress/cypress/support/tbcs/result-reporter.ts:94-105 | the test is recorded under its suite and title, and the answer has the title and the failed verdict |
| ResultReporter.Reporter.AfterEachTest | examples/cypress/cypress/support/tbcs/result-reporter.ts:94-141 | the test is recorded; when result import is skipped nothing is published; otherwise the publisher gets the external id and description from the last meta commands carrying them, the logged contents as steps, and Failed or Passed |
| ResultReporter.Reporter.AfterAllTests | examples/cypress/cypress/support/tbcs/result-reporter.ts:145-172 | every suite is tallied, the totals are the sums over the suites with failures at most tests, and the publisher is ended unless result import is skipped or an execution id was handed in |
| ResultReporter.MetaValue | examples/cypress/cypress/support/tbcs/result-reporter.ts:109-122 | the loop over the meta commands computes the last captured value |
| ResultReporter.StepTexts | examples/cypress/cypress/support/tbcs/result-reporter.ts:123-126 | the loop computes the logged contents in order |
| ResultReporter.TallySuite | examples/cypress/cypress/support/tbcs/result-reporter.ts:153-167 | the per-test loop computes the suite's tallies |

## Left out

- HTTP and GraphQL transport, login and logout, status assertions, and the TypeScript service client `tbcs.api.ts`. Requests are log entries, and answers are parameters.
- Starting processes (`subprocess.Popen`/`run`, `libdoc`, `behave`), and the real `poll()` and `returncode`. A launch outcome is a parameter. A process that never ends is not represented: every process answers "still running" only finitely often.
- File-system work is not modelled: attachment download and temporary directories, `os.walk` and `glob`, file reads and writes, removal of temporary files, and Behave's JSON loading. Walked files and their lines, the existing paths and the parsed JSON report are inputs.
- Logging, the progress bar and other terminal output.
- Regular expression semantics. `is_equal_parameterized` and regex-valued filter entries are parameters (`parameterized`, `search`). The Cypress external id pattern is a substring test. The source searches the spec file with `in` but rewrites it with `re.search(external_id, line)`. For an id holding pattern characters, such as `TC(1)`, the source finds the file, then makes no temporary spec and skips the test; an id that is no valid pattern raises `re.error`. The model finds the line in both scans, so it has neither case. The patterns of the import scripts and the reporter are written out as scanning functions that ignore that `.` does not match a newline.
- `upper()` and `lower()` are ASCII only; Unicode case mapping is not modelled.
- RFKdt.SanitizeName: the alphanumeric test is ASCII only, while Python's `str.isalnum()` also keeps Unicode letters and digits. A test case named `Prüfung` keeps its `ü` in RFKdt.py and becomes `Pr_fung` in the model, and so do the result directory and the file names derived from it. Unicode character classes are not modelled.
- Clock values (`datetime.utcnow`, `moment`) are parameters. The elapsed-time log line and the `toFixed` second formatting are not modelled.
- The JUnit XML text written by `afterAllTests`, and its error file, are not modelled. Only the tallies are.
- Command line parsing, `input` prompts, `sleep`, the outer polling loop of the agent, the test session branch of that loop (agent.py:325-347) and the `cy.wrap`/async chaining are not modelled. The main loop is modelled for one suite (`Agent.ProcessSuite`).
- `import_kwd_rf.py`, `import_tc_bdt.py` and `add_test_steps` of `import_tc_rf.py`: these are sequences of remote calls with no decision logic of their own.
- TbcsUtils.GetOrCreateKwd: update levels above 1 are excluded by its precondition. Those branches call `delete_keyword_param`, which the client does not define, and remove from a list while iterating over it.
- Adapters.AdapterTemplate.constructor, RFKdt.RFKdt.constructor, CypressAdapter.Cypress.constructor: each requires the automation's external id. Without it the source raises KeyError inside the constructor. That path is modelled by `Adapters.ExternalIdOf` and `Agent.AdapterInstance`, where the error aborts the session. Nothing in the agent catches it.
- RobotFramework: the external id used for test selection is the constant 0, as the source hard-codes it, so selection is always by name.
- The reporter keeps its suites and test cases in JavaScript `Set`s of objects and changes them through references. The model keeps them as sequences of values and updates them by index; object aliasing is not represented.
- `localeCompare(...) !== 0` in `hasTestStepsChanged` is exact string inequality; locale collation is not modelled.
- Agent.ReportHead: a `check_result` that raises is modelled as sending nothing. Requests it sent before raising are not in the log. An example is an RFKdt upload that fails after earlier files were uploaded.
- RFKdt.RFKdt.CheckResult: the configured removal of the generated `.robot` file is file-system work and is not modelled, and neither is an upload that raises. The directory listings are parameters.
- `Tbcs.ParseInt` (Python's `int()` on the user id) accepts an optional sign and digits only. The blanks and underscores that Python's `int()` also accepts are not modelled, and neither are the non-ASCII decimal digits it accepts, such as `'٣'`.
- The reporter's `command:end` listener reads `logs[0]` of every command; a command without a log entry is not represented.
- `import_cypress.py`: a metadata or log line after a new `describe(` and before its first `it(` changes a test case of the replaced story. That story is no longer returned, so the model drops the change rather than tracking the unreachable object.

## Findings

| source | as written | input that shows it | evidently intended | confidence | as-written member | corrected member |
|---|---|---|---|---|---|---|
| agent.py:217-218 | the start and stop times split `isoformat()` at '.' and take index 1 | a clock reading with zero microseconds, for which `isoformat()` prints no fraction, e.g. `2024-01-01T10:00:00`; index 1 raises IndexError | a whole-second reading gives the fraction `.000` | not executed | Agent.SessionTimeWholeSecondRaises | Agent.SessionTime |
| utils/tbcs_utils.py:658-662 | `TBCS_BASE[-1]` is read before the empty address is replaced by the default | an empty `TBCS_BASE`, for which `""[-1]` raises IndexError | an empty address falls back to the default server | not executed | TbcsUtils.ServerBaseEmptyRaises | TbcsUtils.ServerBase |
| agent.py:113-119 | the converted 'Parallel' field is compared with `''`, which `stringToBoolean` never returns | an unset 'Parallel' field with `config.PARALLEL = True`: the test still runs blocking, because the flag is None | an unset field falls back to `config.PARALLEL` | not executed | Agent.ParallelFallbackDead | Agent.ParallelSetting |

The agent operations keep the behaviour as written. `Agent.ExecuteTestCase` takes its flag from `Agent.ParallelAsWritten`, and `Agent.ExecuteTestSession` takes both times from `Agent.SessionTimeAsWritten`, raising on a whole-second reading (`Agent.RaisedRunStatuses` and `Agent.SuiteStatusesRaised` give the statuses that leaves). `Agent.ParallelSetting` and `Agent.SessionTime` are the corrected definitions, with their properties proved; `Agent.ParallelSettingDiffers` and `Agent.SessionTime`'s agreement clause state where the written and the corrected versions differ. `TbcsUtils.ServerBase` is the corrected address normalisation, and `TbcsUtils.ServerBaseAsWritten` the written one.
