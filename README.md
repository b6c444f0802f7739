# A verified model of the API-test scenario runner

This project models the core of an API-testing tool built on the mocha test
library. It has three parts:

- **Macro substitution** (`lib/testUtils.js`). A request or expected-response
  document is written out as JSON text. Every `{{expr}}` token in that text
  is looked up as a JSON-path expression against the execution context. A
  token whose lookup is truthy is replaced, the first occurrence at a time.
- **Report transform and rendering** (`lib/reportUtils.js`). The test
  library's raw report tree (`suites`/`tests`) becomes a tree of
  `{title, pass, items}` nodes. A title gains a ` (identity)` suffix when a
  custom identity matches the node's uuid. The tree is rendered two ways:
  - as console lines;
  - as an HTML list, where each top-level heading is followed by links to
    issue-tracker tasks. The tasks are found from the first bracketed term
    of the title.
- **The scenario step runner** (`lib/scenarioBase.js`). `execute` first runs
  the context initialiser. It then registers the scenarios named in
  `executeBefore`, each found among the configuration folders by its
  basename. Last, it registers one test per non-skipped step. Running a
  test means:
  - load its requests, with macros resolved, into a fresh step context;
  - call the executor;
  - append a report entry;
  - run the asserts.

  Each registered test closes over the context object and the report list
  of the `execute` call that registered it. The before-scenarios of a call
  share its context. Any failure sets `bypassOnError` in that context.
  Every later test bound to the same context then fails at once with
  "Failed on the previous step". Tests of another top-level `execute`
  call, with a context of their own, run on.

Files:

- `Wrappers.dfy`: `Option` and `Result`.
- `Macros.dfy`: the token grammar, the substitution and its properties.
- `Report.dfy`: parsing, console output, the search term and HTML output,
  with their properties.
- `ScenarioModel.dfy`: the step runner as functions on values, with the
  properties of one step, of a run (fail-fast) and of registration.
- `ScenarioBase.dfy`: module `Scenarios`, the imperative side. It has these
  classes:
  - `ScenarioBase`, the methods of the source class;
  - `Context`, the context object of one top-level `execute` call;
  - `ReportList`, the report array passed to `execute`;
  - `Mocha`, the test library's registration list and run phase. Each
    registered test carries the context object and report list it
    captured.

  Each method is proved equal to the `ScenarioModel` function it
  implements.

Everything the code reaches outside itself is a parameter of the model (the
`Env` datatype, or a function argument). That covers file reads, JSON
parsing, schema validation, `require` of executor, assert and initialiser
functions, the JSON-path query, the folder scan, test uuids and the
issue-tracker lookup. The lookup either answers with a task list or throws.

Where the code and its design description differ, the model follows the
code:

- **Children.** Both `suites` and `tests` are written to `itemRes.items` as
  `([] || itemRes.items).concat(...)`. `[]` is truthy, so a node with
  non-empty `tests` keeps only its tests. Its suites are not concatenated
  with them (`Report.ParsedNode`).
- **Non-array children.** The test `item.tests && item.tests.length > 0`
  also passes for a non-array with a positive `length`, such as a non-empty
  string. `parseRecurs` returns `[]` for it, so the node gets an empty
  `items` list (`Report.StrayLengthGivesEmptyItems`).
- **Search term.** The term comes from `/\[.*\]/g`. Its `.` does not cross
  a line terminator, so the term runs from the first `[` to the last `]` on
  the same line, not in the whole title.
- **Leading space.** `' ' + jiraTasks || ''` is always `' ' + jiraTasks`,
  so a heading with no tasks still ends in a space.
- **Empty report.** `toHtml` throws when the report is empty or its first
  node has no items. The model returns `Err` there.

## Model

| member | source | states |
|---|---|---|
| Macros.Retrieve | lib/testUtils.js:23-31 | the first match of the query, or `undefined` when there is none |
| Macros.RunEnd | lib/testUtils.js:7 | the run of token characters from a position ends at a non-token character or the end of the text |
| Macros.MatchAt | lib/testUtils.js:7 | a match found at a position is a `{{…}}` token there, with only token characters inside |
| Macros.MatchAtFinds | lib/testUtils.js:7 | every token at a position is the one the matcher returns |
| Macros.Scan | lib/testUtils.js:7 | every match the global scan returns lies inside the text, from the scan position on |
| Macros.ScanSound | lib/testUtils.js:7 | each span of the scan is a token, and the spans are in order and do not overlap |
| Macros.ScanComplete | lib/testUtils.js:7 | every token the scan can reach is covered by one of its spans |
| Macros.NoTokenMissed | lib/testUtils.js:7 | every token anywhere in the text is covered by a span of the scan from the start |
| Macros.ScanSkip | lib/testUtils.js:7 | skipping positions where no `{{` starts does not change the scan |
| Macros.TokensFound | lib/testUtils.js:7-9 | the match list has one entry per span; each entry is the token text, and removing its braces gives the text between them |
| Macros.RepeatedTokensFound | lib/testUtils.js:7 | in `{{a}}-{{a}}` the token `{{a}}` is matched twice |
| Macros.RemoveBracesAppend | lib/testUtils.js:9 | brace removal distributes over concatenation |
| Macros.RemoveBracesOfTokenChars | lib/testUtils.js:9 | brace removal leaves a run of token characters unchanged |
| Macros.TokenExpression | lib/testUtils.js:9 | a token's expression is exactly the text between its `{{` and `}}` |
| Macros.FindFrom | lib/testUtils.js:14 | the first occurrence of the pattern, or none anywhere |
| Macros.ReplaceFirst | lib/testUtils.js:14 | with no occurrence the text is unchanged; otherwise only the first occurrence is replaced |
| Macros.ReplaceFirstAtStart | lib/testUtils.js:14 | a text that starts with the pattern has its start replaced |
| Macros.SecondReplacement | lib/testUtils.js:14 | in `x-{{a}}`, replacing `{{a}}` by `x` gives `x-x` |
| Macros.HandleJsonPathMacros | lib/testUtils.js:7-17 | the loop over the matches computes the specification of the whole substitution |
| Macros.FalsyLookupsKeepText | lib/testUtils.js:11-15 | when every lookup is falsy the text is unchanged |
| Macros.MacroFreeUnchanged | lib/testUtils.js:5-19 | a text with no token is unchanged, and substitution of it is idempotent |
| Macros.SingleToken | lib/testUtils.js:7-15 | a text with one token and no other `{{` has that token replaced by its value's text when the value is truthy, and is unchanged otherwise |
| Macros.ResolveNumberExample | lib/testUtils.js:7-15 | `{"x":"{{$.a.b}}"}` with `$.a.b` = 5 becomes `{"x":"5"}` |
| Macros.RepeatedTokenExample | lib/testUtils.js:7-17 | `{{a}}-{{a}}` with `a` = `x` becomes `x-x` |
| Macros.ResolveTwo | lib/testUtils.js:7-17 | a text whose matches are the same token twice is resolved by two first-occurrence replacements in turn |
| Report.FindIdentity | lib/reportUtils.js:45-47 | the first custom identity with the uuid, or none has it |
| Report.GetIdentity | lib/reportUtils.js:43-51 | `undefined` with no identity list or no match; otherwise the matching entry's identity |
| Report.ParseRecurs | lib/reportUtils.js:53-85 | the recursion builds the specified node tree |
| Report.ParseOne | lib/reportUtils.js:59-79 | the node built for one item is the specified node |
| Report.ParseShape | lib/reportUtils.js:55-83 | a missing or non-array field gives no nodes; an array gives one node per element, in order |
| Report.ParsedNode | lib/reportUtils.js:61-75 | `pass` is copied; ` (identity)` is added exactly when the identity is truthy; items come from `tests` when it is truthy with a positive `length`, else likewise from `suites`, else are absent; a non-array field passing that test gives no children |
| Report.ParsedItemsNonEmpty | lib/reportUtils.js:69-75 | in a tree with no non-array `suites` or `tests` of positive length, no node has an empty `items` list |
| Report.StrayLengthGivesEmptyItems | lib/reportUtils.js:73-74 | a non-array `tests` field with a positive `length` gives the node an empty `items` list |
| Report.ParseWithoutIdentities | lib/reportUtils.js:61-67 | without custom identities every title is kept and `pass` is copied |
| Report.IdentityExample | lib/reportUtils.js:61-63 | identity `Bob` on uuid `u1` turns title `t1` into `t1 (Bob)` |
| Report.ParseReportExample | lib/reportUtils.js:107-115 | the raw report `{suites:{suites:[A with test t1 passed]}}` gives `[A: [t1 passed]]` |
| Report.Spaces | lib/reportUtils.js:94 | two spaces per level |
| Report.ConsoleLogRecurse | lib/reportUtils.js:87-105 | the recursion prints the specified lines, the leading blank at level 0 included |
| Report.ConsoleBodyAppend | lib/reportUtils.js:92-103 | the lines of a concatenated list are the concatenated lines |
| Report.ConsoleBodySnoc | lib/reportUtils.js:92-103 | adding a node adds its lines at the end |
| Report.NodeLinesParts | lib/reportUtils.js:94-102 | a node prints its own line, then its children one level deeper, then a blank line above level 2 |
| Report.CountLinesAppend | lib/reportUtils.js:96 | the non-blank lines of a concatenation add up |
| Report.ConsoleOneLinePerNode | lib/reportUtils.js:92-99 | a list prints exactly one non-blank line per node of the tree |
| Report.NodeOneLine | lib/reportUtils.js:94-99 | a node prints exactly one non-blank line per node of its subtree |
| Report.ConsoleDeepNoBlank | lib/reportUtils.js:101-102 | from level 2 down no blank line is printed |
| Report.NodeDeepNoBlank | lib/reportUtils.js:101-102 | a node at level 2 or deeper prints no blank line |
| Report.ConsoleIndentation | lib/reportUtils.js:94-95 | every line of a list at a level starts with that level's indentation |
| Report.NodeIndentation | lib/reportUtils.js:94-99 | every line a node prints starts with its level's indentation |
| Report.LastClose | lib/reportUtils.js:126 | the last `]` reachable on the same line, or none is reachable |
| Report.FirstBracket | lib/reportUtils.js:126 | the leftmost `[` that has a `]` after it on its line, paired with the last such `]` |
| Report.SearchTermAt | lib/reportUtils.js:126 | the search term is the bracket-stripped text of the first, longest bracketed match |
| Report.StripBracketed | lib/reportUtils.js:126 | stripping `[body]` gives `body` when the body has no brackets |
| Report.AnchorsSnoc | lib/reportUtils.js:134-136 | adding a task adds its link at the end |
| Report.GetJiraTasksHtml | lib/reportUtils.js:124-141 | throws exactly when the title has a non-empty search term whose lookup throws, with the lookup's error; otherwise the links for the tasks found, or nothing when there is no term |
| Report.ExampleTitle | lib/reportUtils.js:124-153 | title `Login [PROJ-123]` has search term `PROJ-123` and heading text `Login PROJ-123` |
| Report.HtmlBodyAppend | lib/reportUtils.js:147-168 | the HTML of a concatenated list is the concatenated HTML |
| Report.HtmlBodySnoc | lib/reportUtils.js:147-168 | adding a node adds its HTML at the end |
| Report.ToHtmlRecurs | lib/reportUtils.js:143-173 | throws exactly when some top-level heading's lookup throws, with the error of the first such heading; otherwise builds the specified `<ul>` list |
| Report.ToHtml | lib/reportUtils.js:175-177 | succeeds exactly when the report's first node has items and no top-level heading's lookup throws, and then renders them at level 0 |
| Report.FailedLookupRejects | lib/reportUtils.js:130-153 | a heading `Login [PROJ-123]` whose lookup throws makes the whole rendering throw, whatever follows it |
| Report.HtmlBelowTopIgnoresTasks | lib/reportUtils.js:149-157 | below the top level the output does not depend on the issue tracker |
| Report.StripBracketsNone | lib/reportUtils.js:153 | a title without brackets is unchanged |
| Report.StripBracketsAppend | lib/reportUtils.js:153 | bracket removal distributes over concatenation |
| Report.StripBracketsOne | lib/reportUtils.js:153 | one character is removed exactly when it is a bracket |
| Report.HeadingWithoutBrackets | lib/reportUtils.js:151-153 | a bracket-free top heading is the bold title followed by a space |
| Report.HeadingExample | lib/reportUtils.js:151-153 | the heading of `Login [PROJ-123]`, and with no tasks it ends in a bare space |
| ScenarioModel.Bypass | lib/scenarioBase.js:157 | after a failure the context is bypassed |
| ScenarioModel.InitStepCtx | lib/scenarioBase.js:49-55 | a fresh step context holds the actor, no requests, the empty object as response and no expected document |
| ScenarioModel.RunUnits | lib/scenarioBase.js:123-165 | one outcome per registered test |
| ScenarioModel.Bind | lib/scenarioBase.js:127-129 | every test of one call is bound to that call's context and report list, in order |
| ScenarioModel.BindAppend | lib/scenarioBase.js:125-129 | binding keeps the order of concatenated test lists |
| ScenarioModel.LoadRequestsStop | lib/scenarioBase.js:27-46 | once a request fails, the later requests change nothing |
| ScenarioModel.LoadRequestFrame | lib/scenarioBase.js:29-44 | one request changes only the step's requests and its own context key, adds its code, and on success stores the substituted body of its file under its code |
| ScenarioModel.RequestsStored | lib/scenarioBase.js:27-46 | loading calls nothing, touches only the step's key, and on success stores one request per request code |
| ScenarioModel.RequestBody | lib/scenarioBase.js:27-44 | on success, the last request with a code has its file's body, substituted against the context as it stood, stored under that code |
| ScenarioModel.RequestBodies | lib/scenarioBase.js:27-44 | on success, every code holds the substituted body of the last request with that code |
| ScenarioModel.AssertCalls | lib/scenarioBase.js:76-79 | one assert call per assert, each with its resolved module |
| ScenarioModel.RunAssertsStop | lib/scenarioBase.js:67-80 | once an assert throws, the later asserts are not run |
| ScenarioModel.RunAssertCall | lib/scenarioBase.js:69-79 | one assert makes at most one call, and makes it when its expected document loads |
| ScenarioModel.AssertsInOrder | lib/scenarioBase.js:67-80 | the asserts are called as a prefix of the list, the whole list when none throws |
| ScenarioModel.AssertCallsSnoc | lib/scenarioBase.js:67 | the calls of a longer list extend those of its prefix |
| ScenarioModel.AssertsOnlySetExpected | lib/scenarioBase.js:69-74 | asserts change only the expected document of the step context; with no expected documents they change nothing |
| ScenarioModel.RunAssertFrame | lib/scenarioBase.js:69-79 | one assert changes only the expected document and the step's own key |
| ScenarioModel.NoAssertsRun | lib/scenarioBase.js:86-95 | a step with no assert, or a scalar one, runs no assert |
| ScenarioModel.ObjectAssertRuns | lib/scenarioBase.js:88-93 | a single assert object runs as a one-element list |
| ScenarioModel.BypassedStepInert | lib/scenarioBase.js:131-132 | in a bypassed context a step fails with the fixed message and changes nothing |
| ScenarioModel.FailedStepBypasses | lib/scenarioBase.js:154-158 | a failed step leaves the context bypassed |
| ScenarioModel.StepReport | lib/scenarioBase.js:143-152 | exactly one report entry, with the test's uuid, when the executor runs; none otherwise, and the step fails |
| ScenarioModel.PassedStepCalls | lib/scenarioBase.js:139-152 | a passing step called its executor once and then every assert, in order |
| ScenarioModel.PassedStepContext | lib/scenarioBase.js:139-146 | a passing step stores the actor, its request codes and the executor's response under its code, and changes no other key |
| ScenarioModel.StepChain | lib/scenarioBase.js:139-152 | for loaded requests, the step context keeps actor, request codes and response through the asserts |
| ScenarioModel.RunUnitsSnoc | lib/scenarioBase.js:129-161 | the run of one more test is the earlier run followed by that test on its own context and report list |
| ScenarioModel.BodyRunsSteps | lib/scenarioBase.js:129-161 | the registered test body runs every test as the step function does |
| ScenarioModel.BodyFailsFast | lib/scenarioBase.js:131-158 | the registered test body fails at once in a bypassed context, and bypasses its context when it fails |
| ScenarioModel.ContextKept | lib/scenarioBase.js:129-161 | the run neither creates nor drops a context object |
| ScenarioModel.LastFailureBypasses | lib/scenarioBase.js:154-158 | a run whose last test failed ends bypassed |
| ScenarioModel.InertLast | lib/scenarioBase.js:131-132 | after a bypass, one more test fails with the fixed message and changes no state |
| ScenarioModel.OutcomesExtend | lib/scenarioBase.js:129-161 | running one more test does not change the earlier outcomes |
| ScenarioModel.OtherContextKept | lib/scenarioBase.js:129-161 | a test leaves every other context object as it was |
| ScenarioModel.OtherReportKept | lib/scenarioBase.js:149 | a test leaves every other report list as it was |
| ScenarioModel.PrefixOutcome | lib/scenarioBase.js:129-161 | later tests do not change the outcome of an earlier one |
| ScenarioModel.BypassedContextStays | lib/scenarioBase.js:131-132 | a bypassed context keeps what it holds through every later test |
| ScenarioModel.LaterTestFails | lib/scenarioBase.js:131-132 | a later test bound to a bypassed context fails with the fixed message |
| ScenarioModel.FailFast | lib/scenarioBase.js:129-161 | after a test fails, every later test bound to its context fails with the fixed message, and that context stays as the failure left it, bypassed |
| ScenarioModel.FailFastShared | lib/scenarioBase.js:131-132 | when all later tests share the failed test's context, nothing at all changes after the failure |
| ScenarioModel.ContextUntouched | lib/scenarioBase.js:129-161 | a context object no test is bound to keeps what it held |
| ScenarioModel.ReportUntouched | lib/scenarioBase.js:149 | a report list no test is bound to keeps what it held |
| ScenarioModel.FirstOfContext | lib/scenarioBase.js:204-206 | the first test of a context sees it as it was before the run, whatever the tests of other contexts did |
| ScenarioModel.NotSkipped | lib/scenarioBase.js:125 | filtering never lengthens the step list |
| ScenarioModel.NotSkippedMembers | lib/scenarioBase.js:125 | a step is kept if and only if it is in the list and not skipped |
| ScenarioModel.NotSkippedAppend | lib/scenarioBase.js:125 | the filter distributes over concatenation |
| ScenarioModel.OwnUnits | lib/scenarioBase.js:125-129 | one test per non-skipped step, in order, in the scenario's folder |
| ScenarioModel.BasenameSuffix | lib/scenarioBase.js:192 | the basename is the slash-free tail after the last `/` |
| ScenarioModel.FindFolder | lib/scenarioBase.js:192 | the first folder with the basename, or no folder has it |
| ScenarioModel.FindFolderFrom | lib/scenarioBase.js:192 | the first folder with the basename from a position on, or none there |
| ScenarioModel.RegisteredUnits | lib/scenarioBase.js:204-216 | only non-skipped steps of known folders are registered, and a scenario's own tests come after its before-scenarios |
| ScenarioModel.BeforeUnits | lib/scenarioBase.js:190-198 | before-scenarios register only non-skipped steps of scanned folders |
| ScenarioModel.BeforeStop | lib/scenarioBase.js:190-198 | once a before-scenario fails, the later names are not processed |
| ScenarioModel.MissingFolderFails | lib/scenarioBase.js:192-195 | a name with no matching folder makes registration fail, with "Scenario folder … isn't found" for that name when the names before it registered |
| Scenarios.Context.constructor | lib/scenarioBase.js:169 | a context holding the given keys |
| Scenarios.ReportList.constructor | lib/scenarioBase.js:115 | an empty report list |
| Scenarios.ReportList.Push | lib/scenarioBase.js:115 | the entry is appended |
| Scenarios.Bindings | lib/scenarioBase.js:127-129 | one bound test per registered test, with its scenario's folder, its step and the context and report list it captured |
| Scenarios.BindingsAppend | lib/scenarioBase.js:129 | the bindings of a concatenation are the concatenated bindings |
| Scenarios.Snapshot | lib/scenarioBase.js:129 | a world holding what every registered test's context object and report list hold |
| Scenarios.Mocha.constructor | lib/scenarioBase.js:129 | no tests, outcomes or calls yet |
| Scenarios.Mocha.It | lib/scenarioBase.js:129 | the test is appended to the registered tests |
| Scenarios.Mocha.RunTestAt | lib/scenarioBase.js:129-161 | one test runs on the context object and report list it captured, as the test body specifies on the world |
| Scenarios.Mocha.RunFrom | lib/scenarioBase.js:129-161 | the tests from a position on run in order, extending the specified run of those before |
| Scenarios.Mocha.Run | lib/scenarioBase.js:129-161 | from any world holding what the captured context objects and report lists hold, running the registered tests in order leaves every one of them, the calls and the outcomes as the specified run gives |
| Scenarios.ScenarioBase.constructor | lib/scenarioBase.js:101-107 | a scenario with its folder and configuration |
| Scenarios.ScenarioBase.Load | lib/scenarioBase.js:98-111 | a scenario exactly when the configuration loads, otherwise its error |
| Scenarios.ScenarioBase.LoadRequestsToContext | lib/scenarioBase.js:25-47 | the loop loads the requests as specified, stopping at the first failure |
| Scenarios.ScenarioBase.Executor | lib/scenarioBase.js:57-63 | records the executor call; on success stores the response, on a throw changes nothing and reports the error |
| Scenarios.ScenarioBase.DoAssert | lib/scenarioBase.js:65-82 | the loop runs the asserts as specified, stopping at the first throw |
| Scenarios.ScenarioBase.Assert | lib/scenarioBase.js:84-96 | runs the normalised assert list as specified |
| Scenarios.ScenarioBase.SetStepReport | lib/scenarioBase.js:113-121 | appends one entry with the uuid and the step's identity |
| Scenarios.ScenarioBase.RunTest | lib/scenarioBase.js:129-161 | one test body changes the context, report and calls as specified |
| Scenarios.ScenarioBase.ExecuteSteps | lib/scenarioBase.js:123-165 | one test per non-skipped step is appended, in order, bound to the given context and report list |
| Scenarios.ScenarioBase.InitContext | lib/scenarioBase.js:167-180 | the given or a new context, passed through the initialiser when one is configured |
| Scenarios.ScenarioBase.ExecuteBefore | lib/scenarioBase.js:182-202 | the named scenarios are registered in order, bound to the same context and report list, as specified |
| Scenarios.ScenarioBase.Execute | lib/scenarioBase.js:204-218 | initialiser, then before-scenarios, then own steps, all bound to the call's context and report list, as specified |

## Left out

- JSON text: `JSON.stringify` and `JSON.parse` are not modelled. A document is its JSON text, and parsing is `Env.parse`, which may fail.
- Replacement patterns: `String.replace` also expands `$&`, `$1` and similar patterns in the replacement value; the model inserts the value's text literally.
- JSON-path: the JSONPath query language is the `query` parameter. Only the "first match or undefined" rule of `retrieve` is modelled.
- Numbers: a number is an integer. Floating-point formatting is not modelled.
- File I/O: `readReportObject`, `readCustomTestReport`, `saveToFile` and `logToConsole` are not modelled. `console.log` output is a list of lines.
- Issue tracker: the HTTP request and the response parsing of `getTaskForTestScenario` (lib/jiraUtils.js) are not modelled. The lookup is the `lookup` parameter. Its `Err` stands for the throw that follows a failed request, where `apiRequest` returns `{}` and `JSON.parse` rejects it.
- Schema validation: `lib/schemaValidator.js` is not part of this model. It is `Env.validate`, and configuration loading is `Env.load`.
- Paths: `glob`, `path.resolve` and `path.dirname` are `Env.folders` and `Env.resolve`. `path.basename` is the text after the last `/`, without trailing-slash handling.
- `require`: executor, assert and initialiser functions are `Env.execute`, `Env.check` and `Env.init`, each applied to a resolved module reference.
- Side effects of called functions: an executor, assert or initialiser changes the context only through what it returns. A throwing initialiser leaves the context unchanged.
- mocha: `describe` titles are not recorded, and uuids are `Env.uuid`. Async execution is sequential. An error during registration stops registration.
- ScenarioModel.Register: `fuel` bounds the nesting of `executeBefore`, standing for the call stack. Running out reports "Maximum call stack size exceeded".
- Colour codes: the ANSI colour codes of the console output are kept as plain text.
- Malformed configurations: a step without an `executor`, and an assert array element that is not an object, are not modelled; the model assumes every configuration has them. The schema that `_validate` checks configurations against lives in the project that uses the tool (`./test/api/infrastructure/schema`) and is not part of this model.
- Missing report list: `execute` called without a `report` makes `report.push` throw inside each test. The model always passes a report list.
- RequestsStored: states the frame and the stored keys only. The stored bodies are stated by ScenarioModel.RequestBody and ScenarioModel.RequestBodies, to keep each proof small.
- Report.ParsedItemsNonEmpty: holds only for raw trees with no non-array `suites` or `tests` field of positive length (a non-empty string, say). Such a field gives an empty `items` list (Report.StrayLengthGivesEmptyItems).
