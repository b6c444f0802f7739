/**
 * The scenario step runner of lib/scenarioBase.js, on values.
 *
 * A scenario is a folder with a configuration: a description, an ordered
 * list of steps, an optional context initialiser and the names of scenarios
 * to run before it. Running a scenario has two phases, as under the mocha
 * test library: `execute` initialises the shared context, registers the
 * before-scenarios and then registers one test per non-skipped step; the
 * registered tests are then run in order. Each test loads the step's
 * requests into a fresh step context, calls the executor, appends a report
 * entry and runs the asserts; any failure sets `bypassOnError` in the
 * context so that every later step fails at once.
 *
 * Everything the runner reaches outside itself (files, schema validation,
 * dynamically required executor, assert and initialiser functions, the
 * JSON-path query, the folder scan, test identifiers) is a field of `Env`.
 * The classes of ScenarioBase.dfy are proved against the functions here.
 */
module ScenarioModel {
  import opened Wrappers
  import opened Macros

  // ---------------------------------------------------------------------
  // Configuration.
  // ---------------------------------------------------------------------

  /** A `{module, function}` reference to a dynamically required function. */
  datatype ModuleRef = ModuleRef(modulePath: string, functionName: string)

  /** An entry of `step.requests`; an empty `schema` is an absent one. */
  datatype RequestRef = RequestRef(code: string, path: string, schema: string)

  /** One assert; an empty `expected` is an absent one. */
  datatype AssertSpec = AssertSpec(expected: string, check: ModuleRef)

  /** The `assert` field of a step: falsy, an array, another object, or a
      truthy value that is not an object. */
  datatype AssertField = NoAssert | AssertList(asserts: seq<AssertSpec>) | AssertObject(single: AssertSpec) | AssertScalar

  /** A step of the configuration; missing `requests` is the empty list and
      an empty `identityExpression` is an absent one. */
  datatype Step = Step(
    code: string,
    description: string,
    actor: JsValue,
    skip: bool,
    requests: seq<RequestRef>,
    executor: ModuleRef,
    asserts: AssertField,
    identityExpression: string)

  datatype ScenarioConfig = ScenarioConfig(
    description: string,
    steps: seq<Step>,
    initContext: Option<ModuleRef>,
    executeBefore: seq<string>)

  // ---------------------------------------------------------------------
  // Run-time state.
  // ---------------------------------------------------------------------

  /** The step context `{actor, requests, response, expected?}`. Request
      bodies and expected documents are held as their JSON text. */
  datatype StepContext = StepContext(actor: JsValue, requests: map<string, string>, response: JsValue, expected: Option<string>)

  /** A value of the shared context: a step context stored under a step code, or any other value. */
  datatype Entry = Slot(stepCtx: StepContext) | Value(value: JsValue)

  /** The shared context object. */
  type Data = map<string, Entry>

  /** An entry of the report list. */
  datatype ReportEntry = ReportEntry(uuid: string, identity: JsValue)

  /** A call into a dynamically required executor or assert function. */
  datatype Call = Executed(code: string, executor: ModuleRef) | Asserted(code: string, check: ModuleRef)

  /** The result of one registered test. */
  datatype Outcome = Passed | Failed(message: string)

  /** The result of a schema validation or an assert function: it returns or it throws. */
  datatype Check = Pass | Throw(message: string)

  /** A test registered with `it`: the scenario folder its closure resolves paths against, and its step. */
  datatype Unit = Unit(folder: string, step: Step)

  /** The world outside the runner. */
  datatype Env = Env(
    resolve: (string, string) -> string,          // path.resolve(folder, relative)
    readJson: string -> Result<string>,           // read a file and JSON-parse it
    parse: string -> Check,                       // JSON.parse of a text after macro substitution
    validate: (string, string) -> Check,          // schemaValidator.validate(schemaPath, dataPath)
    query: (Data, string) -> seq<JsValue>,        // the JSON-path query on the context
    execute: (ModuleRef, Step, Data, StepContext) -> Result<JsValue>,
    check: (ModuleRef, Step, Data, StepContext) -> Check,
    init: (ModuleRef, Data) -> Result<Data>,      // an initContext function, mutating the context
    folders: seq<string>,                         // the folders holding a configuration.json
    load: string -> Result<ScenarioConfig>,       // validate and read a folder's configuration
    uuid: nat -> string)                          // the identifier of the k-th registered test

  const BypassKey: string := "bypassOnError"
  const PreviousStepFailed: string := "Failed on the previous step"
  const StackExhausted: string := "Maximum call stack size exceeded"

  function FolderNotFound(name: string): string {
    "Scenario folder " + name + " isn't found"
  }

  /** JavaScript truthiness of a context value: a step context is an object. */
  predicate EntryTruthy(e: Entry) {
    match e
    case Slot(_) => true
    case Value(v) => Truthy(v)
  }

  /** `context.bypassOnError` is truthy. */
  predicate Bypassed(data: Data) {
    BypassKey in data && EntryTruthy(data[BypassKey])
  }

  /** `context.bypassOnError = true`. */
  function Bypass(data: Data): (r: Data)
    ensures Bypassed(r)
  {
    data[BypassKey := Value(Bool(true))]
  }

  /** A module reference resolved against the scenario folder. */
  function Resolved(env: Env, folder: string, m: ModuleRef): ModuleRef {
    ModuleRef(env.resolve(folder, m.modulePath), m.functionName)
  }

  // ---------------------------------------------------------------------
  // One step.
  // ---------------------------------------------------------------------

  /** `_initStepCtx`: the actor, no requests, and an empty response object. */
  function InitStepCtx(step: Step): (sc: StepContext)
    ensures sc.actor == step.actor && sc.requests == map[] && sc.expected.None?
    ensures sc.response == Obj("[object Object]")
  {
    StepContext(step.actor, map[], Obj("[object Object]"), None)
  }

  /** The state threaded through a step: the context, the step context held
      under the step's code, the calls made, and the error thrown, if any. */
  datatype Progress = Progress(data: Data, stepCtx: StepContext, calls: seq<Call>, error: Option<string>)

  /** The step context is stored under `code` again after an update. */
  function Store(p: Progress, code: string, sc: StepContext): Progress {
    Progress(p.data[code := Slot(sc)], sc, p.calls, None)
  }

  /** One request of `_loadRequestsToContext`: read and parse the body,
      validate it when a schema is named, substitute macros against the
      context, and store the result under the request's code. */
  function LoadRequest(env: Env, folder: string, code: string, r: RequestRef, p: Progress): Progress {
    var requestPath := env.resolve(folder, r.path);
    match env.readJson(requestPath)
    case Err(m) => p.(error := Some(m))
    case Ok(body) =>
      var validation := if r.schema != "" then env.validate(env.resolve(folder, r.schema), requestPath) else Pass;
      if validation.Throw? then p.(error := Some(validation.message))
      else
        var processed := Resolve(body, p.data, env.query);
        var parsed := env.parse(processed);
        if parsed.Throw? then p.(error := Some(parsed.message))
        else Store(p, code, p.stepCtx.(requests := p.stepCtx.requests[r.code := processed]))
  }

  /** `_loadRequestsToContext`: the requests in order, stopping at the first error. */
  function LoadRequests(env: Env, folder: string, code: string, rs: seq<RequestRef>, p: Progress): Progress
    decreases |rs|
  {
    if rs == [] then p
    else
      var before := LoadRequests(env, folder, code, rs[..|rs| - 1], p);
      if before.error.Some? then before else LoadRequest(env, folder, code, rs[|rs| - 1], before)
  }

  /** The asserts to run: an array as it is, any other object as a list of one, nothing otherwise. */
  function Normalise(a: AssertField): seq<AssertSpec> {
    match a
    case NoAssert => []
    case AssertList(xs) => xs
    case AssertObject(x) => [x]
    case AssertScalar => []
  }

  /** One assert of `_doAssert`: load the expected document when one is
      named, then call the assert function. */
  function RunAssert(env: Env, folder: string, step: Step, a: AssertSpec, p: Progress): Progress {
    var loaded :=
      if a.expected == "" then p
      else match env.readJson(env.resolve(folder, a.expected))
        case Err(m) => p.(error := Some(m))
        case Ok(expected) =>
          var processed := Resolve(expected, p.data, env.query);
          var parsed := env.parse(processed);
          if parsed.Throw? then p.(error := Some(parsed.message))
          else Store(p, step.code, p.stepCtx.(expected := Some(processed)));
    if loaded.error.Some? then loaded
    else
      var m := Resolved(env, folder, a.check);
      var called := loaded.(calls := loaded.calls + [Asserted(step.code, m)]);
      match env.check(m, step, loaded.data, loaded.stepCtx)
      case Pass => called
      case Throw(msg) => called.(error := Some(msg))
  }

  /** `_doAssert`: the asserts in order, stopping at the first throw. */
  function RunAsserts(env: Env, folder: string, step: Step, asserts: seq<AssertSpec>, p: Progress): Progress
    decreases |asserts|
  {
    if asserts == [] then p
    else
      var before := RunAsserts(env, folder, step, asserts[..|asserts| - 1], p);
      if before.error.Some? then before else RunAssert(env, folder, step, asserts[|asserts| - 1], before)
  }

  /** What one test sees: its context, its report list, and the calls made. */
  datatype State = State(data: Data, report: seq<ReportEntry>, calls: seq<Call>)

  /** The identity recorded for a step: the first query match of its
      identity expression, or `undefined` when it has none. */
  function StepIdentity(env: Env, step: Step, data: Data): JsValue {
    if step.identityExpression != "" then Retrieve(data, step.identityExpression, env.query) else Undefined
  }

  /** The step context stored under the step's code, then its requests loaded. */
  function LoadedStep(env: Env, folder: string, step: Step, st: State): Progress {
    var sc := InitStepCtx(step);
    LoadRequests(env, folder, step.code, step.requests, Progress(st.data[step.code := Slot(sc)], sc, st.calls, None))
  }

  /** The body of the test registered for a step. */
  function RunStep(env: Env, folder: string, step: Step, uuid: string, st: State): (State, Outcome) {
    if Bypassed(st.data) then (st, Failed(PreviousStepFailed))
    else
      var loaded := LoadedStep(env, folder, step, st);
      if loaded.error.Some? then (State(Bypass(loaded.data), st.report, loaded.calls), Failed(loaded.error.value))
      else
        var executor := Resolved(env, folder, step.executor);
        var calls := loaded.calls + [Executed(step.code, executor)];
        match env.execute(executor, step, loaded.data, loaded.stepCtx)
        case Err(m) => (State(Bypass(loaded.data), st.report, calls), Failed(m))
        case Ok(response) =>
          var executed := Store(loaded.(calls := calls), step.code, loaded.stepCtx.(response := response));
          var report := st.report + [ReportEntry(uuid, StepIdentity(env, step, executed.data))];
          var asserted := RunAsserts(env, folder, step, Normalise(step.asserts), executed);
          if asserted.error.Some? then (State(Bypass(asserted.data), report, asserted.calls), Failed(asserted.error.value))
          else (State(asserted.data, report, asserted.calls), Passed)
  }

  /** A registered test with the context and the report list its closure
      captured, which are those of the `execute` call that registered it.
      `K` and `R` are the identities of context objects and report lists. */
  datatype Bound<K, R> = Bound(context: K, report: R, unit: Unit)

  /** Every context object and report list of the run, by identity, and the calls made. */
  datatype World<K(==), R(==)> = World(contexts: map<K, Data>, reports: map<R, seq<ReportEntry>>, calls: seq<Call>)

  /** What a context object holds; one outside the world reads as empty. */
  function ContextOf<K(==), R(==)>(w: World<K, R>, c: K): Data {
    if c in w.contexts then w.contexts[c] else map[]
  }

  /** What a report list holds; one outside the world reads as empty. */
  function ReportOf<K(==), R(==)>(w: World<K, R>, q: R): seq<ReportEntry> {
    if q in w.reports then w.reports[q] else []
  }

  /** What the test `b` sees of the world. */
  function View<K(==), R(==)>(w: World<K, R>, b: Bound<K, R>): State {
    State(ContextOf(w, b.context), ReportOf(w, b.report), w.calls)
  }

  /** The world after the test `b` left `st`: its context and its report
      list hold what the test left, when the world holds them. */
  function Update<K(==), R(==)>(w: World<K, R>, b: Bound<K, R>, st: State): World<K, R> {
    World(
      if b.context in w.contexts then w.contexts[b.context := st.data] else w.contexts,
      if b.report in w.reports then w.reports[b.report := st.report] else w.reports,
      st.calls)
  }

  /** Tests of one `execute` call, all bound to its context and report list. */
  function Bind<K, R>(context: K, report: R, units: seq<Unit>): (r: seq<Bound<K, R>>)
    ensures |r| == |units|
    ensures forall k :: 0 <= k < |units| ==> r[k] == Bound(context, report, units[k])
  {
    seq(|units|, k requires 0 <= k < |units| => Bound(context, report, units[k]))
  }

  /** Binding keeps the order of concatenated test lists. */
  lemma BindAppend<K, R>(context: K, report: R, a: seq<Unit>, b: seq<Unit>)
    ensures Bind(context, report, a + b) == Bind(context, report, a) + Bind(context, report, b)
  {
    assert forall k :: 0 <= k < |a + b| ==> (a + b)[k] == if k < |a| then a[k] else b[k - |a|];
  }

  /** The body of a registered test, as a function of its scenario folder,
      its step, its identifier and what it sees of the world. */
  type TestBody = (string, Step, string, State) -> (State, Outcome)

  /** The body `_executeSteps` registers: `RunStep`. */
  function Body(env: Env): TestBody {
    (folder, step, uuid, st) => RunStep(env, folder, step, uuid, st)
  }

  /** `body` runs every test as `RunStep` does. */
  ghost predicate RunsSteps(env: Env, body: TestBody) {
    forall folder: string, step: Step, uuid: string, st: State {:trigger RunStep(env, folder, step, uuid, st)} ::
      body(folder, step, uuid, st) == RunStep(env, folder, step, uuid, st)
  }

  /** A body that fails at once, changing nothing, in a context whose
      `bypassOnError` is set. */
  ghost predicate Inert(body: TestBody) {
    forall folder: string, step: Step, uuid: string, st: State | Bypassed(st.data) ::
      body(folder, step, uuid, st) == (st, Failed(PreviousStepFailed))
  }

  /** A body that sets `bypassOnError` whenever it fails. */
  ghost predicate SetsBypass(body: TestBody) {
    forall folder: string, step: Step, uuid: string, st: State | body(folder, step, uuid, st).1.Failed? ::
      Bypassed(body(folder, step, uuid, st).0.data)
  }

  /** A body that fails fast: both of the above. */
  ghost predicate FailsFast(body: TestBody) {
    Inert(body) && SetsBypass(body)
  }

  /** The run phase: the registered tests in order, each on its own context
      and report list as the previous tests left them; test `k` has the
      identifier `uuid(k)`. */
  function RunUnits<K(==), R(==)>(body: TestBody, uuid: nat -> string, units: seq<Bound<K, R>>, w: World<K, R>): (r: (World<K, R>, seq<Outcome>))
    ensures |r.1| == |units|
    decreases |units|
  {
    if units == [] then (w, [])
    else
      var before := RunUnits(body, uuid, units[..|units| - 1], w);
      var u := units[|units| - 1];
      var after := body(u.unit.folder, u.unit.step, uuid(|units| - 1), View(before.0, u));
      (Update(before.0, u, after.0), before.1 + [after.1])
  }

  // ---------------------------------------------------------------------
  // Registration.
  // ---------------------------------------------------------------------

  /** `steps.filter(s => !s.skip)`. */
  function NotSkipped(steps: seq<Step>): (r: seq<Step>)
    ensures |r| <= |steps|
    decreases |steps|
  {
    if steps == [] then []
    else NotSkipped(steps[..|steps| - 1]) + (if steps[|steps| - 1].skip then [] else [steps[|steps| - 1]])
  }

  /** The tests `_executeSteps` registers: one per non-skipped step, in order. */
  function OwnUnits(folder: string, steps: seq<Step>): (r: seq<Unit>)
    ensures |r| == |NotSkipped(steps)|
    ensures forall k :: 0 <= k < |r| ==> r[k] == Unit(folder, NotSkipped(steps)[k])
  {
    var kept := NotSkipped(steps);
    seq(|kept|, k requires 0 <= k < |kept| => Unit(folder, kept[k]))
  }

  /** `path.basename`: the text after the last `/`. */
  function Basename(p: string): string
    decreases |p|
  {
    if p == [] || p[|p| - 1] == '/' then [] else Basename(p[..|p| - 1]) + [p[|p| - 1]]
  }

  /** The basename is the longest suffix without a `/`. */
  lemma {:induction false} BasenameSuffix(p: string)
    ensures |Basename(p)| <= |p| && Basename(p) == p[|p| - |Basename(p)|..]
    ensures forall m :: 0 <= m < |Basename(p)| ==> Basename(p)[m] != '/'
    ensures |Basename(p)| < |p| ==> p[|p| - |Basename(p)| - 1] == '/'
    decreases |p|
  {
    if p != [] && p[|p| - 1] != '/' {
      var q := p[..|p| - 1];
      BasenameSuffix(q);
      assert Basename(p) == Basename(q) + [p[|p| - 1]];
      assert q[|q| - |Basename(q)|..] + [p[|p| - 1]] == p[|p| - |Basename(p)|..];
    }
  }

  /** `folders.find(f => path.basename(f) == name)`, as an index. */
  function FindFolder(folders: seq<string>, name: string): (r: Option<nat>)
    ensures r.Some? ==> r.value < |folders| && Basename(folders[r.value]) == name
    ensures r.Some? ==> forall k :: 0 <= k < r.value ==> Basename(folders[k]) != name
    ensures r.None? ==> forall k :: 0 <= k < |folders| ==> Basename(folders[k]) != name
  {
    FindFolderFrom(folders, name, 0)
  }

  /** The first index from `i` on whose folder has the basename `name`. */
  function FindFolderFrom(folders: seq<string>, name: string, i: nat): (r: Option<nat>)
    requires i <= |folders|
    ensures r.Some? ==> i <= r.value < |folders| && Basename(folders[r.value]) == name
    ensures r.Some? ==> forall k :: i <= k < r.value ==> Basename(folders[k]) != name
    ensures r.None? ==> forall k :: i <= k < |folders| ==> Basename(folders[k]) != name
    decreases |folders| - i
  {
    if i == |folders| then None
    else if Basename(folders[i]) == name then Some(i)
    else FindFolderFrom(folders, name, i + 1)
  }

  /** What registration leaves: the context, the tests registered, and the error thrown, if any. */
  datatype Registration = Registration(data: Data, units: seq<Unit>, error: Option<string>)

  /** `execute` of the scenario in `folder`: initialise the context, register
      the before-scenarios, then this scenario's own tests. `fuel` bounds the
      nesting of before-scenarios, standing for the call stack. */
  function Register(env: Env, folder: string, config: ScenarioConfig, data: Data, fuel: nat): Registration
    decreases fuel, 1, 0
  {
    var initialised :=
      match config.initContext
      case None => Ok(data)
      case Some(m) => env.init(Resolved(env, folder, m), data);
    match initialised
    case Err(msg) => Registration(data, [], Some(msg))
    case Ok(data1) =>
      var before := Before(env, config.executeBefore, data1, fuel);
      if before.error.Some? then before
      else Registration(before.data, before.units + OwnUnits(folder, config.steps), None)
  }

  /** `_executeBefore`: each named scenario in order, found among the folders
      by its basename, loaded and executed on the same context. */
  function Before(env: Env, names: seq<string>, data: Data, fuel: nat): Registration
    decreases fuel, 0, |names|
  {
    if names == [] then Registration(data, [], None)
    else
      var prev := Before(env, names[..|names| - 1], data, fuel);
      var name := names[|names| - 1];
      if prev.error.Some? then prev
      else match FindFolder(env.folders, name)
        case None => prev.(error := Some(FolderNotFound(name)))
        case Some(k) =>
          match env.load(env.folders[k])
          case Err(msg) => prev.(error := Some(msg))
          case Ok(config) =>
            if fuel == 0 then prev.(error := Some(StackExhausted))
            else
              var sub := Register(env, env.folders[k], config, prev.data, fuel - 1);
              Registration(sub.data, prev.units + sub.units, sub.error)
  }

  // ---------------------------------------------------------------------
  // Properties of one step.
  // ---------------------------------------------------------------------

  /** Once a request fails, the later requests are not loaded. */
  lemma {:induction false} LoadRequestsStop(env: Env, folder: string, code: string, rs: seq<RequestRef>, p: Progress, i: nat)
    requires i <= |rs| && LoadRequests(env, folder, code, rs[..i], p).error.Some?
    ensures LoadRequests(env, folder, code, rs, p) == LoadRequests(env, folder, code, rs[..i], p)
    decreases |rs|
  {
    if i < |rs| {
      var front := rs[..|rs| - 1];
      assert front[..i] == rs[..i];
      LoadRequestsStop(env, folder, code, front, p, i);
    } else {
      assert rs[..i] == rs;
    }
  }

  /** One request calls nothing and changes only the step's own context entry. */
  lemma LoadRequestFrame(env: Env, folder: string, code: string, r: RequestRef, p: Progress)
    requires p.error.None? && code in p.data && p.data[code] == Slot(p.stepCtx)
    ensures var q := LoadRequest(env, folder, code, r, p);
      q.calls == p.calls && q.data == p.data[code := Slot(q.stepCtx)]
      && q.stepCtx == p.stepCtx.(requests := q.stepCtx.requests)
      && (q.error.None? ==> q.stepCtx.requests.Keys == p.stepCtx.requests.Keys + {r.code})
    ensures var q := LoadRequest(env, folder, code, r, p);
      q.error.None? ==> (env.readJson(env.resolve(folder, r.path)).Ok?
        && q.stepCtx.requests == p.stepCtx.requests[r.code := Resolve(env.readJson(env.resolve(folder, r.path)).value, p.data, env.query)])
  {
  }

  /** Loading requests calls nothing, touches no other key of the context than
      the step's own, and on success holds one request per request code. */
  lemma {:induction false} RequestsStored(env: Env, folder: string, code: string, rs: seq<RequestRef>, p: Progress)
    requires p.error.None? && code in p.data && p.data[code] == Slot(p.stepCtx)
    ensures var q := LoadRequests(env, folder, code, rs, p);
      q.calls == p.calls && q.data == p.data[code := Slot(q.stepCtx)]
      && q.stepCtx == p.stepCtx.(requests := q.stepCtx.requests)
    ensures var q := LoadRequests(env, folder, code, rs, p);
      q.error.None? ==> q.stepCtx.requests.Keys == p.stepCtx.requests.Keys + set r | r in rs :: r.code
    decreases |rs|
  {
    if rs != [] {
      var front := rs[..|rs| - 1];
      RequestsStored(env, folder, code, front, p);
      var before := LoadRequests(env, folder, code, front, p);
      if before.error.None? {
        LoadRequestFrame(env, folder, code, rs[|rs| - 1], before);
        assert LoadRequests(env, folder, code, rs, p) == LoadRequest(env, folder, code, rs[|rs| - 1], before);
      } else {
        assert LoadRequests(env, folder, code, rs, p) == before;
      }
      CodesSnoc(rs);
    }
  }

  /** No later request of the list has the code of request `k`. */
  predicate LastWithCode(rs: seq<RequestRef>, k: int)
    requires 0 <= k < |rs|
  {
    forall j :: k < j < |rs| ==> rs[j].code != rs[k].code
  }

  /** On success, the request body stored under the code of request `k`
      (when no later request has that code) is its file's JSON with the
      macros substituted against the context as it was before that request. */
  lemma {:induction false} RequestBody(env: Env, folder: string, code: string, rs: seq<RequestRef>, p: Progress, k: nat)
    requires p.error.None? && code in p.data && p.data[code] == Slot(p.stepCtx)
    requires k < |rs| && LastWithCode(rs, k) && LoadRequests(env, folder, code, rs, p).error.None?
    ensures env.readJson(env.resolve(folder, rs[k].path)).Ok?
    ensures rs[k].code in LoadRequests(env, folder, code, rs, p).stepCtx.requests
    ensures LoadRequests(env, folder, code, rs, p).stepCtx.requests[rs[k].code]
            == Resolve(env.readJson(env.resolve(folder, rs[k].path)).value, LoadRequests(env, folder, code, rs[..k], p).data, env.query)
    decreases |rs|
  {
    var front := rs[..|rs| - 1];
    var before := LoadRequests(env, folder, code, front, p);
    assert LoadRequests(env, folder, code, rs, p) == LoadRequest(env, folder, code, rs[|rs| - 1], before);
    RequestsStored(env, folder, code, front, p);
    LoadRequestFrame(env, folder, code, rs[|rs| - 1], before);
    if k < |rs| - 1 {
      assert front[..k] == rs[..k];
      RequestBody(env, folder, code, front, p, k);
    } else {
      assert front == rs[..k];
    }
  }

  /** On success, every request whose code no later request reuses holds
      its file's JSON with the macros substituted against the context as it
      was before that request. */
  lemma RequestBodies(env: Env, folder: string, code: string, rs: seq<RequestRef>, p: Progress)
    requires p.error.None? && code in p.data && p.data[code] == Slot(p.stepCtx)
    ensures LoadRequests(env, folder, code, rs, p).error.None? ==>
      forall k :: 0 <= k < |rs| && LastWithCode(rs, k) ==>
        env.readJson(env.resolve(folder, rs[k].path)).Ok?
        && rs[k].code in LoadRequests(env, folder, code, rs, p).stepCtx.requests
        && LoadRequests(env, folder, code, rs, p).stepCtx.requests[rs[k].code]
           == Resolve(env.readJson(env.resolve(folder, rs[k].path)).value, LoadRequests(env, folder, code, rs[..k], p).data, env.query)
  {
    forall k | 0 <= k < |rs| && LastWithCode(rs, k) && LoadRequests(env, folder, code, rs, p).error.None?
      ensures env.readJson(env.resolve(folder, rs[k].path)).Ok?
        && rs[k].code in LoadRequests(env, folder, code, rs, p).stepCtx.requests
        && LoadRequests(env, folder, code, rs, p).stepCtx.requests[rs[k].code]
           == Resolve(env.readJson(env.resolve(folder, rs[k].path)).value, LoadRequests(env, folder, code, rs[..k], p).data, env.query)
    {
      RequestBody(env, folder, code, rs, p, k);
    }
  }

  /** The request codes of a list are those of all but its last, and the last one's. */
  lemma CodesSnoc(rs: seq<RequestRef>)
    requires rs != []
    ensures (set r | r in rs :: r.code) == (set r | r in rs[..|rs| - 1] :: r.code) + {rs[|rs| - 1].code}
  {
    assert rs == rs[..|rs| - 1] + [rs[|rs| - 1]];
  }

  /** The assert calls a list of asserts makes, in order. */
  function AssertCalls(env: Env, folder: string, code: string, asserts: seq<AssertSpec>): (r: seq<Call>)
    ensures |r| == |asserts|
    ensures forall k :: 0 <= k < |r| ==> r[k] == Asserted(code, Resolved(env, folder, asserts[k].check))
  {
    seq(|asserts|, k requires 0 <= k < |asserts| => Asserted(code, Resolved(env, folder, asserts[k].check)))
  }

  /** Once an assert throws, the later asserts are not run. */
  lemma {:induction false} RunAssertsStop(env: Env, folder: string, step: Step, asserts: seq<AssertSpec>, p: Progress, i: nat)
    requires i <= |asserts| && RunAsserts(env, folder, step, asserts[..i], p).error.Some?
    ensures RunAsserts(env, folder, step, asserts, p) == RunAsserts(env, folder, step, asserts[..i], p)
    decreases |asserts|
  {
    if i < |asserts| {
      var front := asserts[..|asserts| - 1];
      assert front[..i] == asserts[..i];
      RunAssertsStop(env, folder, step, front, p, i);
    } else {
      assert asserts[..i] == asserts;
    }
  }

  /** One assert makes at most its own call, and makes it when it does not throw. */
  lemma RunAssertCall(env: Env, folder: string, step: Step, a: AssertSpec, p: Progress)
    ensures var q := RunAssert(env, folder, step, a, p);
      (q.calls == p.calls && q.error.Some?) || q.calls == p.calls + [Asserted(step.code, Resolved(env, folder, a.check))]
  {
  }

  /** The asserts are called in order and stop at the first one that throws:
      the calls made are those of a prefix of the list, all of it when no
      error was thrown. */
  lemma {:induction false} AssertsInOrder(env: Env, folder: string, step: Step, asserts: seq<AssertSpec>, p: Progress)
    requires p.error.None?
    ensures var q := RunAsserts(env, folder, step, asserts, p);
      exists k :: 0 <= k <= |asserts| && q.calls == p.calls + AssertCalls(env, folder, step.code, asserts[..k])
        && (q.error.None? ==> k == |asserts|)
    decreases |asserts|
  {
    var q := RunAsserts(env, folder, step, asserts, p);
    if asserts == [] {
      assert q.calls == p.calls + AssertCalls(env, folder, step.code, asserts[..0]);
    } else {
      var n := |asserts| - 1;
      var front := asserts[..n];
      AssertsInOrder(env, folder, step, front, p);
      var before := RunAsserts(env, folder, step, front, p);
      var k :| 0 <= k <= n && before.calls == p.calls + AssertCalls(env, folder, step.code, front[..k])
        && (before.error.None? ==> k == n);
      assert front[..k] == asserts[..k];
      if before.error.Some? {
        assert q == before;
      } else {
        assert front[..n] == front;
        var call := Asserted(step.code, Resolved(env, folder, asserts[n].check));
        RunAssertCall(env, folder, step, asserts[n], before);
        if q.calls == before.calls {
          assert q.error.Some?;
        } else {
          assert asserts[..n + 1] == asserts;
          AssertCallsSnoc(env, folder, step.code, asserts);
          AppendAssoc(p.calls, AssertCalls(env, folder, step.code, front), [call]);
          assert q.calls == p.calls + AssertCalls(env, folder, step.code, asserts[..n + 1]);
        }
      }
    }
  }

  /** The calls of a list of asserts extend those of all but its last. */
  lemma AssertCallsSnoc(env: Env, folder: string, code: string, asserts: seq<AssertSpec>)
    requires asserts != []
    ensures AssertCalls(env, folder, code, asserts)
      == AssertCalls(env, folder, code, asserts[..|asserts| - 1]) + [Asserted(code, Resolved(env, folder, asserts[|asserts| - 1].check))]
  {
  }

  /** Asserts change only the `expected` member of the step context, and
      leave it (and the context) as they were when no assert names an
      expected document. */
  lemma {:induction false} AssertsOnlySetExpected(env: Env, folder: string, step: Step, asserts: seq<AssertSpec>, p: Progress)
    requires p.error.None? && step.code in p.data && p.data[step.code] == Slot(p.stepCtx)
    ensures var q := RunAsserts(env, folder, step, asserts, p);
      q.stepCtx == p.stepCtx.(expected := q.stepCtx.expected) && q.data == p.data[step.code := Slot(q.stepCtx)]
    ensures (forall k :: 0 <= k < |asserts| ==> asserts[k].expected == "") ==>
      RunAsserts(env, folder, step, asserts, p).stepCtx == p.stepCtx && RunAsserts(env, folder, step, asserts, p).data == p.data
    decreases |asserts|
  {
    if asserts != [] {
      var front := asserts[..|asserts| - 1];
      AssertsOnlySetExpected(env, folder, step, front, p);
      var before := RunAsserts(env, folder, step, front, p);
      if before.error.None? {
        RunAssertFrame(env, folder, step, asserts[|asserts| - 1], before);
        assert RunAsserts(env, folder, step, asserts, p) == RunAssert(env, folder, step, asserts[|asserts| - 1], before);
      } else {
        assert RunAsserts(env, folder, step, asserts, p) == before;
      }
    }
  }

  /** One assert changes only the `expected` member of the step context, and only when it names a document. */
  lemma RunAssertFrame(env: Env, folder: string, step: Step, a: AssertSpec, p: Progress)
    requires p.error.None? && step.code in p.data && p.data[step.code] == Slot(p.stepCtx)
    ensures var q := RunAssert(env, folder, step, a, p);
      q.stepCtx == p.stepCtx.(expected := q.stepCtx.expected) && q.data == p.data[step.code := Slot(q.stepCtx)]
    ensures a.expected == "" ==> RunAssert(env, folder, step, a, p).stepCtx == p.stepCtx && RunAssert(env, folder, step, a, p).data == p.data
  {
  }

  /** The step gets as far as an executor that returns. */
  predicate ExecutorSucceeds(env: Env, folder: string, step: Step, st: State) {
    var loaded := LoadedStep(env, folder, step, st);
    !Bypassed(st.data) && loaded.error.None?
    && env.execute(Resolved(env, folder, step.executor), step, loaded.data, loaded.stepCtx).Ok?
  }

  /** A step in a context whose `bypassOnError` is set fails at once and changes nothing. */
  lemma BypassedStepInert(env: Env, folder: string, step: Step, uuid: string, st: State)
    requires Bypassed(st.data)
    ensures RunStep(env, folder, step, uuid, st) == (st, Failed(PreviousStepFailed))
  {
  }

  /** A failing step leaves `bypassOnError` set. */
  lemma FailedStepBypasses(env: Env, folder: string, step: Step, uuid: string, st: State)
    requires RunStep(env, folder, step, uuid, st).1.Failed?
    ensures Bypassed(RunStep(env, folder, step, uuid, st).0.data)
  {
  }

  /** The report gains exactly one entry, with the test's identifier, when
      the executor returns (whatever the asserts then do), and none
      otherwise; its identity is `undefined` without an identity expression. */
  lemma StepReport(env: Env, folder: string, step: Step, uuid: string, st: State)
    ensures var r := RunStep(env, folder, step, uuid, st);
      ExecutorSucceeds(env, folder, step, st) ==>
        |r.0.report| == |st.report| + 1 && r.0.report[..|st.report|] == st.report
        && r.0.report[|st.report|].uuid == uuid
        && (step.identityExpression == "" ==> r.0.report[|st.report|].identity == Undefined)
    ensures var r := RunStep(env, folder, step, uuid, st);
      !ExecutorSucceeds(env, folder, step, st) ==> r.0.report == st.report && r.1.Failed?
  {
  }

  /** A passing step called its executor once and then every assert, in order. */
  lemma PassedStepCalls(env: Env, folder: string, step: Step, uuid: string, st: State)
    requires RunStep(env, folder, step, uuid, st).1 == Passed
    ensures ExecutorSucceeds(env, folder, step, st)
    ensures RunStep(env, folder, step, uuid, st).0.calls
      == st.calls + [Executed(step.code, Resolved(env, folder, step.executor))] + AssertCalls(env, folder, step.code, Normalise(step.asserts))
  {
    var sc := InitStepCtx(step);
    var p := Progress(st.data[step.code := Slot(sc)], sc, st.calls, None);
    RequestsStored(env, folder, step.code, step.requests, p);
    var loaded := LoadedStep(env, folder, step, st);
    var executor := Resolved(env, folder, step.executor);
    var calls := loaded.calls + [Executed(step.code, executor)];
    var response := env.execute(executor, step, loaded.data, loaded.stepCtx).value;
    var executed := Store(loaded.(calls := calls), step.code, loaded.stepCtx.(response := response));
    var asserts := Normalise(step.asserts);
    AssertsInOrder(env, folder, step, asserts, executed);
    assert asserts[..|asserts|] == asserts;
  }

  /** A passing step leaves its step context under its code, holding the
      actor, one request per request code and the executor's result, and
      changes no other key of the context. */
  lemma PassedStepContext(env: Env, folder: string, step: Step, uuid: string, st: State)
    requires RunStep(env, folder, step, uuid, st).1 == Passed
    ensures ExecutorSucceeds(env, folder, step, st)
    ensures step.code in RunStep(env, folder, step, uuid, st).0.data
      && RunStep(env, folder, step, uuid, st).0.data[step.code].Slot?
    ensures RunStep(env, folder, step, uuid, st).0.data == st.data[step.code := RunStep(env, folder, step, uuid, st).0.data[step.code]]
    ensures var sc := RunStep(env, folder, step, uuid, st).0.data[step.code].stepCtx;
      var loaded := LoadedStep(env, folder, step, st);
      sc.actor == step.actor && sc.requests.Keys == (set r | r in step.requests :: r.code)
      && sc.response == env.execute(Resolved(env, folder, step.executor), step, loaded.data, loaded.stepCtx).value
  {
    var loaded := LoadedStep(env, folder, step, st);
    var executor := Resolved(env, folder, step.executor);
    var response := env.execute(executor, step, loaded.data, loaded.stepCtx).value;
    StepChain(env, folder, step, st, response);
  }

  /** The step context through requests, a response and the asserts, for a
      step whose requests load. */
  lemma StepChain(env: Env, folder: string, step: Step, st: State, response: JsValue)
    requires LoadedStep(env, folder, step, st).error.None?
    ensures var loaded := LoadedStep(env, folder, step, st);
      var executor := Resolved(env, folder, step.executor);
      var executed := Store(loaded.(calls := loaded.calls + [Executed(step.code, executor)]), step.code, loaded.stepCtx.(response := response));
      var asserted := RunAsserts(env, folder, step, Normalise(step.asserts), executed);
      asserted.data == st.data[step.code := Slot(asserted.stepCtx)]
      && asserted.stepCtx.actor == step.actor && asserted.stepCtx.response == response
      && asserted.stepCtx.requests.Keys == (set r | r in step.requests :: r.code)
  {
    var sc := InitStepCtx(step);
    var p := Progress(st.data[step.code := Slot(sc)], sc, st.calls, None);
    RequestsStored(env, folder, step.code, step.requests, p);
    var loaded := LoadedStep(env, folder, step, st);
    var executor := Resolved(env, folder, step.executor);
    var executed := Store(loaded.(calls := loaded.calls + [Executed(step.code, executor)]), step.code, loaded.stepCtx.(response := response));
    AssertsOnlySetExpected(env, folder, step, Normalise(step.asserts), executed);
  }

  /** An absent assert field, or one that is truthy but not an object, runs no assert and throws nothing. */
  lemma NoAssertsRun(env: Env, folder: string, step: Step, p: Progress)
    requires step.asserts.NoAssert? || step.asserts.AssertScalar?
    ensures RunAsserts(env, folder, step, Normalise(step.asserts), p) == p
  {
  }

  /** A single assert object runs exactly as a list holding it. */
  lemma ObjectAssertRuns(env: Env, folder: string, step: Step, p: Progress)
    requires step.asserts.AssertObject? && p.error.None?
    ensures RunAsserts(env, folder, step, Normalise(step.asserts), p) == RunAssert(env, folder, step, step.asserts.single, p)
  {
    assert [step.asserts.single][..0] == [];
  }

  // ---------------------------------------------------------------------
  // Properties of the run phase.
  // ---------------------------------------------------------------------

  /** The run of the first `i + 1` tests is the run of the first `i` followed by test `i`. */
  lemma RunUnitsSnoc<K, R>(body: TestBody, uuid: nat -> string, units: seq<Bound<K, R>>, w: World<K, R>, i: nat)
    requires i < |units|
    ensures var before := RunUnits(body, uuid, units[..i], w);
      var after := body(units[i].unit.folder, units[i].unit.step, uuid(i), View(before.0, units[i]));
      RunUnits(body, uuid, units[..i + 1], w) == (Update(before.0, units[i], after.0), before.1 + [after.1])
  {
    assert units[..i + 1][..i] == units[..i];
  }

  /** The body `_executeSteps` registers runs every test as `RunStep` does. */
  lemma BodyRunsSteps(env: Env)
    ensures RunsSteps(env, Body(env))
  {
  }

  /** The test body of the scenario runner fails fast. */
  lemma BodyFailsFast(env: Env)
    ensures FailsFast(Body(env))
  {
    forall folder: string, step: Step, uuid: string, st: State | Bypassed(st.data)
      ensures Body(env)(folder, step, uuid, st) == (st, Failed(PreviousStepFailed))
    {
      BypassedStepInert(env, folder, step, uuid, st);
    }
    forall folder: string, step: Step, uuid: string, st: State | Body(env)(folder, step, uuid, st).1.Failed?
      ensures Bypassed(Body(env)(folder, step, uuid, st).0.data)
    {
      FailedStepBypasses(env, folder, step, uuid, st);
    }
  }

  /** The run neither creates nor drops a context object. */
  lemma {:induction false} ContextKept<K, R>(body: TestBody, uuid: nat -> string, units: seq<Bound<K, R>>, w: World<K, R>, c: K)
    ensures c in RunUnits(body, uuid, units, w).0.contexts <==> c in w.contexts
    decreases |units|
  {
    if units != [] {
      ContextKept(body, uuid, units[..|units| - 1], w, c);
    }
  }

  /** After the last test failed, `bypassOnError` is set in its context. */
  lemma LastFailureBypasses<K, R>(body: TestBody, uuid: nat -> string, units: seq<Bound<K, R>>, w: World<K, R>)
    requires SetsBypass(body)
    requires units != [] && units[|units| - 1].context in w.contexts && RunUnits(body, uuid, units, w).1[|units| - 1].Failed?
    ensures Bypassed(ContextOf(RunUnits(body, uuid, units, w).0, units[|units| - 1].context))
  {
    ContextKept(body, uuid, units[..|units| - 1], w, units[|units| - 1].context);
  }

  /** A test whose context has `bypassOnError` set adds a failed outcome and
      changes nothing: no context, no report list, no call. */
  lemma InertLast<K, R>(body: TestBody, uuid: nat -> string, units: seq<Bound<K, R>>, w: World<K, R>)
    requires Inert(body)
    requires units != [] && Bypassed(ContextOf(RunUnits(body, uuid, units[..|units| - 1], w).0, units[|units| - 1].context))
    ensures RunUnits(body, uuid, units, w).0 == RunUnits(body, uuid, units[..|units| - 1], w).0
    ensures RunUnits(body, uuid, units, w).1 == RunUnits(body, uuid, units[..|units| - 1], w).1 + [Failed(PreviousStepFailed)]
  {
    var before := RunUnits(body, uuid, units[..|units| - 1], w).0;
    var u := units[|units| - 1];
    var st := View(before, u);
    assert body(u.unit.folder, u.unit.step, uuid(|units| - 1), st) == (st, Failed(PreviousStepFailed));
    assert RunUnits(body, uuid, units, w).0 == Update(before, u, st);
    assert before.contexts[u.context := before.contexts[u.context]] == before.contexts;
    if u.report in before.reports {
      assert before.reports[u.report := before.reports[u.report]] == before.reports;
    }
  }

  /** The outcomes of a run extend those of the run of all but its last test. */
  lemma OutcomesExtend<K, R>(body: TestBody, uuid: nat -> string, units: seq<Bound<K, R>>, w: World<K, R>)
    requires units != []
    ensures RunUnits(body, uuid, units, w).1[..|units| - 1] == RunUnits(body, uuid, units[..|units| - 1], w).1
  {
  }

  /** The last test leaves every other context as it was. */
  lemma OtherContextKept<K, R>(body: TestBody, uuid: nat -> string, units: seq<Bound<K, R>>, w: World<K, R>, c: K)
    requires units != [] && units[|units| - 1].context != c
    ensures ContextOf(RunUnits(body, uuid, units, w).0, c) == ContextOf(RunUnits(body, uuid, units[..|units| - 1], w).0, c)
  {
  }

  /** The last test leaves every other report list as it was. */
  lemma OtherReportKept<K, R>(body: TestBody, uuid: nat -> string, units: seq<Bound<K, R>>, w: World<K, R>, q: R)
    requires units != [] && units[|units| - 1].report != q
    ensures ReportOf(RunUnits(body, uuid, units, w).0, q) == ReportOf(RunUnits(body, uuid, units[..|units| - 1], w).0, q)
  {
  }

  /** The outcome of a test is fixed once it has run: later tests do not change it. */
  lemma {:induction false} PrefixOutcome<K, R>(body: TestBody, uuid: nat -> string, units: seq<Bound<K, R>>, w: World<K, R>, i: nat)
    requires i < |units|
    ensures RunUnits(body, uuid, units, w).1[i] == RunUnits(body, uuid, units[..i + 1], w).1[i]
    decreases |units|
  {
    if i + 1 < |units| {
      var front := units[..|units| - 1];
      OutcomesExtend(body, uuid, units, w);
      assert RunUnits(body, uuid, units, w).1[i] == RunUnits(body, uuid, front, w).1[i];
      PrefixOutcome(body, uuid, front, w, i);
      assert front[..i + 1] == units[..i + 1];
    } else {
      assert units[..i + 1] == units;
    }
  }

  /** A context with `bypassOnError` set after test `i` keeps what it holds
      through every later test. */
  lemma {:induction false} BypassedContextStays<K, R>(body: TestBody, uuid: nat -> string, units: seq<Bound<K, R>>, w: World<K, R>, i: nat)
    requires Inert(body)
    requires i < |units| && Bypassed(ContextOf(RunUnits(body, uuid, units[..i + 1], w).0, units[i].context))
    ensures ContextOf(RunUnits(body, uuid, units, w).0, units[i].context) == ContextOf(RunUnits(body, uuid, units[..i + 1], w).0, units[i].context)
    decreases |units|
  {
    var n := |units|;
    if n == i + 1 {
      assert units[..i + 1] == units;
    } else {
      var front := units[..n - 1];
      assert front[..i + 1] == units[..i + 1];
      assert front[i] == units[i];
      BypassedContextStays(body, uuid, front, w, i);
      if units[n - 1].context == units[i].context {
        InertLast(body, uuid, units, w);
      } else {
        OtherContextKept(body, uuid, units, w, units[i].context);
      }
    }
  }

  /** A later test bound to a context with `bypassOnError` set fails with
      "Failed on the previous step". */
  lemma LaterTestFails<K, R>(body: TestBody, uuid: nat -> string, units: seq<Bound<K, R>>, w: World<K, R>, i: nat, j: nat)
    requires Inert(body)
    requires i < j < |units| && units[j].context == units[i].context
    requires Bypassed(ContextOf(RunUnits(body, uuid, units[..i + 1], w).0, units[i].context))
    ensures RunUnits(body, uuid, units, w).1[j] == Failed(PreviousStepFailed)
  {
    var c := units[i].context;
    var upTo := units[..j + 1];
    var prior := units[..j];
    assert upTo[..j] == prior && upTo[j] == units[j];
    assert prior[..i + 1] == units[..i + 1] && prior[i] == units[i];
    BypassedContextStays(body, uuid, prior, w, i);
    assert Bypassed(ContextOf(RunUnits(body, uuid, prior, w).0, c));
    InertLast(body, uuid, upTo, w);
    assert RunUnits(body, uuid, upTo, w).1[j] == Failed(PreviousStepFailed);
    PrefixOutcome(body, uuid, units, w, j);
  }

  /** Fail-fast within one context: after a test fails, every later test
      bound to the same context fails with "Failed on the previous step",
      and that context stays as the failure left it, with `bypassOnError`
      set. Tests bound to other contexts run on. */
  lemma FailFast<K, R>(body: TestBody, uuid: nat -> string, units: seq<Bound<K, R>>, w: World<K, R>, i: nat)
    requires FailsFast(body)
    requires i < |units| && units[i].context in w.contexts && RunUnits(body, uuid, units, w).1[i].Failed?
    ensures forall j :: i < j < |units| && units[j].context == units[i].context ==>
              RunUnits(body, uuid, units, w).1[j] == Failed(PreviousStepFailed)
    ensures ContextOf(RunUnits(body, uuid, units, w).0, units[i].context)
            == ContextOf(RunUnits(body, uuid, units[..i + 1], w).0, units[i].context)
    ensures Bypassed(ContextOf(RunUnits(body, uuid, units, w).0, units[i].context))
  {
    PrefixOutcome(body, uuid, units, w, i);
    assert units[..i + 1][i] == units[i];
    LastFailureBypasses(body, uuid, units[..i + 1], w);
    BypassedContextStays(body, uuid, units, w, i);
    forall j | i < j < |units| && units[j].context == units[i].context
      ensures RunUnits(body, uuid, units, w).1[j] == Failed(PreviousStepFailed)
    {
      LaterTestFails(body, uuid, units, w, i, j);
    }
  }

  /** When every test after a failure shares its context, as the tests of
      one top-level `execute` do, nothing at all changes after the failure. */
  lemma {:induction false} FailFastShared<K, R>(body: TestBody, uuid: nat -> string, units: seq<Bound<K, R>>, w: World<K, R>, i: nat)
    requires Inert(body)
    requires i < |units| && Bypassed(ContextOf(RunUnits(body, uuid, units[..i + 1], w).0, units[i].context))
    requires forall j :: i < j < |units| ==> units[j].context == units[i].context
    ensures RunUnits(body, uuid, units, w).0 == RunUnits(body, uuid, units[..i + 1], w).0
    decreases |units|
  {
    var n := |units|;
    if n == i + 1 {
      assert units[..i + 1] == units;
    } else {
      var front := units[..n - 1];
      assert front[..i + 1] == units[..i + 1];
      assert front[i] == units[i];
      assert forall j :: i < j < n - 1 ==> front[j] == units[j];
      FailFastShared(body, uuid, front, w, i);
      BypassedContextStays(body, uuid, front, w, i);
      InertLast(body, uuid, units, w);
    }
  }

  /** Tests run only on their own context: a context object that no test
      is bound to keeps what it held. */
  lemma {:induction false} ContextUntouched<K, R>(body: TestBody, uuid: nat -> string, units: seq<Bound<K, R>>, w: World<K, R>, c: K)
    requires forall j :: 0 <= j < |units| ==> units[j].context != c
    ensures ContextOf(RunUnits(body, uuid, units, w).0, c) == ContextOf(w, c)
    decreases |units|
  {
    if units != [] {
      ContextUntouched(body, uuid, units[..|units| - 1], w, c);
      OtherContextKept(body, uuid, units, w, c);
    }
  }

  /** Tests push only to their own report list: a report list that no test
      is bound to keeps what it held. */
  lemma {:induction false} ReportUntouched<K, R>(body: TestBody, uuid: nat -> string, units: seq<Bound<K, R>>, w: World<K, R>, q: R)
    requires forall j :: 0 <= j < |units| ==> units[j].report != q
    ensures ReportOf(RunUnits(body, uuid, units, w).0, q) == ReportOf(w, q)
    decreases |units|
  {
    if units != [] {
      ReportUntouched(body, uuid, units[..|units| - 1], w, q);
      OtherReportKept(body, uuid, units, w, q);
    }
  }

  /** The first test bound to a context sees that context as it was before
      the run, whatever the tests of other contexts did before it: a failure
      under one `execute` call does not bypass the tests of another. */
  lemma FirstOfContext<K, R>(body: TestBody, uuid: nat -> string, units: seq<Bound<K, R>>, w: World<K, R>, j: nat)
    requires j < |units| && forall k :: 0 <= k < j ==> units[k].context != units[j].context
    ensures View(RunUnits(body, uuid, units[..j], w).0, units[j]).data == ContextOf(w, units[j].context)
  {
    ContextUntouched(body, uuid, units[..j], w, units[j].context);
  }

  // ---------------------------------------------------------------------
  // Properties of registration.
  // ---------------------------------------------------------------------

  /** The steps kept are exactly the steps not marked `skip`. */
  lemma {:induction false} NotSkippedMembers(steps: seq<Step>)
    ensures forall s :: s in NotSkipped(steps) <==> s in steps && !s.skip
    decreases |steps|
  {
    if steps != [] {
      NotSkippedMembers(steps[..|steps| - 1]);
      assert steps == steps[..|steps| - 1] + [steps[|steps| - 1]];
    }
  }

  /** The filter keeps the configuration's order. */
  lemma {:induction false} NotSkippedAppend(a: seq<Step>, b: seq<Step>)
    ensures NotSkipped(a + b) == NotSkipped(a) + NotSkipped(b)
    decreases |b|
  {
    if b == [] {
      assert a + b == a;
    } else {
      var front := b[..|b| - 1];
      NotSkippedAppend(a, front);
      assert (a + b)[..|a + b| - 1] == a + front;
      AppendAssoc(NotSkipped(a), NotSkipped(front), if b[|b| - 1].skip then [] else [b[|b| - 1]]);
    }
  }

  /** Every registered test is a non-skipped step, of this scenario or of a
      folder holding a configuration; this scenario's own tests come last. */
  lemma {:induction false} RegisteredUnits(env: Env, folder: string, config: ScenarioConfig, data: Data, fuel: nat)
    ensures forall k :: 0 <= k < |Register(env, folder, config, data, fuel).units| ==>
      !Register(env, folder, config, data, fuel).units[k].step.skip
      && (Register(env, folder, config, data, fuel).units[k].folder == folder || Register(env, folder, config, data, fuel).units[k].folder in env.folders)
    ensures var r := Register(env, folder, config, data, fuel);
      r.error.None? ==> (|OwnUnits(folder, config.steps)| <= |r.units|
        && r.units[|r.units| - |OwnUnits(folder, config.steps)|..] == OwnUnits(folder, config.steps))
    decreases fuel, 1, 0
  {
    NotSkippedMembers(config.steps);
    var initialised :=
      match config.initContext
      case None => Ok(data)
      case Some(m) => env.init(Resolved(env, folder, m), data);
    if initialised.Ok? {
      BeforeUnits(env, config.executeBefore, initialised.value, fuel);
      var before := Before(env, config.executeBefore, initialised.value, fuel);
      var own := OwnUnits(folder, config.steps);
      assert forall k :: 0 <= k < |own| ==> own[k].step in NotSkipped(config.steps);
      if before.error.None? {
        var all := before.units + own;
        assert all[|before.units|..] == own;
        forall k | 0 <= k < |all|
          ensures !all[k].step.skip && (all[k].folder == folder || all[k].folder in env.folders)
        {
          if k >= |before.units| {
            assert all[k] == own[k - |before.units|];
          }
        }
      }
    }
  }

  /** Every test a before-list registers is a non-skipped step of a folder holding a configuration. */
  lemma {:induction false} BeforeUnits(env: Env, names: seq<string>, data: Data, fuel: nat)
    ensures forall k :: 0 <= k < |Before(env, names, data, fuel).units| ==>
      !Before(env, names, data, fuel).units[k].step.skip && Before(env, names, data, fuel).units[k].folder in env.folders
    decreases fuel, 0, |names|
  {
    if names != [] {
      var front := names[..|names| - 1];
      BeforeUnits(env, front, data, fuel);
      var prev := Before(env, front, data, fuel);
      var name := names[|names| - 1];
      if prev.error.None? {
        match FindFolder(env.folders, name)
        case None =>
          assert Before(env, names, data, fuel).units == prev.units;
        case Some(k) =>
          match env.load(env.folders[k])
          case Err(_) =>
          case Ok(config) =>
            if fuel > 0 {
              RegisteredUnits(env, env.folders[k], config, prev.data, fuel - 1);
            }
      }
    }
  }

  /** Once a before-scenario throws, the later names are not looked at. */
  lemma {:induction false} BeforeStop(env: Env, names: seq<string>, data: Data, fuel: nat, i: nat)
    requires i <= |names| && Before(env, names[..i], data, fuel).error.Some?
    ensures Before(env, names, data, fuel) == Before(env, names[..i], data, fuel)
    decreases |names|
  {
    if i < |names| {
      var front := names[..|names| - 1];
      assert front[..i] == names[..i];
      BeforeStop(env, front, data, fuel, i);
    } else {
      assert names[..i] == names;
    }
  }

  /** A before-scenario name that matches no folder makes registration
      throw; when the names before it registered without error, the error
      is that the folder isn't found. */
  lemma MissingFolderFails(env: Env, names: seq<string>, data: Data, fuel: nat, j: nat)
    requires j < |names| && FindFolder(env.folders, names[j]).None?
    ensures Before(env, names, data, fuel).error.Some?
    ensures Before(env, names[..j], data, fuel).error.None? ==>
              Before(env, names, data, fuel).error == Some(FolderNotFound(names[j]))
  {
    var upTo := names[..j + 1];
    assert upTo[..j] == names[..j];
    var prev := Before(env, names[..j], data, fuel);
    if prev.error.None? {
      assert Before(env, upTo, data, fuel).error == Some(FolderNotFound(names[j]));
    } else {
      assert Before(env, upTo, data, fuel) == prev;
    }
    BeforeStop(env, names, data, fuel, j + 1);
  }
}
