/**
 * The `ScenarioBase` class of lib/scenarioBase.js and the objects it works
 * on: the shared context, the report list and the test runner that `it`
 * registers tests with. Every method is proved against the functions of
 * ScenarioModel, whose properties are proved there.
 */
module Scenarios {
  import opened Wrappers
  import opened Macros
  import opened ScenarioModel

  /** The context object of one top-level `execute` call, shared by the
      scenario, its before-scenarios and all their tests. */
  class Context {
    var data: Data

    constructor(data: Data)
      ensures this.data == data
    {
      this.data := data;
    }
  }

  /** The report list passed to `execute`, to which its tests push an entry. */
  class ReportList {
    var entries: seq<ReportEntry>

    constructor()
      ensures entries == []
    {
      entries := [];
    }

    /** `report.push(entry)`. */
    method Push(entry: ReportEntry)
      modifies this
      ensures entries == old(entries) + [entry]
    {
      entries := entries + [entry];
    }
  }

  /** A test registered by `it`: the scenario whose methods its body calls,
      its step, and the context and report list its closure captured. */
  datatype Test = Test(scenario: ScenarioBase, step: Step, context: Context, report: ReportList)

  /** What the registered tests run: each one's scenario folder and step,
      bound to its context and report list. */
  function Bindings(tests: seq<Test>): (r: seq<Bound<Context, ReportList>>)
    ensures |r| == |tests|
    ensures forall k :: 0 <= k < |tests| ==>
      r[k] == Bound(tests[k].context, tests[k].report, Unit(tests[k].scenario.scenarioFolder, tests[k].step))
  {
    seq(|tests|, k requires 0 <= k < |tests| =>
      Bound(tests[k].context, tests[k].report, Unit(tests[k].scenario.scenarioFolder, tests[k].step)))
  }

  /** The bindings of a concatenation of test lists. */
  lemma BindingsAppend(a: seq<Test>, b: seq<Test>)
    ensures Bindings(a + b) == Bindings(a) + Bindings(b)
  {
    assert forall k :: 0 <= k < |a + b| ==> (a + b)[k] == if k < |a| then a[k] else b[k - |a|];
  }

  /** The context objects the tests captured. */
  ghost function Contexts(tests: seq<Test>): set<Context> {
    set t | t in tests :: t.context
  }

  /** The report lists the tests captured. */
  ghost function Reports(tests: seq<Test>): set<ReportList> {
    set t | t in tests :: t.report
  }

  /** What the tests' context objects and report lists hold, with the calls made:
      a world `Mocha.Run` can start from. */
  ghost function Snapshot(tests: seq<Test>, calls: seq<Call>): (w: World<Context, ReportList>)
    reads Contexts(tests), Reports(tests)
    ensures w.calls == calls && (forall k :: 0 <= k < |tests| ==> Holds(w, tests[k], tests[k].context.data, tests[k].report.entries))
  {
    World(map c | c in Contexts(tests) :: c.data, map q | q in Reports(tests) :: q.entries, calls)
  }

  /** `world` holds `data` for the context object and `entries` for the
      report list of test `t`. */
  predicate Holds(world: World<Context, ReportList>, t: Test, data: Data, entries: seq<ReportEntry>) {
    && t.context in world.contexts && world.contexts[t.context] == data
    && t.report in world.reports && world.reports[t.report] == entries
  }

  /** The test runner: the tests registered, in order, and the outcomes and
      calls into executor and assert functions of the run. */
  class Mocha {
    var tests: seq<Test>
    var outcomes: seq<Outcome>
    var calls: seq<Call>

    constructor()
      ensures tests == [] && outcomes == [] && calls == []
    {
      tests, outcomes, calls := [], [], [];
    }

    /** `it(step.description, body)`: register a test whose body closes over `context` and `report`. */
    method It(scenario: ScenarioBase, step: Step, context: Context, report: ReportList)
      modifies this`tests
      ensures tests == old(tests) + [Test(scenario, step, context, report)]
    {
      tests := tests + [Test(scenario, step, context, report)];
    }

    /** Test `i` of `ts` run on the context object and report list it
        captured, which `world` holds. */
    method RunTestAt(env: Env, ghost body: TestBody, ts: seq<Test>, i: nat, ghost world: World<Context, ReportList>)
      requires RunsSteps(env, body) && i < |ts|
      requires world.calls == calls && (forall k :: 0 <= k < |ts| ==> Holds(world, ts[k], ts[k].context.data, ts[k].report.entries))
      modifies this`outcomes, this`calls, ts[i].context, ts[i].report
      ensures var after := body(ts[i].scenario.scenarioFolder, ts[i].step, env.uuid(i), View(world, Bindings(ts)[i]));
        var next := Update(world, Bindings(ts)[i], after.0);
        next.calls == calls && (forall k :: 0 <= k < |ts| ==> Holds(next, ts[k], ts[k].context.data, ts[k].report.entries))
        && outcomes == old(outcomes) + [after.1]
    {
      var test := ts[i];
      assert View(world, Bindings(ts)[i]) == State(test.context.data, test.report.entries, calls);
      var outcome := test.scenario.RunTest(env, test.step, test.context, test.report, this, env.uuid(i));
      outcomes := outcomes + [outcome];
    }

    /** The run phase: every registered test in order, each on the context
        object and report list it captured, from the state `w` describes. */
    method Run(env: Env, ghost w: World<Context, ReportList>)
      requires w.calls == calls && (forall k :: 0 <= k < |tests| ==> Holds(w, tests[k], tests[k].context.data, tests[k].report.entries))
      modifies this`outcomes, this`calls, Contexts(tests), Reports(tests)
      ensures var r := RunUnits(Body(env), env.uuid, Bindings(tests), w);
        r.0.calls == calls && (forall k :: 0 <= k < |tests| ==> Holds(r.0, tests[k], tests[k].context.data, tests[k].report.entries)) && outcomes == r.1
    {
      outcomes := [];
      BodyRunsSteps(env);
      RunFrom(env, Body(env), tests, 0, w);
      assert Bindings(tests)[..|tests|] == Bindings(tests);
    }

    /** The tests from `i` on, after those before it ran from `w`. */
    method RunFrom(env: Env, ghost body: TestBody, ts: seq<Test>, i: nat, ghost w: World<Context, ReportList>)
      requires RunsSteps(env, body) && i <= |ts|
      requires var r := RunUnits(body, env.uuid, Bindings(ts)[..i], w);
        r.0.calls == calls && (forall k :: 0 <= k < |ts| ==> Holds(r.0, ts[k], ts[k].context.data, ts[k].report.entries)) && outcomes == r.1
      modifies this`outcomes, this`calls, Contexts(ts), Reports(ts)
      ensures var r := RunUnits(body, env.uuid, Bindings(ts)[..|ts|], w);
        r.0.calls == calls && (forall k :: 0 <= k < |ts| ==> Holds(r.0, ts[k], ts[k].context.data, ts[k].report.entries)) && outcomes == r.1
      decreases |ts| - i
    {
      if i < |ts| {
        assert ts[i] in ts;
        RunUnitsSnoc(body, env.uuid, Bindings(ts), w, i);
        RunTestAt(env, body, ts, i, RunUnits(body, env.uuid, Bindings(ts)[..i], w).0);
        RunFrom(env, body, ts, i + 1, w);
      }
    }
  }

  class ScenarioBase {
    const scenarioFolder: string
    const config: ScenarioConfig

    /** The scenario once `_load` has read its configuration. */
    constructor(scenarioFolder: string, config: ScenarioConfig)
      ensures this.scenarioFolder == scenarioFolder && this.config == config
    {
      this.scenarioFolder := scenarioFolder;
      this.config := config;
    }

    /** `new ScenarioBase(folder)`: validate and read the folder's configuration, or throw. */
    static method Load(env: Env, scenarioFolder: string) returns (r: Result<ScenarioBase>)
      ensures r.Ok? <==> env.load(scenarioFolder).Ok?
      ensures r.Err? ==> r.message == env.load(scenarioFolder).message
      ensures r.Ok? ==> fresh(r.value) && r.value.scenarioFolder == scenarioFolder && r.value.config == env.load(scenarioFolder).value
    {
      var loaded := env.load(scenarioFolder);
      if loaded.Err? {
        return Err(loaded.message);
      }
      var scenario := new ScenarioBase(scenarioFolder, loaded.value);
      return Ok(scenario);
    }

    /** `_loadRequestsToContext`: each request read, validated when it names
        a schema, macro-substituted against the context and stored in the
        step context, which the context holds under the step's code. */
    method LoadRequestsToContext(env: Env, step: Step, context: Context, stepCtx: StepContext, mocha: Mocha)
      returns (sc: StepContext, err: Option<string>)
      modifies context
      ensures Progress(context.data, sc, mocha.calls, err)
        == LoadRequests(env, scenarioFolder, step.code, step.requests, Progress(old(context.data), stepCtx, mocha.calls, None))
    {
      ghost var p := Progress(context.data, stepCtx, mocha.calls, None);
      var requests := step.requests;
      sc := stepCtx;
      for i := 0 to |requests|
        invariant Progress(context.data, sc, mocha.calls, None) == LoadRequests(env, scenarioFolder, step.code, requests[..i], p)
      {
        assert requests[..i + 1][..i] == requests[..i];
        var request := requests[i];
        ghost var prev := Progress(context.data, sc, mocha.calls, None);
        assert LoadRequests(env, scenarioFolder, step.code, requests[..i + 1], p) == LoadRequest(env, scenarioFolder, step.code, request, prev);
        var requestPath := env.resolve(scenarioFolder, request.path);
        var requestBody := env.readJson(requestPath);
        if requestBody.Err? {
          LoadRequestsStop(env, scenarioFolder, step.code, requests, p, i + 1);
          return sc, Some(requestBody.message);
        }
        if request.schema != "" {
          var schemaPath := env.resolve(scenarioFolder, request.schema);
          var validation := env.validate(schemaPath, requestPath);
          if validation.Throw? {
            LoadRequestsStop(env, scenarioFolder, step.code, requests, p, i + 1);
            return sc, Some(validation.message);
          }
        }
        var processedRequest := HandleJsonPathMacros(requestBody.value, context.data, env.query);
        var parsed := env.parse(processedRequest);
        if parsed.Throw? {
          LoadRequestsStop(env, scenarioFolder, step.code, requests, p, i + 1);
          return sc, Some(parsed.message);
        }
        sc := sc.(requests := sc.requests[request.code := processedRequest]);
        context.data := context.data[step.code := Slot(sc)];
      }
      assert requests[..|requests|] == requests;
      err := None;
    }

    /** `_executor`: call the step's executor and store what it returns as the response. */
    method Executor(env: Env, step: Step, context: Context, stepCtx: StepContext, mocha: Mocha)
      returns (sc: StepContext, err: Option<string>)
      modifies context, mocha`calls
      ensures mocha.calls == old(mocha.calls) + [Executed(step.code, Resolved(env, scenarioFolder, step.executor))]
      ensures env.execute(Resolved(env, scenarioFolder, step.executor), step, old(context.data), stepCtx).Err? ==>
        err == Some(env.execute(Resolved(env, scenarioFolder, step.executor), step, old(context.data), stepCtx).message)
        && sc == stepCtx && context.data == old(context.data)
      ensures env.execute(Resolved(env, scenarioFolder, step.executor), step, old(context.data), stepCtx).Ok? ==>
        err.None? && sc == stepCtx.(response := env.execute(Resolved(env, scenarioFolder, step.executor), step, old(context.data), stepCtx).value)
        && context.data == old(context.data)[step.code := Slot(sc)]
    {
      var executor := ModuleRef(env.resolve(scenarioFolder, step.executor.modulePath), step.executor.functionName);
      mocha.calls := mocha.calls + [Executed(step.code, executor)];
      var response := env.execute(executor, step, context.data, stepCtx);
      if response.Err? {
        return stepCtx, Some(response.message);
      }
      sc := stepCtx.(response := response.value);
      context.data := context.data[step.code := Slot(sc)];
      err := None;
    }

    /** `_doAssert`: for each assert, load the expected document when one is
        named, then call the assert function; stop at the first throw. */
    method DoAssert(env: Env, asserts: seq<AssertSpec>, step: Step, context: Context, stepCtx: StepContext, mocha: Mocha)
      returns (sc: StepContext, err: Option<string>)
      modifies context, mocha`calls
      ensures Progress(context.data, sc, mocha.calls, err)
        == RunAsserts(env, scenarioFolder, step, asserts, Progress(old(context.data), stepCtx, old(mocha.calls), None))
    {
      ghost var p := Progress(context.data, stepCtx, mocha.calls, None);
      sc := stepCtx;
      for i := 0 to |asserts|
        invariant Progress(context.data, sc, mocha.calls, None) == RunAsserts(env, scenarioFolder, step, asserts[..i], p)
      {
        assert asserts[..i + 1][..i] == asserts[..i];
        var a := asserts[i];
        ghost var prev := Progress(context.data, sc, mocha.calls, None);
        assert RunAsserts(env, scenarioFolder, step, asserts[..i + 1], p) == RunAssert(env, scenarioFolder, step, a, prev);
        if a.expected != "" {
          var expectedPath := env.resolve(scenarioFolder, a.expected);
          var expected := env.readJson(expectedPath);
          if expected.Err? {
            RunAssertsStop(env, scenarioFolder, step, asserts, p, i + 1);
            return sc, Some(expected.message);
          }
          var processed := HandleJsonPathMacros(expected.value, context.data, env.query);
          var parsed := env.parse(processed);
          if parsed.Throw? {
            RunAssertsStop(env, scenarioFolder, step, asserts, p, i + 1);
            return sc, Some(parsed.message);
          }
          sc := sc.(expected := Some(processed));
          context.data := context.data[step.code := Slot(sc)];
        }
        var check := ModuleRef(env.resolve(scenarioFolder, a.check.modulePath), a.check.functionName);
        mocha.calls := mocha.calls + [Asserted(step.code, check)];
        var result := env.check(check, step, context.data, sc);
        if result.Throw? {
          RunAssertsStop(env, scenarioFolder, step, asserts, p, i + 1);
          return sc, Some(result.message);
        }
      }
      assert asserts[..|asserts|] == asserts;
      err := None;
    }

    /** `_assert`: an array of asserts as it is, any other object as a list of one, otherwise none. */
    method Assert(env: Env, step: Step, context: Context, stepCtx: StepContext, mocha: Mocha)
      returns (sc: StepContext, err: Option<string>)
      modifies context, mocha`calls
      ensures Progress(context.data, sc, mocha.calls, err)
        == RunAsserts(env, scenarioFolder, step, Normalise(step.asserts), Progress(old(context.data), stepCtx, old(mocha.calls), None))
    {
      var asserts: Option<seq<AssertSpec>> :=
        match step.asserts
        case NoAssert => None
        case AssertList(xs) => Some(xs)
        case AssertObject(x) => Some([x])
        case AssertScalar => None;
      if asserts.Some? {
        sc, err := DoAssert(env, asserts.value, step, context, stepCtx, mocha);
      } else {
        sc, err := stepCtx, None;
      }
    }

    /** `_setStepReport`: push the test's identifier and the step's identity. */
    method SetStepReport(env: Env, report: ReportList, step: Step, context: Context, uuid: string)
      modifies report
      ensures report.entries == old(report.entries) + [ReportEntry(uuid, StepIdentity(env, step, context.data))]
    {
      var identity := if step.identityExpression != "" then Retrieve(context.data, step.identityExpression, env.query) else Undefined;
      report.Push(ReportEntry(uuid, identity));
    }

    /** The body of the test `_executeSteps` registers for a step. */
    method RunTest(env: Env, step: Step, context: Context, report: ReportList, mocha: Mocha, uuid: string)
      returns (outcome: Outcome)
      modifies context, report, mocha`calls
      ensures (State(context.data, report.entries, mocha.calls), outcome)
        == RunStep(env, scenarioFolder, step, uuid, State(old(context.data), old(report.entries), old(mocha.calls)))
    {
      if Bypassed(context.data) {
        return Failed(PreviousStepFailed);
      }
      var stepCtx := InitStepCtx(step);
      context.data := context.data[step.code := Slot(stepCtx)];
      var err;
      stepCtx, err := LoadRequestsToContext(env, step, context, stepCtx, mocha);
      if err.Some? {
        context.data := Bypass(context.data);
        return Failed(err.value);
      }
      stepCtx, err := Executor(env, step, context, stepCtx, mocha);
      if err.Some? {
        context.data := Bypass(context.data);
        return Failed(err.value);
      }
      SetStepReport(env, report, step, context, uuid);
      stepCtx, err := Assert(env, step, context, stepCtx, mocha);
      if err.Some? {
        context.data := Bypass(context.data);
        return Failed(err.value);
      }
      outcome := Passed;
    }

    /** `_executeSteps`: register one test per step not marked `skip`, in
        order, each closing over `context` and `report`. */
    method ExecuteSteps(context: Context, report: ReportList, mocha: Mocha)
      modifies mocha`tests
      ensures |mocha.tests| == |old(mocha.tests)| + |NotSkipped(config.steps)|
      ensures mocha.tests[..|old(mocha.tests)|] == old(mocha.tests)
      ensures forall k :: 0 <= k < |NotSkipped(config.steps)| ==>
        mocha.tests[|old(mocha.tests)| + k] == Test(this, NotSkipped(config.steps)[k], context, report)
      ensures Bindings(mocha.tests) == Bindings(old(mocha.tests)) + Bind(context, report, OwnUnits(scenarioFolder, config.steps))
    {
      var steps := NotSkipped(config.steps);
      for i := 0 to |steps|
        invariant |mocha.tests| == |old(mocha.tests)| + i
        invariant mocha.tests[..|old(mocha.tests)|] == old(mocha.tests)
        invariant forall k :: 0 <= k < i ==> mocha.tests[|old(mocha.tests)| + k] == Test(this, steps[k], context, report)
      {
        mocha.It(this, steps[i], context, report);
      }
      var own := OwnUnits(scenarioFolder, config.steps);
      var added := mocha.tests[|old(mocha.tests)|..];
      assert mocha.tests == old(mocha.tests) + added;
      BindingsAppend(old(mocha.tests), added);
      assert Bindings(added) == Bind(context, report, own);
    }

    /** `_initContext`: the given context, or a new empty one, passed through
        the configured initialiser when there is one. */
    method InitContext(env: Env, ctx: Context?) returns (context: Context, err: Option<string>)
      modifies ctx
      ensures ctx != null ==> context == ctx
      ensures ctx == null ==> fresh(context)
      ensures var data := if ctx == null then map[] else old(ctx.data);
        match config.initContext
        case None => err.None? && context.data == data
        case Some(m) =>
          match env.init(Resolved(env, scenarioFolder, m), data)
          case Err(msg) => err == Some(msg) && context.data == data
          case Ok(d) => err.None? && context.data == d
    {
      if ctx == null {
        context := new Context(map[]);
      } else {
        context := ctx;
      }
      err := None;
      if config.initContext.Some? {
        var m := config.initContext.value;
        var initialiser := ModuleRef(env.resolve(scenarioFolder, m.modulePath), m.functionName);
        var result := env.init(initialiser, context.data);
        if result.Err? {
          return context, Some(result.message);
        }
        context.data := result.value;
      }
    }

    /** `execute`: initialise the context, register the before-scenarios,
        then this scenario's own tests; every test registered closes over
        the context and `report`. */
    method Execute(env: Env, ctx: Context?, report: ReportList, mocha: Mocha, fuel: nat) returns (context: Context, err: Option<string>)
      modifies ctx, mocha`tests
      ensures ctx != null ==> context == ctx
      ensures ctx == null ==> fresh(context)
      ensures var r := Register(env, scenarioFolder, config, if ctx == null then map[] else old(ctx.data), fuel);
        context.data == r.data && err == r.error
        && Bindings(mocha.tests) == Bindings(old(mocha.tests)) + Bind(context, report, r.units)
      decreases fuel, 1
    {
      ghost var data0 := if ctx == null then map[] else ctx.data;
      ghost var r := Register(env, scenarioFolder, config, data0, fuel);
      context, err := InitContext(env, ctx);
      if err.Some? {
        assert r == Registration(data0, [], err);
        assert Bindings(mocha.tests) + Bind(context, report, []) == Bindings(mocha.tests);
        return;
      }
      ghost var data1 := context.data;
      ghost var tests0 := mocha.tests;
      ghost var before := Before(env, config.executeBefore, data1, fuel);
      err := ExecuteBefore(env, context, report, mocha, fuel);
      if err.Some? {
        assert r == before;
        return;
      }
      ExecuteSteps(context, report, mocha);
      var own := OwnUnits(scenarioFolder, config.steps);
      assert r == Registration(before.data, before.units + own, None);
      BindAppend(context, report, before.units, own);
      AppendAssoc(Bindings(tests0), Bind(context, report, before.units), Bind(context, report, own));
    }

    /** `_executeBefore`: each named scenario, found among the configuration
        folders by its basename, loaded and executed on the same context. */
    method ExecuteBefore(env: Env, context: Context, report: ReportList, mocha: Mocha, fuel: nat) returns (err: Option<string>)
      modifies context, mocha`tests
      ensures var r := Before(env, config.executeBefore, old(context.data), fuel);
        context.data == r.data && err == r.error
        && Bindings(mocha.tests) == Bindings(old(mocha.tests)) + Bind(context, report, r.units)
      decreases fuel, 0
    {
      ghost var data0 := context.data;
      ghost var tests0 := mocha.tests;
      var names := config.executeBefore;
      var folders := env.folders;
      for i := 0 to |names|
        invariant var r := Before(env, names[..i], data0, fuel);
          context.data == r.data && Bindings(mocha.tests) == Bindings(tests0) + Bind(context, report, r.units) && r.error.None?
      {
        assert names[..i + 1][..i] == names[..i];
        ghost var prev := Before(env, names[..i], data0, fuel);
        ghost var next := Before(env, names[..i + 1], data0, fuel);
        var name := names[i];
        var found := FindFolder(folders, name);
        if found.None? {
          assert next == prev.(error := Some(FolderNotFound(name)));
          BeforeStop(env, names, data0, fuel, i + 1);
          return Some(FolderNotFound(name));
        }
        var folder := folders[found.value];
        var scenario := ScenarioBase.Load(env, folder);
        if scenario.Err? {
          assert next == prev.(error := Some(scenario.message));
          BeforeStop(env, names, data0, fuel, i + 1);
          return Some(scenario.message);
        }
        if fuel == 0 {
          assert next == prev.(error := Some(StackExhausted));
          BeforeStop(env, names, data0, fuel, i + 1);
          return Some(StackExhausted);
        }
        ghost var sub := Register(env, folder, scenario.value.config, prev.data, fuel - 1);
        assert next == Registration(sub.data, prev.units + sub.units, sub.error);
        var _, subErr := scenario.value.Execute(env, context, report, mocha, fuel - 1);
        BindAppend(context, report, prev.units, sub.units);
        AppendAssoc(Bindings(tests0), Bind(context, report, prev.units), Bind(context, report, sub.units));
        if subErr.Some? {
          BeforeStop(env, names, data0, fuel, i + 1);
          return subErr;
        }
      }
      assert names[..|names|] == names;
      err := None;
    }
  }
}
