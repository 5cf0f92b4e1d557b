/** The query dispatcher: its builder, the admission permits, and the
    sequential per-statement execution of a query. Collaborators whose code
    is not part of this model (parser, session factory, logical planner,
    execution factory) are function values. */
module Dispatcher {
  import opened Wrappers
  import opened QueryTypes
  import opened Ast
  import opened LogicalPlans

  /** Rust `u32`, the argument of `with_queries_limit`. */
  newtype u32 = x: int | 0 <= x < 0x1_0000_0000

  type ParserFn = string -> Result<seq<ExtStatement>, QueryError>

  type SessionFactory = Context -> Session

  /** The logical planner built over the scoped metadata, which resolves
      names against the catalog as it stands when the statement is planned. */
  type PlannerFn = (MetaData, CatalogState, ExtStatement, Session) -> Result<LogicalPlan, Cause>

  /** What running one statement yields, and the catalog it leaves behind. */
  datatype Step = Step(result: Result<Output, QueryError>, catalog: CatalogState)

  /** Creating a query execution for a plan and the statement's state
      machine (its query information and the states it has entered so far)
      and starting it against the current catalog, which the execution may
      change. */
  type ExecutionFactory = (LogicalPlan, QueryInfo, seq<QueryState>, CatalogState) -> Step

  datatype OptimizerHandle = OptimizerHandle(id: nat)

  datatype SchedulerHandle = SchedulerHandle(id: nat)

  /** `SqlQueryExecutionFactory::new`. */
  type ExecutionFactoryCtor = (OptimizerHandle, SchedulerHandle) -> ExecutionFactory

  // ---------------------------------------------------------------- builder

  datatype Builder = Builder(
    metadata: Option<MetaData>,
    sessionFactory: Option<SessionFactory>,
    parser: Option<ParserFn>,
    optimizer: Option<OptimizerHandle>,
    scheduler: Option<SchedulerHandle>,
    queriesLimit: nat)

  /** The derived `Default`: nothing set, and a limit of zero queries. */
  function DefaultBuilder(): (b: Builder)
    ensures Missing(b) == ["metadata", "session_factory", "parser", "optimizer", "scheduler"]
    ensures b.queriesLimit == 0
  {
    Builder(None, None, None, None, None, 0)
  }

  function WithMetadata(b: Builder, meta: MetaData): (r: Builder)
    ensures r.metadata == Some(meta) && r.(metadata := b.metadata) == b
  {
    b.(metadata := Some(meta))
  }

  function WithSessionFactory(b: Builder, sessionFactory: SessionFactory): (r: Builder)
    ensures r.sessionFactory == Some(sessionFactory) && r.(sessionFactory := b.sessionFactory) == b
  {
    b.(sessionFactory := Some(sessionFactory))
  }

  function WithParser(b: Builder, parser: ParserFn): (r: Builder)
    ensures r.parser == Some(parser) && r.(parser := b.parser) == b
  {
    b.(parser := Some(parser))
  }

  function WithOptimizer(b: Builder, optimizer: OptimizerHandle): (r: Builder)
    ensures r.optimizer == Some(optimizer) && r.(optimizer := b.optimizer) == b
  {
    b.(optimizer := Some(optimizer))
  }

  function WithScheduler(b: Builder, scheduler: SchedulerHandle): (r: Builder)
    ensures r.scheduler == Some(scheduler) && r.(scheduler := b.scheduler) == b
  {
    b.(scheduler := Some(scheduler))
  }

  function WithQueriesLimit(b: Builder, limit: u32): (r: Builder)
    ensures r.queriesLimit == limit as nat && r.(queriesLimit := b.queriesLimit) == b
  {
    b.(queriesLimit := limit as nat)
  }

  /** The required collaborators still missing, in the order `build` checks them. */
  function Missing(b: Builder): seq<string>
  {
    (if b.metadata.None? then ["metadata"] else [])
    + (if b.sessionFactory.None? then ["session_factory"] else [])
    + (if b.parser.None? then ["parser"] else [])
    + (if b.optimizer.None? then ["optimizer"] else [])
    + (if b.scheduler.None? then ["scheduler"] else [])
  }

  lemma FirstMissing(b: Builder)
    ensures b.metadata.None? ==> Missing(b)[0] == "metadata"
    ensures b.metadata.Some? && b.sessionFactory.None? ==> Missing(b)[0] == "session_factory"
    ensures b.metadata.Some? && b.sessionFactory.Some? && b.parser.None? ==> Missing(b)[0] == "parser"
    ensures b.metadata.Some? && b.sessionFactory.Some? && b.parser.Some? && b.optimizer.None? ==>
              Missing(b)[0] == "optimizer"
    ensures b.metadata.Some? && b.sessionFactory.Some? && b.parser.Some? && b.optimizer.Some? && b.scheduler.None? ==>
              Missing(b)[0] == "scheduler"
  {
  }

  /** The message `build` reports for a missing collaborator. */
  function LostOf(collaborator: string): string
  {
    "lost of " + collaborator
  }

  /** The parts of a built dispatcher; the permit pool is sized by `queriesLimit`. */
  datatype DispatcherConfig = DispatcherConfig(
    metadata: MetaData,
    sessionFactory: SessionFactory,
    parser: ParserFn,
    executionFactory: ExecutionFactory,
    queriesLimit: nat)

  /** `build`: fails naming the first missing collaborator, in the order
      metadata, session factory, parser, optimizer, scheduler; otherwise the
      dispatcher holds exactly the collaborators given and a pool of
      `queriesLimit` permits. */
  function Build(b: Builder, newFactory: ExecutionFactoryCtor): (r: Result<DispatcherConfig, QueryError>)
    ensures r.Err? <==> |Missing(b)| > 0
    ensures r.Err? ==> r.error == BuildQueryDispatcher(LostOf(Missing(b)[0]))
    ensures r.Ok? ==> (r.value.metadata == b.metadata.value && r.value.sessionFactory == b.sessionFactory.value
                       && r.value.parser == b.parser.value && r.value.queriesLimit == b.queriesLimit
                       && r.value.executionFactory == newFactory(b.optimizer.value, b.scheduler.value))
  {
    FirstMissing(b);
    if b.metadata.None? then Err(BuildQueryDispatcher(LostOf("metadata")))
    else if b.sessionFactory.None? then Err(BuildQueryDispatcher(LostOf("session_factory")))
    else if b.parser.None? then Err(BuildQueryDispatcher(LostOf("parser")))
    else if b.optimizer.None? then Err(BuildQueryDispatcher(LostOf("optimizer")))
    else if b.scheduler.None? then Err(BuildQueryDispatcher(LostOf("scheduler")))
    else
      var factory := newFactory(b.optimizer.value, b.scheduler.value);
      Ok(DispatcherConfig(b.metadata.value, b.sessionFactory.value, b.parser.value, factory, b.queriesLimit))
  }

  /** A builder given every collaborator but no limit builds a dispatcher
      with no permits at all; the default builder fails on the metadata. */
  lemma DefaultLimitIsZero(meta: MetaData, sf: SessionFactory, p: ParserFn, o: OptimizerHandle, s: SchedulerHandle,
                           newFactory: ExecutionFactoryCtor)
    ensures Build(DefaultBuilder(), newFactory) == Err(BuildQueryDispatcher(LostOf("metadata")))
    ensures var b := WithScheduler(WithOptimizer(WithParser(WithSessionFactory(WithMetadata(DefaultBuilder(), meta), sf), p), o), s);
            Build(b, newFactory).Ok? && Build(b, newFactory).value.queriesLimit == 0
  {
  }

  // ---------------------------------------------------------------- admission

  /** One non-blocking acquisition on a pool with `free` permits: the permits
      left afterwards, or `None` when the pool is empty. */
  function TryAcquireStep(free: nat): Option<nat>
  {
    if free == 0 then None else Some(free - 1)
  }

  /** How many of `k` queries are admitted when they all try to acquire a
      permit before any of them releases one. */
  function Admitted(free: nat, k: nat): nat
  {
    if k == 0 then 0
    else match TryAcquireStep(free)
      case None => Admitted(free, k - 1)
      case Some(left) => 1 + Admitted(left, k - 1)
  }

  /** With `free` permits, `k` overlapping queries see `min(free, k)`
      admissions and the rest rejected; in particular `n + 1` queries against
      `n` permits see exactly one rejection. */
  lemma {:induction false} AdmissionCount(free: nat, k: nat)
    ensures Admitted(free, k) == if free < k then free else k
    ensures k == free + 1 ==> k - Admitted(free, k) == 1
  {
    if k > 0 && free > 0 {
      AdmissionCount(free - 1, k - 1);
    } else if k > 0 {
      AdmissionCount(free, k - 1);
    }
  }

  // ---------------------------------------------------------------- statements

  /** The session of a query and the metadata scoped to its catalog and database. */
  function InfoFor(query: Query, sessionFactory: SessionFactory, metadata: MetaData): QueryInfo
  {
    var session := sessionFactory(query.context);
    QueryInfo(query, session, metadata.WithCatalog(session.catalog).WithDatabase(session.database))
  }

  /** One statement, whose state machine has entered the states `history`,
      against the current catalog: a statement that fails to plan never
      reaches the execution factory, fails as `LogicalPlanner` and leaves the
      catalog as it was; a planned statement is handed to the execution with
      its state machine already through `Analyzing` and `Analyzed`, and
      yields what that execution yields, catalog included. */
  function StatementOutcomeFrom(stmt: ExtStatement, info: QueryInfo, history: seq<QueryState>, planner: PlannerFn,
                                exec: ExecutionFactory, catalog: CatalogState): (step: Step)
    ensures planner(info.metadata, catalog, stmt, info.session).Err? ==>
              step.catalog == catalog
              && step.result == Err(LogicalPlanner(planner(info.metadata, catalog, stmt, info.session).error))
    ensures planner(info.metadata, catalog, stmt, info.session).Ok? ==>
              step == exec(planner(info.metadata, catalog, stmt, info.session).value, info,
                           history + [Analyzing, Analyzed], catalog)
  {
    match planner(info.metadata, catalog, stmt, info.session)
    case Err(e) => Step(Err(LogicalPlanner(e)), catalog)
    case Ok(plan) => exec(plan, info, history + [Analyzing, Analyzed], catalog)
  }

  /** One statement with a fresh state machine, as `execute_query` runs each
      one: the execution sees the machine in `Created`, `Analyzing`,
      `Analyzed` order. */
  function StatementOutcome(stmt: ExtStatement, info: QueryInfo, planner: PlannerFn, exec: ExecutionFactory,
                            catalog: CatalogState): (step: Step)
    ensures planner(info.metadata, catalog, stmt, info.session).Err? ==>
              step.catalog == catalog
              && step.result == Err(LogicalPlanner(planner(info.metadata, catalog, stmt, info.session).error))
    ensures planner(info.metadata, catalog, stmt, info.session).Ok? ==>
              step == exec(planner(info.metadata, catalog, stmt, info.session).value, info,
                           [Created, Analyzing, Analyzed], catalog)
  {
    assert [Created] + [Analyzing, Analyzed] == [Created, Analyzing, Analyzed];
    StatementOutcomeFrom(stmt, info, [Created], planner, exec, catalog)
  }

  /** A run of a statement list: its result, the statements whose execution
      began, and the catalog it leaves behind. */
  datatype Run = Run(result: Result<seq<Output>, QueryError>, attempted: seq<ExtStatement>, catalog: CatalogState)

  /** Running `stmts` in order, each against the catalog the statements
      before it left, stopping at the first failure: the statements begun are
      a prefix of the list, all of it on success, and a success has one
      output per statement. */
  function RunStatements(stmts: seq<ExtStatement>, info: QueryInfo, planner: PlannerFn, exec: ExecutionFactory,
                         catalog: CatalogState): (run: Run)
    ensures run.attempted <= stmts
    ensures run.result.Ok? ==> run.attempted == stmts && |run.result.value| == |stmts|
    ensures run.result.Err? ==> |run.attempted| > 0
    decreases |stmts|
  {
    if |stmts| == 0 then
      Run(Ok([]), [], catalog)
    else
      var first := StatementOutcome(stmts[0], info, planner, exec, catalog);
      if first.result.Err? then
        Run(Err(first.result.error), [stmts[0]], first.catalog)
      else
        Cons(stmts[0], first.result.value, RunStatements(stmts[1..], info, planner, exec, first.catalog))
  }

  /** A statement that succeeded with `out`, followed by the run `rest` of
      the statements after it. */
  function Cons(stmt: ExtStatement, out: Output, rest: Run): Run
  {
    Run(if rest.result.Ok? then Ok([out] + rest.result.value) else rest.result, [stmt] + rest.attempted, rest.catalog)
  }

  /** A successful run `ra` followed by the run `rb` of more statements. */
  function Then(ra: Run, rb: Run): Run
    requires ra.result.Ok?
  {
    Run(if rb.result.Ok? then Ok(ra.result.value + rb.result.value) else rb.result,
        ra.attempted + rb.attempted, rb.catalog)
  }

  lemma ConsThen(stmt: ExtStatement, out: Output, ra: Run, rb: Run)
    requires ra.result.Ok?
    ensures Cons(stmt, out, Then(ra, rb)) == Then(Cons(stmt, out, ra), rb)
  {
    assert [stmt] + (ra.attempted + rb.attempted) == ([stmt] + ra.attempted) + rb.attempted;
    if rb.result.Ok? {
      assert [out] + (ra.result.value + rb.result.value) == ([out] + ra.result.value) + rb.result.value;
    }
  }

  /** The run of a single statement. */
  lemma RunSingle(stmt: ExtStatement, info: QueryInfo, planner: PlannerFn, exec: ExecutionFactory, catalog: CatalogState)
    ensures var step := StatementOutcome(stmt, info, planner, exec, catalog);
            RunStatements([stmt], info, planner, exec, catalog)
            == Run(if step.result.Ok? then Ok([step.result.value]) else Err(step.result.error), [stmt], step.catalog)
  {
    var step := StatementOutcome(stmt, info, planner, exec, catalog);
    assert [stmt][1..] == [];
    if step.result.Ok? {
      assert RunStatements([], info, planner, exec, step.catalog) == Run(Ok([]), [], step.catalog);
      assert [step.result.value] + [] == [step.result.value];
      assert [stmt] + [] == [stmt];
    }
  }

  /** Running `a + b` is running `a` and, only if it succeeded, `b` against
      the catalog `a` left: the first error wins, and outputs and begun
      statements are concatenated. */
  lemma {:induction false} RunConcat(a: seq<ExtStatement>, b: seq<ExtStatement>, info: QueryInfo,
                                     planner: PlannerFn, exec: ExecutionFactory, catalog: CatalogState)
    ensures var ra := RunStatements(a, info, planner, exec, catalog);
            ra.result.Err? ==> RunStatements(a + b, info, planner, exec, catalog) == ra
    ensures var ra := RunStatements(a, info, planner, exec, catalog);
            ra.result.Ok? ==>
              RunStatements(a + b, info, planner, exec, catalog) == Then(ra, RunStatements(b, info, planner, exec, ra.catalog))
  {
    if |a| == 0 {
      assert a + b == b;
      var rb := RunStatements(b, info, planner, exec, catalog);
      assert [] + rb.attempted == rb.attempted;
      if rb.result.Ok? {
        assert [] + rb.result.value == rb.result.value;
      }
    } else {
      var first := StatementOutcome(a[0], info, planner, exec, catalog);
      assert (a + b)[0] == a[0] && (a + b)[1..] == a[1..] + b;
      if first.result.Ok? {
        var rest := RunStatements(a[1..], info, planner, exec, first.catalog);
        RunConcat(a[1..], b, info, planner, exec, first.catalog);
        if rest.result.Ok? {
          ConsThen(a[0], first.result.value, rest, RunStatements(b, info, planner, exec, rest.catalog));
        }
      }
    }
  }

  /** One more statement after a successful prefix: statement `i` runs
      against the catalog the first `i` left, and its outcome extends the
      prefix's run. */
  lemma RunStep(stmts: seq<ExtStatement>, i: nat, info: QueryInfo, planner: PlannerFn, exec: ExecutionFactory,
                catalog: CatalogState)
    requires i < |stmts|
    requires RunStatements(stmts[..i], info, planner, exec, catalog).result.Ok?
    ensures var before := RunStatements(stmts[..i], info, planner, exec, catalog);
            var step := StatementOutcome(stmts[i], info, planner, exec, before.catalog);
            RunStatements(stmts[..i + 1], info, planner, exec, catalog)
            == Run(if step.result.Ok? then Ok(before.result.value + [step.result.value]) else Err(step.result.error),
                   stmts[..i + 1], step.catalog)
  {
    var before := RunStatements(stmts[..i], info, planner, exec, catalog);
    var step := StatementOutcome(stmts[i], info, planner, exec, before.catalog);
    assert stmts[..i + 1] == stmts[..i] + [stmts[i]];
    assert [stmts[i]][1..] == [];
    RunSingle(stmts[i], info, planner, exec, before.catalog);
    RunConcat(stmts[..i], [stmts[i]], info, planner, exec, catalog);
  }

  /** A failing prefix decides the run of the whole list. */
  lemma RunStopsAtFailure(stmts: seq<ExtStatement>, i: nat, info: QueryInfo, planner: PlannerFn,
                          exec: ExecutionFactory, catalog: CatalogState)
    requires i <= |stmts|
    requires RunStatements(stmts[..i], info, planner, exec, catalog).result.Err?
    ensures RunStatements(stmts, info, planner, exec, catalog) == RunStatements(stmts[..i], info, planner, exec, catalog)
  {
    assert stmts[..i] + stmts[i..] == stmts;
    RunConcat(stmts[..i], stmts[i..], info, planner, exec, catalog);
  }

  /** One turn of a loop that keeps the run of the first `i` statements:
      statement `i`'s outcome either extends that run or, as an error,
      decides the run of the whole list. */
  lemma RunLoopStep(stmts: seq<ExtStatement>, i: nat, info: QueryInfo, planner: PlannerFn, exec: ExecutionFactory,
                    catalog: CatalogState, outputs: seq<Output>, current: CatalogState, step: Step)
    requires i < |stmts|
    requires RunStatements(stmts[..i], info, planner, exec, catalog) == Run(Ok(outputs), stmts[..i], current)
    requires step == StatementOutcome(stmts[i], info, planner, exec, current)
    ensures stmts[..i + 1] == stmts[..i] + [stmts[i]]
    ensures step.result.Ok? ==>
              RunStatements(stmts[..i + 1], info, planner, exec, catalog)
              == Run(Ok(outputs + [step.result.value]), stmts[..i + 1], step.catalog)
    ensures step.result.Err? ==>
              RunStatements(stmts, info, planner, exec, catalog) == Run(Err(step.result.error), stmts[..i + 1], step.catalog)
  {
    RunStep(stmts, i, info, planner, exec, catalog);
    if step.result.Err? {
      RunStopsAtFailure(stmts, i + 1, info, planner, exec, catalog);
    }
  }

  /** The catalog statement `i` is planned and run against: the one the
      statements before it left. */
  function CatalogBefore(stmts: seq<ExtStatement>, i: nat, info: QueryInfo, planner: PlannerFn,
                         exec: ExecutionFactory, catalog: CatalogState): CatalogState
    requires i <= |stmts|
  {
    RunStatements(stmts[..i], info, planner, exec, catalog).catalog
  }

  /** How statement `j` shows in the run of the whole list. */
  lemma RunAt(stmts: seq<ExtStatement>, j: nat, info: QueryInfo, planner: PlannerFn, exec: ExecutionFactory,
              catalog: CatalogState)
    requires j < |stmts|
    ensures var whole := RunStatements(stmts, info, planner, exec, catalog);
            var before := RunStatements(stmts[..j], info, planner, exec, catalog);
            var step := StatementOutcome(stmts[j], info, planner, exec, before.catalog);
            && (before.result.Err? ==> |whole.attempted| <= j)
            && (before.result.Ok? && step.result.Err? ==>
                  whole == Run(Err(step.result.error), stmts[..j + 1], step.catalog))
            && (before.result.Ok? && step.result.Ok? && whole.result.Err? ==> |whole.attempted| > j + 1)
            && (before.result.Ok? && step.result.Ok? && whole.result.Ok? ==> whole.result.value[j] == step.result.value)
  {
    var before := RunStatements(stmts[..j], info, planner, exec, catalog);
    assert stmts[..j] + stmts[j..] == stmts;
    RunConcat(stmts[..j], stmts[j..], info, planner, exec, catalog);
    if before.result.Ok? {
      assert stmts[j..][0] == stmts[j];
      assert stmts[..j] + [stmts[j]] == stmts[..j + 1];
    }
  }

  /** What a run means statement by statement, each statement taken against
      the catalog the ones before it left. A success holds, at position `i`,
      the output of statement `i`. A failure is the error of statement `k`,
      where every statement before `k` succeeded, nothing after `k` began,
      and the catalog is the one statement `k` left. */
  lemma RunMeaning(stmts: seq<ExtStatement>, info: QueryInfo, planner: PlannerFn, exec: ExecutionFactory,
                   catalog: CatalogState)
    ensures var run := RunStatements(stmts, info, planner, exec, catalog);
            run.result.Ok? ==>
              forall i :: 0 <= i < |stmts| ==>
                StatementOutcome(stmts[i], info, planner, exec, CatalogBefore(stmts, i, info, planner, exec, catalog)).result
                == Ok(run.result.value[i])
    ensures var run := RunStatements(stmts, info, planner, exec, catalog);
            run.result.Err? ==>
              var k := |run.attempted| - 1;
              && k < |stmts| && run.attempted == stmts[..k + 1]
              && (forall j :: 0 <= j < k ==>
                    StatementOutcome(stmts[j], info, planner, exec, CatalogBefore(stmts, j, info, planner, exec, catalog)).result.Ok?)
              && StatementOutcome(stmts[k], info, planner, exec, CatalogBefore(stmts, k, info, planner, exec, catalog))
                 == Step(Err(run.result.error), run.catalog)
  {
    var run := RunStatements(stmts, info, planner, exec, catalog);
    if run.result.Ok? {
      forall i | 0 <= i < |stmts|
        ensures StatementOutcome(stmts[i], info, planner, exec, CatalogBefore(stmts, i, info, planner, exec, catalog)).result
                == Ok(run.result.value[i])
      {
        RunAt(stmts, i, info, planner, exec, catalog);
      }
    } else {
      var k := |run.attempted| - 1;
      forall j | 0 <= j < k
        ensures StatementOutcome(stmts[j], info, planner, exec, CatalogBefore(stmts, j, info, planner, exec, catalog)).result.Ok?
      {
        RunAt(stmts, j, info, planner, exec, catalog);
      }
      RunAt(stmts, k, info, planner, exec, catalog);
    }
  }

  // ---------------------------------------------------------------- dispatcher

  /** `SimpleQueryDispatcher`: its collaborators, a pool of `freePermits`
      permits out of `queriesLimit`, and the catalog its metadata handle
      refers to. `started` records, for the proofs, the statements whose
      execution has begun, in order. */
  class SimpleQueryDispatcher {
    const metadata: MetaData
    const sessionFactory: SessionFactory
    const parser: ParserFn
    const executionFactory: ExecutionFactory
    const queriesLimit: nat
    var freePermits: nat
    var catalog: CatalogState
    ghost var started: seq<ExtStatement>

    ghost predicate Valid()
      reads this
    {
      freePermits <= queriesLimit
    }

    /** The dispatcher a successful `build` returns, with every permit free,
        over a catalog in state `catalog`. */
    constructor (config: DispatcherConfig, catalog: CatalogState)
      ensures Valid() && freePermits == queriesLimit && started == [] && this.catalog == catalog
      ensures metadata == config.metadata && sessionFactory == config.sessionFactory && parser == config.parser
      ensures executionFactory == config.executionFactory && queriesLimit == config.queriesLimit
    {
      metadata := config.metadata;
      sessionFactory := config.sessionFactory;
      parser := config.parser;
      executionFactory := config.executionFactory;
      queriesLimit := config.queriesLimit;
      freePermits := config.queriesLimit;
      this.catalog := catalog;
      started := [];
    }

    /** `Semaphore::try_acquire`: takes a permit if one is free, never waits. */
    method TryAcquire() returns (acquired: bool)
      requires Valid()
      modifies this`freePermits
      ensures Valid()
      ensures acquired <==> TryAcquireStep(old(freePermits)).Some?
      ensures freePermits == if acquired then TryAcquireStep(old(freePermits)).value else old(freePermits)
    {
      acquired := freePermits > 0;
      if acquired {
        freePermits := freePermits - 1;
      }
    }

    /** `k` queries arriving together, each trying for a permit before any
        of them is done: `min(free, k)` are admitted, the rest rejected. */
    method AdmitOverlapping(k: nat) returns (admitted: nat)
      requires Valid()
      modifies this`freePermits
      ensures Valid()
      ensures admitted == Admitted(old(freePermits), k)
      ensures admitted == if old(freePermits) < k then old(freePermits) else k
      ensures freePermits == old(freePermits) - admitted
    {
      admitted := 0;
      for i := 0 to k
        invariant Valid()
        invariant freePermits + admitted == old(freePermits)
        invariant admitted + Admitted(freePermits, k - i) == Admitted(old(freePermits), k)
      {
        var acquired := TryAcquire();
        if acquired {
          admitted := admitted + 1;
        }
      }
      AdmissionCount(old(freePermits), k);
    }

    /** Dropping the permit returns it to the pool. */
    method Release()
      requires freePermits < queriesLimit
      modifies this`freePermits
      ensures Valid() && freePermits == old(freePermits) + 1
    {
      freePermits := freePermits + 1;
    }

    /** What `execute_query` does once admitted, starting from catalog
        `catalog`: a parse error begins nothing and changes nothing;
        otherwise the parsed statements run in order. */
    function QueryRun(query: Query, planner: PlannerFn, catalog: CatalogState): Run
    {
      match parser(query.content)
      case Err(e) => Run(Err(e), [], catalog)
      case Ok(stmts) => RunStatements(stmts, InfoFor(query, sessionFactory, metadata), planner, executionFactory, catalog)
    }

    /** `execute_statement`: marks the start of analysis, plans the
        statement against the current catalog, and only when planning
        succeeds marks the end of analysis and hands the plan to the
        execution factory, whose run may change the catalog. Runs under a
        held permit. */
    method ExecuteStatement(stmt: ExtStatement, planner: PlannerFn, sm: QueryStateMachine)
      returns (r: Result<Output, QueryError>)
      requires Valid() && freePermits < queriesLimit
      modifies this`started, this`catalog, sm
      ensures Step(r, catalog) == StatementOutcomeFrom(stmt, sm.Info(), old(sm.history), planner, executionFactory, old(catalog))
      ensures started == old(started) + [stmt]
      ensures planner(sm.metadata, old(catalog), stmt, sm.session).Ok? ==>
                sm.history == old(sm.history) + [Analyzing, Analyzed]
      ensures planner(sm.metadata, old(catalog), stmt, sm.session).Err? ==>
                sm.history == old(sm.history) + [Analyzing]
    {
      started := started + [stmt];
      sm.BeginAnalyze();
      var plan := planner(sm.metadata, catalog, stmt, sm.session);
      if plan.Err? {
        return Err(LogicalPlanner(plan.error));
      }
      sm.EndAnalyze();
      assert sm.history == old(sm.history) + [Analyzing, Analyzed];
      var step := executionFactory(plan.value, sm.Info(), sm.history, catalog);
      r, catalog := step.result, step.catalog;
    }

    /** The statement loop of `execute_query`, under a held permit: each
        statement gets a fresh state machine over the query's session and
        scoped metadata, runs against the catalog the previous ones left,
        and the first error ends the loop. */
    method ExecuteStatements(stmts: seq<ExtStatement>, query: Query, session: Session, scoped: MetaData,
                             planner: PlannerFn)
      returns (r: Result<seq<Output>, QueryError>)
      requires Valid() && freePermits < queriesLimit
      modifies this`started, this`catalog
      ensures var run := RunStatements(stmts, QueryInfo(query, session, scoped), planner, executionFactory, old(catalog));
              r == run.result && catalog == run.catalog && started == old(started) + run.attempted
    {
      ghost var info := QueryInfo(query, session, scoped);
      ghost var initial := catalog;
      var results: seq<Output> := [];
      for i := 0 to |stmts|
        invariant RunStatements(stmts[..i], info, planner, executionFactory, initial) == Run(Ok(results), stmts[..i], catalog)
        invariant started == old(started) + stmts[..i]
      {
        ghost var before := catalog;
        var sm := new QueryStateMachine.Begin(query, session, scoped);
        var result := ExecuteStatement(stmts[i], planner, sm);
        RunLoopStep(stmts, i, info, planner, executionFactory, initial, results, before, Step(result, catalog));
        if result.Err? {
          return Err(result.error);
        }
        results := results + [result.value];
      }
      assert stmts[..|stmts|] == stmts;
      return Ok(results);
    }

    /** `execute_query`: rejects at once when no permit is free; otherwise
        holds one permit for the whole call, parses, runs the statements in
        order, and returns the permit on every path. */
    method ExecuteQuery(id: QueryId, query: Query, planner: PlannerFn) returns (r: Result<seq<Output>, QueryError>)
      requires Valid()
      modifies this
      ensures Valid() && freePermits == old(freePermits)
      ensures old(freePermits) == 0 ==>
                r == Err(RequestLimit) && started == old(started) && catalog == old(catalog)
      ensures old(freePermits) > 0 && parser(query.content).Err? ==>
                r == Err(parser(query.content).error) && started == old(started) && catalog == old(catalog)
      ensures old(freePermits) > 0 ==>
                var run := QueryRun(query, planner, old(catalog));
                r == run.result && catalog == run.catalog && started == old(started) + run.attempted
    {
      var acquired := TryAcquire();
      if !acquired {
        return Err(RequestLimit);
      }
      var session := sessionFactory(query.context);
      var scoped := metadata.WithCatalog(session.catalog).WithDatabase(session.database);
      assert QueryInfo(query, session, scoped) == InfoFor(query, sessionFactory, metadata);
      var parsed := parser(query.content);
      if parsed.Err? {
        Release();
        return Err(parsed.error);
      }
      r := ExecuteStatements(parsed.value, query, session, scoped, planner);
      Release();
    }
  }
}
