/** Execution of administrative (DDL) plans: each of the eight plan variants
    selects its own task, built from an unchanged copy of the variant's
    sub-plan, and a task failure is wrapped as an execution error. */
module DdlExecution {
  import opened Wrappers
  import opened QueryTypes
  import opened LogicalPlans

  /** One task per DDL plan variant, each holding the sub-plan it executes. */
  datatype DDLTask =
    | CreateExternalTableTask(externalTable: ExternalTablePlan)
    | DropObjectTask(drop: DropPlan)
    | CreateTableTask(createTable: CreateTablePlan)
    | CreateDatabaseTask(createDatabase: CreateDatabasePlan)
    | DescribeDatabaseTask(describeDatabase: DescribeDatabasePlan)
    | DescribeTableTask(describeTable: DescribeTablePlan)
    | ShowTablesTask(showTables: ShowTablesPlan)
    | ShowDatabasesTask

  /** A task's `execute`, whose bodies are not part of this model: the
      task, the statement's state machine and the catalog as it stands, to an
      output or an execution error, and the catalog the task leaves behind. */
  type TaskRunner = (DDLTask, QueryStateMachine, CatalogState) -> (Result<Output, Cause>, CatalogState)

  datatype DDLDefinitionTaskFactory = DDLDefinitionTaskFactory(plan: DDLPlan)

  datatype DDLExecution = DDLExecution(taskFactory: DDLDefinitionTaskFactory, queryStateMachine: QueryStateMachine)

  /** The plan a task carries, as the variant it was made for. */
  function PlanOf(task: DDLTask): DDLPlan
  {
    match task
    case CreateExternalTableTask(p) => CreateExternalTable(p)
    case DropObjectTask(p) => Drop(p)
    case CreateTableTask(p) => CreateTable(p)
    case CreateDatabaseTask(p) => CreateDatabase(p)
    case DescribeDatabaseTask(p) => DescribeDatabase(p)
    case DescribeTableTask(p) => DescribeTable(p)
    case ShowTablesTask(p) => ShowTables(p)
    case ShowDatabasesTask => ShowDatabases
  }

  /** `create_task`: every plan variant yields the task of the same name,
      which carries the variant's sub-plan unchanged. */
  function CreateTask(factory: DDLDefinitionTaskFactory): (task: DDLTask)
    ensures PlanOf(task) == factory.plan
    ensures factory.plan.CreateExternalTable? <==> task.CreateExternalTableTask?
    ensures factory.plan.Drop? <==> task.DropObjectTask?
    ensures factory.plan.CreateTable? <==> task.CreateTableTask?
    ensures factory.plan.CreateDatabase? <==> task.CreateDatabaseTask?
    ensures factory.plan.DescribeDatabase? <==> task.DescribeDatabaseTask?
    ensures factory.plan.DescribeTable? <==> task.DescribeTableTask?
    ensures factory.plan.ShowTables? <==> task.ShowTablesTask?
    ensures factory.plan.ShowDatabases? <==> task.ShowDatabasesTask?
  {
    match factory.plan
    case CreateExternalTable(subPlan) => CreateExternalTableTask(subPlan)
    case Drop(subPlan) => DropObjectTask(subPlan)
    case CreateTable(subPlan) => CreateTableTask(subPlan)
    case CreateDatabase(subPlan) => CreateDatabaseTask(subPlan)
    case DescribeDatabase(subPlan) => DescribeDatabaseTask(subPlan)
    case DescribeTable(subPlan) => DescribeTableTask(subPlan)
    case ShowTables(subPlan) => ShowTablesTask(subPlan)
    case ShowDatabases => ShowDatabasesTask
  }

  /** The dispatch is one-to-one: every task is the one created from the plan
      it carries, so no two plans share a task and no task is left unused. */
  lemma CreateTaskBijective(task: DDLTask, p1: DDLPlan, p2: DDLPlan)
    ensures CreateTask(DDLDefinitionTaskFactory(PlanOf(task))) == task
    ensures CreateTask(DDLDefinitionTaskFactory(p1)) == CreateTask(DDLDefinitionTaskFactory(p2)) ==> p1 == p2
  {
  }

  /** `DDLExecution::new`. */
  function NewDDLExecution(sm: QueryStateMachine, plan: DDLPlan): (e: DDLExecution)
    ensures e.taskFactory.plan == plan && e.queryStateMachine == sm
  {
    DDLExecution(DDLDefinitionTaskFactory(plan), sm)
  }

  /** `start`: runs the task created from the execution's plan with the
      execution's own state machine against the current catalog; an output
      is returned as it is, a task error becomes `Execution` with the task's
      cause, and the catalog is the one the task leaves. */
  function Start(e: DDLExecution, run: TaskRunner, catalog: CatalogState): (r: (Result<Output, QueryError>, CatalogState))
    ensures var outcome := run(CreateTask(e.taskFactory), e.queryStateMachine, catalog);
            && r.1 == outcome.1
            && (r.0.Ok? <==> outcome.0.Ok?)
            && (r.0.Ok? ==> r.0.value == outcome.0.value)
            && (r.0.Err? ==> r.0.error == Execution(outcome.0.error))
  {
    var (result, after) := run(CreateTask(e.taskFactory), e.queryStateMachine, catalog);
    match result
    case Ok(output) => (Ok(output), after)
    case Err(cause) => (Err(Execution(cause)), after)
  }

  /** A new execution of `plan` runs the task of that plan's variant on the
      state machine it was given, and fails only with an execution error. */
  lemma StartOfNew(sm: QueryStateMachine, plan: DDLPlan, run: TaskRunner, catalog: CatalogState)
    ensures var r := Start(NewDDLExecution(sm, plan), run, catalog);
            var task := CreateTask(DDLDefinitionTaskFactory(plan));
            && PlanOf(task) == plan
            && r.1 == run(task, sm, catalog).1
            && (r.0.Err? ==> r.0.error.Execution? && run(task, sm, catalog).0 == Err(r.0.error.source))
            && (r.0.Ok? ==> run(task, sm, catalog).0 == Ok(r.0.value))
  {
  }
}
