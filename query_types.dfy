/** The query surface shared by the dispatcher and the DDL executor: the
    error taxonomy, the client query and its context, the session and scoped
    metadata it runs against, outputs, and the per-statement state machine. */
module QueryTypes {

  /** An error raised by a collaborator outside this model (the SQL parser,
      the logical planner, the execution engine, a DDL task), kept by its
      message. */
  datatype Cause = Cause(message: string)

  datatype QueryError =
    | BuildQueryDispatcher(err: string)
    | LogicalPlanner(source: Cause)
    | LogicalOptimize(source: Cause)
    | PhysicalPlaner(source: Cause)
    | Parser(source: Cause)
    | Analyzer(err: string)
    | Optimizer(source: Cause)
    | Schedule(source: Cause)
    | Execution(source: Cause)
    | RequestLimit

  datatype QueryId = QueryId(id: nat)

  datatype Context = Context(user: string, catalog: string, database: string)

  datatype Query = Query(context: Context, content: string)

  /** The session a query runs in, resolved by the session factory. */
  datatype Session = Session(catalog: string, database: string, user: string)

  /** The catalog metadata, modelled by the catalog and database it is scoped
      to; the catalog contents live in a collaborator. */
  datatype MetaData = MetaData(catalog: string, database: string)
  {
    function WithCatalog(catalog: string): MetaData
    {
      this.(catalog := catalog)
    }

    function WithDatabase(database: string): MetaData
    {
      this.(database := database)
    }
  }

  /** The contents of the catalog behind the metadata handle: what earlier
      statements created or dropped, which later statements plan and run
      against. Its structure is not part of this model. */
  type CatalogState

  /** One record batch of a result; its Arrow contents are not modelled. */
  datatype RecordBatch = RecordBatch(rows: seq<string>)

  datatype Output = StreamData(batches: seq<RecordBatch>) | Nil

  /** What a statement's state machine is seeded with. */
  datatype QueryInfo = QueryInfo(query: Query, session: Session, metadata: MetaData)

  datatype QueryState = Created | Analyzing | Analyzed

  /** The per-statement lifecycle tracker, reduced to the transitions the
      dispatcher drives; `history` lists the states entered, in order. */
  class QueryStateMachine {
    const query: Query
    const session: Session
    const metadata: MetaData
    var history: seq<QueryState>

    /** `QueryStateMachine::begin`. */
    constructor Begin(query: Query, session: Session, metadata: MetaData)
      ensures this.query == query && this.session == session && this.metadata == metadata
      ensures history == [Created]
    {
      this.query := query;
      this.session := session;
      this.metadata := metadata;
      history := [Created];
    }

    function Info(): QueryInfo
    {
      QueryInfo(query, session, metadata)
    }

    method BeginAnalyze()
      modifies this
      ensures history == old(history) + [Analyzing]
    {
      history := history + [Analyzing];
    }

    method EndAnalyze()
      modifies this
      ensures history == old(history) + [Analyzed]
    {
      history := history + [Analyzed];
    }
  }
}
