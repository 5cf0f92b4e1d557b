/** The logical plans a statement is planned into: a query plan for the
    execution engine, or one of the eight administrative (DDL) plans. The
    fields of each sub-plan are what its task reads; the DDL dispatch only
    copies them. */
module LogicalPlans {
  import opened Wrappers
  import opened Ast
  import ColumnTypes
  import DatabaseSchemas

  datatype ExternalTablePlan = ExternalTablePlan(
    name: string, location: string, fileType: string, hasHeader: bool, ifNotExists: bool)

  datatype DropPlan = DropPlan(objectName: string, ifExist: bool, objType: ObjectType)

  datatype CreateTablePlan = CreateTablePlan(name: string, ifNotExists: bool, columns: seq<ColumnTypes.TableColumn>)

  datatype CreateDatabasePlan = CreateDatabasePlan(name: string, ifNotExists: bool, options: DatabaseSchemas.DatabaseOptions)

  datatype DescribeDatabasePlan = DescribeDatabasePlan(databaseName: string)

  datatype DescribeTablePlan = DescribeTablePlan(tableName: string)

  datatype ShowTablesPlan = ShowTablesPlan(databaseName: Option<string>)

  datatype DDLPlan =
    | CreateExternalTable(externalTable: ExternalTablePlan)
    | Drop(drop: DropPlan)
    | CreateTable(createTable: CreateTablePlan)
    | CreateDatabase(createDatabase: CreateDatabasePlan)
    | DescribeDatabase(describeDatabase: DescribeDatabasePlan)
    | DescribeTable(describeTable: DescribeTablePlan)
    | ShowTables(showTables: ShowTablesPlan)
    | ShowDatabases

  /** A query plan is opaque here: it belongs to the execution engine. */
  datatype LogicalPlan = QueryPlan(text: string) | DDL(ddl: DDLPlan)
}
