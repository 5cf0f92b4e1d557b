/** Parsed statement shapes consumed by the dispatcher. The dispatcher never
    looks inside a statement; it hands each one to the logical planner. Names
    of objects are kept as their dotted text. */
module Ast {
  import opened Wrappers
  import ColumnTypes
  import DatabaseSchemas

  datatype ObjectType = Table | Database

  datatype ColumnOption = ColumnOption(name: string, isTag: bool, dataType: string, encoding: ColumnTypes.Encoding)

  /** Database options as written in a statement, before parsing. */
  datatype DatabaseOptionsText = DatabaseOptionsText(
    ttl: Option<string>,
    shardNum: Option<DatabaseSchemas.u64>,
    vnodeDuration: Option<string>,
    replica: Option<DatabaseSchemas.u64>,
    precision: Option<string>)

  datatype ExtStatement =
    | SqlStatement(sql: string)
    | CreateExternalTable(tableName: string, location: string)
    | CreateTable(name: string, ifNotExists: bool, columns: seq<ColumnOption>)
    | CreateDatabase(databaseName: string, ifNotExists: bool, options: DatabaseOptionsText)
    | CreateUser
    | Drop(objectName: string, ifExist: bool, objType: ObjectType)
    | DropUser
    | DescribeTable(describedTable: string)
    | DescribeDatabase(describedDatabase: string)
    | ShowDatabases
    | ShowTables(database: Option<string>)
}
