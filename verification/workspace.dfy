/** The store records the database/schema selector reads: the connection
    chosen elsewhere, the shared workspace parameters, and the loaded
    database/schema listing. Every optional property of the TypeScript
    records is an `Option`. */
module Workspace {
  import opened Wrappers

  datatype Schema = Schema(name: string)

  /** A database, whose `schemas` list may be missing altogether. */
  datatype Database = Database(name: string, schemas: Option<seq<Schema>>)

  /** The loaded listing: databases (each possibly with schemas), or a flat
      list of schemas, or neither. */
  datatype DatabaseAndSchema = DatabaseAndSchema(
    databases: Option<seq<Database>>,
    schemas: Option<seq<Schema>>)

  /** The current connection: its numeric id, alias and database type. */
  datatype Connection = Connection(id: int, alias: string, dbType: string)

  /** The shared selection context, every field of which may be unset. */
  datatype WorkspaceParams = WorkspaceParams(
    dataSourceId: Option<int>,
    databaseSourceName: Option<string>,
    databaseName: Option<string>,
    schemaName: Option<string>,
    databaseType: Option<string>)

  /** A database's schemas, treating a missing list as empty. */
  function SchemasOf(db: Database): seq<Schema> {
    db.schemas.GetOr([])
  }

  /** `curConnection?.id`, `curConnection?.alias`, `curConnection?.type` */
  function ConnectionId(conn: Option<Connection>): Option<int> {
    if conn.Some? then Some(conn.value.id) else None
  }

  function ConnectionAlias(conn: Option<Connection>): Option<string> {
    if conn.Some? then Some(conn.value.alias) else None
  }

  function ConnectionType(conn: Option<Connection>): Option<string> {
    if conn.Some? then Some(conn.value.dbType) else None
  }

  /** `curWorkspaceParams?.dataSourceId` */
  function StoredSourceId(cur: Option<WorkspaceParams>): Option<int> {
    if cur.Some? then cur.value.dataSourceId else None
  }
}
