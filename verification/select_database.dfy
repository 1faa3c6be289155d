/** The database/schema selector of the workspace sidebar: the default
    selection it dispatches when the stored parameters are stale, the
    "source/database/schema" path it shows, and the parameters it dispatches
    when the user picks a path. A dispatch is modelled as a returned
    `Some(params)`; no dispatch is `None`. */
module SelectDatabase {
  import opened Wrappers
  import opened Js
  import opened Workspace
  import opened Cascader

  /** The derived options together with the parameters dispatched, if any. */
  datatype Derivation = Derivation(
    options: seq<CascaderOption>,
    dispatched: Option<WorkspaceParams>)

  /** The stored parameters are unset, have a falsy source id, or belong to
      a different connection (`undefined !== undefined` is false). */
  predicate SelectionIsStale(cur: Option<WorkspaceParams>, conn: Option<Connection>) {
    !IsTruthyNumber(StoredSourceId(cur)) || StoredSourceId(cur) != ConnectionId(conn)
  }

  /** `res?.[0]?.value` */
  function FirstValue(opts: seq<CascaderOption>): Option<string> {
    match At(opts, 0)
    case None => None
    case Some(o) => Some(o.value)
  }

  /** `res?.[0]?.children?.[0]?.value` */
  function FirstChildValue(opts: seq<CascaderOption>): Option<string> {
    match At(opts, 0)
    case None => None
    case Some(o) =>
      if o.children.None? then None
      else match At(o.children.value, 0)
        case None => None
        case Some(c) => Some(c.value)
  }

  /** The parameters that select the first database and its first schema on
      the current connection. */
  function DefaultParams(opts: seq<CascaderOption>, conn: Option<Connection>): WorkspaceParams {
    WorkspaceParams(
      dataSourceId := ConnectionId(conn),
      databaseSourceName := ConnectionAlias(conn),
      databaseName := FirstValue(opts),
      schemaName := FirstChildValue(opts),
      databaseType := ConnectionType(conn))
  }

  /** Deriving the cascader options from the listing; when the stored
      selection is stale, the first database and its first schema are
      dispatched as the new selection. */
  function DeriveCascader(
    das: Option<DatabaseAndSchema>,
    cur: Option<WorkspaceParams>,
    conn: Option<Connection>
  ): (r: Derivation)
    ensures r.options == HandleDatabaseAndSchema(das)
    ensures r.dispatched.None? <==>
              && cur.Some? && cur.value.dataSourceId.Some?
              && cur.value.dataSourceId.value != 0
              && conn.Some? && conn.value.id == cur.value.dataSourceId.value
    ensures r.dispatched.Some? ==>
              var p := r.dispatched.value;
              && (p.dataSourceId.Some? <==> conn.Some?)
              && (conn.Some? ==>
                    && p.dataSourceId == Some(conn.value.id)
                    && p.databaseSourceName == Some(conn.value.alias)
                    && p.databaseType == Some(conn.value.dbType))
              && (conn.None? ==> p.databaseSourceName.None? && p.databaseType.None?)
              && (p.databaseName.Some? <==> |r.options| > 0)
              && (p.databaseName.Some? ==> p.databaseName.value == r.options[0].value)
              && (p.schemaName.Some? <==>
                    && |r.options| > 0
                    && r.options[0].children.Some?
                    && |r.options[0].children.value| > 0)
              && (p.schemaName.Some? ==> p.schemaName.value == r.options[0].children.value[0].value)
  {
    var res := HandleDatabaseAndSchema(das);
    if SelectionIsStale(cur, conn) then Derivation(res, Some(DefaultParams(res, conn)))
    else Derivation(res, None)
  }

  /** In terms of the listing: with databases listed, the default is the first
      database and the first of its schemas (none if it has no schemas). */
  lemma DefaultSelectsFirstDatabase(
    dbs: seq<Database>, schemas: Option<seq<Schema>>,
    cur: Option<WorkspaceParams>, conn: Option<Connection>)
    requires SelectionIsStale(cur, conn)
    ensures var d := DeriveCascader(Some(DatabaseAndSchema(Some(dbs), schemas)), cur, conn);
            && d.dispatched.Some?
            && (dbs == [] ==> d.dispatched.value.databaseName.None? && d.dispatched.value.schemaName.None?)
            && (dbs != [] ==> d.dispatched.value.databaseName == Some(dbs[0].name))
            && (dbs != [] && SchemasOf(dbs[0]) != [] ==>
                  d.dispatched.value.schemaName == Some(SchemasOf(dbs[0])[0].name))
            && (dbs != [] && SchemasOf(dbs[0]) == [] ==> d.dispatched.value.schemaName.None?)
  {
  }

  /** With only a flat schema list, the first schema's name becomes the
      default `databaseName` and no schema is selected. */
  lemma DefaultInFlatListing(
    schemas: seq<Schema>, cur: Option<WorkspaceParams>, conn: Option<Connection>)
    requires SelectionIsStale(cur, conn)
    ensures var d := DeriveCascader(Some(DatabaseAndSchema(None, Some(schemas))), cur, conn);
            && d.dispatched.Some?
            && d.dispatched.value.schemaName.None?
            && (schemas == [] ==> d.dispatched.value.databaseName.None?)
            && (schemas != [] ==> d.dispatched.value.databaseName == Some(schemas[0].name))
  {
  }

  /** Once the default for a connection with a truthy id is stored, deriving
      again (from any listing) dispatches nothing. */
  lemma DefaultSettles(
    das: Option<DatabaseAndSchema>, das': Option<DatabaseAndSchema>,
    cur: Option<WorkspaceParams>, conn: Option<Connection>)
    requires conn.Some? && conn.value.id != 0
    requires DeriveCascader(das, cur, conn).dispatched.Some?
    ensures DeriveCascader(das', DeriveCascader(das, cur, conn).dispatched, conn).dispatched.None?
  {
  }

  /** Without a connection, or with connection id 0, every derivation
      dispatches: the stored id is never truthy and equal to it. */
  lemma NoSettlingWithoutConnectionId(
    das: Option<DatabaseAndSchema>, cur: Option<WorkspaceParams>, conn: Option<Connection>)
    requires conn.None? || conn.value.id == 0
    ensures DeriveCascader(das, cur, conn).dispatched.Some?
  {
  }

  /** `selectedOptions.map((t) => t.label)` */
  function Labels(selected: seq<CascaderOption>): (labels: seq<string>)
    ensures |labels| == |selected|
    ensures forall k :: 0 <= k < |labels| ==> labels[k] == selected[k].text
  {
    seq(|selected|, k requires 0 <= k < |selected| => selected[k].text)
  }

  /** The parameters dispatched when the user picks a path: its first label is
      the database, its second (if any) the schema; the connection fields come
      from the current connection whatever was picked. */
  function ParamsForSelection(conn: Option<Connection>, selected: seq<CascaderOption>): (p: WorkspaceParams)
    ensures p.dataSourceId == ConnectionId(conn)
    ensures p.databaseSourceName == ConnectionAlias(conn)
    ensures p.databaseType == ConnectionType(conn)
    ensures p.databaseName.Some? <==> |selected| >= 1
    ensures p.databaseName.Some? ==> p.databaseName.value == selected[0].text
    ensures p.schemaName.Some? <==> |selected| >= 2
    ensures p.schemaName.Some? ==> p.schemaName.value == selected[1].text
  {
    var labelArr := Labels(selected);
    WorkspaceParams(
      dataSourceId := ConnectionId(conn),
      databaseSourceName := ConnectionAlias(conn),
      databaseName := At(labelArr, 0),
      schemaName := At(labelArr, 1),
      databaseType := ConnectionType(conn))
  }

  /** Picking database `i` and its schema `j` from the derived options selects
      exactly that database and schema by name. */
  lemma SelectingDatabaseAndSchema(
    dbs: seq<Database>, schemas: Option<seq<Schema>>, conn: Option<Connection>, i: nat, j: nat)
    requires i < |dbs| && j < |SchemasOf(dbs[i])|
    ensures var opts := HandleDatabaseAndSchema(Some(DatabaseAndSchema(Some(dbs), schemas)));
            && i < |opts| && opts[i].children.Some? && j < |opts[i].children.value|
            && var p := ParamsForSelection(conn, [opts[i], opts[i].children.value[j]]);
            && p.databaseName == Some(dbs[i].name)
            && p.schemaName == Some(SchemasOf(dbs[i])[j].name)
  {
  }

  /** Picking schema `i` of a flat (schemas-only) listing puts that schema's
      name into `databaseName` and leaves `schemaName` unset. */
  lemma SelectingFlatSchema(schemas: seq<Schema>, conn: Option<Connection>, i: nat)
    requires i < |schemas|
    ensures var opts := HandleDatabaseAndSchema(Some(DatabaseAndSchema(None, Some(schemas))));
            && i < |opts|
            && var p := ParamsForSelection(conn, [opts[i]]);
            && p.databaseName == Some(schemas[i].name)
            && p.schemaName.None?
  {
  }

  /** The path that opens on the first option and, where there is one, its
      first child. */
  function FirstPath(opts: seq<CascaderOption>): seq<CascaderOption> {
    if opts == [] then []
    else if opts[0].children.Some? && opts[0].children.value != [] then
      [opts[0], opts[0].children.value[0]]
    else [opts[0]]
  }

  /** The default selection is the one the user would make by picking the
      first path: dispatching either gives the same parameters. */
  lemma DefaultIsFirstPathSelection(
    das: Option<DatabaseAndSchema>, cur: Option<WorkspaceParams>, conn: Option<Connection>)
    requires DeriveCascader(das, cur, conn).dispatched.Some?
    ensures var d := DeriveCascader(das, cur, conn);
            ParamsForSelection(conn, FirstPath(d.options)) == d.dispatched.value
  {
    HandleDatabaseAndSchemaWellFormed(das);
  }

  /** The shown path: `[databaseSourceName, databaseName, schemaName]` with
      falsy entries dropped, joined by "/". */
  function DisplayName(p: WorkspaceParams): (name: string)
    ensures name == "" <==>
              && !IsTruthyString(p.databaseSourceName)
              && !IsTruthyString(p.databaseName)
              && !IsTruthyString(p.schemaName)
  {
    Join(KeepTruthy([p.databaseSourceName, p.databaseName, p.schemaName]), '/')
  }

  /** With all three entries set and non-empty, the shown path is
      "source/database/schema". */
  lemma DisplayNameOfFullPath(p: WorkspaceParams)
    requires IsTruthyString(p.databaseSourceName)
    requires IsTruthyString(p.databaseName)
    requires IsTruthyString(p.schemaName)
    ensures DisplayName(p)
         == p.databaseSourceName.value + "/" + p.databaseName.value + "/" + p.schemaName.value
  {
    var parts := [p.databaseSourceName, p.databaseName, p.schemaName];
    KeepTruthyOfTruthy(parts);
    assert KeepTruthy(parts) == [parts[0].value, parts[1].value, parts[2].value];
    JoinThree(parts[0].value, parts[1].value, parts[2].value, '/');
  }

  /** The shown path splits back, at "/", into exactly the truthy entries in
      order, provided no entry itself contains "/". */
  lemma DisplayNameSplitsIntoEntries(p: WorkspaceParams)
    requires DisplayName(p) != ""
    requires forall s :: s in [p.databaseSourceName, p.databaseName, p.schemaName] && s.Some? ==> '/' !in s.value
    ensures Split(DisplayName(p), '/') == KeepTruthy([p.databaseSourceName, p.databaseName, p.schemaName])
  {
    var parts := [p.databaseSourceName, p.databaseName, p.schemaName];
    var kept := KeepTruthy(parts);
    forall k | 0 <= k < |kept|
      ensures '/' !in kept[k]
    {
      assert kept[k] in kept;
    }
    SplitJoin(kept, '/');
  }

  /** The shown name after the effect runs: recomputed from the stored
      parameters when they are set, left as it was when they are unset. */
  function SelectedName(cur: Option<WorkspaceParams>, shown: string): (name: string)
    ensures cur.None? ==> name == shown
    ensures cur.Some? ==> (name == "" <==>
              && !IsTruthyString(cur.value.databaseSourceName)
              && !IsTruthyString(cur.value.databaseName)
              && !IsTruthyString(cur.value.schemaName))
  {
    if cur.Some? then DisplayName(cur.value) else shown
  }

  /** After picking database `i` and its schema `j` on a connection with a
      non-empty alias, the header shows "alias/database/schema". */
  lemma SelectionShownAsPath(
    dbs: seq<Database>, schemas: Option<seq<Schema>>, conn: Connection, i: nat, j: nat, shown: string)
    requires i < |dbs| && j < |SchemasOf(dbs[i])|
    requires conn.alias != "" && dbs[i].name != "" && SchemasOf(dbs[i])[j].name != ""
    ensures var opts := HandleDatabaseAndSchema(Some(DatabaseAndSchema(Some(dbs), schemas)));
            && i < |opts| && opts[i].children.Some? && j < |opts[i].children.value|
            && SelectedName(Some(ParamsForSelection(Some(conn), [opts[i], opts[i].children.value[j]])), shown)
               == conn.alias + "/" + dbs[i].name + "/" + SchemasOf(dbs[i])[j].name
  {
    SelectingDatabaseAndSchema(dbs, schemas, Some(conn), i, j);
    var opts := HandleDatabaseAndSchema(Some(DatabaseAndSchema(Some(dbs), schemas)));
    DisplayNameOfFullPath(ParamsForSelection(Some(conn), [opts[i], opts[i].children.value[j]]));
  }
}
