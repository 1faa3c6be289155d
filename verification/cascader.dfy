/** Turning the loaded database/schema listing into the cascader's option
    tree: two levels (database, then schema) when databases are listed, one
    flat level when only schemas are. */
module Cascader {
  import opened Wrappers
  import opened Workspace

  /** One cascader entry; `children` is absent on a leaf of the flat list. */
  datatype CascaderOption = CascaderOption(
    value: string,
    text: string,   // the `label` property (`label` is a Dafny keyword)
    children: Option<seq<CascaderOption>>)

  /** `opts` lists `schemas` one for one, in order, as childless leaves whose
      value and label are the schema's name. */
  ghost predicate ListsSchemas(opts: seq<CascaderOption>, schemas: seq<Schema>) {
    && |opts| == |schemas|
    && forall k :: 0 <= k < |opts| ==>
         && opts[k].value == schemas[k].name
         && opts[k].text == schemas[k].name
         && opts[k].children.None?
  }

  /** `opts` lists `dbs` one for one, in order; each entry's value and label
      are the database's name and its children list that database's schemas
      (an empty list, not an absent one, when it has none). */
  ghost predicate ListsDatabases(opts: seq<CascaderOption>, dbs: seq<Database>) {
    && |opts| == |dbs|
    && forall k :: 0 <= k < |opts| ==>
         && opts[k].value == dbs[k].name
         && opts[k].text == dbs[k].name
         && opts[k].children.Some?
         && ListsSchemas(opts[k].children.value, SchemasOf(dbs[k]))
  }

  /** `schemas.map((t) => ({ value: t.name, label: t.name }))` */
  function SchemaOptions(schemas: seq<Schema>): (r: seq<CascaderOption>)
    ensures ListsSchemas(r, schemas)
  {
    if schemas == [] then []
    else [CascaderOption(schemas[0].name, schemas[0].name, None)] + SchemaOptions(schemas[1..])
  }

  /** One database entry; a missing schema list yields empty children. */
  function DatabaseOption(db: Database): CascaderOption {
    var schemasList := if db.schemas.Some? then SchemaOptions(db.schemas.value) else [];
    CascaderOption(db.name, db.name, Some(schemasList))
  }

  function DatabaseOptions(dbs: seq<Database>): (r: seq<CascaderOption>)
    ensures ListsDatabases(r, dbs)
  {
    if dbs == [] then []
    else [DatabaseOption(dbs[0])] + DatabaseOptions(dbs[1..])
  }

  /** The option tree for the listing. Databases take precedence: a present
      `databases` list, even an empty one, is truthy, so `schemas` is then
      ignored. A missing listing yields no options. */
  function HandleDatabaseAndSchema(das: Option<DatabaseAndSchema>): (r: seq<CascaderOption>)
    ensures das.Some? && das.value.databases.Some? ==>
              ListsDatabases(r, das.value.databases.value)
    ensures das.Some? && das.value.databases.None? && das.value.schemas.Some? ==>
              ListsSchemas(r, das.value.schemas.value)
    ensures (das.None? || (das.value.databases.None? && das.value.schemas.None?)) ==> r == []
  {
    if das.Some? && das.value.databases.Some? then
      DatabaseOptions(das.value.databases.value)
    else if das.Some? && das.value.schemas.Some? then
      SchemaOptions(das.value.schemas.value)
    else
      []
  }

  /** The schema list is pinned down completely by `ListsSchemas`. */
  lemma ListsSchemasIsSchemaOptions(opts: seq<CascaderOption>, schemas: seq<Schema>)
    ensures ListsSchemas(opts, schemas) <==> opts == SchemaOptions(schemas)
  {
  }

  /** The database option tree is pinned down completely by `ListsDatabases`. */
  lemma {:induction false} ListsDatabasesIsDatabaseOptions(opts: seq<CascaderOption>, dbs: seq<Database>)
    ensures ListsDatabases(opts, dbs) <==> opts == DatabaseOptions(dbs)
  {
    if ListsDatabases(opts, dbs) {
      if dbs != [] {
        assert ListsDatabases(opts[1..], dbs[1..]) by {
          forall k | 0 <= k < |opts[1..]|
            ensures opts[1..][k] == opts[k + 1]
          {
          }
        }
        ListsDatabasesIsDatabaseOptions(opts[1..], dbs[1..]);
        ListsSchemasIsSchemaOptions(opts[0].children.value, SchemasOf(dbs[0]));
        assert opts[0] == DatabaseOption(dbs[0]);
        assert opts == [opts[0]] + opts[1..];
      }
    }
  }

  /** With a `databases` list present, the flat `schemas` list has no effect
      on the options, even when `databases` is empty. */
  lemma SchemasIgnoredBesideDatabases(dbs: seq<Database>, s1: Option<seq<Schema>>, s2: Option<seq<Schema>>)
    ensures HandleDatabaseAndSchema(Some(DatabaseAndSchema(Some(dbs), s1)))
         == HandleDatabaseAndSchema(Some(DatabaseAndSchema(Some(dbs), s2)))
    ensures dbs == [] ==> HandleDatabaseAndSchema(Some(DatabaseAndSchema(Some(dbs), s1))) == []
  {
  }

  /** Every option the tree holds shows its value as its label, and the tree is
      at most two levels deep. */
  ghost predicate WellFormed(opts: seq<CascaderOption>) {
    forall k :: 0 <= k < |opts| ==>
      && opts[k].value == opts[k].text
      && (opts[k].children.Some? ==>
            forall j :: 0 <= j < |opts[k].children.value| ==>
              && opts[k].children.value[j].value == opts[k].children.value[j].text
              && opts[k].children.value[j].children.None?)
  }

  lemma HandleDatabaseAndSchemaWellFormed(das: Option<DatabaseAndSchema>)
    ensures WellFormed(HandleDatabaseAndSchema(das))
  {
  }
}
