# Workspace sidebar database/schema selector, modelled in Dafny

This project models the pure logic of the Chat2DB client's workspace
sidebar (`WorkspaceLeft`). That logic lives in its database/schema cascader
(`RenderSelectDatabase`):

- `handleDatabaseAndSchema` turns the store's `databaseAndSchema` listing
  into a cascader option tree. With databases listed, the tree has two levels
  (database, then schema). With only schemas listed, it is one flat level.
- When the stored workspace parameters are unset or belong to another
  connection, it picks a default selection: the first database and its first
  schema on the current connection.
- It shows the `source/database/schema` path in the header.
- When the user picks a cascader path, it builds new workspace parameters.

Store dispatches are modelled as a returned `Some(params)`, and "no dispatch"
as `None`.

Files:

- `wrappers.dfy`: `Option`, standing for a property that may be `undefined`.
- `js.dfy`: the JavaScript semantics the code relies on. These are string and
  number truthiness, `undefined` past the end of an array, `filter(t => t)`,
  and `join`. It also defines `Split`, the inverse of `join`, used to state a
  round trip.
- `workspace.dfy`: the store records (`Connection`, `WorkspaceParams`,
  `DatabaseAndSchema`, `Database`, `Schema`).
- `cascader.dfy`: the option tree and its complete characterisation.
- `select_database.dfy`: the default-selection rule, the display path, and the
  selection-to-parameters builder, plus lemmas relating them.

JavaScript subtleties kept in the model:

- An empty array is truthy. So `databases: []` takes the databases branch,
  yields no options, and ignores `schemas`.
- A database without `schemas` gets an empty `children` list, not an absent
  one. Entries of the flat schema list have no `children` at all.
- `!dataSourceId` is also true for id `0`. A stored id of 0 therefore always
  counts as stale. With no connection, or with connection id 0, the rule
  dispatches on every derivation (`NoSettlingWithoutConnectionId`).
- In a flat (schemas-only) listing, both the default rule and a user pick
  put the schema's name into `databaseName` and leave `schemaName` unset
  (`DefaultInFlatListing` for the default, `SelectingFlatSchema` for a pick). That is what the code does.
- The cascader option's `label` property is the field `text`, because `label`
  is a Dafny keyword.

## Model

| member | source | states |
|---|---|---|
| `Cascader.SchemaOptions` | chat2db-client/src/pages/main/workspace/components/WorkspaceLeft/index.tsx:61-68 | one childless option per schema, in order, with value and label both the schema's name |
| `Cascader.DatabaseOptions` | chat2db-client/src/pages/main/workspace/components/WorkspaceLeft/index.tsx:59-74 | one option per database, in order, with value and label the database name; its children list that database's schemas, and are an empty list when the database has no schemas |
| `Cascader.HandleDatabaseAndSchema` | chat2db-client/src/pages/main/workspace/components/WorkspaceLeft/index.tsx:56-84 | a present databases list (even an empty one) gives the two-level tree; otherwise a present schemas list gives the flat list; otherwise, or with no listing at all, there are no options |
| `Cascader.ListsSchemasIsSchemaOptions` | chat2db-client/src/pages/main/workspace/components/WorkspaceLeft/index.tsx:62-67 | the schema-level description is complete: an option list meets it exactly when it is the mapped schema list |
| `Cascader.ListsDatabasesIsDatabaseOptions` | chat2db-client/src/pages/main/workspace/components/WorkspaceLeft/index.tsx:59-74 | the database-level description is complete: an option list meets it exactly when it is the mapped database list |
| `Cascader.SchemasIgnoredBesideDatabases` | chat2db-client/src/pages/main/workspace/components/WorkspaceLeft/index.tsx:58-75 | when databases are listed, the flat schemas list has no effect on the options, and an empty databases list yields none |
| `Cascader.HandleDatabaseAndSchemaWellFormed` | chat2db-client/src/pages/main/workspace/components/WorkspaceLeft/index.tsx:56-84 | every option's value equals its label, and the tree is at most two levels deep |
| `Js.KeepTruthy` | chat2db-client/src/pages/main/workspace/components/WorkspaceLeft/index.tsx:114 | the filter keeps exactly the defined non-empty strings, and its result is empty exactly when no entry is truthy |
| `Js.KeepTruthyAppend` | chat2db-client/src/pages/main/workspace/components/WorkspaceLeft/index.tsx:114 | the filter distributes over concatenation, so it keeps the input order |
| `Js.KeepTruthyOfTruthy` | chat2db-client/src/pages/main/workspace/components/WorkspaceLeft/index.tsx:114 | with all entries truthy, the filter keeps every one of them, in place |
| `Js.Join` | chat2db-client/src/pages/main/workspace/components/WorkspaceLeft/index.tsx:115 | joining no parts gives ""; otherwise the result starts with the first part and has the parts' total length plus one separator between each pair |
| `Js.JoinThree` | chat2db-client/src/pages/main/workspace/components/WorkspaceLeft/index.tsx:115 | three parts join as first, separator, second, separator, third |
| `Js.SplitJoin` | chat2db-client/src/pages/main/workspace/components/WorkspaceLeft/index.tsx:115 | splitting a join of separator-free parts at the separator gives the parts back |
| `SelectDatabase.DeriveCascader` | chat2db-client/src/pages/main/workspace/components/WorkspaceLeft/index.tsx:92-109 | options come from the listing; a dispatch happens exactly unless the stored id is defined, non-zero and equal to the connection's id; the dispatched params carry the connection's id, alias and type, the first option's value, and the first child's value, each unset when missing |
| `SelectDatabase.DefaultSelectsFirstDatabase` | chat2db-client/src/pages/main/workspace/components/WorkspaceLeft/index.tsx:94-102 | with databases listed and a stale selection, the default is the first database by name and its first schema, or no schema when it has none; with no databases, neither is set |
| `SelectDatabase.DefaultInFlatListing` | chat2db-client/src/pages/main/workspace/components/WorkspaceLeft/index.tsx:94-102 | with only schemas listed, the default puts the first schema's name in databaseName and sets no schemaName |
| `SelectDatabase.DefaultSettles` | chat2db-client/src/pages/main/workspace/components/WorkspaceLeft/index.tsx:94-107 | once the dispatched default is stored for a connection with a non-zero id, deriving again from any listing dispatches nothing |
| `SelectDatabase.NoSettlingWithoutConnectionId` | chat2db-client/src/pages/main/workspace/components/WorkspaceLeft/index.tsx:94 | with no connection, or connection id 0, every derivation dispatches |
| `SelectDatabase.ParamsForSelection` | chat2db-client/src/pages/main/workspace/components/WorkspaceLeft/index.tsx:119-131 | the labels of the picked path, in order, give databaseName (first label) and schemaName (second label), each unset when not selected; the source id, alias and type come from the current connection whatever was selected |
| `SelectDatabase.SelectingDatabaseAndSchema` | chat2db-client/src/pages/main/workspace/components/WorkspaceLeft/index.tsx:119-131 | picking database i and schema j from the derived tree selects exactly that database and schema by name |
| `SelectDatabase.SelectingFlatSchema` | chat2db-client/src/pages/main/workspace/components/WorkspaceLeft/index.tsx:75-131 | picking schema i of a schemas-only listing puts that schema's name in databaseName and leaves schemaName unset |
| `SelectDatabase.DefaultIsFirstPathSelection` | chat2db-client/src/pages/main/workspace/components/WorkspaceLeft/index.tsx:96-102 | the default params equal the params built when the user picks the first option and its first child (or the first option alone) |
| `SelectDatabase.DisplayName` | chat2db-client/src/pages/main/workspace/components/WorkspaceLeft/index.tsx:113-115 | the shown path is empty exactly when source, database and schema names are all unset or empty |
| `SelectDatabase.DisplayNameOfFullPath` | chat2db-client/src/pages/main/workspace/components/WorkspaceLeft/index.tsx:113-115 | with all three names set and non-empty, the path is "source/database/schema" |
| `SelectDatabase.DisplayNameSplitsIntoEntries` | chat2db-client/src/pages/main/workspace/components/WorkspaceLeft/index.tsx:114-115 | a non-empty shown path splits at "/" into exactly the truthy names in source, database, schema order, when no name contains "/" |
| `SelectDatabase.SelectedName` | chat2db-client/src/pages/main/workspace/components/WorkspaceLeft/index.tsx:111-117 | unset params leave the shown name as it was; set params replace it with a path that is empty exactly when all three names are falsy |
| `SelectDatabase.SelectionShownAsPath` | chat2db-client/src/pages/main/workspace/components/WorkspaceLeft/index.tsx:111-131 | after picking a database and schema on a connection with a non-empty alias, the header shows "alias/database/schema" |

## Left out

- React rendering, `memo`, and `useMemo`/`useEffect` dependency timing are left out: they are UI framework behaviour. The derivation and the effect are modelled as plain functions of their inputs.
- The placeholder shown for an empty path (`i18n('workspace.cascader.placeholder')`) is left out: it is a localisation lookup, not logic.
- The store (`connect`, `dispatch`, and the reducers behind `workspace/setCurWorkspaceParams` and `workspace/fetchGetSavedConsole`) is left out because its code is not part of this model. A dispatch is a returned `Option`.
- `RenderTableBox` and `RenderSaveBox` are left out: they are asynchronous fetches through `treeConfig` and store effects, with no ordering or cancellation guarantees.
- `Tree`, `LoadingContent`, `Cascader`, `Divider` and `Iconfont` are left out: they are library or UI components whose code is not part of this model.
- `valueArr`, the first argument of `onChange`, is ignored by the code and so is not modelled.
- Connection ids are modelled as unbounded integers. JavaScript's `NaN`, also falsy, is not modelled.
- Names are assumed to be strings. A `name` that is `undefined` at run time, against its declared type, is not modelled.
