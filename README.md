# BWJ.Core.SqlRepository: the entity-to-SQL templating engine, in Dafny

This project models the part of BWJ.Core.SqlRepository that turns an entity
class into SQL Server text. It proves properties of that model.

- **Entities** (`entities.dfy`) covers DbEntityPropertyInfoExtensions. A
  property is a declared descriptor: its name, the `[Write]` attribute's
  value, and the `[Key]` and `[ExplicitKey]` flags. It renders `[Name]`
  and `@Name`, and classifies the property as a column, a generated key or
  an explicit key.
- **SqlOperators** (`sql_operator.dfy`) covers the `SqlOperator` enum and
  `ToOperator`. A cast of any other integer to the enum is the value
  `Undeclared(v)`, which raises `NotSupportedException`.
- **QueryHelpers** (`query_helper.dfy`) covers `QueryHelper<TEntity>` as a
  class. It has the table reference with its schema slot `{0}` or `{1}`,
  the alias, the lazily built column list and the lazily resolved primary
  key. `SelectAllExcept` removes columns from the cached list in place.
  The module also has the static LIKE helpers and `NormalizeTableName`.
- **LikePatterns** (`like_pattern.dfy`) is a reading of a SQL Server LIKE
  pattern (wildcards, one-character classes, exact character comparison).
  It is used to state what the escaped search terms match; its limits are
  under "Left out".
- **QueryCache** (`query_cache.dfy`) covers `SqlQueryCacheService`. It is
  a class over a `map` of templates keyed `TypeName.key`, plus the
  `string.Format` step that fills in the schema.
- **Repository** (`repository.dfy`) covers SqlRepositoryBase. It has the
  INSERT, UPDATE, DELETE and SELECT templates built by the CRUD lambdas,
  their routing through the shared cache, and `IsDatabasePrimitiveType`
  with the `GetPrimitiveList` guard.
- **Text** (`text.dfy`) and **Wrappers** (`wrappers.dfy`) hold the .NET
  string pieces used (Trim, Join, Replace, ordinal ignore-case). They also
  hold `Option` and a `Result` whose error names the .NET exception thrown.

Where the code and a natural reading of it differ, the model follows the
code:

- `Parameter` is never alias-qualified.
- Primary-key resolution by the name `id` does not set a key flag, so such
  a key also appears in UPDATE's SET list.
- RemoveRecordById and GetRecord compare the key against the literal `@Id`.
- `NormalizeTableName` strips only one leading `Xlient_*`, so it is not
  idempotent.
- `SqlOperator` declares eight members. There is no `NotIn`.
- `EscapeForLikeQuery` re-escapes the brackets it has just inserted (see
  Findings).
- The default table name is the type name with `s` appended, so a type
  `Entity` maps to `Entitys`.
- The shared cache keys templates by the entity type's simple name, so two
  entity types of one name are served each other's templates (see
  Findings).

## Model

| member | source | states |
|---|---|---|
| Entities.ToColumnString | BWJ.Core.SqlRepository/DbEntityPropertyInfoExtensions.cs:8 | The column string is the property name between `[` and `]`, two characters longer than the name. |
| Entities.ToParameterString | BWJ.Core.SqlRepository/DbEntityPropertyInfoExtensions.cs:10 | The parameter string is `@` followed by the property name. |
| Entities.ColumnAndParameterShareName | BWJ.Core.SqlRepository/DbEntityPropertyInfoExtensions.cs:8-10 | Stripping the brackets from the column string and the `@` from the parameter string gives the same name. Two properties have equal column strings (or parameter strings) iff their names are equal. |
| Entities.KeyAndColumnClassification | BWJ.Core.SqlRepository/DbEntityPropertyInfoExtensions.cs:12-22 | IsKey iff generated or explicit key. IsGeneratedKey reads only `[Key]`, IsExplicitKey only `[ExplicitKey]`. IsDatabaseColumn ignores both key flags and is true iff there is no `[Write]` or it says true. |
| Entities.IsExplicitKey | BWJ.Core.SqlRepository/DbEntityPropertyInfoExtensions.cs:12-13 | A property is an explicit key iff it carries `[ExplicitKey]`. |
| Entities.IsGeneratedKey | BWJ.Core.SqlRepository/DbEntityPropertyInfoExtensions.cs:15-16 | A property is a generated key iff it carries `[Key]`. |
| Entities.IsKey | BWJ.Core.SqlRepository/DbEntityPropertyInfoExtensions.cs:18-19 | A property is a key iff it is a generated key or an explicit key. |
| Entities.IsDatabaseColumn | BWJ.Core.SqlRepository/DbEntityPropertyInfoExtensions.cs:21-22 | A property is a database column unless it carries `[Write(false)]`; no attribute counts as true. |
| SqlOperators.OfValue | BWJ.Core.SqlRepository/SqlOperator.cs:5-15 | A cast yields a declared member exactly for the values 0 to 7. |
| SqlOperators.ToOperator | BWJ.Core.SqlRepository/SqlOperator.cs:19-41 | Rendering succeeds exactly on the eight declared members. Anything else raises NotSupportedException("op"). |
| SqlOperators.ToOperatorRoundTrip | BWJ.Core.SqlRepository/SqlOperator.cs:21-38 | Every declared value renders, and the rendering reads back (through an independent parser) as the operator it came from. |
| SqlOperators.ToOperatorInjective | BWJ.Core.SqlRepository/SqlOperator.cs:23-38 | Two declared operators render to the same text iff they are the same operator. |
| SqlOperators.ToOperatorIsOneToken | BWJ.Core.SqlRepository/SqlOperator.cs:23-38 | A rendered operator is non-empty and has no white space. |
| QueryHelpers.NewQueryHelper | BWJ.Core.SqlRepository/QueryHelper.cs:14-27 | A schema index outside {0,1} raises IndexOutOfRangeException with the source's message. Otherwise the helper is fresh. Its table name is the normalized `[Table]` name or `TypeName + "s"`, and its alias is the given one or "". |
| QueryHelpers.NewQueryHelperForTable | BWJ.Core.SqlRepository/QueryHelper.cs:29-41 | Same range check. The table name is the caller's name normalized, with a null name treated as "". |
| QueryHelpers.QueryHelper.constructor | BWJ.Core.SqlRepository/QueryHelper.cs:14-41 | A new helper holds the table reference `[{idx}].[TableName]`. Nothing is read or cached yet. |
| QueryHelpers.NormalizeTableName | BWJ.Core.SqlRepository/QueryHelper.cs:218-222 | The name is trimmed. If it starts with `Xlient` in any case, that prefix and the underscores after it are cut, leaving a suffix that does not start with `_`. Otherwise the trimmed name is returned unchanged. |
| QueryHelpers.NormalizeTableNameFixedPoints | BWJ.Core.SqlRepository/QueryHelper.cs:218-222 | A name is left unchanged iff it is already trimmed and does not start with `Xlient` in any case. |
| QueryHelpers.NormalizeTableNameStripsPrefix | BWJ.Core.SqlRepository/QueryHelper.cs:221 | `Xlient_Customers` becomes `Customers`. |
| QueryHelpers.NormalizeTableNameIgnoresCase | BWJ.Core.SqlRepository/QueryHelper.cs:221 | `xLIENT__Orders` becomes `Orders`: case is ignored and every underscore goes. |
| QueryHelpers.NormalizeTableNameKeepsPlainNames | BWJ.Core.SqlRepository/QueryHelper.cs:220 | `  Customers ` becomes `Customers`: only the trim applies. |
| QueryHelpers.NormalizeTableNameNotIdempotent | BWJ.Core.SqlRepository/QueryHelper.cs:221 | `Xlient_Xlient_A` becomes `Xlient_A`, and normalizing again gives `A`. |
| QueryHelpers.QueryHelper.Table | BWJ.Core.SqlRepository/QueryHelper.cs:45-46 | The result is the table reference, followed by ` alias` iff the alias is asked for and not blank. |
| QueryHelpers.QueryHelper.TableText | BWJ.Core.SqlRepository/QueryHelper.cs:26-46 | For a valid helper, `Table(b)` is `[{0}]` or `[{1}]` (by schema index), then `.[TableName]`, then ` alias` when b holds and the alias is not blank. |
| QueryHelpers.QueryHelper.HasAlias | BWJ.Core.SqlRepository/QueryHelper.cs:46 | The alias counts iff it is not empty or white space only; Table, StarSelect and Column all test this. |
| QueryHelpers.QueryHelper.StarSelect | BWJ.Core.SqlRepository/QueryHelper.cs:52-55 | The result is `*` iff the alias is blank, and `[alias].*` otherwise. |
| QueryHelpers.DatabaseColumnsOf | BWJ.Core.SqlRepository/QueryHelper.cs:85-87 | The column list holds exactly the properties that are database columns, in declaration order, with no repeated names. |
| QueryHelpers.QueryHelper.DatabaseColumns | BWJ.Core.SqlRepository/QueryHelper.cs:79-93 | The first read builds the list from the entity. Every later read returns the cached list as it now stands. |
| QueryHelpers.ResolvePrimaryKey | BWJ.Core.SqlRepository/QueryHelper.cs:63-68 | The key is the first key-flagged column, else the first column named `id` in any case. It is absent iff no column is either. |
| QueryHelpers.ResolvePrimaryKeyAt | BWJ.Core.SqlRepository/QueryHelper.cs:57-77 | Whatever position the reference definition picks, resolution returns the column at that position. For example, a key-flagged column that is not first still wins. |
| QueryHelpers.QueryHelper.PrimaryKey | BWJ.Core.SqlRepository/QueryHelper.cs:57-77 | The first read resolves the key from the column list as it stands then. Later reads return the cached result (present or absent) and never recompute it. |
| QueryHelpers.KeyOutlivesRemoval | BWJ.Core.SqlRepository/QueryHelper.cs:61-71 | Read the key, then call SelectAllExcept, then read the key again. Both reads give the same key, even when its column was removed from the list. |
| QueryHelpers.QueryHelper.GetDatabaseColumnProperty | BWJ.Core.SqlRepository/QueryHelper.cs:230-238 | A non-column raises ArgumentException("Property is not a database column"). A column is returned as it is. |
| QueryHelpers.QueryHelper.Column | BWJ.Core.SqlRepository/QueryHelper.cs:175-181 | Fails iff the property is not a database column. Otherwise the result is `[Name]`, prefixed with `[alias].` when the alias is not blank. |
| QueryHelpers.QueryHelper.Parameter | BWJ.Core.SqlRepository/QueryHelper.cs:183-193 | Fails iff the property is not a database column. Otherwise the result is `@Name`, never alias-qualified. |
| QueryHelpers.QueryHelper.CompareColumnToParameter | BWJ.Core.SqlRepository/QueryHelper.cs:126-127 | Succeeds iff the property is a column and the operator is declared. A non-column reports ArgumentException first. The text is column, operator, parameter, separated by single spaces. |
| QueryHelpers.QueryHelper.ColumnEqualsParameter | BWJ.Core.SqlRepository/QueryHelper.cs:95-96 | Fails, with ArgumentException("Property is not a database column"), iff the property is not a database column. Its text is in ComparisonShortcuts. |
| QueryHelpers.QueryHelper.ColumnNotEqualsParameter | BWJ.Core.SqlRepository/QueryHelper.cs:98-99 | Fails, with ArgumentException("Property is not a database column"), iff the property is not a database column. Its text is in ComparisonShortcuts. |
| QueryHelpers.QueryHelper.ColumnGreaterThanParameter | BWJ.Core.SqlRepository/QueryHelper.cs:101-102 | Fails, with ArgumentException("Property is not a database column"), iff the property is not a database column. Its text is in ComparisonShortcuts. |
| QueryHelpers.QueryHelper.ColumnGreaterOrEqualsParameter | BWJ.Core.SqlRepository/QueryHelper.cs:104-105 | Fails, with ArgumentException("Property is not a database column"), iff the property is not a database column. Its text is in ComparisonShortcuts. |
| QueryHelpers.QueryHelper.ColumnLessOrEqualsParameter | BWJ.Core.SqlRepository/QueryHelper.cs:107-108 | Fails, with ArgumentException("Property is not a database column"), iff the property is not a database column. Its text is in ComparisonShortcuts. |
| QueryHelpers.QueryHelper.ColumnLessThanParameter | BWJ.Core.SqlRepository/QueryHelper.cs:110-111 | Fails, with ArgumentException("Property is not a database column"), iff the property is not a database column. Its text is in ComparisonShortcuts. |
| QueryHelpers.QueryHelper.ColumnInParameter | BWJ.Core.SqlRepository/QueryHelper.cs:113-114 | Fails, with ArgumentException("Property is not a database column"), iff the property is not a database column. Its text is in ComparisonShortcuts. |
| QueryHelpers.QueryHelper.ColumnLikeParameter | BWJ.Core.SqlRepository/QueryHelper.cs:119-120 | Fails, with ArgumentException("Property is not a database column"), iff the property is not a database column. Its text is in ComparisonShortcuts. |
| QueryHelpers.QueryHelper.ComparisonShortcuts | BWJ.Core.SqlRepository/QueryHelper.cs:95-120 | Each of the eight `ColumnXParameter` wrappers renders its own fixed operator (`=`, `<>`, `>`, `>=`, `<=`, `<`, `IN`, `LIKE`) between the column and the parameter. |
| QueryHelpers.QueryHelper.ScriptJoin | BWJ.Core.SqlRepository/QueryHelper.cs:151-159 | Fails iff either column is not a database column or the operator is undeclared. The pieces are rendered left to right, so the first bad one decides: ArgumentException for this column, then NotSupportedException for the operator, then ArgumentException for the joined column. Otherwise the text is `<kind> JOIN <joined Table()>`, a line break, then `ON <this column> <op> <joined column>`, each column under its own helper's alias. |
| QueryHelpers.QueryHelper.InnerJoin | BWJ.Core.SqlRepository/QueryHelper.cs:135-141 | The join text with kind `INNER`. |
| QueryHelpers.QueryHelper.LeftOuterJoin | BWJ.Core.SqlRepository/QueryHelper.cs:143-149 | The join text with kind `LEFT OUTER`. |
| QueryHelpers.QueryHelper.SelectAllExcept | BWJ.Core.SqlRepository/QueryHelper.cs:161-173 | Every cached column named by an exclusion is removed from the helper's own list, which stays removed. The result lists the survivors' Column() texts in their original order, joined by `, `. |
| QueryHelpers.CollectRemovals | BWJ.Core.SqlRepository/QueryHelper.cs:164-169 | The first loop collects exactly the columns whose name some exclusion carries. |
| QueryHelpers.RemoveEach | BWJ.Core.SqlRepository/QueryHelper.cs:170 | Removing each collected column with List.Remove keeps exactly the other columns, in order. |
| QueryHelpers.Without | BWJ.Core.SqlRepository/QueryHelper.cs:165-170 | The survivors are exactly the columns whose name no exclusion carries, kept in order, with no repeated names. |
| QueryHelpers.WithoutAccumulates | BWJ.Core.SqlRepository/QueryHelper.cs:161-173 | Two SelectAllExcept calls in a row remove what one call with both exclusion lists would remove: removals compound. |
| QueryHelpers.SelectAllExceptShrinks | BWJ.Core.SqlRepository/QueryHelper.cs:170 | After a removal the list is an ordered subsequence of what it was and no longer. A column stays iff no exclusion names it. |
| QueryHelpers.EscapeForLikeQuery | BWJ.Core.SqlRepository/QueryHelper.cs:207-211 | Null stays null. Otherwise each character is rewritten on its own: `_` to `[[]_]`, `%` to `[[]%]`, `[` to `[[]`, any other character kept. |
| QueryHelpers.EscapeForLikeQueryExample | BWJ.Core.SqlRepository/QueryHelper.cs:207-211 | The two wildcards `%_` escape to `[[]%][[]_]`: each bracket inserted for a wildcard is escaped again. |
| QueryHelpers.FormatValueForBeginsWithQuery | BWJ.Core.SqlRepository/QueryHelper.cs:195-197 | Returns "" iff the input is null or empty. Otherwise the escaped term followed by `%`. |
| QueryHelpers.FormatValueForEndsWithQuery | BWJ.Core.SqlRepository/QueryHelper.cs:199-201 | Returns "" iff the input is null or empty. Otherwise `%` followed by the escaped term. |
| QueryHelpers.FormatValueForContainsTextQuery | BWJ.Core.SqlRepository/QueryHelper.cs:203-205 | Returns "" iff the input is null or empty. Otherwise the escaped term between two `%`. |
| QueryHelpers.FormattedTermIsNeverBareWildcard | BWJ.Core.SqlRepository/QueryHelper.cs:195-205 | No formatter ever returns a bare `%` or `%%`. |
| LikePatterns.EscapedUnderscoreMissesItself | BWJ.Core.SqlRepository/QueryHelper.cs:207-211 | As written, the escaped `_` used as a LIKE pattern does not match `_` and does match `[x]`. |
| LikePatterns.EscapeForLikeQueryIntended | BWJ.Core.SqlRepository/QueryHelper.cs:207-211 | With `[` escaped first, each of `[`, `_`, `%` becomes that character in brackets, and every other character is kept. |
| LikePatterns.EscapedPatternMatchesExactly | BWJ.Core.SqlRepository/QueryHelper.cs:207-211 | With the corrected escaping, the escaped term used as a LIKE pattern matches a text iff the text equals the term. |
| LikePatterns.EscapeForLikeQueryIntendedExample | BWJ.Core.SqlRepository/QueryHelper.cs:207-211 | With the corrected escaping, `%_` escapes to `[%][_]`. |
| QueryCache.TemplateKey | BWJ.Core.SqlRepository/SqlQueryCacheService.cs:25 | The key is the type name, a `.`, then the operation key. Each part can be read back from its position. |
| QueryCache.TemplateKeyInjective | BWJ.Core.SqlRepository/SqlQueryCacheService.cs:25 | For type names without a dot, two keys are equal iff both the type names and the operation keys are equal. |
| QueryCache.TemplateKeyInjectiveByKey | BWJ.Core.SqlRepository/SqlQueryCacheService.cs:25 | For operation keys without a dot (type names may have dots, as full names do), two keys are equal iff both parts are equal. |
| QueryCache.StringFormat | BWJ.Core.SqlRepository/SqlQueryCacheService.cs:14-20 | `string.Format` read left to right. Every failure it reports is a FormatException. |
| QueryCache.FormatOneSlot | BWJ.Core.SqlRepository/SqlQueryCacheService.cs:14 | In a template with one `{0}` between brace-free texts, the slot becomes the schema and nothing else changes. |
| QueryCache.FormatAppend | BWJ.Core.SqlRepository/SqlQueryCacheService.cs:14 | Formatting works piece by piece: a well-formed prefix formats on its own, in front of the rest. |
| QueryCache.FormatEscapedBraces | BWJ.Core.SqlRepository/SqlQueryCacheService.cs:14 | Any text with its braces doubled formats back to itself. |
| QueryCache.SqlQueryCacheService.constructor | BWJ.Core.SqlRepository/SqlQueryCacheService.cs:8 | A new cache is empty. |
| QueryCache.SqlQueryCacheService.GetTemplate | BWJ.Core.SqlRepository/SqlQueryCacheService.cs:23-39 | On a hit, the stored template is returned, the builder does not run, and nothing changes. On a miss, the builder runs once. Its trimmed result is stored and returned, or its failure is passed on and nothing is stored. Existing entries are never replaced or removed. |
| QueryCache.SqlQueryCacheService.GetQuery | BWJ.Core.SqlRepository/SqlQueryCacheService.cs:11-15 | The result is the (cached or newly stored) template formatted with `{0}` set to the schema. The store changes as GetTemplate says. |
| QueryCache.SqlQueryCacheService.GetQueryTwoSchemas | BWJ.Core.SqlRepository/SqlQueryCacheService.cs:17-21 | The same, with `{0}` and `{1}` set to the two schemas, over the same store. |
| QueryCache.SharedTemplate | BWJ.Core.SqlRepository/SqlQueryCacheService.cs:11-39 | Two calls for one key through the two overloads, with different schemas and different builders. The second call gets the first builder's template and its own builder never runs. If the first build fails, nothing is stored and the second builder decides. |
| Text.Trim | BWJ.Core.SqlRepository/SqlQueryCacheService.cs:30 | The result neither starts nor ends with white space and is no longer than the input. |
| Text.TrimSlice | BWJ.Core.SqlRepository/SqlQueryCacheService.cs:30 | What Trim keeps is a contiguous slice of the input, and everything cut on either side of it is white space. |
| Text.TrimIdempotent | BWJ.Core.SqlRepository/SqlQueryCacheService.cs:30 | Trimming a trimmed template changes nothing. |
| Text.TrimPadded | BWJ.Core.SqlRepository/SqlQueryCacheService.cs:30 | White space around a trimmed text is exactly what Trim removes. |
| Repository.CacheKeyInjective | BWJ.Core.SqlRepository/SqlRepositoryBase.cs:178-258 | The five CRUD operations use five distinct cache keys. |
| Repository.TemplateAt | BWJ.Core.SqlRepository/SqlRepositoryBase.cs:174-273 | A template fails iff the operation is not CreateRecord and no primary key resolves. The failure is FormatException, and its message names the entity type. |
| Repository.BuildCreateRecord | BWJ.Core.SqlRepository/SqlRepositoryBase.cs:176-190 | The CreateRecord lambda builds the INSERT through a fresh QueryHelper's cached column list and Table(). The result equals the reference template `Template(CreateRecord, e)`. |
| Repository.BuildKeyed | BWJ.Core.SqlRepository/SqlRepositoryBase.cs:195-273 | The UpdateRecord, RemoveRecord, RemoveRecordById and GetRecord lambdas go through a fresh QueryHelper's PrimaryKey() and column list. The result equals the reference template, which is FormatException when no key resolves. |
| Repository.CreateRecordColumns | BWJ.Core.SqlRepository/SqlRepositoryBase.cs:180-189 | INSERT lists, in declaration order, exactly the database columns that are not generated keys (explicit keys included) into the un-aliased table, with the same-named parameters in the same order. |
| Repository.UpdateRecordColumns | BWJ.Core.SqlRepository/SqlRepositoryBase.cs:206-212 | SET assigns `[C] = @C` for exactly the database columns with no key flag. WHERE matches `[pk] = @pk`. |
| Repository.IdFallbackKeyIsAssigned | BWJ.Core.SqlRepository/SqlRepositoryBase.cs:201-212 | When no property is key-flagged, the resolved key is the one named `id` and is also assigned in SET. |
| Repository.KeyedTemplatesWhereClause | BWJ.Core.SqlRepository/SqlRepositoryBase.cs:229-269 | The DELETE and SELECT templates target the un-aliased table and are keyed on the resolved primary key. |
| Repository.WhereClauses | BWJ.Core.SqlRepository/SqlRepositoryBase.cs:231-269 | RemoveRecord's WHERE ends on the key's own `@Name`. The by-id WHERE ends on `@Id` whatever the key is called. |
| Repository.SchemaFilledIn | BWJ.Core.SqlRepository/SqlRepositoryBase.cs:286-287 | For C#-style names, the executed query is the template with the schema in the table reference and the leading line break trimmed off. |
| Repository.CreateRecordQueryText | BWJ.Core.SqlRepository/SqlRepositoryBase.cs:178-189 | The executed CreateRecord text starts `INSERT INTO [schema].[Table]`, followed by the column lines. |
| Repository.CreateRecordExample | BWJ.Core.SqlRepository/SqlRepositoryBase.cs:184-189 | For Customer(Id generated key, Name, Email) under any schema, the INSERT targets `[schema].[Customers]` with `[Name],[Email]` and `@Name,@Email`. |
| Repository.IsDatabasePrimitiveType | BWJ.Core.SqlRepository/SqlRepositoryBase.cs:153-163 | null is not a database primitive. A value type, string, DateTime, decimal or byte[] is. Any other type is one iff its Nullable underlying type is. |
| Repository.PrimitiveTypeAlongChain | BWJ.Core.SqlRepository/SqlRepositoryBase.cs:153-163 | A type is a database primitive iff some type along its chain of Nullable underlying types is a value type, string, DateTime, decimal or byte[]. |
| Repository.PrimitiveTypeRecursionIsRedundant | BWJ.Core.SqlRepository/SqlRepositoryBase.cs:153-163 | For a real CLR type, where only value types have an underlying type, the answer is just "value type or one of the named types". |
| Repository.GetPrimitiveList | BWJ.Core.SqlRepository/SqlRepositoryBase.cs:138-151 | A non-primitive element type raises ArgumentException naming the type before any query runs. Otherwise the query goes on unchanged. |
| Repository.Served | BWJ.Core.SqlRepository/SqlQueryCacheService.cs:11-39 | What the shared cache hands an entity's repository for one operation: any template stored under the entity's type name, whoever stored it; otherwise the entity's own freshly built query. |
| Repository.StoreAfter | BWJ.Core.SqlRepository/SqlQueryCacheService.cs:23-36 | The store after one lookup: unchanged when the key was present; otherwise the built template, trimmed, added under that key, or nothing added when the build failed. Every earlier entry is kept as it was, and no other key appears. |
| Repository.ServedIsStable | BWJ.Core.SqlRepository/SqlQueryCacheService.cs:23-36 | A second Run for the same operation is served exactly what the first was, a same-named type's foreign template included, and leaves the store as the first left it. |
| Repository.NameKeyShared | BWJ.Core.SqlRepository/SqlQueryCacheService.cs:25 | For two entity types with the same Name, once the first one's template for an operation is stored, the second one is served the first one's query. The cache then agrees with the second one only if it would have built the same template. |
| Repository.SameNameCollision | BWJ.Core.SqlRepository/SqlQueryCacheService.cs:25 | `Shop.Customer` (table Customers) and `Billing.Customer` (table Clients) share the Name `Customer`. After the first one's CreateRecord, the second one is served an INSERT into `[schema].[Customers]`, not its own INSERT into `[schema].[Clients]`, and the cache no longer agrees with it. |
| Repository.IntendedKey | BWJ.Core.SqlRepository/SqlQueryCacheService.cs:25 | The corrected key: the entity's full name, a `.`, then the operation key. |
| Repository.FullNameKeysIsolateTypes | BWJ.Core.SqlRepository/SqlQueryCacheService.cs:25-37 | Under full-name keys, storing one type's template keeps the cache in agreement with that type and with every type of another full name. |
| Repository.SqlRepository.constructor | BWJ.Core.SqlRepository/SqlRepositoryBase.cs:18-22 | A repository holds its entity and the shared cache service, whatever other repositories have stored in it. |
| Repository.SqlRepository.GetQuery | BWJ.Core.SqlRepository/SqlRepositoryBase.cs:286-287 | The cache's GetQuery under this entity's type name. |
| Repository.SqlRepository.Run | BWJ.Core.SqlRepository/SqlRepositoryBase.cs:174-273 | A CRUD query is whatever template the cache holds under the entity's type name, filled with the schema, or else the entity's own fresh query. The new store is StoreAfter of the old one: unchanged on a hit, and on a miss the trimmed template added under `Name.op` (nothing when the build fails), with every other entry kept. When the cache agreed with the entity beforehand, the answer is the entity's own query and the cache still agrees afterwards. The builder runs only when its key was absent. |
| Repository.SqlRepository.RunByFullName | BWJ.Core.SqlRepository/SqlQueryCacheService.cs:25 | The corrected routing through the same cache under full-name keys, leaving StoreAfter of the old store under the full-name key. An entity the cache agrees with gets its own query, and every type of another full name that the cache agreed with still agrees. |
| Repository.SqlRepository.CreateRecordQuery | BWJ.Core.SqlRepository/SqlRepositoryBase.cs:174-193 | The query CreateRecord executes and the store it leaves behind, as Run gives them for CreateRecord. |
| Repository.SqlRepository.UpdateRecordQuery | BWJ.Core.SqlRepository/SqlRepositoryBase.cs:195-216 | The query UpdateRecord executes and the store it leaves behind, as Run gives them for UpdateRecord. |
| Repository.SqlRepository.RemoveRecordQuery | BWJ.Core.SqlRepository/SqlRepositoryBase.cs:218-235 | The query RemoveRecord executes and the store it leaves behind, as Run gives them for RemoveRecord. |
| Repository.SqlRepository.RemoveRecordByIdQuery | BWJ.Core.SqlRepository/SqlRepositoryBase.cs:237-254 | The query RemoveRecordById executes and the store it leaves behind, as Run gives them for RemoveRecordById. |
| Repository.SqlRepository.GetRecordQuery | BWJ.Core.SqlRepository/SqlRepositoryBase.cs:256-273 | The query GetRecord executes and the store it leaves behind, as Run gives them for GetRecord. |

## Left out

- Database I/O is not modelled: `GetOne`, `GetMany`, `GetScalar`, `Execute`, `GetAll`, `getSqlConnection` and `GetConnectionString`. Each CRUD method here stops at the query text it would execute, so mapping a returned row (or no row) to an entity is not modelled.
- The `lock` in `GetTemplate` and all `async` scheduling are left out. The cache is modelled as sequential.
- Reflection is replaced by declared descriptors (`Entities.Field`, `Entities.EntityType`). Property names are assumed unique, as for a CLR class without `new`-hidden properties. Under that assumption `List.Remove` removes the one column with a given name.
- `GetPropertyFromLambda` and the `Expression` overloads of `Column` and `Parameter` are left out. Callers pass a field descriptor directly, so the two "refers to a method/field" ArgumentExceptions are not modelled.
- `ColumnNotInParameter` is left out. It names `SqlOperator.NotIn`, which the enum does not declare.
- SelectAllExcept's exclusions: each is an opaque optional name, because the source compares a property's name with the lambda expression's own `Name`, not the accessed member's.
- QueryHelpers.QueryHelper.DatabaseColumns: returns the list's value. A caller that mutates the returned `List` would change the helper's cache in the source, and that aliasing is not modelled.
- `string.Format` is modelled for single-digit slots and doubled braces only. Format specifiers and alignment (`{0:x}`, `{0,5}`) and multi-digit indices are not.
- QueryCache.StringFormat: the FormatException messages are those of one runtime. Newer .NET versions append the offset where parsing failed, so only the exception kind is meant to be exact.
- LikePatterns.Matches: it compares characters ordinally and case-sensitively, as a binary collation does. SQL Server's default collations ignore case, and accent sensitivity depends on the collation. It has no `[a-z]` ranges and no `[^...]` negation, and it reads an unclosed `[` as a literal. So `EscapedPatternMatchesExactly` holds under a binary collation. The finding about QueryHelper.cs:207-211 does not depend on the collation.
- The `id` fallback compares with OrdinalIgnoreCase, and the `Xlient` regex uses RegexOptions.IgnoreCase without CultureInvariant, so its case folding depends on the current culture (under a Turkish culture `XLIENT_` may not match). Both are modelled as ASCII case folding.
- White space is the `Char.IsWhiteSpace` list of characters.
- The verbatim templates' layout (a line break, then 20/31/25/23/21/26 spaces) follows the file with LF line ends. A CRLF checkout would give different interior text.
- `ISqlQueryCacheService.cs` is an interface with no behaviour. Its method is modelled by the cache class.
- `SqlRepositoryServiceCollectionExtensions.cs` (dependency-injection registration) is not part of this model. It registers the cache as a singleton (line 10), which is why every repository is modelled over one shared cache.
- `IsDatabasePrimitiveType` identifies `string`, `DateTime`, `decimal` and `byte[]` by full type name, and a type's Nullable underlying type is a declared field.

## Findings

| source | as written | input that shows it | evidently intended | confidence | as-written member | corrected member |
|---|---|---|---|---|---|---|
| BWJ.Core.SqlRepository/SqlQueryCacheService.cs:25 | templates are keyed by `entityType.Name`, which two entity types in different namespaces (or two constructions of one generic class) share | `Shop.Customer` with table Customers and `Billing.Customer` with table Clients: after the first one's CreateRecord, the second one's CreateRecord inserts into `[schema].[Customers]` | key by a name that tells types apart, such as the full name, so each repository gets its own templates | high; not executed | Repository.SameNameCollision | Repository.FullNameKeysIsolateTypes |
| BWJ.Core.SqlRepository/QueryHelper.cs:207-211 | `_` and `%` are bracketed first, then every `[` (including the ones just inserted) becomes `[[]` | `"_"` escapes to `[[]_]`, a LIKE pattern that matches `[x]` but not `_` | escape `[` first, so `_` becomes `[_]` and the escaped term matches only itself | high; not executed | LikePatterns.EscapedUnderscoreMissesItself | LikePatterns.EscapedPatternMatchesExactly |

The three `FormatValueFor*Query` members keep the as-written escaping,
because that is what the code does. `LikePatterns.EscapeForLikeQueryIntended`
is the corrected escape. Likewise the CRUD methods keep the as-written
`Name` key, and `SqlRepository.RunByFullName` is the corrected routing.
