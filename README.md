# sharding-jdbc core, modelled in Dafny

This project models the sharding rule model of sharding-jdbc and the small pieces of state
around it:

- **Table rules.** A logic table and an optional list of data-node strings become an
  ordered list of (datasource, table) nodes. The nodes are checked against the datasource
  map. The rule answers three lookups: the distinct datasource names, the table names on
  one datasource, and the index of a node matched case-insensitively.
- **Rule building.** `TableRuleConfiguration.build` checks its arguments and builds the
  optional strategies and the key generator. `ShardingRuleConfiguration.build` first
  rewrites the caller's datasource map in place for every master/slave group. It then
  builds every table rule against the rewritten map.
- **The lexer's character classes** (`CharType`) and **the sharding property keys**
  (`ShardingPropertiesConstant.findByKey` and the defaults).
- **The executor exception policy.** A per-thread flag decides whether an exception is
  rethrown, wrapped or only logged.
- **The routing engine's parse-once cache.** The first `route` parses the SQL; every later
  call reuses the cached statement.
- **`ShardingDataSource`.** The executor engine is replaced only when its size changes;
  the context is rebuilt on every `renew`.
- **`ShardingPreparedStatement`'s bookkeeping.** This covers:
  - the statements `route` prepares and `routedStatements`;
  - the find-or-create registry of batch units keyed by execution unit;
  - the logical batch index each unit records, and the parameter sets;
  - `clearBatch` on every execute path;
  - the decisions of `getGeneratedKeys` and `getResultSet`.

Java exceptions become `Result` values carrying an `Error`. Collaborators whose source is
not part of this model are passed in as function-valued fields:

- the SQL router;
- the inline-expression parser and data-node parsing;
- strategy building;
- key-generator class loading;
- the master/slave datasource factory;
- the physical connections;
- the executors and the merge engine.

Objects whose fields the source reassigns are classes; the immutable records are
datatypes. Each loop of the source is a method with loop invariants, proved equal to a
recursive specification function, and the lemmas state what those functions mean.

The datasource map is a `LinkedMap`: its keys in insertion order, plus the map. `build`
iterates the keys in that order. The class `DataSourceMap` wraps it, and the master/slave
rewrite changes it in place.

The batch units of a prepared statement always satisfy `WellFormedBatch`:

- no two units share an execution unit;
- every recorded logical index is below the number of parameter sets.

`StatementUnits.WellFormedBatchMeans` proves that this is what the recursive predicate
means.

## Model

| member | source | states |
|---|---|---|
| Rule.DefaultDataNodes | sharding-jdbc-core/src/main/java/io/shardingjdbc/core/rule/TableRule.java:76-82 | without node strings there is exactly one node per datasource name, in map order, each naming the logic table |
| Rule.ParsedDataNodes | sharding-jdbc-core/src/main/java/io/shardingjdbc/core/rule/TableRule.java:91-101 | building succeeds iff every string is a valid node whose datasource is a key of the map; then node i is string i parsed, one node per string |
| Rule.ParsedDataNodesRejectsFirst | sharding-jdbc-core/src/main/java/io/shardingjdbc/core/rule/TableRule.java:93-97 | a failing build reports the first rejected string, with the format error taking precedence over the unknown-datasource error |
| Rule.ActualDataNodesFor | sharding-jdbc-core/src/main/java/io/shardingjdbc/core/rule/TableRule.java:61 | null or empty strings choose the default nodes; every resulting node's datasource is a key of the map; the list is non-empty whenever the map or the strings are |
| Rule.GenerateDefaultDataNodes | sharding-jdbc-core/src/main/java/io/shardingjdbc/core/rule/TableRule.java:76-82 | the loop over the map's keys yields exactly the default nodes |
| Rule.GenerateDataNodes | sharding-jdbc-core/src/main/java/io/shardingjdbc/core/rule/TableRule.java:91-101 | the checking loop yields exactly the parsed nodes, or the error of the first rejected string |
| Rule.BuildTableRule | sharding-jdbc-core/src/main/java/io/shardingjdbc/core/rule/TableRule.java:56-67 | the constructor fails exactly when node generation fails; otherwise logic table, strategies, key column, key generator and logic index are the arguments unchanged |
| Rule.NewTableRule | sharding-jdbc-core/src/main/java/io/shardingjdbc/core/rule/TableRule.java:56-67 | the constructor, with its loops, builds exactly the rule BuildTableRule describes |
| Rule.DataSourceNamesOf | sharding-jdbc-core/src/main/java/io/shardingjdbc/core/rule/TableRule.java:108-114 | no duplicates, and the names are exactly the datasource names of the nodes |
| Rule.DataSourceNamesKeepFirstOccurrenceOrder | sharding-jdbc-core/src/main/java/io/shardingjdbc/core/rule/TableRule.java:108-114 | the names of a prefix of the nodes are a prefix of all the names, so names keep first-occurrence order |
| Rule.TableRule.GetActualDatasourceNames | sharding-jdbc-core/src/main/java/io/shardingjdbc/core/rule/TableRule.java:108-114 | the LinkedHashSet loop returns DataSourceNamesOf of the nodes |
| Rule.TableNamesOf | sharding-jdbc-core/src/main/java/io/shardingjdbc/core/rule/TableRule.java:122-130 | no duplicates, and the names are exactly the tables of the nodes whose datasource equals the target (case-sensitive) |
| Rule.TableRule.GetActualTableNames | sharding-jdbc-core/src/main/java/io/shardingjdbc/core/rule/TableRule.java:122-130 | the filtering loop returns TableNamesOf for the target datasource |
| Rule.TableNameListPrefix | sharding-jdbc-core/src/main/java/io/shardingjdbc/core/rule/TableRule.java:124-128 | the matching table names of a prefix of the nodes are a prefix of all of them, so the filter keeps node order |
| Rule.TableNamesKeepFirstOccurrenceOrder | sharding-jdbc-core/src/main/java/io/shardingjdbc/core/rule/TableRule.java:122-130 | the table names of a prefix of the nodes are a prefix of all the table names, so they keep first-occurrence order |
| Rule.TableRule.FindActualTableIndex | sharding-jdbc-core/src/main/java/io/shardingjdbc/core/rule/TableRule.java:138-147 | the result lies in [-1, number of nodes); it is the first node matching both names ignoring case, and -1 exactly when no node matches |
| TableRuleConfigurations.StrategyOf | sharding-jdbc-core/src/main/java/io/shardingjdbc/core/api/config/TableRuleConfiguration.java:84-85 | a strategy is null exactly when its configuration is null, else it is that configuration built |
| TableRuleConfigurations.TableRuleConfiguration.BuiltTableRule | sharding-jdbc-core/src/main/java/io/shardingjdbc/core/api/config/TableRuleConfiguration.java:79-90 | a null logic table fails first; a key generator exists exactly when both its column and class are non-empty, and an unloadable class fails; the nodes come from the evaluated inline expression; the key column and logic index pass through; every node's datasource is in the map |
| TableRuleConfigurations.TableRuleConfiguration.Build | sharding-jdbc-core/src/main/java/io/shardingjdbc/core/api/config/TableRuleConfiguration.java:79-90 | build, statement by statement, returns exactly BuiltTableRule |
| KeyGenerators.NewInstance | sharding-jdbc-core/src/main/java/io/shardingjdbc/core/keygen/KeyGeneratorFactory.java:37-43 | loading succeeds exactly for an instantiable class and yields a generator of that class; otherwise it is an illegal-argument error |
| DataSourceMaps.LinkedMap.Put | sharding-jdbc-core/src/main/java/io/shardingjdbc/core/api/config/ShardingRuleConfiguration.java:99 | put maps the key to the value; a new key goes last in key order, an existing key keeps its place |
| DataSourceMaps.LinkedMap.Remove | sharding-jdbc-core/src/main/java/io/shardingjdbc/core/api/config/ShardingRuleConfiguration.java:100 | remove drops the key from the map and from the key order and keeps every other key |
| DataSourceMaps.DataSourceMap.Put | sharding-jdbc-core/src/main/java/io/shardingjdbc/core/api/config/ShardingRuleConfiguration.java:99 | the caller's map is updated in place to LinkedMap.Put of its contents |
| DataSourceMaps.DataSourceMap.Remove | sharding-jdbc-core/src/main/java/io/shardingjdbc/core/api/config/ShardingRuleConfiguration.java:100 | the caller's map is updated in place to LinkedMap.Remove of its contents |
| ShardingRuleConfigurations.RemoveAll | sharding-jdbc-core/src/main/java/io/shardingjdbc/core/api/config/ShardingRuleConfiguration.java:101-103 | after removing the slave names, a key is present iff it was present and is not a slave name; values are unchanged |
| ShardingRuleConfigurations.RemoveAllKeepsValid | sharding-jdbc-core/src/main/java/io/shardingjdbc/core/api/config/ShardingRuleConfiguration.java:101-103 | removing the slave names keeps the key order consistent with the map |
| ShardingRuleConfigurations.RemoveSlaves | sharding-jdbc-core/src/main/java/io/shardingjdbc/core/api/config/ShardingRuleConfiguration.java:101-103 | the inner loop leaves the map equal to RemoveAll of the slave names |
| ShardingRuleConfigurations.MasterSlaveStepKeepsValid | sharding-jdbc-core/src/main/java/io/shardingjdbc/core/api/config/ShardingRuleConfiguration.java:99-103 | one group's put and removals keep the map well formed |
| ShardingRuleConfigurations.MasterSlaveStepEffect | sharding-jdbc-core/src/main/java/io/shardingjdbc/core/api/config/ShardingRuleConfiguration.java:99-103 | after one group, its master and slaves are not keys; its name holds the new datasource unless the name is itself the master or a slave; every other key is unchanged |
| ShardingRuleConfigurations.ApplyMasterSlaveKeepsValid | sharding-jdbc-core/src/main/java/io/shardingjdbc/core/api/config/ShardingRuleConfiguration.java:97-105 | rewriting for every group, in order, keeps the map well formed |
| ShardingRuleConfigurations.LastGroupReplaced | sharding-jdbc-core/src/main/java/io/shardingjdbc/core/api/config/ShardingRuleConfiguration.java:97-105 | after a complete rewrite, the last group's master and slaves are not keys of the map |
| ShardingRuleConfigurations.ShardingRuleConfiguration.ProcessDataSourceMapWithMasterSlave | sharding-jdbc-core/src/main/java/io/shardingjdbc/core/api/config/ShardingRuleConfiguration.java:97-105 | the nested loops rewrite the caller's map in place exactly as ApplyMasterSlave says, stopping at the first factory failure with the groups before it applied |
| ShardingRuleConfigurations.BuildEach | sharding-jdbc-core/src/main/java/io/shardingjdbc/core/api/config/ShardingRuleConfiguration.java:84-88 | succeeds iff every configuration builds; then there is one rule per configuration, in configuration order |
| ShardingRuleConfigurations.BuildEachFirstFailure | sharding-jdbc-core/src/main/java/io/shardingjdbc/core/api/config/ShardingRuleConfiguration.java:84-88 | building fails with the error of the first configuration that fails |
| ShardingRuleConfigurations.ShardingRuleConfiguration.BuildTableRules | sharding-jdbc-core/src/main/java/io/shardingjdbc/core/api/config/ShardingRuleConfiguration.java:84-88 | the loop returns exactly BuildEach over the current map |
| ShardingRuleConfigurations.ShardingRuleConfiguration.BuiltShardingRule | sharding-jdbc-core/src/main/java/io/shardingjdbc/core/api/config/ShardingRuleConfiguration.java:80-95 | an empty map fails before the rewrite; a factory failure is thrown; the table rules are built against the rewritten map; the rule keeps the caller's map object, default datasource and binding groups; each default strategy is null exactly when its configuration is; the default key generator class falls back to DefaultKeyGenerator; build succeeds exactly when the map is non-empty, the rewrite, every table rule and the key generator all succeed; a failing table rule's exception and then a failing key-generator load's exception are the ones thrown |
| ShardingRuleConfigurations.ShardingRuleConfiguration.TableRulesUseRewrittenMap | sharding-jdbc-core/src/main/java/io/shardingjdbc/core/api/config/ShardingRuleConfiguration.java:83-88 | every data node of a built rule names a key of the rewritten map |
| ShardingRuleConfigurations.ShardingRuleConfiguration.ReplacedNamesNotRouted | sharding-jdbc-core/src/main/java/io/shardingjdbc/core/api/config/ShardingRuleConfiguration.java:83-103 | no data node of a built rule names the last group's master or one of its slaves |
| ShardingRuleConfigurations.ShardingRuleConfiguration.Build | sharding-jdbc-core/src/main/java/io/shardingjdbc/core/api/config/ShardingRuleConfiguration.java:80-95 | a null map fails; otherwise the result is BuiltShardingRule of the original map; an empty map is left untouched, else the caller's map ends rewritten |
| CharTypes.SymbolSetSize | sharding-jdbc-core/src/main/java/io/shardingjdbc/core/parsing/lexer/analyzer/CharType.java:88-89 | the listed symbol characters are 25 distinct characters |
| CharTypes.SymbolsAreTheListedCharacters | sharding-jdbc-core/src/main/java/io/shardingjdbc/core/parsing/lexer/analyzer/CharType.java:88-89 | isSymbol holds exactly for the listed characters |
| CharTypes.ClassesDisjoint | sharding-jdbc-core/src/main/java/io/shardingjdbc/core/parsing/lexer/analyzer/CharType.java:46-90 | whitespace, end of input, alphabet, digit and symbol are pairwise disjoint |
| CharTypes.Classify | sharding-jdbc-core/src/main/java/io/shardingjdbc/core/parsing/lexer/analyzer/CharType.java:46-90 | each class is chosen exactly when its predicate holds, and Other exactly when none does |
| PropertiesConstants.FindIn | sharding-jdbc-core/src/main/java/io/shardingjdbc/core/constant/ShardingPropertiesConstant.java:64-71 | the search finds a constant with exactly the given key, and null exactly when no constant has it |
| PropertiesConstants.FindByKey | sharding-jdbc-core/src/main/java/io/shardingjdbc/core/constant/ShardingPropertiesConstant.java:64-71 | "sql.show" finds SQL_SHOW, "executor.size" finds EXECUTOR_SIZE, any other key finds null; a constant with the key is the one found, so the keys are distinct |
| PropertiesConstants.DecimalRoundTrip | sharding-jdbc-core/src/main/java/io/shardingjdbc/core/constant/ShardingPropertiesConstant.java:50 | the decimal text of a count reads back as that count |
| PropertiesConstants.DefaultValueReadsBack | sharding-jdbc-core/src/main/java/io/shardingjdbc/core/constant/ShardingPropertiesConstant.java:41-50 | SQL_SHOW defaults to the boolean "false"; EXECUTOR_SIZE is an int whose default reads back as the processor count |
| ExecutorExceptionHandlers.ExecutorExceptionHandler.constructor | sharding-jdbc-core/src/main/java/io/shardingjdbc/core/executor/threadlocal/ExecutorExceptionHandler.java:36 | no thread has set a flag, so every thread throws |
| ExecutorExceptionHandlers.ExecutorExceptionHandler.IsExceptionThrown | sharding-jdbc-core/src/main/java/io/shardingjdbc/core/executor/threadlocal/ExecutorExceptionHandler.java:52-54 | false exactly when the thread set its flag to false; an unset flag reads as true |
| ExecutorExceptionHandlers.ExecutorExceptionHandler.SetExceptionThrown | sharding-jdbc-core/src/main/java/io/shardingjdbc/core/executor/threadlocal/ExecutorExceptionHandler.java:43-45 | the calling thread then reads the value it set; every other thread reads what it read before |
| ExecutorExceptionHandlers.ExecutorExceptionHandler.HandleException | sharding-jdbc-core/src/main/java/io/shardingjdbc/core/executor/threadlocal/ExecutorExceptionHandler.java:62-70 | with the flag off the exception is only logged; with it on an SQLException is rethrown as is and any other exception is wrapped; the flag is only read |
| Routing.Step | sharding-jdbc-core/src/main/java/io/shardingjdbc/core/routing/PreparedStatementRoutingEngine.java:59-64 | parse is called, with the parameter count, only when nothing is cached; a cached statement never changes; routing uses the same SQL, the current parameters and the cached statement |
| Routing.CacheAfter | sharding-jdbc-core/src/main/java/io/shardingjdbc/core/routing/PreparedStatementRoutingEngine.java:59-64 | once cached, the statement stays cached over any later calls |
| Routing.ParseArguments | sharding-jdbc-core/src/main/java/io/shardingjdbc/core/routing/PreparedStatementRoutingEngine.java:60-62 | parse is called at most once per route call, never once a statement is cached, and every call but the last one failed |
| Routing.ParsedOnlyOnce | sharding-jdbc-core/src/main/java/io/shardingjdbc/core/routing/PreparedStatementRoutingEngine.java:60-62 | when the first parse succeeds, parse is called exactly once, with the first call's parameter count |
| Routing.ParsedUntilFirstSuccess | sharding-jdbc-core/src/main/java/io/shardingjdbc/core/routing/PreparedStatementRoutingEngine.java:60-62 | call i passes its own parameter count; parse is repeated only while it fails; a statement is cached exactly when the last parse succeeded |
| Routing.PreparedStatementRoutingEngine.constructor | sharding-jdbc-core/src/main/java/io/shardingjdbc/core/routing/PreparedStatementRoutingEngine.java:46-49 | the logic SQL and the router are fixed at construction, and nothing is cached |
| Routing.PreparedStatementRoutingEngine.Route | sharding-jdbc-core/src/main/java/io/shardingjdbc/core/routing/PreparedStatementRoutingEngine.java:59-64 | one route call updates the cache and the record of parse arguments, and answers, as Step says |
| ShardingDataSources.ShardingDataSource.constructor | sharding-jdbc-core/src/main/java/io/shardingjdbc/core/jdbc/core/datasource/ShardingDataSource.java:58-75 | null properties become empty ones; a new open engine of the configured size; the context holds the rule, the database type, that engine and the show-SQL flag |
| ShardingDataSources.ShardingDataSource.Renew | sharding-jdbc-core/src/main/java/io/shardingjdbc/core/jdbc/core/datasource/ShardingDataSource.java:84-96 | an unchanged size keeps the same engine untouched; a changed size closes the old engine and opens a new one; the new properties are stored and the context holds the new rule, flag and current engine |
| ShardingDataSources.ShardingDataSource.GetConnection | sharding-jdbc-core/src/main/java/io/shardingjdbc/core/jdbc/core/datasource/ShardingDataSource.java:103-106 | the connection uses the current context |
| ShardingDataSources.ShardingDataSource.Close | sharding-jdbc-core/src/main/java/io/shardingjdbc/core/jdbc/core/datasource/ShardingDataSource.java:108-111 | the current engine is closed and nothing else changes |
| StatementUnits.OnConnections | sharding-jdbc-core/src/main/java/io/shardingjdbc/core/jdbc/core/statement/ShardingPreparedStatement.java:179-186 | one statement per connection, in connection order, each with the cursor options |
| StatementUnits.PreparationsFor | sharding-jdbc-core/src/main/java/io/shardingjdbc/core/jdbc/core/statement/ShardingPreparedStatement.java:160-168 | DDL prepares one statement per connection of the unit's datasource; anything else prepares exactly one, with generated keys when they were requested |
| StatementUnits.Plan | sharding-jdbc-core/src/main/java/io/shardingjdbc/core/jdbc/core/statement/ShardingPreparedStatement.java:156-177 | every planned statement belongs to a routed unit; outside DDL there are at least as many statements as units |
| StatementUnits.OneStatementPerUnit | sharding-jdbc-core/src/main/java/io/shardingjdbc/core/jdbc/core/statement/ShardingPreparedStatement.java:160-175 | outside DDL, route prepares exactly one statement per unit, in unit order, on the unit's connection |
| StatementUnits.OneStatementPerConnection | sharding-jdbc-core/src/main/java/io/shardingjdbc/core/jdbc/core/statement/ShardingPreparedStatement.java:179-186 | for DDL, route prepares as many statements as the units' datasources have connections, all with the cursor options |
| StatementUnits.WithBatchUnitRegisters | sharding-jdbc-core/src/main/java/io/shardingjdbc/core/jdbc/core/statement/ShardingPreparedStatement.java:227-241 | find-or-create keeps the batch as a prefix, adds the unit only when it is missing, and gives a new unit no index and a statement prepared as generatePreparedStatement does |
| StatementUnits.WithBatchUnitsRegisters | sharding-jdbc-core/src/main/java/io/shardingjdbc/core/jdbc/core/statement/ShardingPreparedStatement.java:216-241 | registering the routed units one by one adds each missing unit once, in routing order |
| StatementUnits.WithBatchUnitKeepsWellFormed | sharding-jdbc-core/src/main/java/io/shardingjdbc/core/jdbc/core/statement/ShardingPreparedStatement.java:227-241 | find-or-create never creates a second batch unit for an execution unit |
| StatementUnits.WithBatchUnitsKeepsWellFormed | sharding-jdbc-core/src/main/java/io/shardingjdbc/core/jdbc/core/statement/ShardingPreparedStatement.java:219-223 | routeBatch's registrations keep the batch units distinct |
| StatementUnits.Tagged | sharding-jdbc-core/src/main/java/io/shardingjdbc/core/jdbc/core/statement/ShardingPreparedStatement.java:205-208 | every batch unit records the index once per routed unit equal to its own, and nothing else changes |
| StatementUnits.TaggedRegistered | sharding-jdbc-core/src/main/java/io/shardingjdbc/core/jdbc/core/statement/ShardingPreparedStatement.java:205-208 | tagging the registered units gives the effect addBatch promises |
| StatementUnits.AddBatchEffect | sharding-jdbc-core/src/main/java/io/shardingjdbc/core/jdbc/core/statement/ShardingPreparedStatement.java:202-214 | after addBatch, the old units keep their statements and gain the new index once per matching routed unit; each new unit holds exactly those indices and a freshly prepared statement |
| StatementUnits.AddBatchKeepsValid | sharding-jdbc-core/src/main/java/io/shardingjdbc/core/jdbc/core/statement/ShardingPreparedStatement.java:202-214 | addBatch keeps the units distinct and every recorded index below the new number of parameter sets |
| StatementUnits.EveryRoutedUnitRecordsIndex | sharding-jdbc-core/src/main/java/io/shardingjdbc/core/jdbc/core/statement/ShardingPreparedStatement.java:205-208 | every unit routed by addBatch has a batch unit that records the new index |
| StatementUnits.WellFormedBatchMeans | sharding-jdbc-core/src/main/java/io/shardingjdbc/core/jdbc/core/statement/ShardingPreparedStatement.java:227-241 | the batch invariant holds exactly when no two units share an execution unit and every index is below the bound |
| StatementUnits.TaggedKeepsWellFormed | sharding-jdbc-core/src/main/java/io/shardingjdbc/core/jdbc/core/statement/ShardingPreparedStatement.java:205-208 | tagging with index n keeps the invariant with bound n + 1 |
| StatementUnits.MergedResultSet | sharding-jdbc-core/src/main/java/io/shardingjdbc/core/jdbc/core/statement/ShardingPreparedStatement.java:285 | a null route result or a non-select statement throws; otherwise the merge's failure or the sharding result set over the given result sets |
| StatementUnits.QueryResult | sharding-jdbc-core/src/main/java/io/shardingjdbc/core/jdbc/core/statement/ShardingPreparedStatement.java:124-126 | an executor failure is thrown as is; otherwise the result sets are merged |
| StatementUnits.ResultSetsOf | sharding-jdbc-core/src/main/java/io/shardingjdbc/core/jdbc/core/statement/ShardingPreparedStatement.java:281-284 | one result set per routed statement, in routing order |
| PreparedStatements.ShardingPreparedStatement.constructor | sharding-jdbc-core/src/main/java/io/shardingjdbc/core/jdbc/core/statement/ShardingPreparedStatement.java:111-117 | the cursor options are kept, a new routing engine is created for the SQL, all lists are empty and generated keys are not requested |
| PreparedStatements.ShardingPreparedStatement.WithAutoGeneratedKeys | sharding-jdbc-core/src/main/java/io/shardingjdbc/core/jdbc/core/statement/ShardingPreparedStatement.java:104-109 | default cursor options; generated keys are requested exactly when the argument is RETURN_GENERATED_KEYS |
| PreparedStatements.ShardingPreparedStatement.GeneratePreparedStatementForDdl | sharding-jdbc-core/src/main/java/io/shardingjdbc/core/jdbc/core/statement/ShardingPreparedStatement.java:179-186 | the loop prepares one statement per connection, as PreparationsFor says for DDL |
| PreparedStatements.ShardingPreparedStatement.GeneratePreparedStatement | sharding-jdbc-core/src/main/java/io/shardingjdbc/core/jdbc/core/statement/ShardingPreparedStatement.java:188-192 | one statement on the unit's connection, requesting generated keys when asked, else with the cursor options |
| PreparedStatements.ShardingPreparedStatement.PrepareFor | sharding-jdbc-core/src/main/java/io/shardingjdbc/core/jdbc/core/statement/ShardingPreparedStatement.java:161-168 | the statements prepared for one unit are those PreparationsFor plans |
| PreparedStatements.ShardingPreparedStatement.PrepareUnits | sharding-jdbc-core/src/main/java/io/shardingjdbc/core/jdbc/core/statement/ShardingPreparedStatement.java:160-175 | the loop prepares the statements of the whole plan and pairs each with its unit |
| PreparedStatements.ShardingPreparedStatement.AppendUnits | sharding-jdbc-core/src/main/java/io/shardingjdbc/core/jdbc/core/statement/ShardingPreparedStatement.java:170-174 | the inner loop keeps the units already collected and appends, for each prepared statement in order, one statement unit pairing it with the execution unit |
| PreparedStatements.ShardingPreparedStatement.PrepareAll | sharding-jdbc-core/src/main/java/io/shardingjdbc/core/jdbc/core/statement/ShardingPreparedStatement.java:160-176 | the prepared statements are appended to routedStatements, which only grows, and the returned units are exactly those statements with their units |
| PreparedStatements.ShardingPreparedStatement.Route | sharding-jdbc-core/src/main/java/io/shardingjdbc/core/jdbc/core/statement/ShardingPreparedStatement.java:156-177 | a routing failure is thrown; otherwise the route result is stored and the units of the newly routed statements are returned; the batch state is unchanged |
| PreparedStatements.ShardingPreparedStatement.ClearBatch | sharding-jdbc-core/src/main/java/io/shardingjdbc/core/jdbc/core/statement/ShardingPreparedStatement.java:194-200 | empties the batch units, parameter sets and parameters and nulls the current result set; routedStatements and the route result are untouched |
| PreparedStatements.ShardingPreparedStatement.ExecuteQuery | sharding-jdbc-core/src/main/java/io/shardingjdbc/core/jdbc/core/statement/ShardingPreparedStatement.java:119-132 | the batch is cleared on every path; a result set becomes current only on success, after the clearing |
| PreparedStatements.ShardingPreparedStatement.ExecuteUpdate | sharding-jdbc-core/src/main/java/io/shardingjdbc/core/jdbc/core/statement/ShardingPreparedStatement.java:134-143 | the update executor runs on the routed units with the parameters; the batch is cleared on every path |
| PreparedStatements.ShardingPreparedStatement.Execute | sharding-jdbc-core/src/main/java/io/shardingjdbc/core/jdbc/core/statement/ShardingPreparedStatement.java:145-154 | the execute executor runs on the routed units with the parameters; the batch is cleared on every path |
| PreparedStatements.ShardingPreparedStatement.IndexOf | sharding-jdbc-core/src/main/java/io/shardingjdbc/core/jdbc/core/statement/ShardingPreparedStatement.java:228-234 | finds the batch unit with an equal execution unit, or reports that none exists |
| PreparedStatements.ShardingPreparedStatement.GetPreparedBatchStatement | sharding-jdbc-core/src/main/java/io/shardingjdbc/core/jdbc/core/statement/ShardingPreparedStatement.java:227-241 | returns the position of the unit's batch unit, appending a new one only when it is missing |
| PreparedStatements.ShardingPreparedStatement.Register | sharding-jdbc-core/src/main/java/io/shardingjdbc/core/jdbc/core/statement/ShardingPreparedStatement.java:219-223 | the loop registers every routed unit and returns, for each, the position of its batch unit |
| PreparedStatements.ShardingPreparedStatement.RegisterAll | sharding-jdbc-core/src/main/java/io/shardingjdbc/core/jdbc/core/statement/ShardingPreparedStatement.java:216-225 | batchStatementUnits becomes WithBatchUnits of the routed units; the positions point at their batch units |
| PreparedStatements.ShardingPreparedStatement.RouteBatch | sharding-jdbc-core/src/main/java/io/shardingjdbc/core/jdbc/core/statement/ShardingPreparedStatement.java:216-225 | a routing failure is thrown with the batch unchanged; otherwise every routed unit is registered and the batch stays well formed |
| PreparedStatements.ShardingPreparedStatement.TagAll | sharding-jdbc-core/src/main/java/io/shardingjdbc/core/jdbc/core/statement/ShardingPreparedStatement.java:205-208 | the loop over the routed units records the logical index exactly as Tagged says |
| PreparedStatements.ShardingPreparedStatement.RecordBatch | sharding-jdbc-core/src/main/java/io/shardingjdbc/core/jdbc/core/statement/ShardingPreparedStatement.java:205-212 | the routed units record the index equal to the old number of parameter sets, then the parameters are appended as one more set, and the parameters and current result set are cleared |
| PreparedStatements.ShardingPreparedStatement.AddBatch | sharding-jdbc-core/src/main/java/io/shardingjdbc/core/jdbc/core/statement/ShardingPreparedStatement.java:202-214 | on success parameterSets grows by exactly the parameters and the batch units become BatchAfterAdd; on failure they are unchanged; the current result set and the parameters are cleared on every path |
| PreparedStatements.ShardingPreparedStatement.ExecuteBatch | sharding-jdbc-core/src/main/java/io/shardingjdbc/core/jdbc/core/statement/ShardingPreparedStatement.java:243-251 | the batch executor runs on the batch units and parameter sets; a null route result throws; the batch is cleared on every path |
| PreparedStatements.ShardingPreparedStatement.GeneratedKey | sharding-jdbc-core/src/main/java/io/shardingjdbc/core/jdbc/core/statement/ShardingPreparedStatement.java:265-270 | present exactly when an INSERT was routed and has a generated key |
| PreparedStatements.ShardingPreparedStatement.GetGeneratedKeys | sharding-jdbc-core/src/main/java/io/shardingjdbc/core/jdbc/core/statement/ShardingPreparedStatement.java:253-263 | the route's generated keys exactly when keys were requested and there is a key; else the sole routed statement's keys exactly when one was routed; else an empty result set |
| PreparedStatements.ShardingPreparedStatement.GetResultSet | sharding-jdbc-core/src/main/java/io/shardingjdbc/core/jdbc/core/statement/ShardingPreparedStatement.java:272-287 | the cached set if any; else the sole routed statement's set; else the merge of every routed statement's set; a set obtained becomes current |
| PreparedStatements.ShardingPreparedStatement.CollectResultSets | sharding-jdbc-core/src/main/java/io/shardingjdbc/core/jdbc/core/statement/ShardingPreparedStatement.java:281-284 | the loop collects one result set per routed statement, in order |

## Left out

- Physical JDBC objects are values. A physical statement is identified by its connection,
  SQL and options, so two statements prepared alike are equal. Object identity and
  freshness are not modelled.
- Physical calls are not modelled: `prepareStatement` never fails here, and `replaySetParameter`, physical `addBatch` and fetching result sets or generated keys are left out.
  They have no effect on the bookkeeping the model tracks.
- The statement's parameter setters are reduced to `SetParameters`. They live in an adapter superclass that is not part of this model.
- PreparedStatements.ShardingPreparedStatement.AddBatch: the parameter list `getParameters()` returns is taken to be a copy, so the stored parameter set keeps its values after `clearParameters()`. The adapter superclass that defines it is not part of this model; if it returns its live list, every stored set would be that one list and be emptied by each clear, which the model does not capture.
- The executors, the merge engine and the SQL router are function parameters. Their results are taken as given.
- Routing is not modelled (SQLRouterFactory, parsing and rewriting). The router is a parameter.
- Sub-steps of building are function parameters, because their source is not part of this model:
  - evaluation of the inline expression;
  - data-node syntax;
  - building a sharding strategy;
  - loading a key generator class;
  - the master/slave datasource factory.
- TableRuleConfigurations.TableRuleConfiguration.BuiltTableRule: evaluating the inline expression and building a strategy are total functions here, so a malformed expression or strategy configuration cannot fail; only data-node checks and key-generator loading can.
- KeyGenerators.NewInstance: a class that loads but is not a `KeyGenerator` throws `ClassCastException` in the source, because the cast sits outside the `catch`; the model folds every loading failure into the illegal-argument error.
- `ShardingRule` is a record of what configuration building hands it. Its own logic is not part of this model.
- A Java `HashMap` iterates in an unspecified order. The model iterates a `LinkedMap` in insertion order, so the default data nodes follow that order.
- Rule.EqualsIgnoreCase: folds ASCII letters only. Java's equalsIgnoreCase also folds non-ASCII letters, so Rule.TableRule.FindActualTableIndex is exact only for ASCII names.
- ShardingDataSource: the `configMap` write into the global `ConfigMapContext` is left out, as it is a process-wide singleton.
- ShardingDataSource: database-type detection in the adapter superclass is a parameter.
- ShardingDataSource: parsing property text in `ShardingProperties` is a parameter (`PropertyReader`).
- The thread pool inside `ExecutorEngine` is not modelled: it is concurrency. An engine is its size and a closed flag.
- `ThreadLocal` is a map from thread id to flag, and logging is a `Logged` answer.
- `CharType.main` prints to the console and is left out.
- The Spring namespace parser is XML wiring over library calls and is left out.
- Collection-valued fields are never null in the model. Lists the source builds element by element (the routed statements, the registered batch units) are stored once after the loop. Nothing reads them in between.
- `routedStatements` is never cleared between executions. The model keeps that, so `getGeneratedKeys` and `getResultSet` see every statement routed since construction.
- The two-argument and four-argument `ShardingPreparedStatement` constructors (ShardingPreparedStatement.java:96-102) only supply defaults. They are the five-argument constructor, `PreparedStatements.ShardingPreparedStatement.constructor`, called with `TypeForwardOnly`, `ConcurReadOnly` and `HoldCursorsOverCommit` where the caller gave none, so the model has no separate member for them.
