/**
 * ShardingPreparedStatement: a logical prepared statement that routes its SQL on every
 * execution, prepares one physical statement per target, and keeps the batch bookkeeping
 * that maps each shard's physical batch entries back to logical batch indices.
 */
module PreparedStatements {
  import opened Results
  import opened Sequences
  import opened Contexts
  import opened Routing
  import opened StatementUnits

  class ShardingPreparedStatement {
    const connection: ShardingConnection
    const access: ConnectionAccess
    const executors: Executors
    const resultSetType: int
    const resultSetConcurrency: int
    const resultSetHoldability: int
    const routingEngine: PreparedStatementRoutingEngine
    const returnGeneratedKeys: bool
    /** The parameters bound through the setters of the adapter superclass. */
    var parameters: seq<Parameter>
    var batchStatementUnits: seq<BatchPreparedStatementUnit>
    var parameterSets: seq<seq<Parameter>>
    var routedStatements: seq<PhysicalStatement>
    var routeResult: Option<SqlRouteResult>
    var currentResultSet: Option<ResultSet>

    /**
     * At most one batch unit per execution unit; every logical index a unit records names
     * a stored parameter set; batch units exist only after a routing.
     */
    ghost predicate Valid()
      reads this
    {
      && WellFormedBatch(batchStatementUnits, |parameterSets|)
      && (batchStatementUnits != [] ==> routeResult.Some?)
    }

    /** The state every constructor leaves, apart from the options. */
    ghost predicate Initial(connection: ShardingConnection, sql: string, createSqlRouter: ShardingContext -> SqlRouter)
      reads this, routingEngine
    {
      && this.connection == connection
      && routingEngine.logicSql == sql
      && routingEngine.sqlRouter == createSqlRouter(connection.shardingContext)
      && routingEngine.sqlStatement == None
      && parameters == [] && batchStatementUnits == [] && parameterSets == []
      && routedStatements == [] && routeResult == None && currentResultSet == None
    }

    /** ShardingPreparedStatement(connection, sql, resultSetType, resultSetConcurrency, resultSetHoldability). */
    constructor (connection: ShardingConnection, sql: string, resultSetType: int, resultSetConcurrency: int,
                 resultSetHoldability: int, access: ConnectionAccess, executors: Executors,
                 createSqlRouter: ShardingContext -> SqlRouter)
      ensures Valid() && Initial(connection, sql, createSqlRouter) && fresh(routingEngine)
      ensures this.resultSetType == resultSetType && this.resultSetConcurrency == resultSetConcurrency
      ensures this.resultSetHoldability == resultSetHoldability
      ensures this.access == access && this.executors == executors && !returnGeneratedKeys
    {
      this.connection := connection;
      this.access := access;
      this.executors := executors;
      this.resultSetType := resultSetType;
      this.resultSetConcurrency := resultSetConcurrency;
      this.resultSetHoldability := resultSetHoldability;
      routingEngine := new PreparedStatementRoutingEngine(sql, connection.shardingContext, createSqlRouter);
      returnGeneratedKeys := false;
      parameters := [];
      batchStatementUnits := [];
      parameterSets := [];
      routedStatements := [];
      routeResult := None;
      currentResultSet := None;
    }

    /** ShardingPreparedStatement(connection, sql, autoGeneratedKeys), with the default cursor options. */
    constructor WithAutoGeneratedKeys(connection: ShardingConnection, sql: string, autoGeneratedKeys: int,
                                      access: ConnectionAccess, executors: Executors,
                                      createSqlRouter: ShardingContext -> SqlRouter)
      ensures Valid() && Initial(connection, sql, createSqlRouter) && fresh(routingEngine)
      ensures resultSetType == TypeForwardOnly && resultSetConcurrency == ConcurReadOnly
      ensures resultSetHoldability == HoldCursorsOverCommit
      ensures this.access == access && this.executors == executors
      ensures returnGeneratedKeys <==> autoGeneratedKeys == ReturnGeneratedKeys
    {
      this.connection := connection;
      this.access := access;
      this.executors := executors;
      resultSetType := TypeForwardOnly;
      resultSetConcurrency := ConcurReadOnly;
      resultSetHoldability := HoldCursorsOverCommit;
      routingEngine := new PreparedStatementRoutingEngine(sql, connection.shardingContext, createSqlRouter);
      returnGeneratedKeys := autoGeneratedKeys == ReturnGeneratedKeys;
      parameters := [];
      batchStatementUnits := [];
      parameterSets := [];
      routedStatements := [];
      routeResult := None;
      currentResultSet := None;
    }

    /** The adapter's parameter setters, reduced to binding the whole list. */
    method SetParameters(values: seq<Parameter>)
      requires Valid()
      modifies this
      ensures Valid()
      ensures parameters == values
      ensures batchStatementUnits == old(batchStatementUnits) && parameterSets == old(parameterSets)
      ensures routedStatements == old(routedStatements) && routeResult == old(routeResult)
      ensures currentResultSet == old(currentResultSet)
    {
      parameters := values;
    }

    function CursorOptions(): StatementOptions {
      Cursor(resultSetType, resultSetConcurrency, resultSetHoldability)
    }

    function Engine(): ExecutorEngine {
      connection.shardingContext.executorEngine
    }

    /** What routingEngine.route(getParameters()) does when called now. */
    ghost function NextRoute(): RouteStep
      reads this, routingEngine
    {
      Step(routingEngine.sqlRouter, routingEngine.logicSql, routingEngine.sqlStatement, parameters)
    }

    /** The physical statements routing the current route result prepares. */
    function CurrentPlan(): seq<Preparation>
      reads this`routeResult
      requires routeResult.Some?
    {
      Plan(routeResult.value.executionUnits, routeResult.value.sqlStatement.sqlType, access,
           returnGeneratedKeys, CursorOptions())
    }

    /** The routed statements from position start on were prepared for the current route result. */
    ghost predicate PreparedSince(start: nat)
      reads this`routeResult, this`routedStatements
    {
      && routeResult.Some?
      && start <= |routedStatements|
      && PreparedAs(routedStatements[start..], CurrentPlan())
    }

    /** The statement units of the statements routed from position start on. */
    ghost function UnitsSince(start: nat): seq<PreparedStatementUnit>
      reads this`routeResult, this`routedStatements
      requires PreparedSince(start)
    {
      UnitsOf(CurrentPlan(), routedStatements[start..])
    }

    /** routingEngine.route was called once with the parameters bound before the call. */
    twostate predicate EngineAdvanced()
      reads this, routingEngine
    {
      && routingEngine.sqlStatement == old(NextRoute()).cache
      && routingEngine.parseArguments == old(routingEngine.parseArguments) + ParsedWith(old(NextRoute()))
    }

    /**
     * One call of the routing engine with the parameters bound before the call: on failure
     * the route result and the routed statements are as before; on success the new route
     * result is stored and the statements it plans are prepared and appended.
     */
    twostate predicate RoutedOnce()
      reads this, routingEngine
    {
      && EngineAdvanced()
      && old(routedStatements) <= routedStatements
      && (old(NextRoute()).result.Failure? ==> routeResult == old(routeResult) && routedStatements == old(routedStatements))
      && (old(NextRoute()).result.Success? ==>
            routeResult == Some(old(NextRoute()).result.value) && PreparedSince(|old(routedStatements)|))
    }

    /** generatePreparedStatementForDDL: one statement per connection of the unit's datasource. */
    method GeneratePreparedStatementForDdl(unit: SqlExecutionUnit) returns (statements: seq<PhysicalStatement>)
      ensures PreparedAs(statements, PreparationsFor(unit, DDL, access, returnGeneratedKeys, CursorOptions()))
    {
      var connections := access.allConnections(unit.dataSource);
      ghost var plan := PreparationsFor(unit, DDL, access, returnGeneratedKeys, CursorOptions());
      statements := [];
      var i := 0;
      while i < |connections|
        invariant 0 <= i <= |connections| && |statements| == i
        invariant forall k :: 0 <= k < i ==>
          && statements[k].connection == plan[k].connection
          && statements[k].sql == plan[k].unit.sql
          && statements[k].options == plan[k].options
      {
        var statement := PhysicalStatement(connections[i], unit.sql, CursorOptions());
        statements := statements + [statement];
        i := i + 1;
      }
    }

    /** generatePreparedStatement: one statement on the connection for the unit's datasource and statement type. */
    method GeneratePreparedStatement(unit: SqlExecutionUnit) returns (statement: PhysicalStatement)
      requires routeResult.Some?
      ensures statement == Prepared(SinglePreparation(unit, routeResult.value.sqlStatement.sqlType, access,
                                                      returnGeneratedKeys, CursorOptions()))
    {
      var physical := access.connectionFor(unit.dataSource, routeResult.value.sqlStatement.sqlType);
      if returnGeneratedKeys {
        statement := PhysicalStatement(physical, unit.sql, GeneratedKeysRequested);
      } else {
        statement := PhysicalStatement(physical, unit.sql, CursorOptions());
      }
    }

    /** The statements route prepares for one unit: per connection for DDL, else a single one. */
    method PrepareFor(unit: SqlExecutionUnit) returns (prepared: seq<PhysicalStatement>)
      requires routeResult.Some?
      ensures PreparedAs(prepared, PreparationsFor(unit, routeResult.value.sqlStatement.sqlType, access, returnGeneratedKeys, CursorOptions()))
    {
      if routeResult.value.sqlStatement.sqlType == DDL {
        prepared := GeneratePreparedStatementForDdl(unit);
      } else {
        var statement := GeneratePreparedStatement(unit);
        prepared := [statement];
      }
    }

    /** route(): route the logical SQL and prepare a physical statement per target. */
    method Route() returns (r: Result<seq<PreparedStatementUnit>>)
      requires Valid()
      modifies this, routingEngine
      ensures Valid() && RoutedOnce()
      ensures old(NextRoute()).result.Failure? ==> r == Failure(old(NextRoute()).result.error)
      ensures old(NextRoute()).result.Success? ==> r == Success(UnitsSince(|old(routedStatements)|))
      ensures parameters == old(parameters) && batchStatementUnits == old(batchStatementUnits)
      ensures parameterSets == old(parameterSets) && currentResultSet == old(currentResultSet)
    {
      var routed := routingEngine.Route(parameters);
      assert routed == old(NextRoute()).result;
      if routed.Failure? {
        return Failure(routed.error);
      }
      routeResult := Some(routed.value);
      var units := PrepareAll();
      r := Success(units);
    }

    /**
     * route's step after routing: the statements of every execution unit of the route result
     * are appended to routedStatements.
     */
    method PrepareAll() returns (result: seq<PreparedStatementUnit>)
      requires routeResult.Some?
      modifies this
      ensures PreparedSince(|old(routedStatements)|) && result == UnitsSince(|old(routedStatements)|)
      ensures old(routedStatements) <= routedStatements
      ensures routeResult == old(routeResult) && parameters == old(parameters)
      ensures batchStatementUnits == old(batchStatementUnits) && parameterSets == old(parameterSets)
      ensures currentResultSet == old(currentResultSet)
    {
      var added;
      added, result := PrepareUnits();
      routedStatements := routedStatements + added;
      assert routedStatements[|old(routedStatements)|..] == added;
    }

    /**
     * The loop of route: prepares the statements of every execution unit of the route result.
     * They are appended to routedStatements once, after the loop; nothing reads that list
     * in between, so this is the same as appending them unit by unit.
     */
    method PrepareUnits() returns (added: seq<PhysicalStatement>, result: seq<PreparedStatementUnit>)
      requires routeResult.Some?
      ensures PreparedAs(added, CurrentPlan()) && result == UnitsOf(CurrentPlan(), added)
    {
      var units := routeResult.value.executionUnits;
      var sqlType := routeResult.value.sqlStatement.sqlType;
      added := [];
      ghost var plan: seq<Preparation> := [];
      result := [];
      var i := 0;
      while i < |units|
        invariant 0 <= i <= |units|
        invariant plan == Plan(units[..i], sqlType, access, returnGeneratedKeys, CursorOptions())
        invariant PreparedAs(added, plan) && result == UnitsOf(plan, added)
      {
        var prepared := PrepareFor(units[i]);
        ghost var step := PreparationsFor(units[i], sqlType, access, returnGeneratedKeys, CursorOptions());
        result := AppendUnits(result, units[i], prepared, step);
        PlanExtends(units, i, sqlType, access, returnGeneratedKeys, CursorOptions(), added, prepared);
        added := added + prepared;
        plan := plan + step;
        i := i + 1;
      }
      assert units[..|units|] == units;
    }

    /** clearBatch. */
    method ClearBatch()
      modifies this
      ensures Valid()
      ensures currentResultSet == None && parameters == []
      ensures batchStatementUnits == [] && parameterSets == []
      ensures routedStatements == old(routedStatements) && routeResult == old(routeResult)
    {
      currentResultSet := None;
      parameters := [];
      batchStatementUnits := [];
      parameterSets := [];
    }

    /** executeQuery: route, execute on every unit, merge; clearBatch runs on every exit path. */
    method ExecuteQuery() returns (r: Result<ResultSet>)
      requires Valid()
      modifies this, routingEngine
      ensures Valid() && RoutedOnce()
      ensures parameters == [] && batchStatementUnits == [] && parameterSets == []
      ensures currentResultSet == (if r.Success? then Some(r.value) else None)
      ensures old(NextRoute()).result.Failure? ==> r == Failure(old(NextRoute()).result.error)
      ensures old(NextRoute()).result.Success? ==>
        r == QueryResult(executors, Engine(), routeResult.value, UnitsSince(|old(routedStatements)|), old(parameters))
    {
      var units := Route();
      if units.Failure? {
        ClearBatch();
        return Failure(units.error);
      }
      r := QueryResult(executors, Engine(), routeResult.value, units.value, parameters);
      ClearBatch();
      if r.Success? {
        currentResultSet := Some(r.value);
      }
    }

    /** executeUpdate: route and execute on every unit; clearBatch runs on every exit path. */
    method ExecuteUpdate() returns (r: Result<int>)
      requires Valid()
      modifies this, routingEngine
      ensures Valid() && RoutedOnce()
      ensures parameters == [] && batchStatementUnits == [] && parameterSets == [] && currentResultSet == None
      ensures old(NextRoute()).result.Failure? ==> r == Failure(old(NextRoute()).result.error)
      ensures old(NextRoute()).result.Success? ==>
        r == executors.executeUpdate(Engine(), routeResult.value.sqlStatement.sqlType, UnitsSince(|old(routedStatements)|), old(parameters))
    {
      var units := Route();
      if units.Failure? {
        ClearBatch();
        return Failure(units.error);
      }
      r := executors.executeUpdate(Engine(), routeResult.value.sqlStatement.sqlType, units.value, parameters);
      ClearBatch();
    }

    /** execute: route and execute on every unit; clearBatch runs on every exit path. */
    method Execute() returns (r: Result<bool>)
      requires Valid()
      modifies this, routingEngine
      ensures Valid() && RoutedOnce()
      ensures parameters == [] && batchStatementUnits == [] && parameterSets == [] && currentResultSet == None
      ensures old(NextRoute()).result.Failure? ==> r == Failure(old(NextRoute()).result.error)
      ensures old(NextRoute()).result.Success? ==>
        r == executors.execute(Engine(), routeResult.value.sqlStatement.sqlType, UnitsSince(|old(routedStatements)|), old(parameters))
    {
      var units := Route();
      if units.Failure? {
        ClearBatch();
        return Failure(units.error);
      }
      r := executors.execute(Engine(), routeResult.value.sqlStatement.sqlType, units.value, parameters);
      ClearBatch();
    }

    /**
     * getPreparedBatchStatement: the position of the unit's batch unit in batch, registered
     * first if missing. The list is passed in and returned so that the loop of routeBatch
     * can grow it locally and store it once.
     */
    method GetPreparedBatchStatement(batch: seq<BatchPreparedStatementUnit>, unit: SqlExecutionUnit)
      returns (updated: seq<BatchPreparedStatementUnit>, position: nat)
      requires routeResult.Some?
      ensures updated == WithBatchUnit(batch, unit, routeResult.value.sqlStatement.sqlType, access,
                                       returnGeneratedKeys, CursorOptions())
      ensures position < |updated| && updated[position].sqlExecutionUnit == unit
    {
      var j := IndexOf(batch, unit);
      if j < |batch| {
        assert ExecutionUnitsOf(batch)[j] == unit;
        return batch, j;
      }
      var statement := GeneratePreparedStatement(unit);
      updated := batch + [BatchPreparedStatementUnit(unit, statement, [])];
      position := j;
    }

    /** The search of getPreparedBatchStatement: the first position of unit in batch, or |batch|. */
    static method IndexOf(batch: seq<BatchPreparedStatementUnit>, unit: SqlExecutionUnit) returns (j: nat)
      ensures j <= |batch|
      ensures j < |batch| ==> batch[j].sqlExecutionUnit == unit
      ensures j == |batch| ==> unit !in ExecutionUnitsOf(batch)
    {
      j := 0;
      while j < |batch| && batch[j].sqlExecutionUnit != unit
        invariant 0 <= j <= |batch|
        invariant forall k :: 0 <= k < j ==> ExecutionUnitsOf(batch)[k] != unit
      {
        j := j + 1;
      }
    }

    /** The loop of routeBatch: the batch unit of every execution unit of the route result, in order. */
    method RegisterAll() returns (positions: seq<nat>)
      requires routeResult.Some?
      modifies this
      ensures routeResult == old(routeResult) && parameters == old(parameters) && parameterSets == old(parameterSets)
      ensures routedStatements == old(routedStatements) && currentResultSet == old(currentResultSet)
      ensures batchStatementUnits == WithBatchUnits(old(batchStatementUnits), routeResult.value.executionUnits,
                                                    routeResult.value.sqlStatement.sqlType, access, returnGeneratedKeys,
                                                    CursorOptions())
      ensures |positions| == |routeResult.value.executionUnits|
      ensures forall k :: 0 <= k < |positions| ==>
        positions[k] < |batchStatementUnits| && batchStatementUnits[positions[k]].sqlExecutionUnit == routeResult.value.executionUnits[k]
    {
      var batch;
      batch, positions := Register(batchStatementUnits, routeResult.value.executionUnits);
      batchStatementUnits := batch;
    }

    /** Finds or registers the batch unit of each of units in batch, in order. */
    method Register(batch: seq<BatchPreparedStatementUnit>, units: seq<SqlExecutionUnit>)
      returns (updated: seq<BatchPreparedStatementUnit>, positions: seq<nat>)
      requires routeResult.Some?
      ensures updated == WithBatchUnits(batch, units, routeResult.value.sqlStatement.sqlType, access,
                                        returnGeneratedKeys, CursorOptions())
      ensures |positions| == |units|
      ensures forall k :: 0 <= k < |units| ==> positions[k] < |updated| && updated[positions[k]].sqlExecutionUnit == units[k]
    {
      var sqlType := routeResult.value.sqlStatement.sqlType;
      updated := batch;
      positions := [];
      var i := 0;
      while i < |units|
        invariant 0 <= i <= |units| && |positions| == i
        invariant updated == WithBatchUnits(batch, units[..i], sqlType, access, returnGeneratedKeys, CursorOptions())
        invariant forall k :: 0 <= k < i ==> positions[k] < |updated| && updated[positions[k]].sqlExecutionUnit == units[k]
      {
        var next, p := GetPreparedBatchStatement(updated, units[i]);
        assert units[..i + 1][..i] == units[..i];
        PositionsExtend(updated, next, positions, p, units);
        updated := next;
        positions := positions + [p];
        i := i + 1;
      }
      assert units[..i] == units;
    }

    /** routeBatch: route with the bound parameters, then find or register the batch unit of every execution unit. */
    method RouteBatch() returns (r: Result<seq<nat>>)
      requires Valid()
      modifies this, routingEngine
      ensures EngineAdvanced()
      ensures parameters == old(parameters) && parameterSets == old(parameterSets)
      ensures routedStatements == old(routedStatements) && currentResultSet == old(currentResultSet)
      ensures old(NextRoute()).result.Failure? ==>
        && r == Failure(old(NextRoute()).result.error)
        && routeResult == old(routeResult) && batchStatementUnits == old(batchStatementUnits)
      ensures old(NextRoute()).result.Success? ==>
        && r.Success? && routeResult == Some(old(NextRoute()).result.value)
        && batchStatementUnits == WithBatchUnits(old(batchStatementUnits), routeResult.value.executionUnits,
                                                 routeResult.value.sqlStatement.sqlType, access, returnGeneratedKeys,
                                                 CursorOptions())
        && WellFormedBatch(batchStatementUnits, |parameterSets|)
        && |r.value| == |routeResult.value.executionUnits|
        && forall k :: 0 <= k < |r.value| ==>
          r.value[k] < |batchStatementUnits| && batchStatementUnits[r.value[k]].sqlExecutionUnit == routeResult.value.executionUnits[k]
    {
      var routed := routingEngine.Route(parameters);
      assert routed == old(NextRoute()).result;
      if routed.Failure? {
        return Failure(routed.error);
      }
      routeResult := Some(routed.value);
      var positions := RegisterAll();
      WithBatchUnitsKeepsWellFormed(old(batchStatementUnits), routed.value.executionUnits, |parameterSets|,
                                    routed.value.sqlStatement.sqlType, access, returnGeneratedKeys, CursorOptions());
      r := Success(positions);
    }

    /**
     * addBatch: route, then record in the batch unit of every routed execution unit the logical
     * index of this parameter set, which is the number of parameter sets stored before it;
     * the bound parameters are cleared on every exit path.
     */
    method AddBatch() returns (error: Option<Error>)
      requires Valid()
      modifies this, routingEngine
      ensures Valid() && EngineAdvanced()
      ensures currentResultSet == None && parameters == [] && routedStatements == old(routedStatements)
      ensures old(NextRoute()).result.Failure? ==>
        && error == Some(old(NextRoute()).result.error)
        && routeResult == old(routeResult) && batchStatementUnits == old(batchStatementUnits)
        && parameterSets == old(parameterSets)
      ensures old(NextRoute()).result.Success? ==>
        && error == None && routeResult == Some(old(NextRoute()).result.value)
        && parameterSets == old(parameterSets) + [old(parameters)]
        && batchStatementUnits == BatchAfterAdd(old(batchStatementUnits), routeResult.value.executionUnits,
                                                |old(parameterSets)|, routeResult.value.sqlStatement.sqlType, access,
                                                returnGeneratedKeys, CursorOptions())
    {
      var positions := RouteBatch();
      if positions.Failure? {
        currentResultSet := None;
        parameters := [];
        return Some(positions.error);
      }
      RecordBatch(positions.value);
      error := None;
    }

    /**
     * The rest of addBatch once routing succeeded: tag the batch unit at each routed position
     * with the new logical index, store the parameter set, clear the bound parameters.
     */
    method RecordBatch(positions: seq<nat>)
      requires routeResult.Some?
      requires WellFormedBatch(batchStatementUnits, |parameterSets|)
      requires |positions| == |routeResult.value.executionUnits|
      requires forall k :: 0 <= k < |positions| ==>
        positions[k] < |batchStatementUnits| && batchStatementUnits[positions[k]].sqlExecutionUnit == routeResult.value.executionUnits[k]
      modifies this
      ensures Valid()
      ensures routeResult == old(routeResult) && routedStatements == old(routedStatements)
      ensures currentResultSet == None && parameters == []
      ensures parameterSets == old(parameterSets) + [old(parameters)]
      ensures batchStatementUnits == Tagged(old(batchStatementUnits), routeResult.value.executionUnits, |old(parameterSets)|)
    {
      WellFormedBatchMeans(batchStatementUnits, |parameterSets|);
      var tagged := TagAll(batchStatementUnits, positions, routeResult.value.executionUnits, |parameterSets|);
      TaggedKeepsWellFormed(batchStatementUnits, routeResult.value.executionUnits, |parameterSets|);
      batchStatementUnits := tagged;
      parameterSets := parameterSets + [parameters];
      currentResultSet := None;
      parameters := [];
    }

    /** The loop of addBatch: mapAddBatchCount(index) on the batch unit at each routed position. */
    static method TagAll(batch: seq<BatchPreparedStatementUnit>, positions: seq<nat>, ghost units: seq<SqlExecutionUnit>,
                         index: nat)
      returns (r: seq<BatchPreparedStatementUnit>)
      requires NoDuplicates(ExecutionUnitsOf(batch))
      requires |positions| == |units|
      requires forall k :: 0 <= k < |positions| ==> positions[k] < |batch| && batch[positions[k]].sqlExecutionUnit == units[k]
      ensures r == Tagged(batch, units, index)
    {
      r := batch;
      var i := 0;
      while i < |positions|
        invariant 0 <= i <= |positions| && |r| == |batch|
        invariant forall j :: 0 <= j < |batch| ==> r[j] == TagUnit(batch[j], units[..i], index)
      {
        var p := positions[i];
        TagOneMore(batch, r, units, i, p, index);
        r := r[p := r[p].(logicalIndices := r[p].logicalIndices + [index])];
        i := i + 1;
      }
      assert units[..i] == units;
    }

    /** executeBatch: run the batch on every batch unit; a batch added without routing has no route result. */
    method ExecuteBatch() returns (r: Result<seq<int>>)
      requires Valid()
      modifies this
      ensures Valid()
      ensures currentResultSet == None && parameters == [] && batchStatementUnits == [] && parameterSets == []
      ensures routedStatements == old(routedStatements) && routeResult == old(routeResult)
      ensures old(routeResult).None? ==> r.Failure? && r.error.NullPointer?
      ensures old(routeResult).Some? ==>
        r == executors.executeBatch(Engine(), connection.shardingContext.databaseType,
                                    old(routeResult).value.sqlStatement.sqlType, old(batchStatementUnits), old(parameterSets))
    {
      if routeResult.None? {
        r := Failure(NullPointer("routeResult"));
      } else {
        r := executors.executeBatch(Engine(), connection.shardingContext.databaseType,
                                    routeResult.value.sqlStatement.sqlType, batchStatementUnits, parameterSets);
      }
      ClearBatch();
    }

    /** getGeneratedKey: the generated key of the current route result, when it routed an INSERT that has one. */
    function GeneratedKey(): (r: Option<GeneratedKey>)
      reads this
      ensures r.Some? <==>
        && routeResult.Some?
        && routeResult.value.sqlStatement.kind.InsertStatement?
        && routeResult.value.sqlStatement.kind.generatedKey.Some?
      ensures r.Some? ==> Some(r.value) == routeResult.value.sqlStatement.kind.generatedKey
    {
      if routeResult.Some? && routeResult.value.sqlStatement.kind.InsertStatement? then
        routeResult.value.sqlStatement.kind.generatedKey
      else
        None
    }

    /**
     * getGeneratedKeys: the keys the route result generated, when keys were requested and the
     * statement has a generated key column; else the physical statement's own keys when exactly
     * one statement was routed; else an empty result set.
     */
    function GetGeneratedKeys(): (r: ResultSet)
      reads this
      ensures r.GeneratedKeysResultSet? <==> returnGeneratedKeys && GeneratedKey().Some?
      ensures r.GeneratedKeysResultSet? ==>
        r.generatedKeys == routeResult.value.generatedKeys && r.column == GeneratedKey().value.column
      ensures r.PhysicalGeneratedKeys? <==> !(returnGeneratedKeys && GeneratedKey().Some?) && |routedStatements| == 1
      ensures r.PhysicalGeneratedKeys? ==> r.statement == routedStatements[0]
      ensures r.EmptyGeneratedKeysResultSet? <==> !(returnGeneratedKeys && GeneratedKey().Some?) && |routedStatements| != 1
    {
      var generatedKey := GeneratedKey();
      if returnGeneratedKeys && generatedKey.Some? then
        GeneratedKeysResultSet(routeResult.value.generatedKeys, generatedKey.value.column)
      else if |routedStatements| == 1 then
        PhysicalGeneratedKeys(routedStatements[0])
      else
        EmptyGeneratedKeysResultSet
    }

    /**
     * getResultSet: the cached result set; else, with exactly one routed statement, that
     * statement's own; else the merge of the result sets of every routed statement. A result
     * set obtained is cached.
     */
    method GetResultSet() returns (r: Result<ResultSet>)
      modifies this
      ensures old(currentResultSet).Some? ==> r == Success(old(currentResultSet).value)
      ensures old(currentResultSet).None? && |routedStatements| == 1 ==> r == Success(PhysicalResultSet(routedStatements[0]))
      ensures old(currentResultSet).None? && |routedStatements| != 1 ==>
        r == MergedResultSet(ResultSetsOf(routedStatements), routeResult, executors.merge)
      ensures currentResultSet == (if r.Success? then Some(r.value) else old(currentResultSet))
      ensures parameters == old(parameters) && batchStatementUnits == old(batchStatementUnits)
      ensures parameterSets == old(parameterSets) && routedStatements == old(routedStatements)
      ensures routeResult == old(routeResult)
    {
      if currentResultSet.Some? {
        return Success(currentResultSet.value);
      }
      if |routedStatements| == 1 {
        currentResultSet := Some(PhysicalResultSet(routedStatements[0]));
        return Success(currentResultSet.value);
      }
      var resultSets := CollectResultSets(routedStatements);
      r := MergedResultSet(resultSets, routeResult, executors.merge);
      if r.Success? {
        currentResultSet := Some(r.value);
      }
    }

    /** The loop of getResultSet: the result set of every statement, in order. */
    static method CollectResultSets(statements: seq<PhysicalStatement>) returns (resultSets: seq<ResultSet>)
      ensures resultSets == ResultSetsOf(statements)
    {
      resultSets := [];
      var i := 0;
      while i < |statements|
        invariant 0 <= i <= |statements| && |resultSets| == i
        invariant forall k :: 0 <= k < i ==> resultSets[k] == PhysicalResultSet(statements[k])
      {
        resultSets := resultSets + [PhysicalResultSet(statements[i])];
        i := i + 1;
      }
    }

    /** The inner loop of route: one statement unit per prepared statement of the unit. */
    static method AppendUnits(result: seq<PreparedStatementUnit>, unit: SqlExecutionUnit, prepared: seq<PhysicalStatement>,
                              ghost step: seq<Preparation>)
      returns (r: seq<PreparedStatementUnit>)
      requires |step| == |prepared| && forall p <- step :: p.unit == unit
      ensures |r| == |result| + |prepared| && r[..|result|] == result
      ensures forall k :: 0 <= k < |prepared| ==> r[|result| + k] == PreparedStatementUnit(unit, prepared[k])
      ensures r == result + UnitsOf(step, prepared)
    {
      r := result;
      var j := 0;
      while j < |prepared|
        invariant 0 <= j <= |prepared|
        invariant |r| == |result| + j && r[..|result|] == result
        invariant forall k :: 0 <= k < j ==> r[|result| + k] == PreparedStatementUnit(unit, prepared[k])
      {
        r := r + [PreparedStatementUnit(unit, prepared[j])];
        j := j + 1;
      }
      UnitsOfOneUnit(step, prepared, unit);
      assert r == result + UnitsOf(step, prepared);
    }
  }
}
