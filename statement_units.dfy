/**
 * The physical side of a sharding prepared statement: connections, physical statements,
 * the statement units that pair them with execution units, result sets, and the plan of
 * which physical statements one routing prepares.
 */
module StatementUnits {
  import opened Results
  import opened Sequences
  import opened Contexts
  import opened Routing

  /** java.sql.ResultSet constants. */
  const TypeForwardOnly: int := 1003
  const ConcurReadOnly: int := 1007
  const HoldCursorsOverCommit: int := 1
  /** java.sql.Statement.RETURN_GENERATED_KEYS. */
  const ReturnGeneratedKeys: int := 1

  /** A physical connection to one datasource. */
  datatype Connection = Connection(dataSource: string, id: nat)

  /** ShardingConnection.getAllConnections and getConnection; their source is not part of this model. */
  datatype ConnectionAccess = ConnectionAccess(
    allConnections: string -> seq<Connection>,
    connectionFor: (string, SqlType) -> Connection)

  /** The options a physical statement is prepared with. */
  datatype StatementOptions =
    | GeneratedKeysRequested
    | Cursor(resultSetType: int, resultSetConcurrency: int, resultSetHoldability: int)

  /**
   * A physical java.sql.PreparedStatement, created by Connection.prepareStatement; it is
   * identified by what it was prepared with.
   */
  datatype PhysicalStatement = PhysicalStatement(connection: Connection, sql: string, options: StatementOptions)

  /** PreparedStatementUnit: an execution unit and the physical statement that runs it. */
  datatype PreparedStatementUnit = PreparedStatementUnit(sqlExecutionUnit: SqlExecutionUnit, statement: PhysicalStatement)

  /**
   * BatchPreparedStatementUnit: an execution unit, its physical statement, and for each
   * physical addBatch the logical batch index it stands for.
   */
  datatype BatchPreparedStatementUnit = BatchPreparedStatementUnit(
    sqlExecutionUnit: SqlExecutionUnit,
    statement: PhysicalStatement,
    logicalIndices: seq<nat>)

  /** The merge engine's result; only its identity matters. */
  datatype MergedResult = MergedResult(id: nat)

  datatype ResultSet =
    | PhysicalResultSet(statement: PhysicalStatement)      // a physical statement's getResultSet
    | PhysicalGeneratedKeys(statement: PhysicalStatement)  // a physical statement's getGeneratedKeys
    | ShardingResultSet(resultSets: seq<ResultSet>, merged: MergedResult)
    | GeneratedKeysResultSet(generatedKeys: seq<int>, column: string)
    | EmptyGeneratedKeysResultSet

  /**
   * PreparedStatementExecutor, BatchPreparedStatementExecutor and MergeEngine; their
   * source is not part of this model.
   */
  datatype Executors = Executors(
    executeQuery: (ExecutorEngine, SqlType, seq<PreparedStatementUnit>, seq<Parameter>) -> Result<seq<ResultSet>>,
    executeUpdate: (ExecutorEngine, SqlType, seq<PreparedStatementUnit>, seq<Parameter>) -> Result<int>,
    execute: (ExecutorEngine, SqlType, seq<PreparedStatementUnit>, seq<Parameter>) -> Result<bool>,
    executeBatch: (ExecutorEngine, DatabaseType, SqlType, seq<BatchPreparedStatementUnit>, seq<seq<Parameter>>) -> Result<seq<int>>,
    merge: (seq<ResultSet>, SqlStatement) -> Result<MergedResult>)

  /** One physical statement to prepare: for which unit, on which connection, with which options. */
  datatype Preparation = Preparation(unit: SqlExecutionUnit, connection: Connection, options: StatementOptions)

  /** generatePreparedStatement's options: generated keys if requested, else the cursor options. */
  function SingleOptions(returnGeneratedKeys: bool, cursor: StatementOptions): StatementOptions {
    if returnGeneratedKeys then GeneratedKeysRequested else cursor
  }

  /** One statement per connection, each with the cursor options. */
  function OnConnections(unit: SqlExecutionUnit, connections: seq<Connection>, cursor: StatementOptions): (r: seq<Preparation>)
    ensures |r| == |connections|
    ensures forall k :: 0 <= k < |r| ==> r[k] == Preparation(unit, connections[k], cursor)
  {
    if connections == [] then []
    else
      var n := |connections| - 1;
      OnConnections(unit, connections[..n], cursor) + [Preparation(unit, connections[n], cursor)]
  }

  /** The statements route prepares for one unit. */
  function PreparationsFor(unit: SqlExecutionUnit, sqlType: SqlType, access: ConnectionAccess,
                           returnGeneratedKeys: bool, cursor: StatementOptions): (r: seq<Preparation>)
    ensures forall p <- r :: p.unit == unit
    ensures sqlType == DDL ==> |r| == |access.allConnections(unit.dataSource)|
    ensures sqlType == DDL ==> forall k :: 0 <= k < |r| ==>
      r[k].connection == access.allConnections(unit.dataSource)[k] && r[k].options == cursor
    ensures sqlType != DDL ==>
      r == [Preparation(unit, access.connectionFor(unit.dataSource, sqlType), SingleOptions(returnGeneratedKeys, cursor))]
  {
    if sqlType == DDL then OnConnections(unit, access.allConnections(unit.dataSource), cursor)
    else [Preparation(unit, access.connectionFor(unit.dataSource, sqlType), SingleOptions(returnGeneratedKeys, cursor))]
  }

  /** The statements route prepares for all units, unit by unit. */
  function Plan(units: seq<SqlExecutionUnit>, sqlType: SqlType, access: ConnectionAccess,
                returnGeneratedKeys: bool, cursor: StatementOptions): (r: seq<Preparation>)
    ensures forall p <- r :: p.unit in units
    ensures |r| >= (if sqlType == DDL then 0 else |units|)
  {
    if units == [] then []
    else
      var n := |units| - 1;
      Plan(units[..n], sqlType, access, returnGeneratedKeys, cursor)
        + PreparationsFor(units[n], sqlType, access, returnGeneratedKeys, cursor)
  }

  /** Outside DDL, route prepares exactly one statement per unit, in unit order. */
  lemma {:induction false} OneStatementPerUnit(units: seq<SqlExecutionUnit>, sqlType: SqlType, access: ConnectionAccess,
                                               returnGeneratedKeys: bool, cursor: StatementOptions)
    requires sqlType != DDL
    ensures var plan := Plan(units, sqlType, access, returnGeneratedKeys, cursor);
      && |plan| == |units|
      && forall k :: 0 <= k < |units| ==>
        plan[k] == Preparation(units[k], access.connectionFor(units[k].dataSource, sqlType), SingleOptions(returnGeneratedKeys, cursor))
  {
    if units != [] {
      var n := |units| - 1;
      OneStatementPerUnit(units[..n], sqlType, access, returnGeneratedKeys, cursor);
      var front := Plan(units[..n], sqlType, access, returnGeneratedKeys, cursor);
      var last := PreparationsFor(units[n], sqlType, access, returnGeneratedKeys, cursor);
      assert Plan(units, sqlType, access, returnGeneratedKeys, cursor) == front + last;
      assert |last| == 1;
      forall k | 0 <= k < |units|
        ensures (front + last)[k] == Preparation(units[k], access.connectionFor(units[k].dataSource, sqlType), SingleOptions(returnGeneratedKeys, cursor))
      {
        if k < n {
          assert units[..n][k] == units[k];
        }
      }
    }
  }

  /** The number of connections DDL prepares statements on. */
  function ConnectionCount(units: seq<SqlExecutionUnit>, access: ConnectionAccess): nat {
    if units == [] then 0
    else ConnectionCount(units[..|units| - 1], access) + |access.allConnections(units[|units| - 1].dataSource)|
  }

  /** DDL prepares one statement per connection of each unit's datasource. */
  lemma {:induction false} OneStatementPerConnection(units: seq<SqlExecutionUnit>, access: ConnectionAccess,
                                                     returnGeneratedKeys: bool, cursor: StatementOptions)
    ensures |Plan(units, DDL, access, returnGeneratedKeys, cursor)| == ConnectionCount(units, access)
    ensures forall p <- Plan(units, DDL, access, returnGeneratedKeys, cursor) :: p.options == cursor
  {
    if units != [] {
      OneStatementPerConnection(units[..|units| - 1], access, returnGeneratedKeys, cursor);
    }
  }

  /** The statements were prepared as the plan says, in plan order. */
  predicate PreparedAs(statements: seq<PhysicalStatement>, plan: seq<Preparation>) {
    && |statements| == |plan|
    && forall k :: 0 <= k < |plan| ==>
      && statements[k].connection == plan[k].connection
      && statements[k].sql == plan[k].unit.sql
      && statements[k].options == plan[k].options
  }

  /** The statement units that pair each planned unit with its prepared statement. */
  function UnitsOf(plan: seq<Preparation>, statements: seq<PhysicalStatement>): (r: seq<PreparedStatementUnit>)
    requires |statements| == |plan|
    ensures |r| == |plan|
  {
    if plan == [] then []
    else
      var n := |plan| - 1;
      UnitsOf(plan[..n], statements[..n]) + [PreparedStatementUnit(plan[n].unit, statements[n])]
  }

  lemma {:induction false} PreparedAsAppend(statements: seq<PhysicalStatement>, plan: seq<Preparation>,
                         more: seq<PhysicalStatement>, morePlan: seq<Preparation>)
    requires PreparedAs(statements, plan) && PreparedAs(more, morePlan)
    ensures PreparedAs(statements + more, plan + morePlan)
  {
  }

  lemma {:induction false} UnitsOfAppend(plan: seq<Preparation>, statements: seq<PhysicalStatement>,
                                         morePlan: seq<Preparation>, more: seq<PhysicalStatement>)
    requires |statements| == |plan| && |more| == |morePlan|
    ensures UnitsOf(plan + morePlan, statements + more) == UnitsOf(plan, statements) + UnitsOf(morePlan, more)
    decreases |more|
  {
    if more != [] {
      var n := |more| - 1;
      assert (plan + morePlan)[..|plan| + n] == plan + morePlan[..n];
      assert (statements + more)[..|plan| + n] == statements + more[..n];
      UnitsOfAppend(plan, statements, morePlan[..n], more[..n]);
    } else {
      assert plan + morePlan == plan && statements + more == statements;
    }
  }

  /** The units of a plan for a single execution unit, one per prepared statement. */
  lemma {:induction false} UnitsOfOneUnit(plan: seq<Preparation>, statements: seq<PhysicalStatement>, unit: SqlExecutionUnit)
    requires |statements| == |plan| && forall p <- plan :: p.unit == unit
    ensures forall k :: 0 <= k < |plan| ==> UnitsOf(plan, statements)[k] == PreparedStatementUnit(unit, statements[k])
  {
    if plan != [] {
      var n := |plan| - 1;
      assert forall p <- plan[..n] :: p in plan;
      UnitsOfOneUnit(plan[..n], statements[..n], unit);
    }
  }

  /** Preparing one more unit extends the plan and the statement units at the end. */
  lemma {:induction false} PlanExtends(units: seq<SqlExecutionUnit>, i: nat, sqlType: SqlType, access: ConnectionAccess,
                    returnGeneratedKeys: bool, cursor: StatementOptions,
                    statements: seq<PhysicalStatement>, prepared: seq<PhysicalStatement>)
    requires i < |units|
    requires PreparedAs(statements, Plan(units[..i], sqlType, access, returnGeneratedKeys, cursor))
    requires PreparedAs(prepared, PreparationsFor(units[i], sqlType, access, returnGeneratedKeys, cursor))
    ensures Plan(units[..i + 1], sqlType, access, returnGeneratedKeys, cursor)
      == Plan(units[..i], sqlType, access, returnGeneratedKeys, cursor) + PreparationsFor(units[i], sqlType, access, returnGeneratedKeys, cursor)
    ensures PreparedAs(statements + prepared, Plan(units[..i + 1], sqlType, access, returnGeneratedKeys, cursor))
    ensures UnitsOf(Plan(units[..i + 1], sqlType, access, returnGeneratedKeys, cursor), statements + prepared)
      == UnitsOf(Plan(units[..i], sqlType, access, returnGeneratedKeys, cursor), statements)
         + UnitsOf(PreparationsFor(units[i], sqlType, access, returnGeneratedKeys, cursor), prepared)
  {
    var plan := Plan(units[..i], sqlType, access, returnGeneratedKeys, cursor);
    var step := PreparationsFor(units[i], sqlType, access, returnGeneratedKeys, cursor);
    assert units[..i + 1][..i] == units[..i];
    assert Plan(units[..i + 1], sqlType, access, returnGeneratedKeys, cursor) == plan + step;
    PreparedAsAppend(statements, plan, prepared, step);
    UnitsOfAppend(plan, statements, step, prepared);
  }

  function ExecutionUnitsOf(batch: seq<BatchPreparedStatementUnit>): (r: seq<SqlExecutionUnit>)
    ensures |r| == |batch| && forall j {:trigger r[j]} :: 0 <= j < |batch| ==> r[j] == batch[j].sqlExecutionUnit
  {
    if batch == [] then []
    else ExecutionUnitsOf(batch[..|batch| - 1]) + [batch[|batch| - 1].sqlExecutionUnit]
  }

  /** statement was prepared as p says. */
  predicate PreparedFor(statement: PhysicalStatement, p: Preparation) {
    && statement.connection == p.connection
    && statement.sql == p.unit.sql
    && statement.options == p.options
  }

  /** The statement generatePreparedStatement prepares for a unit. */
  function SinglePreparation(unit: SqlExecutionUnit, sqlType: SqlType, access: ConnectionAccess,
                             returnGeneratedKeys: bool, cursor: StatementOptions): Preparation {
    Preparation(unit, access.connectionFor(unit.dataSource, sqlType), SingleOptions(returnGeneratedKeys, cursor))
  }

  /**
   * getPreparedBatchStatement over a series of units: before is kept as a prefix, and each
   * unit not yet present gets a new batch unit, with no logical index yet and a statement
   * prepared as generatePreparedStatement does.
   */
  ghost predicate Registered(before: seq<BatchPreparedStatementUnit>, after: seq<BatchPreparedStatementUnit>,
                             units: seq<SqlExecutionUnit>, sqlType: SqlType, access: ConnectionAccess,
                             returnGeneratedKeys: bool, cursor: StatementOptions)
  {
    && before <= after
    && ExecutionUnitsOf(after) == AddAllDistinct(ExecutionUnitsOf(before), units)
    && NewlyRegistered(after, |before|, sqlType, access, returnGeneratedKeys, cursor)
  }

  /** The batch units after position start are new registrations. */
  ghost predicate NewlyRegistered(batch: seq<BatchPreparedStatementUnit>, start: nat, sqlType: SqlType,
                                  access: ConnectionAccess, returnGeneratedKeys: bool, cursor: StatementOptions)
  {
    forall j :: start <= j < |batch| ==>
      && batch[j].logicalIndices == []
      && PreparedFor(batch[j].statement, SinglePreparation(batch[j].sqlExecutionUnit, sqlType, access, returnGeneratedKeys, cursor))
  }

  /** New registrations after a prefix stay new registrations as the batch grows. */
  lemma {:induction false} NewlyRegisteredExtend(before: nat, middle: seq<BatchPreparedStatementUnit>, after: seq<BatchPreparedStatementUnit>,
                              sqlType: SqlType, access: ConnectionAccess, returnGeneratedKeys: bool, cursor: StatementOptions)
    requires before <= |middle| && middle <= after
    requires NewlyRegistered(middle, before, sqlType, access, returnGeneratedKeys, cursor)
    requires NewlyRegistered(after, |middle|, sqlType, access, returnGeneratedKeys, cursor)
    ensures NewlyRegistered(after, before, sqlType, access, returnGeneratedKeys, cursor)
  {
    forall j | before <= j < |middle|
      ensures after[j] == middle[j]
    {
    }
  }

  /** Registering the next execution unit extends a registration of a prefix of units by that unit. */
  lemma {:induction false} RegisteredStep(before: seq<BatchPreparedStatementUnit>, middle: seq<BatchPreparedStatementUnit>,
                       after: seq<BatchPreparedStatementUnit>, units: seq<SqlExecutionUnit>, i: nat,
                       sqlType: SqlType, access: ConnectionAccess, returnGeneratedKeys: bool, cursor: StatementOptions)
    requires i < |units|
    requires Registered(before, middle, units[..i], sqlType, access, returnGeneratedKeys, cursor)
    requires middle <= after
    requires ExecutionUnitsOf(after) == AddDistinct(ExecutionUnitsOf(middle), units[i])
    requires NewlyRegistered(after, |middle|, sqlType, access, returnGeneratedKeys, cursor)
    ensures Registered(before, after, units[..i + 1], sqlType, access, returnGeneratedKeys, cursor)
  {
    AddAllDistinctStep(ExecutionUnitsOf(before), units, i);
    PrefixTransitive(before, middle, after);
    NewlyRegisteredExtend(|before|, middle, after, sqlType, access, returnGeneratedKeys, cursor);
  }

  /** Positions found in a batch still name the same units once the batch has grown. */
  lemma {:induction false} PositionsExtend(batch: seq<BatchPreparedStatementUnit>, next: seq<BatchPreparedStatementUnit>,
                        positions: seq<nat>, p: nat, units: seq<SqlExecutionUnit>)
    requires batch <= next && |positions| < |units|
    requires forall k :: 0 <= k < |positions| ==>
      positions[k] < |batch| && batch[positions[k]].sqlExecutionUnit == units[k]
    requires p < |next| && next[p].sqlExecutionUnit == units[|positions|]
    ensures forall k :: 0 <= k <= |positions| ==>
      (positions + [p])[k] < |next| && next[(positions + [p])[k]].sqlExecutionUnit == units[k]
  {
    forall k | 0 <= k < |positions|
      ensures next[positions[k]] == batch[positions[k]]
    {
    }
  }

  /** Connection.prepareStatement: the statement prepared as p says. */
  function Prepared(p: Preparation): (r: PhysicalStatement)
    ensures PreparedFor(r, p)
  {
    PhysicalStatement(p.connection, p.unit.sql, p.options)
  }

  /** The batch unit getPreparedBatchStatement creates for an execution unit that has none yet. */
  function NewBatchUnit(unit: SqlExecutionUnit, sqlType: SqlType, access: ConnectionAccess,
                        returnGeneratedKeys: bool, cursor: StatementOptions): BatchPreparedStatementUnit {
    BatchPreparedStatementUnit(unit, Prepared(SinglePreparation(unit, sqlType, access, returnGeneratedKeys, cursor)), [])
  }

  /** getPreparedBatchStatement on the batch units: a new batch unit is appended for a unit that has none. */
  function WithBatchUnit(batch: seq<BatchPreparedStatementUnit>, unit: SqlExecutionUnit, sqlType: SqlType,
                         access: ConnectionAccess, returnGeneratedKeys: bool, cursor: StatementOptions)
    : seq<BatchPreparedStatementUnit>
  {
    if unit in ExecutionUnitsOf(batch) then batch
    else batch + [NewBatchUnit(unit, sqlType, access, returnGeneratedKeys, cursor)]
  }

  /** The loop of routeBatch on the batch units: getPreparedBatchStatement for each unit, in order. */
  function WithBatchUnits(batch: seq<BatchPreparedStatementUnit>, units: seq<SqlExecutionUnit>, sqlType: SqlType,
                          access: ConnectionAccess, returnGeneratedKeys: bool, cursor: StatementOptions)
    : seq<BatchPreparedStatementUnit>
  {
    if units == [] then batch
    else
      var n := |units| - 1;
      WithBatchUnit(WithBatchUnits(batch, units[..n], sqlType, access, returnGeneratedKeys, cursor), units[n],
                    sqlType, access, returnGeneratedKeys, cursor)
  }

  /**
   * getPreparedBatchStatement keeps the batch units it finds and registers the unit at most
   * once, with no logical index yet and a statement prepared as generatePreparedStatement does.
   */
  lemma {:induction false} WithBatchUnitRegisters(batch: seq<BatchPreparedStatementUnit>, unit: SqlExecutionUnit,
                                                  sqlType: SqlType, access: ConnectionAccess,
                                                  returnGeneratedKeys: bool, cursor: StatementOptions)
    ensures var after := WithBatchUnit(batch, unit, sqlType, access, returnGeneratedKeys, cursor);
      && batch <= after
      && ExecutionUnitsOf(after) == AddDistinct(ExecutionUnitsOf(batch), unit)
      && NewlyRegistered(after, |batch|, sqlType, access, returnGeneratedKeys, cursor)
  {
    var x := NewBatchUnit(unit, sqlType, access, returnGeneratedKeys, cursor);
    if unit !in ExecutionUnitsOf(batch) {
      assert (batch + [x])[..|batch|] == batch;
      assert ExecutionUnitsOf(batch + [x]) == ExecutionUnitsOf(batch) + [unit];
    }
  }

  /** The loop of routeBatch registers every routed unit that had no batch unit, in first-routed order. */
  lemma {:induction false} WithBatchUnitsRegisters(before: seq<BatchPreparedStatementUnit>, units: seq<SqlExecutionUnit>,
                                                   sqlType: SqlType, access: ConnectionAccess,
                                                   returnGeneratedKeys: bool, cursor: StatementOptions)
    ensures Registered(before, WithBatchUnits(before, units, sqlType, access, returnGeneratedKeys, cursor), units,
                       sqlType, access, returnGeneratedKeys, cursor)
  {
    if units == [] {
      assert ExecutionUnitsOf(before) == AddAllDistinct(ExecutionUnitsOf(before), units);
    } else {
      var n := |units| - 1;
      var middle := WithBatchUnits(before, units[..n], sqlType, access, returnGeneratedKeys, cursor);
      WithBatchUnitsRegisters(before, units[..n], sqlType, access, returnGeneratedKeys, cursor);
      WithBatchUnitRegisters(middle, units[n], sqlType, access, returnGeneratedKeys, cursor);
      RegisteredStep(before, middle, WithBatchUnit(middle, units[n], sqlType, access, returnGeneratedKeys, cursor),
                     units, n, sqlType, access, returnGeneratedKeys, cursor);
      assert units[..n + 1] == units;
    }
  }

  /** Registering keeps the batch well formed: a new batch unit has an unseen unit and no indices. */
  lemma {:induction false} WithBatchUnitKeepsWellFormed(batch: seq<BatchPreparedStatementUnit>, unit: SqlExecutionUnit,
                                                        bound: nat, sqlType: SqlType, access: ConnectionAccess,
                                                        returnGeneratedKeys: bool, cursor: StatementOptions)
    requires WellFormedBatch(batch, bound)
    ensures WellFormedBatch(WithBatchUnit(batch, unit, sqlType, access, returnGeneratedKeys, cursor), bound)
  {
    if unit !in ExecutionUnitsOf(batch) {
      var x := NewBatchUnit(unit, sqlType, access, returnGeneratedKeys, cursor);
      assert (batch + [x])[..|batch|] == batch;
    }
  }

  /** routeBatch keeps the batch well formed, whatever it routed. */
  lemma {:induction false} WithBatchUnitsKeepsWellFormed(before: seq<BatchPreparedStatementUnit>, units: seq<SqlExecutionUnit>,
                                                         bound: nat, sqlType: SqlType, access: ConnectionAccess,
                                                         returnGeneratedKeys: bool, cursor: StatementOptions)
    requires WellFormedBatch(before, bound)
    ensures WellFormedBatch(WithBatchUnits(before, units, sqlType, access, returnGeneratedKeys, cursor), bound)
    decreases |units|
  {
    if units != [] {
      var n := |units| - 1;
      WithBatchUnitsKeepsWellFormed(before, units[..n], bound, sqlType, access, returnGeneratedKeys, cursor);
      WithBatchUnitKeepsWellFormed(WithBatchUnits(before, units[..n], sqlType, access, returnGeneratedKeys, cursor),
                                   units[n], bound, sqlType, access, returnGeneratedKeys, cursor);
    }
  }

  /** mapAddBatchCount(index) on one batch unit, once per routed unit equal to its own. */
  function TagUnit(u: BatchPreparedStatementUnit, units: seq<SqlExecutionUnit>, index: nat): BatchPreparedStatementUnit {
    u.(logicalIndices := u.logicalIndices + Repeat(index, Count(units, u.sqlExecutionUnit)))
  }

  /** mapAddBatchCount(index) on every batch unit, once per routed unit equal to its own. */
  function Tagged(batch: seq<BatchPreparedStatementUnit>, units: seq<SqlExecutionUnit>, index: nat): (r: seq<BatchPreparedStatementUnit>)
    ensures |r| == |batch|
    ensures forall j {:trigger r[j]} :: 0 <= j < |batch| ==> r[j] == TagUnit(batch[j], units, index)
  {
    if batch == [] then []
    else
      var n := |batch| - 1;
      Tagged(batch[..n], units, index) + [TagUnit(batch[n], units, index)]
  }

  /**
   * One step of the loop of addBatch: tagging the unit of units[i], at position p, extends
   * the tagging of the routed units before it. No other batch unit has that execution unit.
   */
  lemma {:induction false} TagOneMore(batch: seq<BatchPreparedStatementUnit>, r: seq<BatchPreparedStatementUnit>, units: seq<SqlExecutionUnit>,
                   i: nat, p: nat, index: nat)
    requires NoDuplicates(ExecutionUnitsOf(batch))
    requires i < |units| && p < |batch| && batch[p].sqlExecutionUnit == units[i]
    requires |r| == |batch| && forall j :: 0 <= j < |batch| ==> r[j] == TagUnit(batch[j], units[..i], index)
    ensures forall j :: 0 <= j < |batch| ==>
      r[p := r[p].(logicalIndices := r[p].logicalIndices + [index])][j] == TagUnit(batch[j], units[..i + 1], index)
  {
    var next := r[p := r[p].(logicalIndices := r[p].logicalIndices + [index])];
    forall j | 0 <= j < |batch|
      ensures next[j] == TagUnit(batch[j], units[..i + 1], index)
    {
      CountStep(units, i, batch[j].sqlExecutionUnit);
      if j != p {
        assert ExecutionUnitsOf(batch)[j] != ExecutionUnitsOf(batch)[p];
      }
    }
  }

  /**
   * addBatch's effect on the batch units: each unit routed this time is registered once,
   * and every batch unit records the new logical index once per routed unit equal to its own.
   */
  ghost predicate BatchAdded(before: seq<BatchPreparedStatementUnit>, after: seq<BatchPreparedStatementUnit>,
                             units: seq<SqlExecutionUnit>, index: nat, sqlType: SqlType, access: ConnectionAccess,
                             returnGeneratedKeys: bool, cursor: StatementOptions)
  {
    && |before| <= |after|
    && ExecutionUnitsOf(after) == AddAllDistinct(ExecutionUnitsOf(before), units)
    && (forall j :: 0 <= j < |before| ==>
          && after[j].statement == before[j].statement
          && after[j].logicalIndices == before[j].logicalIndices + Repeat(index, Count(units, after[j].sqlExecutionUnit)))
    && (forall j :: |before| <= j < |after| ==>
          && after[j].logicalIndices == Repeat(index, Count(units, after[j].sqlExecutionUnit))
          && PreparedFor(after[j].statement, SinglePreparation(after[j].sqlExecutionUnit, sqlType, access, returnGeneratedKeys, cursor)))
  }

  /** Tagging the registered units is the effect addBatch promises. */
  lemma {:induction false} TaggedRegistered(before: seq<BatchPreparedStatementUnit>, registered: seq<BatchPreparedStatementUnit>,
                         units: seq<SqlExecutionUnit>, index: nat, sqlType: SqlType, access: ConnectionAccess,
                         returnGeneratedKeys: bool, cursor: StatementOptions)
    requires Registered(before, registered, units, sqlType, access, returnGeneratedKeys, cursor)
    ensures BatchAdded(before, Tagged(registered, units, index), units, index, sqlType, access, returnGeneratedKeys, cursor)
  {
    var after := Tagged(registered, units, index);
    forall j | 0 <= j < |after|
      ensures ExecutionUnitsOf(after)[j] == ExecutionUnitsOf(registered)[j]
    {
      assert after[j] == TagUnit(registered[j], units, index);
    }
    assert ExecutionUnitsOf(after) == ExecutionUnitsOf(registered);
    forall j | 0 <= j < |before|
      ensures after[j].statement == before[j].statement
      ensures after[j].logicalIndices == before[j].logicalIndices + Repeat(index, Count(units, after[j].sqlExecutionUnit))
    {
      assert registered[j] == before[j];
      assert after[j] == TagUnit(registered[j], units, index);
    }
    forall j | |before| <= j < |after|
      ensures after[j].logicalIndices == Repeat(index, Count(units, after[j].sqlExecutionUnit))
      ensures PreparedFor(after[j].statement, SinglePreparation(after[j].sqlExecutionUnit, sqlType, access, returnGeneratedKeys, cursor))
    {
      assert after[j] == TagUnit(registered[j], units, index);
    }
  }

  /** The batch units addBatch leaves: the routed units registered, then tagged with the new logical index. */
  function BatchAfterAdd(before: seq<BatchPreparedStatementUnit>, units: seq<SqlExecutionUnit>, index: nat,
                         sqlType: SqlType, access: ConnectionAccess, returnGeneratedKeys: bool, cursor: StatementOptions)
    : seq<BatchPreparedStatementUnit>
  {
    Tagged(WithBatchUnits(before, units, sqlType, access, returnGeneratedKeys, cursor), units, index)
  }

  /** The batch units addBatch leaves are the effect it promises. */
  lemma {:induction false} AddBatchEffect(before: seq<BatchPreparedStatementUnit>, units: seq<SqlExecutionUnit>, index: nat,
                                          sqlType: SqlType, access: ConnectionAccess,
                                          returnGeneratedKeys: bool, cursor: StatementOptions)
    ensures BatchAdded(before, BatchAfterAdd(before, units, index, sqlType, access, returnGeneratedKeys, cursor),
                       units, index, sqlType, access, returnGeneratedKeys, cursor)
  {
    var registered := WithBatchUnits(before, units, sqlType, access, returnGeneratedKeys, cursor);
    WithBatchUnitsRegisters(before, units, sqlType, access, returnGeneratedKeys, cursor);
    TaggedRegistered(before, registered, units, index, sqlType, access, returnGeneratedKeys, cursor);
  }

  /** addBatch keeps the batch well formed for the parameter-set count, which grows by one. */
  lemma {:induction false} AddBatchKeepsValid(before: seq<BatchPreparedStatementUnit>, units: seq<SqlExecutionUnit>, index: nat,
                                              sqlType: SqlType, access: ConnectionAccess,
                                              returnGeneratedKeys: bool, cursor: StatementOptions)
    requires WellFormedBatch(before, index)
    ensures WellFormedBatch(BatchAfterAdd(before, units, index, sqlType, access, returnGeneratedKeys, cursor), index + 1)
  {
    WithBatchUnitsKeepsWellFormed(before, units, index, sqlType, access, returnGeneratedKeys, cursor);
    TaggedKeepsWellFormed(WithBatchUnits(before, units, sqlType, access, returnGeneratedKeys, cursor), units, index);
  }

  /** Every unit routed by addBatch has a batch unit that records the new logical index. */
  lemma {:induction false} EveryRoutedUnitRecordsIndex(before: seq<BatchPreparedStatementUnit>, after: seq<BatchPreparedStatementUnit>,
                                    units: seq<SqlExecutionUnit>, index: nat, sqlType: SqlType, access: ConnectionAccess,
                                    returnGeneratedKeys: bool, cursor: StatementOptions, u: SqlExecutionUnit)
    requires BatchAdded(before, after, units, index, sqlType, access, returnGeneratedKeys, cursor)
    requires u in units
    ensures exists j :: 0 <= j < |after| && after[j].sqlExecutionUnit == u && index in after[j].logicalIndices
  {
    var j :| 0 <= j < |after| && ExecutionUnitsOf(after)[j] == u;
    CountPositive(units, u);
    var c := Count(units, u);
    if j < |before| {
      assert after[j].logicalIndices[|before[j].logicalIndices|] == index;
    } else {
      assert after[j].logicalIndices[0] == index;
    }
  }

  /** Every logical index a batch unit records is below bound. */
  predicate IndicesBelow(batch: seq<BatchPreparedStatementUnit>, bound: nat) {
    forall j, k :: 0 <= j < |batch| && 0 <= k < |batch[j].logicalIndices| ==> batch[j].logicalIndices[k] < bound
  }

  /**
   * The batch bookkeeping's invariant, unit by unit from the front: no two batch units share
   * an execution unit, and every logical index a unit records is below bound.
   */
  predicate WellFormedBatch(batch: seq<BatchPreparedStatementUnit>, bound: nat) {
    if batch == [] then true
    else
      var n := |batch| - 1;
      && WellFormedBatch(batch[..n], bound)
      && batch[n].sqlExecutionUnit !in ExecutionUnitsOf(batch[..n])
      && forall k :: 0 <= k < |batch[n].logicalIndices| ==> batch[n].logicalIndices[k] < bound
  }

  /** The invariant is exactly distinct execution units and indices below bound. */
  lemma {:induction false} WellFormedBatchMeans(batch: seq<BatchPreparedStatementUnit>, bound: nat)
    ensures WellFormedBatch(batch, bound) <==> NoDuplicates(ExecutionUnitsOf(batch)) && IndicesBelow(batch, bound)
  {
    if batch != [] {
      var n := |batch| - 1;
      var prefix := batch[..n];
      WellFormedBatchMeans(prefix, bound);
      var units := ExecutionUnitsOf(batch);
      assert units == ExecutionUnitsOf(prefix) + [batch[n].sqlExecutionUnit];
      if NoDuplicates(units) && IndicesBelow(batch, bound) {
        assert NoDuplicates(ExecutionUnitsOf(prefix)) by {
          forall i, j | 0 <= i < j < n ensures ExecutionUnitsOf(prefix)[i] != ExecutionUnitsOf(prefix)[j] {
            assert units[i] != units[j];
          }
        }
        assert IndicesBelow(prefix, bound) by {
          forall j, k | 0 <= j < n && 0 <= k < |prefix[j].logicalIndices|
            ensures prefix[j].logicalIndices[k] < bound
          {
            assert prefix[j] == batch[j];
          }
        }
        assert batch[n].sqlExecutionUnit !in ExecutionUnitsOf(prefix) by {
          forall i | 0 <= i < n ensures ExecutionUnitsOf(prefix)[i] != batch[n].sqlExecutionUnit {
            assert units[i] != units[n];
          }
        }
      }
      if WellFormedBatch(batch, bound) {
        forall j, k | 0 <= j < |batch| && 0 <= k < |batch[j].logicalIndices|
          ensures batch[j].logicalIndices[k] < bound
        {
          if j < n {
            assert prefix[j] == batch[j];
          }
        }
        forall i, j | 0 <= i < j < |batch| ensures units[i] != units[j] {
          if j < n {
            assert units[i] == ExecutionUnitsOf(prefix)[i] && units[j] == ExecutionUnitsOf(prefix)[j];
          } else {
            assert units[i] == ExecutionUnitsOf(prefix)[i];
          }
        }
      }
    }
  }

  /** Tagging with index keeps the units as they were and every recorded index below index + 1. */
  lemma {:induction false} TaggedKeepsWellFormed(batch: seq<BatchPreparedStatementUnit>, units: seq<SqlExecutionUnit>, index: nat)
    requires WellFormedBatch(batch, index)
    ensures WellFormedBatch(Tagged(batch, units, index), index + 1)
  {
    if batch != [] {
      var n := |batch| - 1;
      var tagged := Tagged(batch, units, index);
      TaggedKeepsWellFormed(batch[..n], units, index);
      assert tagged[..n] == Tagged(batch[..n], units, index);
      assert ExecutionUnitsOf(tagged[..n]) == ExecutionUnitsOf(batch[..n]);
      var last := batch[n].logicalIndices;
      var added := Repeat(index, Count(units, batch[n].sqlExecutionUnit));
      assert tagged[n].logicalIndices == last + added;
      forall k | 0 <= k < |last + added| ensures (last + added)[k] < index + 1 {
        if k >= |last| {
          assert (last + added)[k] == added[k - |last|];
        }
      }
    }
  }

  /**
   * The statement's merge step: the route result's statement is cast to SelectStatement
   * (a null route result and a non-select statement both throw) and the result sets merged.
   */
  function MergedResultSet(resultSets: seq<ResultSet>, routeResult: Option<SqlRouteResult>,
                           merge: (seq<ResultSet>, SqlStatement) -> Result<MergedResult>): (r: Result<ResultSet>)
    ensures routeResult.None? ==> r.Failure? && r.error.NullPointer?
    ensures routeResult.Some? && !routeResult.value.sqlStatement.kind.SelectStatement? ==> r.Failure? && r.error.ClassCast?
    ensures r.Success? <==>
      routeResult.Some? && routeResult.value.sqlStatement.kind.SelectStatement? && merge(resultSets, routeResult.value.sqlStatement).Success?
    ensures r.Success? ==> r.value == ShardingResultSet(resultSets, merge(resultSets, routeResult.value.sqlStatement).value)
  {
    if routeResult.None? then Failure(NullPointer("routeResult"))
    else if !routeResult.value.sqlStatement.kind.SelectStatement? then Failure(ClassCast("SelectStatement"))
    else
      match merge(resultSets, routeResult.value.sqlStatement)
      case Failure(e) => Failure(e)
      case Success(merged) => Success(ShardingResultSet(resultSets, merged))
  }

  /** executeQuery after a successful route: execute the units, then merge. */
  function QueryResult(executors: Executors, engine: ExecutorEngine, routeResult: SqlRouteResult,
                       units: seq<PreparedStatementUnit>, parameters: seq<Parameter>): (r: Result<ResultSet>)
    ensures executors.executeQuery(engine, routeResult.sqlStatement.sqlType, units, parameters).Failure? ==>
      r == Failure(executors.executeQuery(engine, routeResult.sqlStatement.sqlType, units, parameters).error)
    ensures executors.executeQuery(engine, routeResult.sqlStatement.sqlType, units, parameters).Success? ==>
      r == MergedResultSet(executors.executeQuery(engine, routeResult.sqlStatement.sqlType, units, parameters).value,
                           Some(routeResult), executors.merge)
  {
    match executors.executeQuery(engine, routeResult.sqlStatement.sqlType, units, parameters)
    case Failure(e) => Failure(e)
    case Success(resultSets) => MergedResultSet(resultSets, Some(routeResult), executors.merge)
  }

  /** The result sets of the routed statements, in routing order. */
  function ResultSetsOf(statements: seq<PhysicalStatement>): (r: seq<ResultSet>)
    ensures |r| == |statements| && forall k :: 0 <= k < |r| ==> r[k] == PhysicalResultSet(statements[k])
  {
    if statements == [] then []
    else ResultSetsOf(statements[..|statements| - 1]) + [PhysicalResultSet(statements[|statements| - 1])]
  }
}
