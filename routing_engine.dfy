/**
 * PreparedStatementRoutingEngine: routes one logical SQL text, parsing it on the first
 * call that succeeds and reusing the parsed statement on every later call.
 */
module Routing {
  import opened Results
  import opened Contexts

  /** The statement class the parser assigns. */
  datatype SqlType = DQL | DML | DDL

  /** The generated-key column an INSERT was given. */
  datatype GeneratedKey = GeneratedKey(column: string)

  /** The parsed statement's Java class, as far as the statement layer tests it. */
  datatype StatementKind = SelectStatement | InsertStatement(generatedKey: Option<GeneratedKey>) | OtherStatement

  /** A parsed statement (SQLStatement); id stands for the rest of the syntax tree. */
  datatype SqlStatement = SqlStatement(sqlType: SqlType, kind: StatementKind, id: nat)

  /** One physical target: a datasource name and the SQL rewritten for it. */
  datatype SqlExecutionUnit = SqlExecutionUnit(dataSource: string, sql: string)

  /** A bound parameter value; only its identity matters. */
  datatype Parameter = Parameter(value: int)

  /** SQLRouteResult. */
  datatype SqlRouteResult = SqlRouteResult(
    sqlStatement: SqlStatement,
    executionUnits: seq<SqlExecutionUnit>,
    generatedKeys: seq<int>)

  /** SQLRouter, as created by SQLRouterFactory; its source is not part of this model. */
  datatype SqlRouter = SqlRouter(
    parse: (string, nat) -> Result<SqlStatement>,
    route: (string, seq<Parameter>, SqlStatement) -> Result<SqlRouteResult>)

  /** The effect of one route call: the new cache, the argument parse got (if called) and the answer. */
  datatype RouteStep = RouteStep(cache: Option<SqlStatement>, parsedWith: Option<nat>, result: Result<SqlRouteResult>)

  /** One route call against the cached statement `cache` (null when None). */
  function Step(router: SqlRouter, logicSql: string, cache: Option<SqlStatement>, parameters: seq<Parameter>): (s: RouteStep)
    ensures cache.Some? ==> s.cache == cache && s.parsedWith.None?
    ensures cache.None? ==> s.parsedWith == Some(|parameters|)
    ensures cache.None? ==> (s.cache.Some? <==> router.parse(logicSql, |parameters|).Success?)
    ensures s.cache.Some? ==> s.result == router.route(logicSql, parameters, s.cache.value)
    ensures s.cache.None? ==> s.result.Failure?
  {
    match cache
    case Some(statement) => RouteStep(cache, None, router.route(logicSql, parameters, statement))
    case None =>
      match router.parse(logicSql, |parameters|)
      case Failure(e) => RouteStep(None, Some(|parameters|), Failure(e))
      case Success(statement) => RouteStep(Some(statement), Some(|parameters|), router.route(logicSql, parameters, statement))
  }

  function ParsedWith(step: RouteStep): seq<nat> {
    match step.parsedWith
    case None => []
    case Some(n) => [n]
  }

  /** The cache after a series of route calls, one parameter list per call. */
  function CacheAfter(router: SqlRouter, logicSql: string, cache: Option<SqlStatement>, calls: seq<seq<Parameter>>): (r: Option<SqlStatement>)
    ensures cache.Some? ==> r == cache
    decreases |calls|
  {
    if calls == [] then cache
    else CacheAfter(router, logicSql, Step(router, logicSql, cache, calls[0]).cache, calls[1..])
  }

  /** The arguments parse receives over a series of route calls. */
  function ParseArguments(router: SqlRouter, logicSql: string, cache: Option<SqlStatement>, calls: seq<seq<Parameter>>): (r: seq<nat>)
    ensures cache.Some? ==> r == []
    ensures |r| <= |calls|
    ensures forall i :: 0 <= i < |r| - 1 ==> router.parse(logicSql, r[i]).Failure?
    decreases |calls|
  {
    if calls == [] then []
    else
      var step := Step(router, logicSql, cache, calls[0]);
      ParsedWith(step) + ParseArguments(router, logicSql, step.cache, calls[1..])
  }

  /**
   * When the first parse succeeds, the parser is called exactly once over any series of
   * calls, with the first call's parameter count, and the statement stays cached.
   */
  lemma {:induction false} ParsedOnlyOnce(router: SqlRouter, logicSql: string, calls: seq<seq<Parameter>>)
    requires calls != [] && router.parse(logicSql, |calls[0]|).Success?
    ensures ParseArguments(router, logicSql, None, calls) == [|calls[0]|]
    ensures CacheAfter(router, logicSql, None, calls) == Some(router.parse(logicSql, |calls[0]|).value)
  {
  }

  /**
   * Starting without a cached statement, call i passes its own parameter count to parse,
   * and parse is called again only while it keeps failing: the statement ends up cached
   * exactly when the last parse succeeded.
   */
  lemma {:induction false} ParsedUntilFirstSuccess(router: SqlRouter, logicSql: string, calls: seq<seq<Parameter>>)
    ensures var r := ParseArguments(router, logicSql, None, calls);
      && (forall i :: 0 <= i < |r| ==> r[i] == |calls[i]|)
      && (|r| == |calls| || router.parse(logicSql, r[|r| - 1]).Success?)
      && (CacheAfter(router, logicSql, None, calls).Some? <==> r != [] && router.parse(logicSql, r[|r| - 1]).Success?)
    decreases |calls|
  {
    if calls != [] {
      var step := Step(router, logicSql, None, calls[0]);
      if step.cache.None? {
        ParsedUntilFirstSuccess(router, logicSql, calls[1..]);
        var rest := ParseArguments(router, logicSql, None, calls[1..]);
        assert ParseArguments(router, logicSql, None, calls) == [|calls[0]|] + rest;
        assert forall i :: 0 <= i < |rest| ==> rest[i] == |calls[1..][i]| == |calls[i + 1]|;
      }
    }
  }

  class PreparedStatementRoutingEngine {
    const logicSql: string
    const sqlRouter: SqlRouter
    var sqlStatement: Option<SqlStatement>
    /** The arguments parse has been called with, oldest first. */
    ghost var parseArguments: seq<nat>

    constructor (logicSql: string, shardingContext: ShardingContext, createSqlRouter: ShardingContext -> SqlRouter)
      ensures this.logicSql == logicSql && sqlRouter == createSqlRouter(shardingContext)
      ensures sqlStatement == None && parseArguments == []
    {
      this.logicSql := logicSql;
      sqlRouter := createSqlRouter(shardingContext);
      sqlStatement := None;
      parseArguments := [];
    }

    /** route(parameters). */
    method Route(parameters: seq<Parameter>) returns (r: Result<SqlRouteResult>)
      modifies this
      ensures sqlStatement == Step(sqlRouter, logicSql, old(sqlStatement), parameters).cache
      ensures r == Step(sqlRouter, logicSql, old(sqlStatement), parameters).result
      ensures parseArguments == old(parseArguments) + ParsedWith(Step(sqlRouter, logicSql, old(sqlStatement), parameters))
    {
      if sqlStatement.None? {
        parseArguments := parseArguments + [|parameters|];
        var parsed := sqlRouter.parse(logicSql, |parameters|);
        if parsed.Failure? {
          return Failure(parsed.error);
        }
        sqlStatement := Some(parsed.value);
      }
      r := sqlRouter.route(logicSql, parameters, sqlStatement.value);
    }
  }
}
