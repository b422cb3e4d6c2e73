/** TableRuleConfiguration: the user-facing description of one logic table, built into a TableRule. */
module TableRuleConfigurations {
  import opened Results
  import opened DataSourceMaps
  import opened KeyGenerators
  import opened Rule

  /** A sharding strategy configuration; building it is a collaborator. */
  datatype ShardingStrategyConfiguration = ShardingStrategyConfiguration(id: nat)

  /**
   * What building a table rule relies on but whose source is not part of this model:
   * InlineExpressionParser.evaluate, DataNode parsing, ShardingStrategyConfiguration.build
   * and whether a key generator class can be instantiated reflectively.
   */
  datatype Collaborators = Collaborators(
    evaluateInline: Option<string> -> seq<string>,
    nodeParser: DataNodeParser,
    buildStrategy: ShardingStrategyConfiguration -> ShardingStrategy,
    isInstantiable: string -> bool)

  /** Strings.isNullOrEmpty. */
  predicate IsNullOrEmpty(s: Option<string>) {
    s.None? || s.value == ""
  }

  /** A null strategy configuration gives a null strategy; otherwise the configuration is built. */
  function StrategyOf(config: Option<ShardingStrategyConfiguration>, env: Collaborators): (r: Option<ShardingStrategy>)
    ensures r.Some? <==> config.Some?
    ensures r.Some? ==> r.value == env.buildStrategy(config.value)
  {
    match config
    case None => None
    case Some(c) => Some(env.buildStrategy(c))
  }

  /** A table rule configuration; every field may be left null by the user. */
  datatype TableRuleConfiguration = TableRuleConfiguration(
    logicTable: Option<string>,
    actualDataNodes: Option<string>,
    databaseShardingStrategyConfig: Option<ShardingStrategyConfiguration>,
    tableShardingStrategyConfig: Option<ShardingStrategyConfiguration>,
    keyGeneratorColumnName: Option<string>,
    keyGeneratorClass: Option<string>,
    logicIndex: Option<string>)
  {
    /** A key generator is created only when both its column and its class are given. */
    predicate KeyGeneratorConfigured() {
      !IsNullOrEmpty(keyGeneratorColumnName) && !IsNullOrEmpty(keyGeneratorClass)
    }

    /** The rule that build returns, or the exception it throws. */
    function BuiltTableRule(dataSourceMap: LinkedMap, env: Collaborators): (r: Result<TableRule>)
      ensures logicTable.None? ==> r == Failure(NullPointer("Logic table cannot be null."))
      ensures logicTable.Some? && KeyGeneratorConfigured() && !env.isInstantiable(keyGeneratorClass.value) ==>
        r.Failure? && r.error.IllegalArgument?
      ensures r.Success? <==>
        && logicTable.Some?
        && (KeyGeneratorConfigured() ==> env.isInstantiable(keyGeneratorClass.value))
        && ActualDataNodesFor(logicTable.value, Some(env.evaluateInline(actualDataNodes)), dataSourceMap, env.nodeParser).Success?
      ensures r.Success? ==>
        && r.value.logicTable == logicTable.value
        && r.value.actualDataNodes == ActualDataNodesFor(logicTable.value, Some(env.evaluateInline(actualDataNodes)), dataSourceMap, env.nodeParser).value
        && r.value.databaseShardingStrategy == StrategyOf(databaseShardingStrategyConfig, env)
        && r.value.tableShardingStrategy == StrategyOf(tableShardingStrategyConfig, env)
        && r.value.generateKeyColumn == keyGeneratorColumnName
        && r.value.logicIndex == logicIndex
      ensures r.Success? ==> (r.value.keyGenerator.Some? <==> KeyGeneratorConfigured())
      ensures r.Success? && r.value.keyGenerator.Some? ==> r.value.keyGenerator.value.className == keyGeneratorClass.value
      ensures dataSourceMap.Valid() && r.Success? ==> forall node <- r.value.actualDataNodes :: node.dataSourceName in dataSourceMap.values
      ensures r.Success? && dataSourceMap.keys != [] ==> r.value.actualDataNodes != []
    {
      if logicTable.None? then Failure(NullPointer("Logic table cannot be null."))
      else
        var nodeStrings := env.evaluateInline(actualDataNodes);
        var keyGenerator: Result<Option<KeyGenerator>> :=
          if KeyGeneratorConfigured() then
            (match NewInstance(keyGeneratorClass.value, env.isInstantiable)
             case Success(g) => Success(Some(g))
             case Failure(e) => Failure(e))
          else Success(None);
        match keyGenerator
        case Failure(e) => Failure(e)
        case Success(g) =>
          BuildTableRule(logicTable.value, Some(nodeStrings), dataSourceMap, env.nodeParser,
                         StrategyOf(databaseShardingStrategyConfig, env), StrategyOf(tableShardingStrategyConfig, env),
                         keyGeneratorColumnName, g, logicIndex)
    }

    /** build(dataSourceMap), in the order of the source's statements. */
    method Build(dataSourceMap: DataSourceMap, env: Collaborators) returns (r: Result<TableRule>)
      requires dataSourceMap.Valid()
      ensures r == BuiltTableRule(dataSourceMap.contents, env)
    {
      if logicTable.None? {
        return Failure(NullPointer("Logic table cannot be null."));
      }
      var nodeStrings := env.evaluateInline(actualDataNodes);
      var databaseShardingStrategy := StrategyOf(databaseShardingStrategyConfig, env);
      var tableShardingStrategy := StrategyOf(tableShardingStrategyConfig, env);
      var keyGenerator: Option<KeyGenerator> := None;
      if !IsNullOrEmpty(keyGeneratorColumnName) && !IsNullOrEmpty(keyGeneratorClass) {
        var created := NewInstance(keyGeneratorClass.value, env.isInstantiable);
        if created.Failure? {
          return Failure(created.error);
        }
        keyGenerator := Some(created.value);
      }
      r := NewTableRule(logicTable.value, Some(nodeStrings), dataSourceMap, env.nodeParser,
                        databaseShardingStrategy, tableShardingStrategy, keyGeneratorColumnName, keyGenerator, logicIndex);
    }
  }
}
