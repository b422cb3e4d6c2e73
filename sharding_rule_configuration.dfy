/**
 * ShardingRuleConfiguration: checks the caller's datasource map, rewrites it in place for
 * master/slave groups, then builds every table rule against the rewritten map.
 */
module ShardingRuleConfigurations {
  import opened Results
  import opened Sequences
  import opened DataSourceMaps
  import opened KeyGenerators
  import opened Rule
  import opened TableRuleConfigurations

  /** One master/slave group: the group's name replaces its master and slaves in the map. */
  datatype MasterSlaveRuleConfiguration = MasterSlaveRuleConfiguration(
    name: string, masterDataSourceName: string, slaveDataSourceNames: seq<string>)

  /**
   * MasterSlaveDataSourceFactory.createDataSource, whose source is not part of this model;
   * it sees the map as it stands when the group is reached and may throw SQLException.
   */
  type MasterSlaveFactory = (LinkedMap, MasterSlaveRuleConfiguration) -> Result<DataSource>

  const DefaultKeyGeneratorClassName := "io.shardingjdbc.core.keygen.DefaultKeyGenerator"
  const DataSourcesMessage := "dataSources cannot be null."

  /** The map with every listed name removed, one after the other. */
  function RemoveAll(m: LinkedMap, names: seq<string>): (r: LinkedMap)
    ensures forall k :: k in r.values <==> k in m.values && k !in names
    ensures forall k <- r.values :: r.values[k] == m.values[k]
  {
    if names == [] then m
    else
      var n := |names| - 1;
      assert names == names[..n] + [names[n]];
      RemoveAll(m, names[..n]).Remove(names[n])
  }

  lemma {:induction false} RemoveAllKeepsValid(m: LinkedMap, names: seq<string>)
    requires m.Valid()
    ensures RemoveAll(m, names).Valid()
  {
    if names != [] {
      var n := |names| - 1;
      RemoveAllKeepsValid(m, names[..n]);
      RemoveKeepsValid(RemoveAll(m, names[..n]), names[n]);
    }
  }

  /** One group's rewrite: put the group's datasource under its name, then remove the master and each slave. */
  function MasterSlaveStep(m: LinkedMap, group: MasterSlaveRuleConfiguration, dataSource: DataSource): LinkedMap {
    RemoveAll(m.Put(group.name, dataSource).Remove(group.masterDataSourceName), group.slaveDataSourceNames)
  }

  lemma {:induction false} MasterSlaveStepKeepsValid(m: LinkedMap, group: MasterSlaveRuleConfiguration, dataSource: DataSource)
    requires m.Valid()
    ensures MasterSlaveStep(m, group, dataSource).Valid()
  {
    PutKeepsValid(m, group.name, dataSource);
    RemoveKeepsValid(m.Put(group.name, dataSource), group.masterDataSourceName);
    RemoveAllKeepsValid(m.Put(group.name, dataSource).Remove(group.masterDataSourceName), group.slaveDataSourceNames);
  }

  /**
   * After one group: its master and slaves are gone; its name is present, holding the new
   * datasource, unless it is itself the master or a slave name; every other name is untouched.
   */
  lemma {:induction false} MasterSlaveStepEffect(m: LinkedMap, group: MasterSlaveRuleConfiguration, dataSource: DataSource)
    ensures group.masterDataSourceName !in MasterSlaveStep(m, group, dataSource).values
    ensures forall s <- group.slaveDataSourceNames :: s !in MasterSlaveStep(m, group, dataSource).values
    ensures group.name in MasterSlaveStep(m, group, dataSource).values <==>
      group.name != group.masterDataSourceName && group.name !in group.slaveDataSourceNames
    ensures group.name in MasterSlaveStep(m, group, dataSource).values ==>
      MasterSlaveStep(m, group, dataSource).values[group.name] == dataSource
    ensures forall k :: k != group.name && k != group.masterDataSourceName && k !in group.slaveDataSourceNames ==>
      (k in MasterSlaveStep(m, group, dataSource).values <==> k in m.values)
    ensures forall k <- m.values :: k != group.name && k != group.masterDataSourceName && k !in group.slaveDataSourceNames ==>
      MasterSlaveStep(m, group, dataSource).values[k] == m.values[k]
  {
  }

  /** The inner loop of processDataSourceMapWithMasterSlave: remove every slave name, in order. */
  method RemoveSlaves(dataSourceMap: DataSourceMap, slaves: seq<string>)
    requires dataSourceMap.Valid()
    modifies dataSourceMap
    ensures dataSourceMap.Valid() && dataSourceMap.contents == RemoveAll(old(dataSourceMap.contents), slaves)
  {
    var j := 0;
    while j < |slaves|
      invariant 0 <= j <= |slaves|
      invariant dataSourceMap.Valid()
      invariant dataSourceMap.contents == RemoveAll(old(dataSourceMap.contents), slaves[..j])
    {
      assert slaves[..j + 1][..j] == slaves[..j];
      dataSourceMap.Remove(slaves[j]);
      j := j + 1;
    }
    assert slaves[..j] == slaves;
  }

  /** The map after processDataSourceMapWithMasterSlave, and the exception that stopped it, if any. */
  datatype Rewrite = Rewrite(dataSources: LinkedMap, error: Option<Error>)

  /** The groups applied in order; a failing factory call stops the loop, keeping the groups before it applied. */
  function ApplyMasterSlave(m: LinkedMap, groups: seq<MasterSlaveRuleConfiguration>, factory: MasterSlaveFactory): (r: Rewrite)
    ensures groups == [] ==> r == Rewrite(m, None)
    decreases |groups|
  {
    if groups == [] then Rewrite(m, None)
    else
      match factory(m, groups[0])
      case Failure(e) => Rewrite(m, Some(e))
      case Success(dataSource) => ApplyMasterSlave(MasterSlaveStep(m, groups[0], dataSource), groups[1..], factory)
  }

  lemma {:induction false} ApplyMasterSlaveKeepsValid(m: LinkedMap, groups: seq<MasterSlaveRuleConfiguration>, factory: MasterSlaveFactory)
    requires m.Valid()
    ensures ApplyMasterSlave(m, groups, factory).dataSources.Valid()
    decreases |groups|
  {
    if groups != [] && factory(m, groups[0]).Success? {
      var dataSource := factory(m, groups[0]).value;
      MasterSlaveStepKeepsValid(m, groups[0], dataSource);
      ApplyMasterSlaveKeepsValid(MasterSlaveStep(m, groups[0], dataSource), groups[1..], factory);
    }
  }

  /** After a rewrite that completes, the last group's master and slaves are no longer in the map. */
  lemma {:induction false} LastGroupReplaced(m: LinkedMap, groups: seq<MasterSlaveRuleConfiguration>, factory: MasterSlaveFactory)
    requires groups != []
    requires ApplyMasterSlave(m, groups, factory).error.None?
    ensures groups[|groups| - 1].masterDataSourceName !in ApplyMasterSlave(m, groups, factory).dataSources.values
    ensures forall s <- groups[|groups| - 1].slaveDataSourceNames :: s !in ApplyMasterSlave(m, groups, factory).dataSources.values
    decreases |groups|
  {
    var dataSource := factory(m, groups[0]).value;
    var next := MasterSlaveStep(m, groups[0], dataSource);
    if |groups| == 1 {
      MasterSlaveStepEffect(m, groups[0], dataSource);
      assert ApplyMasterSlave(m, groups, factory).dataSources == next;
    } else {
      LastGroupReplaced(next, groups[1..], factory);
      assert groups[1..][|groups| - 2] == groups[|groups| - 1];
      assert ApplyMasterSlave(m, groups, factory) == ApplyMasterSlave(next, groups[1..], factory);
    }
  }

  /** Building one table rule configuration against the map m. */
  function TableRuleBuilder(m: LinkedMap, env: Collaborators): TableRuleConfiguration -> Result<TableRule> {
    (config: TableRuleConfiguration) => config.BuiltTableRule(m, env)
  }

  /** Every configuration built in order; the first exception is the one thrown. */
  function BuildEach(configs: seq<TableRuleConfiguration>, build: TableRuleConfiguration -> Result<TableRule>): (r: Result<seq<TableRule>>)
    ensures r.Success? <==> forall i :: 0 <= i < |configs| ==> build(configs[i]).Success?
    ensures r.Success? ==> |r.value| == |configs|
    ensures r.Success? ==> forall i :: 0 <= i < |configs| ==> r.value[i] == build(configs[i]).value
  {
    if configs == [] then Success([])
    else
      var n := |configs| - 1;
      match BuildEach(configs[..n], build)
      case Failure(e) => Failure(e)
      case Success(rules) =>
        match build(configs[n])
        case Failure(e) => Failure(e)
        case Success(rule) => Success(rules + [rule])
  }

  /** Building fails with the exception of the first configuration that fails. */
  lemma {:induction false} BuildEachFirstFailure(configs: seq<TableRuleConfiguration>, build: TableRuleConfiguration -> Result<TableRule>, i: nat)
    requires i < |configs|
    requires build(configs[i]).Failure?
    requires forall j :: 0 <= j < i ==> build(configs[j]).Success?
    ensures BuildEach(configs, build) == Failure(build(configs[i]).error)
  {
    var n := |configs| - 1;
    if i < n {
      BuildEachFirstFailure(configs[..n], build, i);
    } else {
      assert forall j :: 0 <= j < n ==> configs[..n][j] == configs[j];
    }
  }

  /** A sharding rule configuration as the user fills it in. */
  datatype ShardingRuleConfiguration = ShardingRuleConfiguration(
    defaultDataSourceName: Option<string>,
    tableRuleConfigs: seq<TableRuleConfiguration>,
    bindingTableGroups: seq<string>,
    defaultDatabaseShardingStrategyConfig: Option<ShardingStrategyConfiguration>,
    defaultTableShardingStrategyConfig: Option<ShardingStrategyConfiguration>,
    defaultKeyGeneratorClass: Option<string>,
    masterSlaveRuleConfigs: seq<MasterSlaveRuleConfiguration>)
  {
    /** The key generator class used: the configured one, or DefaultKeyGenerator when none is given. */
    function KeyGeneratorClassName(): string {
      defaultKeyGeneratorClass.GetOr(DefaultKeyGeneratorClassName)
    }

    /**
     * The rule that build returns for a non-null map m, or the exception it throws;
     * mapObject is the caller's map, which the rule keeps.
     */
    function BuiltShardingRule(m: LinkedMap, mapObject: DataSourceMap, env: Collaborators, factory: MasterSlaveFactory): (r: Result<ShardingRule>)
      requires m.Valid()
      ensures m.values == map[] ==> r == Failure(IllegalArgument(DataSourcesMessage))
      ensures r.Success? ==> m.values != map[] && ApplyMasterSlave(m, masterSlaveRuleConfigs, factory).error.None?
      ensures r.Success? ==>
        BuildEach(tableRuleConfigs, TableRuleBuilder(ApplyMasterSlave(m, masterSlaveRuleConfigs, factory).dataSources, env)) == Success(r.value.tableRules)
      ensures r.Success? ==>
        && r.value.dataSourceMap == mapObject
        && r.value.defaultDataSourceName == defaultDataSourceName
        && r.value.bindingTableGroups == bindingTableGroups
        && r.value.defaultDatabaseShardingStrategy == StrategyOf(defaultDatabaseShardingStrategyConfig, env)
        && r.value.defaultTableShardingStrategy == StrategyOf(defaultTableShardingStrategyConfig, env)
        && r.value.defaultKeyGenerator.className == KeyGeneratorClassName()
      ensures m.values != map[] && ApplyMasterSlave(m, masterSlaveRuleConfigs, factory).error.Some? ==>
        r == Failure(ApplyMasterSlave(m, masterSlaveRuleConfigs, factory).error.value)
      ensures r.Success? <==>
        && m.values != map[]
        && ApplyMasterSlave(m, masterSlaveRuleConfigs, factory).error.None?
        && BuildEach(tableRuleConfigs, TableRuleBuilder(ApplyMasterSlave(m, masterSlaveRuleConfigs, factory).dataSources, env)).Success?
        && env.isInstantiable(KeyGeneratorClassName())
      ensures
        (&& m.values != map[]
         && ApplyMasterSlave(m, masterSlaveRuleConfigs, factory).error.None?
         && BuildEach(tableRuleConfigs, TableRuleBuilder(ApplyMasterSlave(m, masterSlaveRuleConfigs, factory).dataSources, env)).Failure?) ==>
        r == Failure(BuildEach(tableRuleConfigs, TableRuleBuilder(ApplyMasterSlave(m, masterSlaveRuleConfigs, factory).dataSources, env)).error)
      ensures
        (&& m.values != map[]
         && ApplyMasterSlave(m, masterSlaveRuleConfigs, factory).error.None?
         && BuildEach(tableRuleConfigs, TableRuleBuilder(ApplyMasterSlave(m, masterSlaveRuleConfigs, factory).dataSources, env)).Success?
         && !env.isInstantiable(KeyGeneratorClassName())) ==>
        r == Failure(NewInstance(KeyGeneratorClassName(), env.isInstantiable).error)
    {
      if m.values == map[] then Failure(IllegalArgument(DataSourcesMessage))
      else
        var rewrite := ApplyMasterSlave(m, masterSlaveRuleConfigs, factory);
        if rewrite.error.Some? then Failure(rewrite.error.value)
        else
          match BuildEach(tableRuleConfigs, TableRuleBuilder(rewrite.dataSources, env))
          case Failure(e) => Failure(e)
          case Success(rules) =>
            match NewInstance(KeyGeneratorClassName(), env.isInstantiable)
            case Failure(e) => Failure(e)
            case Success(keyGenerator) =>
              Success(ShardingRule(mapObject, defaultDataSourceName, rules, bindingTableGroups,
                                   StrategyOf(defaultDatabaseShardingStrategyConfig, env),
                                   StrategyOf(defaultTableShardingStrategyConfig, env), keyGenerator))
    }

    /** Every data node of a built rule names a datasource of the rewritten map. */
    lemma {:induction false} TableRulesUseRewrittenMap(m: LinkedMap, mapObject: DataSourceMap, env: Collaborators, factory: MasterSlaveFactory)
      requires m.Valid()
      requires BuiltShardingRule(m, mapObject, env, factory).Success?
      ensures forall rule <- BuiltShardingRule(m, mapObject, env, factory).value.tableRules, node <- rule.actualDataNodes ::
        node.dataSourceName in ApplyMasterSlave(m, masterSlaveRuleConfigs, factory).dataSources.values
    {
      ApplyMasterSlaveKeepsValid(m, masterSlaveRuleConfigs, factory);
      var rules := BuiltShardingRule(m, mapObject, env, factory).value.tableRules;
      assert forall i :: 0 <= i < |rules| ==> rules[i] == tableRuleConfigs[i].BuiltTableRule(ApplyMasterSlave(m, masterSlaveRuleConfigs, factory).dataSources, env).value;
    }

    /** No data node of a built rule names the master or a slave of the last master/slave group. */
    lemma {:induction false} ReplacedNamesNotRouted(m: LinkedMap, mapObject: DataSourceMap, env: Collaborators, factory: MasterSlaveFactory)
      requires m.Valid() && masterSlaveRuleConfigs != []
      requires BuiltShardingRule(m, mapObject, env, factory).Success?
      ensures forall rule <- BuiltShardingRule(m, mapObject, env, factory).value.tableRules, node <- rule.actualDataNodes ::
        && node.dataSourceName != masterSlaveRuleConfigs[|masterSlaveRuleConfigs| - 1].masterDataSourceName
        && node.dataSourceName !in masterSlaveRuleConfigs[|masterSlaveRuleConfigs| - 1].slaveDataSourceNames
    {
      var rewritten := ApplyMasterSlave(m, masterSlaveRuleConfigs, factory).dataSources;
      var last := masterSlaveRuleConfigs[|masterSlaveRuleConfigs| - 1];
      TableRulesUseRewrittenMap(m, mapObject, env, factory);
      LastGroupReplaced(m, masterSlaveRuleConfigs, factory);
      forall rule <- BuiltShardingRule(m, mapObject, env, factory).value.tableRules, node <- rule.actualDataNodes
        ensures node.dataSourceName != last.masterDataSourceName && node.dataSourceName !in last.slaveDataSourceNames
      {
        assert node.dataSourceName in rewritten.values;
      }
    }

    /** processDataSourceMapWithMasterSlave: rewrites the caller's map group by group. */
    method ProcessDataSourceMapWithMasterSlave(dataSourceMap: DataSourceMap, factory: MasterSlaveFactory) returns (error: Option<Error>)
      requires dataSourceMap.Valid()
      modifies dataSourceMap
      ensures dataSourceMap.Valid()
      ensures Rewrite(dataSourceMap.contents, error) == ApplyMasterSlave(old(dataSourceMap.contents), masterSlaveRuleConfigs, factory)
    {
      ghost var initial := dataSourceMap.contents;
      var groups := masterSlaveRuleConfigs;
      var i := 0;
      while i < |groups|
        invariant 0 <= i <= |groups|
        invariant dataSourceMap.Valid()
        invariant ApplyMasterSlave(dataSourceMap.contents, groups[i..], factory) == ApplyMasterSlave(initial, groups, factory)
      {
        var each := groups[i];
        assert groups[i..][0] == each && groups[i..][1..] == groups[i + 1..];
        var created := factory(dataSourceMap.contents, each);
        if created.Failure? {
          return Some(created.error);
        }
        dataSourceMap.Put(each.name, created.value);
        dataSourceMap.Remove(each.masterDataSourceName);
        RemoveSlaves(dataSourceMap, each.slaveDataSourceNames);
        i := i + 1;
      }
      assert groups[i..] == [];
      return None;
    }

    /** The loop of build over the table rule configurations, each built against the rewritten map. */
    method BuildTableRules(dataSourceMap: DataSourceMap, env: Collaborators) returns (r: Result<seq<TableRule>>)
      requires dataSourceMap.Valid()
      ensures r == BuildEach(tableRuleConfigs, TableRuleBuilder(dataSourceMap.contents, env))
    {
      var tableRules: seq<TableRule> := [];
      var i := 0;
      while i < |tableRuleConfigs|
        invariant 0 <= i <= |tableRuleConfigs|
        invariant BuildEach(tableRuleConfigs[..i], TableRuleBuilder(dataSourceMap.contents, env)) == Success(tableRules)
      {
        var each := tableRuleConfigs[i];
        assert tableRuleConfigs[..i + 1][..i] == tableRuleConfigs[..i];
        var built := each.Build(dataSourceMap, env);
        if built.Failure? {
          assert forall j :: 0 <= j < i ==> tableRuleConfigs[..i][j] == tableRuleConfigs[j];
          BuildEachFirstFailure(tableRuleConfigs, TableRuleBuilder(dataSourceMap.contents, env), i);
          return Failure(built.error);
        }
        tableRules := tableRules + [built.value];
        i := i + 1;
      }
      assert tableRuleConfigs[..i] == tableRuleConfigs;
      return Success(tableRules);
    }

    /** build(dataSourceMap): checks, the in-place rewrite, then the table rules and the defaults. */
    method Build(dataSourceMap: DataSourceMap?, env: Collaborators, factory: MasterSlaveFactory) returns (r: Result<ShardingRule>)
      requires dataSourceMap != null ==> dataSourceMap.Valid()
      modifies dataSourceMap
      ensures dataSourceMap == null ==> r == Failure(NullPointer(DataSourcesMessage))
      ensures dataSourceMap != null ==> dataSourceMap.Valid()
      ensures dataSourceMap != null ==> r == BuiltShardingRule(old(dataSourceMap.contents), dataSourceMap, env, factory)
      ensures dataSourceMap != null ==>
        dataSourceMap.contents ==
          if old(dataSourceMap.contents.values) == map[] then old(dataSourceMap.contents)
          else ApplyMasterSlave(old(dataSourceMap.contents), masterSlaveRuleConfigs, factory).dataSources
    {
      if dataSourceMap == null {
        return Failure(NullPointer(DataSourcesMessage));
      }
      if dataSourceMap.contents.values == map[] {
        return Failure(IllegalArgument(DataSourcesMessage));
      }
      var error := ProcessDataSourceMapWithMasterSlave(dataSourceMap, factory);
      if error.Some? {
        return Failure(error.value);
      }
      var tableRules := BuildTableRules(dataSourceMap, env);
      if tableRules.Failure? {
        return Failure(tableRules.error);
      }
      var defaultDatabaseShardingStrategy := StrategyOf(defaultDatabaseShardingStrategyConfig, env);
      var defaultTableShardingStrategy := StrategyOf(defaultTableShardingStrategyConfig, env);
      var keyGenerator := NewInstance(if defaultKeyGeneratorClass.None? then DefaultKeyGeneratorClassName else defaultKeyGeneratorClass.value, env.isInstantiable);
      if keyGenerator.Failure? {
        return Failure(keyGenerator.error);
      }
      return Success(ShardingRule(dataSourceMap, defaultDataSourceName, tableRules.value, bindingTableGroups,
                                  defaultDatabaseShardingStrategy, defaultTableShardingStrategy, keyGenerator.value));
    }
  }
}
