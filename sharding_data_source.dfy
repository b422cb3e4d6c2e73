/**
 * ShardingDataSource: owns the sharding properties, the executor engine and the context
 * handed to every connection, and swaps them on renew.
 */
module ShardingDataSources {
  import opened Results
  import opened Rule
  import opened Contexts

  /** java.util.Properties. */
  type Properties = map<string, string>

  /**
   * ShardingProperties.getValue for the two properties the datasource reads; the parsing
   * of property text is not part of this model.
   */
  datatype PropertyReader = PropertyReader(executorSize: Properties -> int, showSql: Properties -> bool)

  class ShardingDataSource {
    const databaseType: DatabaseType
    const reader: PropertyReader
    var shardingProperties: Properties
    var executorEngine: ExecutorEngine
    var shardingContext: ShardingContext

    /** The context holds the current engine, whose size is the configured executor size. */
    ghost predicate Valid()
      reads this
    {
      && shardingContext.executorEngine == executorEngine
      && shardingContext.databaseType == databaseType
      && executorEngine.executorSize == reader.executorSize(shardingProperties)
    }

    /** ShardingDataSource(shardingRule, configMap, props); a null props is None. */
    constructor (shardingRule: ShardingRule, props: Option<Properties>, databaseType: DatabaseType, reader: PropertyReader)
      ensures Valid()
      ensures this.databaseType == databaseType && this.reader == reader
      ensures shardingProperties == props.GetOr(map[])
      ensures fresh(executorEngine) && !executorEngine.closed
      ensures shardingContext == ShardingContext(shardingRule, databaseType, executorEngine, reader.showSql(shardingProperties))
    {
      this.databaseType := databaseType;
      this.reader := reader;
      var properties := props.GetOr(map[]);
      shardingProperties := properties;
      var engine := new ExecutorEngine(reader.executorSize(properties));
      executorEngine := engine;
      shardingContext := ShardingContext(shardingRule, databaseType, engine, reader.showSql(properties));
    }

    /** renew: a new engine only when the executor size changes; always a new context. */
    method Renew(newShardingRule: ShardingRule, newProps: Option<Properties>)
      requires Valid()
      modifies this, executorEngine
      ensures Valid()
      ensures shardingProperties == newProps.GetOr(map[])
      ensures reader.executorSize(shardingProperties) == reader.executorSize(old(shardingProperties)) ==>
        executorEngine == old(executorEngine) && unchanged(executorEngine)
      ensures reader.executorSize(shardingProperties) != reader.executorSize(old(shardingProperties)) ==>
        old(executorEngine).closed && fresh(executorEngine) && !executorEngine.closed
      ensures shardingContext == ShardingContext(newShardingRule, databaseType, executorEngine, reader.showSql(shardingProperties))
    {
      var newShardingProperties := newProps.GetOr(map[]);
      var originalExecutorSize := reader.executorSize(shardingProperties);
      var newExecutorSize := reader.executorSize(newShardingProperties);
      if originalExecutorSize != newExecutorSize {
        executorEngine.Close();
        executorEngine := new ExecutorEngine(newExecutorSize);
      }
      var newShowSql := reader.showSql(newShardingProperties);
      shardingProperties := newShardingProperties;
      shardingContext := ShardingContext(newShardingRule, databaseType, executorEngine, newShowSql);
    }

    /** getConnection: a new logical connection over the current context. */
    method GetConnection() returns (connection: ShardingConnection)
      ensures connection.shardingContext == shardingContext
    {
      connection := ShardingConnection(shardingContext);
    }

    /** close: closes the current engine and nothing else. */
    method Close()
      modifies executorEngine
      ensures executorEngine.closed
    {
      executorEngine.Close();
    }
  }
}
