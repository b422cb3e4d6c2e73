/** The runtime context a sharding datasource hands to its connections (ShardingContext.java). */
module Contexts {
  import opened Rule

  /** The database product, detected from the physical datasources by the adapter superclass. */
  datatype DatabaseType = DatabaseType(name: string)

  /**
   * The executor engine that runs the per-shard tasks. Its thread pool is not modelled:
   * it keeps only the size it was created with and whether it was closed.
   */
  class ExecutorEngine {
    const executorSize: int
    var closed: bool

    constructor (executorSize: int)
      ensures this.executorSize == executorSize && !closed
    {
      this.executorSize := executorSize;
      closed := false;
    }

    method Close()
      modifies this
      ensures closed
    {
      closed := true;
    }
  }

  /** ShardingContext: an immutable record. */
  datatype ShardingContext = ShardingContext(
    shardingRule: ShardingRule,
    databaseType: DatabaseType,
    executorEngine: ExecutorEngine,
    showSql: bool)

  /** A logical connection; only the context it was opened with is modelled. */
  datatype ShardingConnection = ShardingConnection(shardingContext: ShardingContext)
}
