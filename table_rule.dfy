/**
 * The rule model: a table rule's ordered data nodes and the lookups over them
 * (TableRule.java), and the sharding rule record the configuration builds.
 */
module Rule {
  import opened Results
  import opened Sequences
  import opened DataSourceMaps
  import opened KeyGenerators

  /** One physical location of a logic table: a datasource and a table in it. */
  datatype DataNode = DataNode(dataSourceName: string, tableName: string)

  /** A built sharding strategy; only its identity matters here. */
  datatype ShardingStrategy = ShardingStrategy(id: nat)

  /** DataNode.isValidDataNode and new DataNode(String); their source is not part of this model. */
  datatype DataNodeParser = DataNodeParser(isValidDataNode: string -> bool, newDataNode: string -> DataNode)

  function InvalidFormat(nodeString: string): Error {
    IllegalArgument("Invalid format for actual data nodes: '" + nodeString + "'")
  }

  function UnknownDataSource(nodeString: string): Error {
    IllegalArgument("Cannot find data source name in sharding rule, invalid actual data node is: '" + nodeString + "'")
  }

  /** The two argument checks one node string must pass; None when it passes both. */
  function NodeStringError(nodeString: string, dataSourceMap: LinkedMap, parser: DataNodeParser): Option<Error> {
    if !parser.isValidDataNode(nodeString) then Some(InvalidFormat(nodeString))
    else if parser.newDataNode(nodeString).dataSourceName !in dataSourceMap.values then Some(UnknownDataSource(nodeString))
    else None
  }

  /** String i is the first one rejected by the argument checks. */
  predicate FirstRejected(nodeStrings: seq<string>, i: int, dataSourceMap: LinkedMap, parser: DataNodeParser) {
    && 0 <= i < |nodeStrings|
    && NodeStringError(nodeStrings[i], dataSourceMap, parser).Some?
    && forall j :: 0 <= j < i ==> NodeStringError(nodeStrings[j], dataSourceMap, parser).None?
  }

  /** Without node strings: one node per datasource name, in the given order, each holding the logic table. */
  function DefaultDataNodes(logicTable: string, dataSourceNames: seq<string>): (r: seq<DataNode>)
    ensures |r| == |dataSourceNames|
    ensures forall i :: 0 <= i < |r| ==> r[i] == DataNode(dataSourceNames[i], logicTable)
  {
    if dataSourceNames == [] then []
    else
      var n := |dataSourceNames| - 1;
      DefaultDataNodes(logicTable, dataSourceNames[..n]) + [DataNode(dataSourceNames[n], logicTable)]
  }

  /** With node strings: each string parsed, in input order, once every string passes the checks. */
  function ParsedDataNodes(nodeStrings: seq<string>, dataSourceMap: LinkedMap, parser: DataNodeParser): (r: Result<seq<DataNode>>)
    ensures r.Success? <==> forall i :: 0 <= i < |nodeStrings| ==> NodeStringError(nodeStrings[i], dataSourceMap, parser).None?
    ensures r.Success? ==> |r.value| == |nodeStrings|
    ensures r.Success? ==> forall i :: 0 <= i < |nodeStrings| ==> r.value[i] == parser.newDataNode(nodeStrings[i])
  {
    if nodeStrings == [] then Success([])
    else
      var n := |nodeStrings| - 1;
      match ParsedDataNodes(nodeStrings[..n], dataSourceMap, parser)
      case Failure(e) => Failure(e)
      case Success(nodes) =>
        match NodeStringError(nodeStrings[n], dataSourceMap, parser)
        case Some(e) => Failure(e)
        case None => Success(nodes + [parser.newDataNode(nodeStrings[n])])
  }

  /** A string rejected first in nodeStrings is rejected first in any prefix that holds it. */
  lemma {:induction false} FirstRejectedInPrefix(nodeStrings: seq<string>, i: int, n: nat, dataSourceMap: LinkedMap, parser: DataNodeParser)
    requires FirstRejected(nodeStrings, i, dataSourceMap, parser) && i < n <= |nodeStrings|
    ensures FirstRejected(nodeStrings[..n], i, dataSourceMap, parser)
  {
    var prefix := nodeStrings[..n];
    assert prefix[i] == nodeStrings[i];
    forall j | 0 <= j < i
      ensures NodeStringError(prefix[j], dataSourceMap, parser).None?
    {
      assert prefix[j] == nodeStrings[j];
    }
  }

  /** Every string before the first rejected one parses. */
  lemma {:induction false} ParsedBeforeFirstRejected(nodeStrings: seq<string>, i: int, dataSourceMap: LinkedMap, parser: DataNodeParser)
    requires FirstRejected(nodeStrings, i, dataSourceMap, parser)
    ensures ParsedDataNodes(nodeStrings[..i], dataSourceMap, parser).Success?
  {
    var prefix := nodeStrings[..i];
    forall j | 0 <= j < i
      ensures NodeStringError(prefix[j], dataSourceMap, parser).None?
    {
      assert prefix[j] == nodeStrings[j];
    }
  }

  /** Building fails with the error of the first rejected node string. */
  lemma {:induction false} ParsedDataNodesRejectsFirst(nodeStrings: seq<string>, i: int, dataSourceMap: LinkedMap, parser: DataNodeParser)
    requires FirstRejected(nodeStrings, i, dataSourceMap, parser)
    ensures ParsedDataNodes(nodeStrings, dataSourceMap, parser) == Failure(NodeStringError(nodeStrings[i], dataSourceMap, parser).value)
  {
    var n := |nodeStrings| - 1;
    if i < n {
      FirstRejectedInPrefix(nodeStrings, i, n, dataSourceMap, parser);
      ParsedDataNodesRejectsFirst(nodeStrings[..n], i, dataSourceMap, parser);
      assert nodeStrings[..n][i] == nodeStrings[i];
    } else {
      ParsedBeforeFirstRejected(nodeStrings, i, dataSourceMap, parser);
    }
  }

  /** The node list of TableRule's constructor: defaults when the strings are null or empty. */
  function ActualDataNodesFor(logicTable: string, actualDataNodes: Option<seq<string>>, dataSourceMap: LinkedMap, parser: DataNodeParser): (r: Result<seq<DataNode>>)
    ensures dataSourceMap.Valid() && r.Success? ==> forall node <- r.value :: node.dataSourceName in dataSourceMap.values
    ensures r.Success? && (dataSourceMap.keys != [] || (actualDataNodes.Some? && actualDataNodes.value != [])) ==> r.value != []
  {
    if actualDataNodes.None? || actualDataNodes.value == [] then Success(DefaultDataNodes(logicTable, dataSourceMap.keys))
    else ParsedDataNodes(actualDataNodes.value, dataSourceMap, parser)
  }

  /** The datasource name of every node, in node order. */
  function DataSourceNameList(nodes: seq<DataNode>): (r: seq<string>)
    ensures |r| == |nodes|
    ensures forall i :: 0 <= i < |nodes| ==> r[i] == nodes[i].dataSourceName
  {
    if nodes == [] then []
    else DataSourceNameList(nodes[..|nodes| - 1]) + [nodes[|nodes| - 1].dataSourceName]
  }

  /** The table name of every node on the datasource (String.equals), in node order. */
  function TableNameList(nodes: seq<DataNode>, dataSourceName: string): (r: seq<string>)
    ensures forall t <- r :: DataNode(dataSourceName, t) in nodes
    ensures forall node <- nodes :: node.dataSourceName == dataSourceName ==> node.tableName in r
  {
    if nodes == [] then []
    else
      var n := |nodes| - 1;
      assert nodes == nodes[..n] + [nodes[n]];
      var last := nodes[n];
      TableNameList(nodes[..n], dataSourceName) + (if last.dataSourceName == dataSourceName then [last.tableName] else [])
  }

  /** getActualDatasourceNames: the LinkedHashSet of the nodes' datasource names. */
  function DataSourceNamesOf(nodes: seq<DataNode>): (r: seq<string>)
    ensures NoDuplicates(r)
    ensures forall node <- nodes :: node.dataSourceName in r
    ensures forall name <- r :: exists i :: 0 <= i < |nodes| && nodes[i].dataSourceName == name
  {
    var names := DataSourceNameList(nodes);
    var r := AddAllDistinct([], names);
    assert forall name <- names :: exists i :: 0 <= i < |nodes| && nodes[i].dataSourceName == name;
    r
  }

  /** getActualTableNames: the LinkedHashSet of the table names on one datasource. */
  function TableNamesOf(nodes: seq<DataNode>, dataSourceName: string): (r: seq<string>)
    ensures NoDuplicates(r)
    ensures forall t <- r :: DataNode(dataSourceName, t) in nodes
    ensures forall node <- nodes :: node.dataSourceName == dataSourceName ==> node.tableName in r
  {
    AddAllDistinct([], TableNameList(nodes, dataSourceName))
  }

  /** Datasource names are listed in order of first occurrence among the nodes. */
  lemma {:induction false} DataSourceNamesKeepFirstOccurrenceOrder(nodes: seq<DataNode>, k: nat)
    requires k <= |nodes|
    ensures DataSourceNamesOf(nodes[..k]) <= DataSourceNamesOf(nodes)
  {
    assert DataSourceNameList(nodes[..k]) == DataSourceNameList(nodes)[..k];
    AddAllDistinctPrefix([], DataSourceNameList(nodes), k);
  }

  /** The table names on a datasource of a prefix of the nodes come first, in node order. */
  lemma {:induction false} TableNameListPrefix(nodes: seq<DataNode>, dataSourceName: string, k: nat)
    requires k <= |nodes|
    ensures TableNameList(nodes[..k], dataSourceName) <= TableNameList(nodes, dataSourceName)
    decreases |nodes| - k
  {
    if k == |nodes| {
      assert nodes[..k] == nodes;
    } else {
      var n := |nodes| - 1;
      assert nodes[..n][..k] == nodes[..k];
      TableNameListPrefix(nodes[..n], dataSourceName, k);
    }
  }

  /** Table names are listed in order of first occurrence among the nodes on the datasource. */
  lemma {:induction false} TableNamesKeepFirstOccurrenceOrder(nodes: seq<DataNode>, dataSourceName: string, k: nat)
    requires k <= |nodes|
    ensures TableNamesOf(nodes[..k], dataSourceName) <= TableNamesOf(nodes, dataSourceName)
  {
    var names := TableNameList(nodes, dataSourceName);
    var prefix := TableNameList(nodes[..k], dataSourceName);
    TableNameListPrefix(nodes, dataSourceName, k);
    assert names[..|prefix|] == prefix;
    AddAllDistinctPrefix([], names, |prefix|);
  }

  /** ASCII case folding, the part of Character.toLowerCase the model keeps. */
  function ToLowerAscii(c: char): char {
    if 'A' <= c <= 'Z' then (c as int - 'A' as int + 'a' as int) as char else c
  }

  /** String.equalsIgnoreCase, with ASCII folding only. */
  predicate EqualsIgnoreCase(a: string, b: string) {
    |a| == |b| && forall i :: 0 <= i < |a| ==> ToLowerAscii(a[i]) == ToLowerAscii(b[i])
  }

  predicate NodeMatchesIgnoreCase(node: DataNode, dataSourceName: string, tableName: string) {
    EqualsIgnoreCase(node.dataSourceName, dataSourceName) && EqualsIgnoreCase(node.tableName, tableName)
  }

  /** A built table rule; every field is final in the source. */
  datatype TableRule = TableRule(
    logicTable: string,
    actualDataNodes: seq<DataNode>,
    databaseShardingStrategy: Option<ShardingStrategy>,
    tableShardingStrategy: Option<ShardingStrategy>,
    generateKeyColumn: Option<string>,
    keyGenerator: Option<KeyGenerator>,
    logicIndex: Option<string>)
  {
    method GetActualDatasourceNames() returns (result: seq<string>)
      ensures result == DataSourceNamesOf(actualDataNodes)
    {
      ghost var names := DataSourceNameList(actualDataNodes);
      result := [];
      var i := 0;
      while i < |actualDataNodes|
        invariant 0 <= i <= |actualDataNodes|
        invariant result == AddAllDistinct([], names[..i])
      {
        AddAllDistinctStep([], names, i);
        result := AddDistinct(result, actualDataNodes[i].dataSourceName);
        i := i + 1;
      }
      assert names[..i] == names;
    }

    method GetActualTableNames(targetDataSource: string) returns (result: seq<string>)
      ensures result == TableNamesOf(actualDataNodes, targetDataSource)
    {
      result := [];
      var i := 0;
      while i < |actualDataNodes|
        invariant 0 <= i <= |actualDataNodes|
        invariant result == TableNamesOf(actualDataNodes[..i], targetDataSource)
      {
        var tables := TableNameList(actualDataNodes[..i], targetDataSource);
        assert actualDataNodes[..i + 1][..i] == actualDataNodes[..i];
        if targetDataSource == actualDataNodes[i].dataSourceName {
          assert TableNameList(actualDataNodes[..i + 1], targetDataSource) == tables + [actualDataNodes[i].tableName];
          assert (tables + [actualDataNodes[i].tableName])[..|tables|] == tables;
          result := AddDistinct(result, actualDataNodes[i].tableName);
        } else {
          assert TableNameList(actualDataNodes[..i + 1], targetDataSource) == tables + [];
          assert tables + [] == tables;
        }
        i := i + 1;
      }
      assert actualDataNodes[..i] == actualDataNodes;
    }

    /** The first node matching both names case-insensitively, or -1. */
    method FindActualTableIndex(dataSourceName: string, actualTableName: string) returns (result: int)
      ensures -1 <= result < |actualDataNodes|
      ensures result >= 0 ==> NodeMatchesIgnoreCase(actualDataNodes[result], dataSourceName, actualTableName)
      ensures result >= 0 ==> forall j :: 0 <= j < result ==> !NodeMatchesIgnoreCase(actualDataNodes[j], dataSourceName, actualTableName)
      ensures result == -1 <==> forall j :: 0 <= j < |actualDataNodes| ==> !NodeMatchesIgnoreCase(actualDataNodes[j], dataSourceName, actualTableName)
    {
      result := 0;
      while result < |actualDataNodes|
        invariant 0 <= result <= |actualDataNodes|
        invariant forall j :: 0 <= j < result ==> !NodeMatchesIgnoreCase(actualDataNodes[j], dataSourceName, actualTableName)
      {
        var each := actualDataNodes[result];
        if EqualsIgnoreCase(each.dataSourceName, dataSourceName) && EqualsIgnoreCase(each.tableName, actualTableName) {
          return;
        }
        result := result + 1;
      }
      return -1;
    }
  }

  /** TableRule's constructor: the arguments kept as given, the node list generated and checked. */
  function BuildTableRule(
    logicTable: string, actualDataNodes: Option<seq<string>>, dataSourceMap: LinkedMap, parser: DataNodeParser,
    databaseShardingStrategy: Option<ShardingStrategy>, tableShardingStrategy: Option<ShardingStrategy>,
    generateKeyColumn: Option<string>, keyGenerator: Option<KeyGenerator>, logicIndex: Option<string>): (r: Result<TableRule>)
    ensures r.Success? <==> ActualDataNodesFor(logicTable, actualDataNodes, dataSourceMap, parser).Success?
    ensures r.Success? ==>
      && r.value.actualDataNodes == ActualDataNodesFor(logicTable, actualDataNodes, dataSourceMap, parser).value
      && r.value.logicTable == logicTable
      && r.value.databaseShardingStrategy == databaseShardingStrategy
      && r.value.tableShardingStrategy == tableShardingStrategy
      && r.value.generateKeyColumn == generateKeyColumn
      && r.value.keyGenerator == keyGenerator
      && r.value.logicIndex == logicIndex
    ensures r.Failure? ==> r.error == ActualDataNodesFor(logicTable, actualDataNodes, dataSourceMap, parser).error
  {
    match ActualDataNodesFor(logicTable, actualDataNodes, dataSourceMap, parser)
    case Failure(e) => Failure(e)
    case Success(nodes) =>
      Success(TableRule(logicTable, nodes, databaseShardingStrategy, tableShardingStrategy, generateKeyColumn, keyGenerator, logicIndex))
  }

  /** TableRule's constructor as the source runs it, with its two node-generating loops. */
  method NewTableRule(
    logicTable: string, actualDataNodes: Option<seq<string>>, dataSourceMap: DataSourceMap, parser: DataNodeParser,
    databaseShardingStrategy: Option<ShardingStrategy>, tableShardingStrategy: Option<ShardingStrategy>,
    generateKeyColumn: Option<string>, keyGenerator: Option<KeyGenerator>, logicIndex: Option<string>)
    returns (r: Result<TableRule>)
    requires dataSourceMap.Valid()
    ensures r == BuildTableRule(logicTable, actualDataNodes, dataSourceMap.contents, parser,
                                databaseShardingStrategy, tableShardingStrategy, generateKeyColumn, keyGenerator, logicIndex)
  {
    var nodes: Result<seq<DataNode>>;
    if actualDataNodes.None? || actualDataNodes.value == [] {
      var defaults := GenerateDefaultDataNodes(logicTable, dataSourceMap);
      nodes := Success(defaults);
    } else {
      nodes := GenerateDataNodes(actualDataNodes.value, dataSourceMap, parser);
    }
    if nodes.Failure? {
      return Failure(nodes.error);
    }
    return Success(TableRule(logicTable, nodes.value, databaseShardingStrategy, tableShardingStrategy, generateKeyColumn, keyGenerator, logicIndex));
  }

  /** generateDataNodes(logicTable, dataSourceMap): a loop over the map's keys. */
  method GenerateDefaultDataNodes(logicTable: string, dataSourceMap: DataSourceMap) returns (result: seq<DataNode>)
    requires dataSourceMap.Valid()
    ensures result == DefaultDataNodes(logicTable, dataSourceMap.contents.keys)
  {
    result := [];
    var keys := dataSourceMap.contents.keys;
    var i := 0;
    while i < |keys|
      invariant 0 <= i <= |keys|
      invariant result == DefaultDataNodes(logicTable, keys[..i])
    {
      assert keys[..i + 1][..i] == keys[..i];
      result := result + [DataNode(keys[i], logicTable)];
      i := i + 1;
    }
    assert keys[..i] == keys;
  }

  /** generateDataNodes(actualDataNodes, dataSourceMap): parse and check each string in turn. */
  method GenerateDataNodes(actualDataNodes: seq<string>, dataSourceMap: DataSourceMap, parser: DataNodeParser)
    returns (result: Result<seq<DataNode>>)
    requires dataSourceMap.Valid()
    ensures result == ParsedDataNodes(actualDataNodes, dataSourceMap.contents, parser)
  {
    var nodes: seq<DataNode> := [];
    var i := 0;
    while i < |actualDataNodes|
      invariant 0 <= i <= |actualDataNodes|
      invariant ParsedDataNodes(actualDataNodes[..i], dataSourceMap.contents, parser) == Success(nodes)
    {
      var each := actualDataNodes[i];
      assert forall j :: 0 <= j < i ==> actualDataNodes[..i][j] == actualDataNodes[j];
      if !parser.isValidDataNode(each) {
        ParsedDataNodesRejectsFirst(actualDataNodes, i, dataSourceMap.contents, parser);
        return Failure(InvalidFormat(each));
      }
      var dataNode := parser.newDataNode(each);
      if dataNode.dataSourceName !in dataSourceMap.contents.values {
        ParsedDataNodesRejectsFirst(actualDataNodes, i, dataSourceMap.contents, parser);
        return Failure(UnknownDataSource(each));
      }
      assert actualDataNodes[..i + 1][..i] == actualDataNodes[..i];
      nodes := nodes + [dataNode];
      i := i + 1;
    }
    assert actualDataNodes[..i] == actualDataNodes;
    return Success(nodes);
  }

  /** The sharding rule record that configuration building produces (ShardingRule's own source is not part of this model). */
  datatype ShardingRule = ShardingRule(
    dataSourceMap: DataSourceMap,
    defaultDataSourceName: Option<string>,
    tableRules: seq<TableRule>,
    bindingTableGroups: seq<string>,
    defaultDatabaseShardingStrategy: Option<ShardingStrategy>,
    defaultTableShardingStrategy: Option<ShardingStrategy>,
    defaultKeyGenerator: KeyGenerator)
}
