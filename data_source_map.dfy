/**
 * The caller's name-to-datasource map (Map<String, DataSource>). Rule building reads its
 * keys in iteration order and the master/slave step rewrites it in place, so it is a
 * class over an insertion-ordered map value, iterated as java.util.LinkedHashMap does.
 */
module DataSourceMaps {
  import opened Sequences

  /** A physical datasource handle (javax.sql.DataSource); only its identity matters. */
  datatype DataSource = DataSource(id: nat)

  /** s without k, the other names in their order. */
  function Without(s: seq<string>, k: string): (r: seq<string>)
    ensures k !in r
    ensures forall x <- s :: x != k ==> x in r
    ensures forall x <- r :: x in s
    ensures NoDuplicates(s) ==> NoDuplicates(r)
  {
    if s == [] then []
    else if s[0] == k then Without(s[1..], k)
    else
      var rest := Without(s[1..], k);
      assert NoDuplicates(s) ==> s[0] !in s[1..] && NoDuplicates(s[1..]);
      [s[0]] + rest
  }

  /** A map whose keys iterate in insertion order. */
  datatype LinkedMap = LinkedMap(keys: seq<string>, values: map<string, DataSource>) {

    /** Each key is listed once, and the listed keys are exactly the mapped ones. */
    ghost predicate Valid() {
      && NoDuplicates(keys)
      && (forall k <- keys :: k in values)
      && (forall k <- values :: k in keys)
    }

    /** Map.put: a new key goes last, an existing key keeps its place and gets the new value. */
    function Put(k: string, v: DataSource): (r: LinkedMap)
      ensures r.values == values[k := v]
      ensures k in values ==> r.keys == keys
      ensures k !in values ==> r.keys == keys + [k]
    {
      LinkedMap(if k in values then keys else keys + [k], values[k := v])
    }

    /** Map.remove: drops k, if present, and keeps the order of the other keys. */
    function Remove(k: string): (r: LinkedMap)
      ensures r.values == values - {k}
      ensures k !in r.keys
      ensures forall x <- keys :: x != k ==> x in r.keys
      ensures forall x <- r.keys :: x in keys
    {
      LinkedMap(Without(keys, k), values - {k})
    }
  }

  lemma {:induction false} PutKeepsValid(m: LinkedMap, k: string, v: DataSource)
    requires m.Valid()
    ensures m.Put(k, v).Valid()
  {
  }

  lemma {:induction false} RemoveKeepsValid(m: LinkedMap, k: string)
    requires m.Valid()
    ensures m.Remove(k).Valid()
  {
  }

  /** The caller's map object; rule building may rewrite it in place. */
  class DataSourceMap {
    var contents: LinkedMap

    ghost predicate Valid()
      reads this
    {
      contents.Valid()
    }

    constructor (initial: LinkedMap)
      requires initial.Valid()
      ensures Valid() && contents == initial
    {
      contents := initial;
    }

    method Put(name: string, dataSource: DataSource)
      requires Valid()
      modifies this
      ensures Valid() && contents == old(contents).Put(name, dataSource)
    {
      PutKeepsValid(contents, name, dataSource);
      contents := contents.Put(name, dataSource);
    }

    method Remove(name: string)
      requires Valid()
      modifies this
      ensures Valid() && contents == old(contents).Remove(name)
    {
      RemoveKeepsValid(contents, name);
      contents := contents.Remove(name);
    }
  }
}
