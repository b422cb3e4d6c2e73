/** The sharding property keys, their defaults and the lookup by key (ShardingPropertiesConstant.java). */
module PropertiesConstants {
  import opened Results

  /** The Java type a property's value is read as. */
  datatype PropertyType = BooleanType | IntType

  datatype ShardingPropertiesConstant = SqlShow | ExecutorSize {

    function Key(): string {
      match this
      case SqlShow => "sql.show"
      case ExecutorSize => "executor.size"
    }

    /**
     * The default value as text; the executor size defaults to the processor count,
     * which the runtime reports and is a parameter here.
     */
    function DefaultValue(availableProcessors: nat): string {
      match this
      case SqlShow => "false"
      case ExecutorSize => DecimalString(availableProcessors)
    }

    function Type(): PropertyType {
      match this
      case SqlShow => BooleanType
      case ExecutorSize => IntType
    }
  }

  /** values(), in declaration order. */
  const Values: seq<ShardingPropertiesConstant> := [SqlShow, ExecutorSize]

  /** The first constant of values whose key equals key, exactly and case-sensitively. */
  function FindIn(values: seq<ShardingPropertiesConstant>, key: string): (r: Option<ShardingPropertiesConstant>)
    ensures r.Some? ==> r.value in values && r.value.Key() == key
    ensures r.None? <==> forall c <- values :: c.Key() != key
  {
    if values == [] then None
    else if values[0].Key() == key then Some(values[0])
    else FindIn(values[1..], key)
  }

  /** findByKey: the constant with the given key, or null. */
  function FindByKey(key: string): (r: Option<ShardingPropertiesConstant>)
    ensures r.Some? ==> r.value.Key() == key
    ensures forall c: ShardingPropertiesConstant :: c.Key() == key ==> r == Some(c)
    ensures r.None? <==> key != "sql.show" && key != "executor.size"
  {
    assert Values[0].Key() == "sql.show" && Values[1].Key() == "executor.size";
    FindIn(Values, key)
  }

  /** One decimal digit. */
  function Digit(d: nat): char
    requires d < 10
  {
    "0123456789"[d]
  }

  /** String.valueOf of a non-negative int: its decimal digits, most significant first. */
  function DecimalString(n: nat): (r: string)
    ensures r != []
    ensures AllDigits(r)
  {
    if n < 10 then [Digit(n)] else DecimalString(n / 10) + [Digit(n % 10)]
  }

  predicate AllDigits(s: string) {
    forall i :: 0 <= i < |s| ==> '0' <= s[i] <= '9'
  }

  /** The value of a string of decimal digits (Integer.parseInt on such a string). */
  function DecimalValue(s: string): nat
    requires AllDigits(s)
  {
    if s == [] then 0
    else
      assert AllDigits(s[..|s| - 1]);
      DecimalValue(s[..|s| - 1]) * 10 + (s[|s| - 1] as int - '0' as int)
  }

  /** The executor-size default reads back as the processor count it was written from. */
  lemma {:induction false} DecimalRoundTrip(n: nat)
    ensures DecimalValue(DecimalString(n)) == n
  {
    if n >= 10 {
      DecimalRoundTrip(n / 10);
      var s := DecimalString(n);
      assert s[..|s| - 1] == DecimalString(n / 10);
    }
  }

  /**
   * The defaults as the properties reader parses them: sql.show is the boolean false, and
   * executor.size is the processor count.
   */
  lemma {:induction false} DefaultValueReadsBack(c: ShardingPropertiesConstant, availableProcessors: nat)
    ensures c == SqlShow ==> c.Type() == BooleanType && c.DefaultValue(availableProcessors) == "false"
    ensures c == ExecutorSize ==>
      && c.Type() == IntType
      && AllDigits(c.DefaultValue(availableProcessors))
      && DecimalValue(c.DefaultValue(availableProcessors)) == availableProcessors
  {
    if c == ExecutorSize {
      DecimalRoundTrip(availableProcessors);
    }
  }
}
