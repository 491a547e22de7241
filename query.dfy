/** Query and params values as src/util/route.js sees them: JSON-like data
    compared by `isObjectEqual` (sorted key lists, `null`/`undefined` by
    identity, nested objects recursively, everything else by `String(...)`)
    and deep-copied by `clone`. */
module QueryValues {
  import opened Optional

  /** A query or params value. `List` is a JavaScript array and `Obj` a
      plain object; numbers are integers, written exactly by `String(...)`
      only within the safe-integer range (see `IsSafeInteger`). */
  datatype QueryValue =
    | Str(s: string)
    | Num(n: int)
    | Bool(b: bool)
    | Null
    | Undefined
    | List(items: seq<QueryValue>)
    | Obj(entries: map<string, QueryValue>)

  /** `route.query` and `route.params`: a plain object. */
  type Query = map<string, QueryValue>

  /** `typeof v === 'object'` for a value that is not `null`. */
  predicate IsObject(v: QueryValue) {
    v.List? || v.Obj?
  }

  /** `Number.MAX_SAFE_INTEGER`, 2^53 - 1. */
  const MaxSafeInteger: int := 9007199254740991

  /** A number a double holds exactly and `String(...)` writes as its full
      decimal numeral. Beyond this range a double rounds and its `String`
      is its shortest round-tripping numeral, or exponent form from 1e21 on,
      which the model does not express. */
  predicate IsSafeInteger(n: int) {
    -MaxSafeInteger <= n <= MaxSafeInteger
  }

  /** `v == null`. */
  predicate IsNullish(v: QueryValue) {
    v.Null? || v.Undefined?
  }

  // ---------------------------------------------------------------------------
  // String(...)
  // ---------------------------------------------------------------------------

  function DigitChar(d: nat): char
    requires d < 10
  {
    "0123456789"[d]
  }

  /** The decimal numeral of `n`, without leading zeros. */
  function NatToString(n: nat): (s: string)
    ensures |s| > 0
    ensures forall i :: 0 <= i < |s| ==> '0' <= s[i] <= '9'
    ensures |s| > 1 ==> s[0] != '0'
  {
    if n < 10 then [DigitChar(n)] else NatToString(n / 10) + [DigitChar(n % 10)]
  }

  /** Distinct numbers have distinct numerals, so an array key names one index. */
  lemma {:induction false} NatToStringInjective(a: nat, b: nat)
    ensures NatToString(a) == NatToString(b) ==> a == b
    decreases a
  {
    var sa, sb := NatToString(a), NatToString(b);
    if sa == sb {
      if a >= 10 && b >= 10 {
        assert sa[..|sa| - 1] == NatToString(a / 10);
        assert sb[..|sb| - 1] == NatToString(b / 10);
        NatToStringInjective(a / 10, b / 10);
        assert DigitChar(a % 10) == sa[|sa| - 1] == DigitChar(b % 10);
      } else if a < 10 && b < 10 {
        assert DigitChar(a) == DigitChar(b);
      }
    }
  }

  function IntToString(n: int): string {
    if n < 0 then "-" + NatToString(-n) else NatToString(n)
  }

  /** `String(v)`. An array is its elements joined by `,`, with `null` and
      `undefined` elements written as the empty string. */
  function JsString(v: QueryValue): string
    decreases v, 1
  {
    match v
    case Str(s) => s
    case Num(n) => IntToString(n)
    case Bool(b) => if b then "true" else "false"
    case Null => "null"
    case Undefined => "undefined"
    case List(_) => Join(v, 0)
    case Obj(_) => "[object Object]"
  }

  /** `v.join(',')` from the `i`-th element on, for an array `v`. */
  function Join(v: QueryValue, i: nat): string
    requires v.List? && i <= |v.items|
    decreases v, 0, |v.items| - i
  {
    if i == |v.items| then ""
    else
      var x := v.items[i];
      (if i == 0 then "" else ",") + (if IsNullish(x) then "" else JsString(x)) + Join(v, i + 1)
  }

  // ---------------------------------------------------------------------------
  // Keys of an object value
  // ---------------------------------------------------------------------------

  /** `Object.keys(v)` as a set: the index numerals of an array, the own
      keys of a plain object. */
  function KeySet(v: QueryValue): set<string>
    requires IsObject(v)
  {
    if v.List? then set i | 0 <= i < |v.items| :: NatToString(i) else v.entries.Keys
  }

  /** `v[key]` for an object value, `None` when `key` is not one of its keys. */
  function Get(v: QueryValue, key: string): (r: Option<QueryValue>)
    requires IsObject(v)
    ensures r.Some? <==> key in KeySet(v)
    ensures r.Some? && v.Obj? ==> r.value == v.entries[key]
    ensures r.Some? && v.List? ==>
      exists j :: 0 <= j < |v.items| && NatToString(j) == key && r.value == v.items[j]
  {
    if v.List? then IndexLookup(v.items, key, 0)
    else if key in v.entries then Some(v.entries[key])
    else None
  }

  /** The element of `items` at the first position from `i` on whose
      numeral is `key`. */
  function IndexLookup(items: seq<QueryValue>, key: string, i: nat): (r: Option<QueryValue>)
    requires i <= |items|
    ensures r.Some? <==> exists j :: i <= j < |items| && NatToString(j) == key
    ensures r.Some? ==> exists j :: i <= j < |items| && NatToString(j) == key && r.value == items[j]
    decreases |items| - i
  {
    if i == |items| then None
    else if NatToString(i) == key then
      assert i <= i < |items| && NatToString(i) == key && items[i] == items[i];
      Some(items[i])
    else
      var r := IndexLookup(items, key, i + 1);
      assert r.Some? ==> exists j :: i <= j < |items| && NatToString(j) == key by {
        if r.Some? {
          var j :| i + 1 <= j < |items| && NatToString(j) == key && r.value == items[j];
          assert i <= j;
        }
      }
      assert (exists j :: i <= j < |items| && NatToString(j) == key) ==> r.Some? by {
        if j :| i <= j < |items| && NatToString(j) == key {
          assert i + 1 <= j;
        }
      }
      r
  }

  // ---------------------------------------------------------------------------
  // isObjectEqual
  // ---------------------------------------------------------------------------

  /** One comparison inside `isObjectEqual`'s `every`: a nullish value equals
      only itself, two objects compare recursively, anything else compares
      by `String(...)`. */
  function ValueEqual(x: QueryValue, y: QueryValue): bool
    decreases x, 1
  {
    if IsNullish(x) || IsNullish(y) then x == y
    else if IsObject(x) && IsObject(y) then ObjectEqual(x, y)
    else JsString(x) == JsString(y)
  }

  /** `isObjectEqual(x, y)` on two object values: the sorted key lists are
      equal (that is, the key sets are) and the values under each key are
      `ValueEqual`. */
  function ObjectEqual(x: QueryValue, y: QueryValue): bool
    requires IsObject(x) && IsObject(y)
    decreases x, 0
  {
    && KeySet(x) == KeySet(y)
    && forall k | k in KeySet(x) :: ValueEqual(Get(x, k).value, Get(y, k).value)
  }

  /** `isObjectEqual(a, b)` on two query (or params) objects. */
  function IsObjectEqual(a: Query, b: Query): bool {
    ObjectEqual(Obj(a), Obj(b))
  }

  /** Every value equals itself: `null === null`, and `String` is a function. */
  lemma {:induction false} ValueEqualReflexive(x: QueryValue)
    ensures ValueEqual(x, x)
    decreases x
  {
    if !IsNullish(x) && IsObject(x) {
      forall k | k in KeySet(x)
        ensures ValueEqual(Get(x, k).value, Get(x, k).value)
      {
        ValueEqualReflexive(Get(x, k).value);
      }
    }
  }

  /** The comparison does not depend on the order of its arguments. */
  lemma {:induction false} ValueEqualSymmetric(x: QueryValue, y: QueryValue)
    ensures ValueEqual(x, y) == ValueEqual(y, x)
    decreases x
  {
    if !IsNullish(x) && !IsNullish(y) && IsObject(x) && IsObject(y) && KeySet(x) == KeySet(y) {
      forall k | k in KeySet(x)
        ensures ValueEqual(Get(x, k).value, Get(y, k).value) == ValueEqual(Get(y, k).value, Get(x, k).value)
      {
        ValueEqualSymmetric(Get(x, k).value, Get(y, k).value);
      }
    }
  }

  lemma IsObjectEqualReflexive(a: Query)
    ensures IsObjectEqual(a, a)
  {
    ValueEqualReflexive(Obj(a));
  }

  lemma IsObjectEqualSymmetric(a: Query, b: Query)
    ensures IsObjectEqual(a, b) == IsObjectEqual(b, a)
  {
    ValueEqualSymmetric(Obj(a), Obj(b));
  }

  /** Equal objects have the same keys: a key present on one side only
      makes them unequal, whatever its value. */
  lemma IsObjectEqualSameKeys(a: Query, b: Query)
    ensures IsObjectEqual(a, b) ==> a.Keys == b.Keys
  {
  }

  /** A nullish value equals exactly itself, on either side. */
  lemma NullishEqualsOnlyItself(x: QueryValue, y: QueryValue)
    requires IsNullish(x)
    ensures ValueEqual(x, y) <==> y == x
    ensures ValueEqual(y, x) <==> y == x
  {
  }

  /** A safe integer equals its decimal numeral: `1` and `"1"` are the same
      query value. */
  lemma NumberEqualsNumeral(n: int)
    requires IsSafeInteger(n)
    ensures ValueEqual(Num(n), Str(IntToString(n)))
    ensures IsObjectEqual(map["k" := Num(n)], map["k" := Str(IntToString(n))])
  {
    assert ValueEqual(Num(n), Str(IntToString(n)));
    assert KeySet(Obj(map["k" := Num(n)])) == {"k"};
  }

  /** An array and a plain object with the matching index keys are equal. */
  lemma ArrayEqualsIndexObject()
    ensures ValueEqual(List([Str("a")]), Obj(map["0" := Str("a")]))
  {
    var l := List([Str("a")]);
    assert NatToString(0) == "0";
    assert KeySet(l) == {"0"};
    assert Get(l, "0") == Some(Str("a"));
  }

  /** Coercion makes the comparison intransitive: `['1,2']` equals `'1,2'`,
      which equals `[1, 2]`, yet `['1,2']` does not equal `[1, 2]`. */
  lemma ValueEqualNotTransitive()
    ensures var x, y, z := List([Str("1,2")]), Str("1,2"), List([Num(1), Num(2)]);
      ValueEqual(x, y) && ValueEqual(y, z) && !ValueEqual(x, z)
  {
    var x, y, z := List([Str("1,2")]), Str("1,2"), List([Num(1), Num(2)]);
    assert Join(x, 1) == "" && Join(x, 0) == "1,2";
    assert IntToString(1) == "1" && IntToString(2) == "2";
    assert Join(z, 2) == "";
    assert Join(z, 1) == ",2";
    assert Join(z, 0) == "1,2";
    ShortArrayKeys(x.items);
    ShortArrayKeys(z.items);
  }

  /** The keys of one- and two-element arrays. */
  lemma ShortArrayKeys(items: seq<QueryValue>)
    requires 1 <= |items| <= 2
    ensures |items| == 1 ==> KeySet(List(items)) == {"0"}
    ensures |items| == 2 ==> KeySet(List(items)) == {"0", "1"}
  {
    assert NatToString(0) == "0" && NatToString(1) == "1";
    if |items| == 2 {
      assert "1" in KeySet(List(items));
    }
  }

  // ---------------------------------------------------------------------------
  // clone
  // ---------------------------------------------------------------------------

  /** `clone(v)`: arrays element by element, objects key by key, anything
      else returned as is. The copy is structurally equal to the original. */
  function Clone(v: QueryValue): (r: QueryValue)
    ensures r == v
    decreases v
  {
    match v
    case List(items) =>
      var copy := seq(|items|, i requires 0 <= i < |items| => Clone(items[i]));
      assert copy == items;
      List(copy)
    case Obj(entries) =>
      var copy := map k | k in entries :: Clone(entries[k]);
      assert copy == entries;
      Obj(copy)
    case _ => v
  }

  /** `clone(location.query || {})` on a query object. */
  function CloneQuery(q: Query): (r: Query)
    ensures r == q
  {
    var copy := map k | k in q :: Clone(q[k]);
    assert copy == q;
    copy
  }
}
