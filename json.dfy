/**
 * JSON values as the record store keeps them, and the handful of JavaScript
 * semantics the store relies on: truthiness, strict equality between a value
 * read back from storage and a caller's value, object spread, and the string
 * conversion used for template literals and property keys.
 */
module Json {

  datatype Option<+T> = None | Some(value: T)

  /** The two exceptions the store can raise. */
  datatype Thrown = TypeError | VersionError

  /** The result of an operation that may throw. */
  datatype Outcome<+T> = Ok(value: T) | Throw(error: Thrown)

  /** A JSON value; numbers are integers in this model. */
  datatype Value =
    | Null
    | Bool(b: bool)
    | Num(n: int)
    | Str(s: string)
    | Arr(items: seq<Value>)
    | Obj(fields: map<string, Value>)

  /** A stored record: a plain object with its own enumerable fields. */
  type Record = map<string, Value>

  /** `r.key`, with `None` for `undefined`. */
  function Get(r: Record, key: string): (v: Option<Value>)
    ensures v.Some? <==> key in r
    ensures v.Some? ==> v.value == r[key]
  {
    if key in r then Some(r[key]) else None
  }

  /** JavaScript truthiness of a JSON value. */
  predicate Truthy(v: Value) {
    match v
    case Null => false
    case Bool(b) => b
    case Num(n) => n != 0
    case Str(s) => s != ""
    case Arr(_) => true
    case Obj(_) => true
  }

  /** `if (r.key)`: the field is present and truthy. */
  predicate FieldTruthy(r: Record, key: string) {
    key in r && Truthy(r[key])
  }

  predicate IsPrimitive(v: Value) {
    !v.Arr? && !v.Obj?
  }

  /**
   * `a === b`. Every read of the store parses its JSON afresh, so an array or
   * object taken from the store is never the same reference as any value the
   * caller holds: only `undefined` and primitive values can compare equal.
   */
  predicate StrictEq(a: Option<Value>, b: Option<Value>) {
    match (a, b)
    case (None, None) => true
    case (Some(x), Some(y)) => IsPrimitive(x) && x == y
    case _ => false
  }

  /** `{...base, ...over}` and `Object.assign(base, over)`: fields of `over` win. */
  function Spread(base: Record, over: Record): (r: Record)
    ensures r.Keys == base.Keys + over.Keys
    ensures forall k :: k in over ==> r[k] == over[k]
    ensures forall k :: k in base && k !in over ==> r[k] == base[k]
  {
    base + over
  }

  /** Decimal numeral of a natural number. */
  function NatString(n: nat): string
    decreases n
  {
    if n < 10 then [('0' as int + n) as char]
    else NatString(n / 10) + [('0' as int + n % 10) as char]
  }

  /** `String(v)`, as a template literal or a property key converts `v`. */
  function JsString(v: Option<Value>): string {
    match v
    case None => "undefined"
    case Some(x) => ValueString(x)
  }

  function ValueString(v: Value): string
    decreases v, 1
  {
    match v
    case Null => "null"
    case Bool(b) => if b then "true" else "false"
    case Num(n) => if n < 0 then "-" + NatString(-n) else NatString(n)
    case Str(s) => s
    case Arr(items) => JoinItems(v, items)
    case Obj(_) => "[object Object]"
  }

  /** `Array.prototype.join(",")`: `null` items become the empty string. */
  function JoinItems(ghost parent: Value, items: seq<Value>): string
    requires forall x :: x in items ==> x < parent
    decreases parent, 0, |items|
  {
    if items == [] then ""
    else
      assert items[0] in items;
      assert forall x :: x in items[1..] ==> x in items;
      var head := if items[0].Null? then "" else ValueString(items[0]);
      if |items| == 1 then head else head + "," + JoinItems(parent, items[1..])
  }

  /** `s.filter(p)`: the elements satisfying `p`, in their original order. */
  function Filter<T(!new)>(s: seq<T>, p: T -> bool): (r: seq<T>)
    ensures |r| <= |s|
    ensures forall i :: 0 <= i < |r| ==> r[i] in s && p(r[i])
    ensures forall i :: 0 <= i < |s| && p(s[i]) ==> s[i] in r
    ensures multiset(r) <= multiset(s)
    ensures forall x :: multiset(r)[x] == if p(x) then multiset(s)[x] else 0
  {
    if s == [] then []
    else
      assert s == [s[0]] + s[1..];
      if p(s[0]) then [s[0]] + Filter(s[1..], p)
      else Filter(s[1..], p)
  }

  /** Filtering a non-empty sequence looks at its head once. */
  lemma FilterCons<T(!new)>(h: T, s: seq<T>, p: T -> bool)
    ensures Filter([h] + s, p) == (if p(h) then [h] else []) + Filter(s, p)
  {
    assert ([h] + s)[0] == h;
    assert ([h] + s)[1..] == s;
  }

  lemma ConcatAssoc<T>(a: seq<T>, b: seq<T>, c: seq<T>)
    ensures a + (b + c) == (a + b) + c
  {
  }

  /** Filtering keeps the input order: an appended element lands at the end, if it passes. */
  lemma {:induction false} FilterSnoc<T(!new)>(s: seq<T>, x: T, p: T -> bool)
    ensures Filter(s + [x], p) == Filter(s, p) + (if p(x) then [x] else [])
  {
    if s == [] {
      assert s + [x] == [x] + [];
      FilterCons(x, [], p);
    } else {
      var h, rest := s[0], s[1..];
      assert s == [h] + rest;
      assert s + [x] == [h] + (rest + [x]);
      FilterCons(h, rest + [x], p);
      FilterCons(h, rest, p);
      FilterSnoc(rest, x, p);
      var front := if p(h) then [h] else [];
      var tail := if p(x) then [x] else [];
      ConcatAssoc(front, Filter(rest, p), tail);
    }
  }

  /** The positions of `s` whose element passes `p`. */
  function PassingIndices<T>(s: seq<T>, p: T -> bool): set<int> {
    set i | 0 <= i < |s| && p(s[i])
  }

  /** Appending one element adds its position when it passes. */
  lemma PassingSnoc<T>(s: seq<T>, x: T, p: T -> bool)
    ensures |s| !in PassingIndices(s, p)
    ensures PassingIndices(s + [x], p) == PassingIndices(s, p) + (if p(x) then {|s|} else {})
  {
    var t := s + [x];
    assert forall i :: 0 <= i < |s| ==> t[i] == s[i];
    assert t[|s|] == x;
  }

  /** `s.filter(p).length` is the number of positions whose element passes `p`. */
  lemma {:induction false} FilterLength<T(!new)>(s: seq<T>, p: T -> bool)
    ensures |Filter(s, p)| == |PassingIndices(s, p)|
  {
    if s != [] {
      var init, x := s[..|s| - 1], s[|s| - 1];
      assert s == init + [x];
      FilterSnoc(init, x, p);
      FilterLength(init, p);
      PassingSnoc(init, x, p);
    }
  }

  /**
   * The property names every plain object inherits from `Object.prototype`.
   * Reading one of them from an object that lacks it as an own property
   * yields a function (or, for `__proto__`, the prototype object), which is
   * truthy.
   */
  const PrototypeMembers: set<string> := {
    "constructor", "toString", "toLocaleString", "valueOf", "hasOwnProperty",
    "isPrototypeOf", "propertyIsEnumerable", "__proto__", "__defineGetter__",
    "__defineSetter__", "__lookupGetter__", "__lookupSetter__"}

  /**
   * `s.findIndex(x => x.key === v)`: the first index whose field `key` is
   * strictly equal to `v`, or -1.
   */
  function FindIndex(s: seq<Record>, key: string, v: Option<Value>): (i: int)
    ensures -1 <= i < |s|
    ensures i == -1 <==> forall j :: 0 <= j < |s| ==> !StrictEq(Get(s[j], key), v)
    ensures i >= 0 ==> StrictEq(Get(s[i], key), v)
    ensures i >= 0 ==> forall j :: 0 <= j < i ==> !StrictEq(Get(s[j], key), v)
  {
    if s == [] then -1
    else if StrictEq(Get(s[0], key), v) then 0
    else
      var j := FindIndex(s[1..], key, v);
      if j == -1 then -1 else j + 1
  }

  /** `s.find(x => x.key === v)`. */
  function Find(s: seq<Record>, key: string, v: Option<Value>): (r: Option<Record>)
    ensures r.None? <==> forall x :: x in s ==> !StrictEq(Get(x, key), v)
    ensures r.Some? ==> r.value in s && StrictEq(Get(r.value, key), v)
    ensures r.Some? ==> r.value == s[FindIndex(s, key, v)]
  {
    var i := FindIndex(s, key, v);
    if i < 0 then None else Some(s[i])
  }
}
