/**
 * JavaScript values as the adapter receives them: parsed JSON bodies from
 * Express and axios. A property read yields `Option<Json>`, where `None` is
 * `undefined` (the key is missing).
 */
module Js {
  import opened Wrappers
  import Decimal
  import Text

  /** A parsed JSON value. Numbers are exact rationals: the `Infinity` or `0` a literal out of range parses to is not modelled. */
  datatype Json =
    | JNull
    | JBool(b: bool)
    | JNum(n: real)
    | JStr(s: string)
    | JArr(items: seq<Json>)
    | JObj(fields: map<string, Json>)

  /**
   * JavaScript truthiness of a property value: `undefined`, `null`, `false`,
   * `0` and `""` are falsy; everything else, empty arrays and objects included,
   * is truthy.
   */
  predicate Truthy(v: Option<Json>) {
    match v
    case None => false
    case Some(JNull) => false
    case Some(JBool(b)) => b
    case Some(JNum(n)) => n != 0.0
    case Some(JStr(s)) => s != ""
    case Some(_) => true
  }

  /** `a || b`: the left operand when it is truthy, otherwise the right one as it is. */
  function Or(a: Option<Json>, b: Option<Json>): Option<Json> {
    if Truthy(a) then a else b
  }

  /** `m[key]` on a plain object's own properties. */
  function Prop(m: map<string, Json>, key: string): Option<Json> {
    if key in m then Some(m[key]) else None
  }

  /** Sets `key` only when the value is defined: `JSON.stringify` drops `undefined` properties. */
  function SetDefined(m: map<string, Json>, key: string, v: Option<Json>): (m': map<string, Json>)
    ensures Prop(m', key) == (if v.Some? then v else Prop(m, key))
    ensures m'.Keys == m.Keys + (if v.Some? then {key} else {})
    ensures forall k :: k != key && k in m ==> m'[k] == m[k]
  {
    if v.Some? then m[key := v.value] else m
  }

  /**
   * `v[key]` on a value that is not null. Only objects have own data
   * properties among the keys this program reads; strings, numbers, booleans
   * and arrays yield `undefined` for them.
   */
  function Get(v: Json, key: string): Option<Json>
    requires !v.JNull?
  {
    if v.JObj? then Prop(v.fields, key) else None
  }

  /** The object `{0: items[0], 1: items[1], ...}` keyed by decimal indices. */
  function Indexed(items: seq<Json>): (m: map<string, Json>)
    ensures forall i :: 0 <= i < |items| ==> Decimal.Show(i) in m && m[Decimal.Show(i)] == items[i]
    ensures forall k :: k in m ==> exists i :: 0 <= i < |items| && k == Decimal.Show(i)
    decreases |items|
  {
    if items == [] then map[]
    else
      var n := |items| - 1;
      var m := Indexed(items[..n]);
      ShowDistinctBelow(n);
      m[Decimal.Show(n) := items[n]]
  }

  /** Indices below `n` render differently from `n`. */
  lemma ShowDistinctBelow(n: nat)
    ensures forall i :: 0 <= i < n ==> Decimal.Show(i) != Decimal.Show(n)
  {
    forall i | 0 <= i < n
      ensures Decimal.Show(i) != Decimal.Show(n)
    {
      if Decimal.Show(i) == Decimal.Show(n) {
        Decimal.ShowInjective(i, n);
      }
    }
  }

  /** The characters of a string, one single-character string per `char`. */
  function Chars(s: string): (cs: seq<Json>)
    ensures |cs| == |s|
    ensures forall i :: 0 <= i < |s| ==> cs[i] == JStr([s[i]])
  {
    seq(|s|, i requires 0 <= i < |s| => JStr([s[i]]))
  }

  /**
   * The own enumerable properties that object spread `{...v}` copies: an
   * object's own keys, the indices of an array or a string, and nothing for
   * null, booleans and numbers.
   */
  function Spread(v: Json): map<string, Json> {
    match v
    case JObj(f) => f
    case JArr(items) => Indexed(items)
    case JStr(s) => Indexed(Chars(s))
    case _ => map[]
  }

  /**
   * `/^https?:\/\//.test(v)` on a value `String(v)` can convert: a string
   * is tested as it is, an array by its first element, and nothing else
   * matches. `MatchesHttpSchemeIsRegexTest` proves this is the test applied
   * to `ToStr(v)`.
   */
  predicate MatchesHttpScheme(v: Json) {
    match v
    case JStr(s) => Text.HasHttpScheme(s)
    case JArr(items) => |items| > 0 && MatchesHttpScheme(items[0])
    case _ => false
  }

  /**
   * `String(v)` (and a template literal `${v}`) does not throw. JSON values
   * are never callable, so an object with an own `toString` key hides the
   * prototype's method and the conversion throws a TypeError; arrays
   * convert each element in turn.
   */
  predicate Coercible(v: Json) {
    match v
    case JObj(f) => "toString" !in f
    case JArr(items) => forall i :: 0 <= i < |items| ==> Coercible(items[i])
    case _ => true
  }

  /** A property value that `String()` converts without throwing; `undefined` always converts. */
  predicate CoercibleProp(v: Option<Json>) {
    v.None? || Coercible(v.value)
  }

  /** A number JavaScript writes as a plain decimal integer: integral, magnitude below 10^21. */
  predicate PlainInteger(n: real) {
    n.Floor as real == n && -1000000000000000000000.0 < n < 1000000000000000000000.0
  }

  /** Values `ToStr` renders exactly: coercible, with every number a plain integer. */
  predicate Renderable(v: Json) {
    match v
    case JObj(f) => "toString" !in f
    case JNum(n) => PlainInteger(n)
    case JArr(items) => forall i :: 0 <= i < |items| ==> Renderable(items[i])
    case _ => true
  }

  /** The decimal text of an integer, with a leading `-` when negative. */
  function IntegerText(n: int): (s: string)
    ensures |s| > 0 && (s[0] == '-' || Decimal.IsDigit(s[0]))
  {
    if n < 0 then "-" + Decimal.Show(-n) else Decimal.Show(n)
  }

  /**
   * `String(v)`: `null`, `true`/`false`, the decimal integer, the string
   * itself, the elements joined with `,`, or `[object Object]`.
   */
  function ToStr(v: Json): string
    requires Renderable(v)
    decreases v, 1
  {
    match v
    case JNull => "null"
    case JBool(b) => if b then "true" else "false"
    case JNum(n) => IntegerText(n.Floor)
    case JStr(s) => s
    case JArr(items) => if items == [] then "" else Join(v, 0)
    case JObj(_) => "[object Object]"
  }

  /**
   * `Array.prototype.join` from index `from` on: elements converted with
   * `String()` except null, which becomes the empty string, separated by `,`.
   */
  function Join(v: Json, from: nat): string
    requires v.JArr? && Renderable(v) && from < |v.items|
    decreases v, 0, |v.items| - from
  {
    var e := if v.items[from].JNull? then "" else ToStr(v.items[from]);
    e + (if from + 1 == |v.items| then "" else "," + Join(v, from + 1))
  }

  /** The regex test on `String(v)` is `MatchesHttpScheme(v)`. */
  lemma {:induction false} MatchesHttpSchemeIsRegexTest(v: Json)
    requires Renderable(v)
    ensures MatchesHttpScheme(v) <==> Text.HasHttpScheme(ToStr(v))
    decreases v
  {
    match v
    case JNull =>
      Text.SchemeStartsWithH("null");
    case JBool(b) =>
      Text.SchemeStartsWithH(ToStr(v));
    case JNum(n) =>
      Text.SchemeStartsWithH(ToStr(v));
    case JStr(_) =>
    case JObj(_) =>
      Text.SchemeStartsWithH("[object Object]");
    case JArr(items) =>
      if items == [] {
        Text.SchemeStartsWithH("");
      } else {
        var first := items[0];
        var e := if first.JNull? then "" else ToStr(first);
        var rest := if 1 == |items| then "" else "," + Join(v, 1);
        assert ToStr(v) == e + rest;
        Text.SchemeThroughComma(e, rest);
        if first.JNull? {
          Text.SchemeStartsWithH("");
        } else {
          MatchesHttpSchemeIsRegexTest(first);
        }
      }
  }
}
