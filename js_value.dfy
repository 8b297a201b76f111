/**
 * JSON values as the submit endpoint sees them after parsing the request
 * body, with the three pieces of ECMAScript behaviour the endpoint uses:
 * truthiness, property access and `Array.prototype.join`.
 */
module JsValue {
  import opened JsText

  /** A parsed JSON value, or `undefined` for a property that is not there. Numbers are integral. */
  datatype Value =
    | Undefined
    | Null
    | Bool(b: bool)
    | Num(n: int)
    | Str(s: string)
    | Arr(items: seq<Value>)
    | Obj(fields: map<string, Value>)

  predicate Nullish(v: Value) {
    v.Undefined? || v.Null?
  }

  /** ECMAScript ToBoolean: false for undefined, null, false, 0 and "", true for everything else. */
  predicate Truthy(v: Value): (t: bool)
    ensures Nullish(v) ==> !t
    ensures v.Arr? || v.Obj? ==> t
    ensures v.Str? ==> (t <==> v.s != "")
  {
    match v
    case Undefined => false
    case Null => false
    case Bool(b) => b
    case Num(n) => n != 0
    case Str(s) => s != ""
    case Arr(_) => true
    case Obj(_) => true
  }

  /**
   * `v[key]` for the fields the endpoint reads from a parsed body, on a value
   * that is not null or undefined (on those, property access throws). Only own
   * fields of an object are modelled; built-in properties are not.
   */
  function Property(v: Value, key: string): (p: Value)
    requires !Nullish(v)
    ensures v.Obj? && key in v.fields ==> p == v.fields[key]
    ensures !(v.Obj? && key in v.fields) ==> p.Undefined?
  {
    if v.Obj? && key in v.fields then v.fields[key] else Undefined
  }

  function DigitChar(d: nat): (c: char)
    requires d < 10
    ensures '0' <= c <= '9'
  {
    "0123456789"[d]
  }

  /** Decimal numeral of a natural number, without leading zeros. */
  function NatDecimal(n: nat): (r: string)
    ensures |r| >= 1
    ensures r[0] != '0' || n == 0
    ensures forall k :: 0 <= k < |r| ==> '0' <= r[k] <= '9'
  {
    if n < 10 then [DigitChar(n)] else NatDecimal(n / 10) + [DigitChar(n % 10)]
  }

  /**
   * Whether ECMAScript ToString of `v` returns rather than throws. A parsed
   * object with its own `toString` field has shadowed the callable one with
   * a JSON value, and its `valueOf` gives back the object itself, so
   * ToString throws a TypeError. An array is converted through `join`,
   * so one such object among its elements, at any depth, makes it throw.
   */
  predicate Stringable(v: Value): (converts: bool)
    decreases v
    ensures !v.Arr? && !v.Obj? ==> converts
    ensures v.Obj? && "toString" in v.fields ==> !converts
    ensures v.Arr? && converts ==> forall i :: 0 <= i < |v.items| ==> Stringable(v.items[i])
  {
    match v
    case Obj(fields) => "toString" !in fields
    case Arr(items) => forall i :: 0 <= i < |items| ==> Stringable(items[i])
    case _ => true
  }

  /** Whether `items.join(sep)` returns: every element converts, since null and undefined are skipped. */
  predicate JoinSucceeds(items: seq<Value>): (ok: bool)
    ensures (forall i :: 0 <= i < |items| ==> items[i].Str? || Nullish(items[i])) ==> ok
    ensures ok ==> forall i :: 0 <= i < |items| && items[i].Obj? ==> "toString" !in items[i].fields
  {
    forall i :: 0 <= i < |items| ==> Stringable(items[i])
  }

  /** ECMAScript ToString, as `join` applies it to the elements of an array. */
  function ToJsString(v: Value): (r: string)
    requires Stringable(v)
    decreases v
    ensures v.Str? ==> r == v.s
    ensures v.Num? ==> r != "" && (r[0] == '-' <==> v.n < 0)
    ensures v.Arr? && v.items == [] ==> r == ""
  {
    match v
    case Undefined => "undefined"
    case Null => "null"
    case Bool(b) => if b then "true" else "false"
    case Num(n) => if n < 0 then "-" + NatDecimal(-n) else NatDecimal(n)
    case Str(s) => s
    case Arr(items) => Join(ElementStrings(items), ",")
    case Obj(_) => "[object Object]"
  }

  /** What `join` writes for each element: nothing for null and undefined, ToString otherwise. */
  function ElementStrings(items: seq<Value>): (r: seq<string>)
    requires JoinSucceeds(items)
    decreases items
    ensures |r| == |items|
    ensures forall i :: 0 <= i < |items| && items[i].Str? ==> r[i] == items[i].s
    ensures forall i :: 0 <= i < |items| && Nullish(items[i]) ==> r[i] == ""
  {
    if items == [] then []
    else
      [if Nullish(items[0]) then "" else ToJsString(items[0])] + ElementStrings(items[1..])
  }

  /** `items.join(sep)` on an array value. */
  function ArrayJoin(items: seq<Value>, sep: string): (r: string)
    requires JoinSucceeds(items)
    ensures items == [] ==> r == ""
    ensures |items| == 1 && Nullish(items[0]) ==> r == ""
    ensures |items| == 1 && items[0].Str? ==> r == items[0].s
  {
    Join(ElementStrings(items), sep)
  }

  /** The array holding the given strings. */
  function StrArray(xs: seq<string>): (a: seq<Value>)
    ensures |a| == |xs| && forall i :: 0 <= i < |xs| ==> a[i] == Str(xs[i])
    ensures JoinSucceeds(a)
  {
    seq(|xs|, i requires 0 <= i < |xs| => Str(xs[i]))
  }

  /** Joining an array of strings joins the strings themselves. */
  lemma ArrayJoinStrings(xs: seq<string>, sep: string)
    ensures ArrayJoin(StrArray(xs), sep) == Join(xs, sep)
  {
    assert ElementStrings(StrArray(xs)) == xs;
  }
}
