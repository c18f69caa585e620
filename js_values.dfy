/**
 * The dynamic JavaScript values held by the pages' `any`-typed payloads:
 * what a parsed JSON response contains, plus `undefined` for a missing
 * property. Numbers are integers in this model.
 */
module JsValues {
  import opened JsStrings

  datatype Value =
    | Undefined
    | Null
    | Bool(b: bool)
    | Num(n: int)
    | Str(s: string)
    | Arr(items: seq<Value>)
    | Obj(fields: map<string, Value>)

  /** A plain object as the upstream service returns it, keyed by property name. */
  type Record = map<string, Value>

  /** JavaScript truthiness: `undefined`, `null`, `false`, `0` and `""` are falsy. */
  predicate Truthy(v: Value) {
    match v
    case Undefined => false
    case Null => false
    case Bool(b) => b
    case Num(n) => n != 0
    case Str(s) => s != ""
    case Arr(_) => true
    case Obj(_) => true
  }

  /** `undefined` or `null`: the values whose properties cannot be read. */
  predicate Nullish(v: Value) {
    v.Undefined? || v.Null?
  }

  /** `a || b`: the first operand when it is truthy, otherwise the second. */
  function Or(a: Value, b: Value): (r: Value)
    ensures r == a || r == b
    ensures Truthy(r) <==> Truthy(a) || Truthy(b)
    ensures Truthy(a) ==> r == a
  {
    if Truthy(a) then a else b
  }

  /** `rec[key]`: `undefined` when the record has no such property. */
  function Get(rec: Record, key: string): Value {
    if key in rec then rec[key] else Undefined
  }

  /**
   * `v.key` for a value that is not nullish: the own property of an object,
   * and `undefined` otherwise (the keys this model reads are not built-in
   * properties of strings, numbers, booleans or arrays).
   */
  function Prop(v: Value, key: string): Value
    requires !Nullish(v)
  {
    if v.Obj? && key in v.fields then v.fields[key] else Undefined
  }

  /** How `Array.prototype.join` renders one element: nullish elements become "". */
  function ElementString(v: Value): string
    decreases v, 1
  {
    if Nullish(v) then "" else ToJsString(v)
  }

  /** `String(v)`. */
  function ToJsString(v: Value): string
    decreases v, 0
  {
    match v
    case Undefined => "undefined"
    case Null => "null"
    case Bool(b) => if b then "true" else "false"
    case Num(n) => IntToString(n)
    case Str(s) => s
    case Arr(xs) => Join(seq(|xs|, i requires 0 <= i < |xs| => ElementString(xs[i])), ",")
    case Obj(_) => "[object Object]"
  }

  /** `xs.join(sep)` for an array of arbitrary values. */
  function JoinValues(xs: seq<Value>, sep: string): (s: string)
    ensures sep == "," ==> s == ToJsString(Arr(xs))
  {
    Join(seq(|xs|, i requires 0 <= i < |xs| => ElementString(xs[i])), sep)
  }

  /** Joining string values joins their strings. */
  lemma JoinStrValues(ss: seq<string>, sep: string)
    ensures JoinValues(StrValues(ss), sep) == Join(ss, sep)
  {
    var xs := StrValues(ss);
    var rendered := seq(|xs|, i requires 0 <= i < |xs| => ElementString(xs[i]));
    forall i | 0 <= i < |xs| ensures rendered[i] == ss[i] {
      assert xs[i] == Str(ss[i]);
      assert !Nullish(xs[i]);
      assert ToJsString(xs[i]) == ss[i];
    }
    assert rendered == ss;
  }

  /** `Object.keys(v).length` for a value that is not nullish. */
  function KeyCount(v: Value): nat
    requires !Nullish(v)
  {
    match v
    case Obj(m) => |m|
    case Arr(xs) => |xs|
    case Str(s) => |s|
    case Bool(_) => 0
    case Num(_) => 0
  }

  /** An array whose elements are all strings. */
  predicate IsStringArray(v: Value) {
    v.Arr? && forall k :: 0 <= k < |v.items| ==> v.items[k].Str?
  }

  /** The strings of a string array. */
  function Strings(v: Value): (r: seq<string>)
    requires IsStringArray(v)
    ensures |r| == |v.items|
    ensures forall k :: 0 <= k < |r| ==> v.items[k] == Str(r[k])
  {
    seq(|v.items|, k requires 0 <= k < |v.items| => v.items[k].s)
  }

  /** Wrapping strings as string values: the inverse of `Strings`. */
  function StrValues(ss: seq<string>): (r: seq<Value>)
    ensures |r| == |ss|
    ensures IsStringArray(Arr(r)) && Strings(Arr(r)) == ss
  {
    seq(|ss|, k requires 0 <= k < |ss| => Str(ss[k]))
  }
}
