/**
 * The JavaScript values that flow through commands, responses and configuration, with the
 * three JavaScript operations the core applies to them: truthiness, property access and
 * conversion to text (template literals and `JSON.stringify`).
 */
module Json {
  import opened Wrappers
  import opened Strings

  /**
   * A JSON-like value. Numbers are decimals `mantissa / 10^scale` (integers have scale 0);
   * `Obj` keeps its keys in insertion order, as JavaScript objects with string keys do.
   * JavaScript's `undefined` is `None` in an `Option<Value>`.
   */
  datatype Value =
    | Null
    | Bool(b: bool)
    | Number(mantissa: int, scale: nat)
    | Str(s: string)
    | Arr(items: seq<Value>)
    | Obj(fields: seq<(string, Value)>)

  function Int(n: int): Value { Number(n, 0) }

  /** JavaScript truthiness; `undefined` is falsy. */
  predicate Truthy(x: Option<Value>) {
    match x
    case None => false
    case Some(Null) => false
    case Some(Bool(b)) => b
    case Some(Number(m, _)) => m != 0
    case Some(Str(s)) => s != []
    case Some(_) => true
  }

  /** `null` or `undefined`: reading a property of such a value throws a TypeError. */
  predicate Nullish(x: Option<Value>) {
    x.None? || x.value.Null?
  }

  /** The first field named `k` of `fields`. */
  function Field(fields: seq<(string, Value)>, k: string): (r: Option<Value>)
    ensures r.Some? <==> exists i :: 0 <= i < |fields| && fields[i].0 == k
  {
    if fields == [] then None
    else if fields[0].0 == k then Some(fields[0].1)
    else Field(fields[1..], k)
  }

  /** The value of a key is the one paired with it at its first position. */
  lemma {:induction false} FieldAt(fields: seq<(string, Value)>, k: string, i: nat)
    requires i < |fields| && fields[i].0 == k
    requires forall j :: 0 <= j < i ==> fields[j].0 != k
    ensures Field(fields, k) == Some(fields[i].1)
  {
    if i > 0 {
      FieldAt(fields[1..], k, i - 1);
    }
  }

  /** The lookup in an object literal with two to six fields, key by key in order. */
  lemma Field2(a: (string, Value), b: (string, Value), k: string)
    ensures Field([a, b], k) == if a.0 == k then Some(a.1) else if b.0 == k then Some(b.1) else None
  {
    assert [a, b][1..] == [b];
    assert [b][1..] == [];
    assert Field([a, b], k) == if a.0 == k then Some(a.1) else Field([b], k);
    assert Field([b], k) == if b.0 == k then Some(b.1) else Field([], k);
  }

  lemma Field3(a: (string, Value), b: (string, Value), c: (string, Value), k: string)
    ensures Field([a, b, c], k) ==
      if a.0 == k then Some(a.1) else if b.0 == k then Some(b.1) else if c.0 == k then Some(c.1) else None
  {
    assert [a, b, c][1..] == [b, c];
    Field2(b, c, k);
  }

  lemma Field4(a: (string, Value), b: (string, Value), c: (string, Value), d: (string, Value), k: string)
    ensures Field([a, b, c, d], k) ==
      if a.0 == k then Some(a.1) else if b.0 == k then Some(b.1) else if c.0 == k then Some(c.1)
      else if d.0 == k then Some(d.1) else None
  {
    assert [a, b, c, d][1..] == [b, c, d];
    Field3(b, c, d, k);
  }

  lemma Field5(a: (string, Value), b: (string, Value), c: (string, Value), d: (string, Value),
               e: (string, Value), k: string)
    ensures Field([a, b, c, d, e], k) ==
      if a.0 == k then Some(a.1) else if b.0 == k then Some(b.1) else if c.0 == k then Some(c.1)
      else if d.0 == k then Some(d.1) else if e.0 == k then Some(e.1) else None
  {
    assert [a, b, c, d, e][1..] == [b, c, d, e];
    Field4(b, c, d, e, k);
  }

  lemma Field6(a: (string, Value), b: (string, Value), c: (string, Value), d: (string, Value),
               e: (string, Value), f: (string, Value), k: string)
    ensures Field([a, b, c, d, e, f], k) ==
      if a.0 == k then Some(a.1) else if b.0 == k then Some(b.1) else if c.0 == k then Some(c.1)
      else if d.0 == k then Some(d.1) else if e.0 == k then Some(e.1) else if f.0 == k then Some(f.1) else None
  {
    assert [a, b, c, d, e, f][1..] == [b, c, d, e, f];
    Field5(b, c, d, e, f, k);
  }

  /** `v[k]` for a value that is not null or undefined: objects answer their own keys only. */
  function Get(v: Value, k: string): Option<Value> {
    if v.Obj? then Field(v.fields, k) else None
  }

  /** `x?.[k]` and, when `x` is known not to be nullish, `x[k]`. */
  function GetOpt(x: Option<Value>, k: string): Option<Value> {
    if x.None? then None else Get(x.value, k)
  }

  /** `map` with `k := v` for a string-keyed parameter bag, read as a value. */
  function FromMap(m: map<string, Value>, k: string): Option<Value> {
    if k in m then Some(m[k]) else None
  }

  /** `String(x)` for a JavaScript number `mantissa / 10^scale`: no trailing zeros after the point. */
  function DecimalText(mantissa: int, scale: nat): string
    decreases scale
  {
    if scale == 0 then IntToString(mantissa)
    else if mantissa % 10 == 0 then DecimalText(mantissa / 10, scale - 1)
    else
      var a := if mantissa < 0 then -mantissa else mantissa;
      (if mantissa < 0 then "-" else "") + NatToString(DropDigits(a, scale)) + "." + FixedDigits(a, scale)
  }

  /** The last `width` decimal digits of `x`, with leading zeros. */
  function FixedDigits(x: nat, width: nat): (r: string)
    ensures |r| == width
  {
    if width == 0 then [] else FixedDigits(x / 10, width - 1) + [DigitChar(x % 10)]
  }

  /** `x` without its last `width` decimal digits. */
  function DropDigits(x: nat, width: nat): nat {
    if width == 0 then x else DropDigits(x / 10, width - 1)
  }

  /**
   * `Math.round(num / den)` for an exact quotient: the nearest integer, halves rounded up
   * (towards positive infinity, as `Math.round` does for negative halves too).
   */
  function RoundQuotient(num: int, den: nat): (n: int)
    requires den > 0
    ensures 2 * num - den < 2 * n * den <= 2 * num + den
  {
    var n := (2 * num + den) / (2 * den);
    assert n * (2 * den) <= 2 * num + den < (n + 1) * (2 * den);
    n
  }

  /** How a value reads inside a template literal, `${x}`. */
  function Show(x: Option<Value>): string
  {
    match x
    case None => "undefined"
    case Some(v) => ShowValue(v)
  }

  function ShowValue(v: Value): string
    decreases v
  {
    match v
    case Null => "null"
    case Bool(b) => if b then "true" else "false"
    case Number(m, s) => DecimalText(m, s)
    case Str(s) => s
    case Arr(items) => ShowItems(v, items)
    case Obj(_) => "[object Object]"
  }

  /** `Array.prototype.join(',')`: `null` items read as empty text. */
  function ShowItems(parent: Value, items: seq<Value>): string
    requires forall i :: 0 <= i < |items| ==> items[i] < parent
    decreases parent, |items|
  {
    if items == [] then []
    else
      var head := if items[0].Null? then "" else ShowValue(items[0]);
      if |items| == 1 then head else head + "," + ShowItems(parent, items[1..])
  }

  /** `JSON.stringify` for the value shapes above. */
  function Stringify(v: Value): string
    decreases v
  {
    match v
    case Null => "null"
    case Bool(b) => if b then "true" else "false"
    case Number(m, s) => DecimalText(m, s)
    case Str(s) => Quote(s)
    case Arr(items) => "[" + StringifyItems(v, items) + "]"
    case Obj(fields) => "{" + StringifyFields(v, fields) + "}"
  }

  function StringifyItems(parent: Value, items: seq<Value>): string
    requires forall i :: 0 <= i < |items| ==> items[i] < parent
    decreases parent, |items|
  {
    if items == [] then []
    else
      var head := Stringify(items[0]);
      if |items| == 1 then head else head + "," + StringifyItems(parent, items[1..])
  }

  function StringifyFields(parent: Value, fields: seq<(string, Value)>): string
    requires forall i :: 0 <= i < |fields| ==> fields[i].1 < parent
    decreases parent, |fields|
  {
    if fields == [] then []
    else
      var head := Quote(fields[0].0) + ":" + Stringify(fields[0].1);
      if |fields| == 1 then head else head + "," + StringifyFields(parent, fields[1..])
  }

  /** A JSON string literal: quotes, backslashes and control characters are escaped. */
  function Quote(s: string): (r: string)
    ensures |r| >= 2 && r[0] == '"' && r[|r| - 1] == '"'
  {
    "\"" + Escaped(s) + "\""
  }

  function Escaped(s: string): string
  {
    if s == [] then []
    else EscapeChar(s[0]) + Escaped(s[1..])
  }

  function EscapeChar(c: char): string
  {
    if c == '"' then "\\\""
    else if c == '\\' then "\\\\"
    else if c == '\n' then "\\n"
    else if c == '\r' then "\\r"
    else if c == '\t' then "\\t"
    else if c == '\U{8}' then "\\b"
    else if c == '\U{C}' then "\\f"
    else if (c as int) < 32 then "\\u00" + [HexDigit(c as int / 16), HexDigit(c as int % 16)]
    else [c]
  }

  function HexDigit(d: nat): char
    requires d < 16
  {
    if d < 10 then DigitChar(d) else ('a' as int + d - 10) as char
  }
}
