/**
 * Parsed JSON values as JavaScript sees them: request bodies, query values
 * and response bodies. Numbers are integers (fractional numbers are not
 * modelled) and are taken to be safe integers, below 2^53 in magnitude and
 * so below 1e21, where JavaScript prints them in plain decimal. An object is
 * its list of fields in insertion order, which is the order JavaScript
 * enumerates string keys in as long as no key is an array index.
 */
module Json {
  import opened Wrappers

  datatype Json =
    | Null
    | Bool(b: bool)
    | Num(n: int)
    | Str(s: string)
    | Arr(items: seq<Json>)
    | Obj(fields: seq<(string, Json)>)

  type Fields = seq<(string, Json)>

  /** JavaScript truthiness of a value: `null`, `false`, `0` and `""` are falsy. */
  predicate Truthy(j: Json) {
    match j
    case Null => false
    case Bool(b) => b
    case Num(n) => n != 0
    case Str(s) => s != ""
    case Arr(_) => true
    case Obj(_) => true
  }

  /** Truthiness of an optional argument: `undefined` is falsy. */
  predicate Given(j: Option<Json>) {
    j.Some? && Truthy(j.value)
  }

  /** Truthiness of an optional string argument. */
  predicate GivenString(s: Option<string>) {
    s.Some? && s.value != ""
  }

  /** Truthiness of an optional number argument (0 is falsy). */
  predicate GivenNumber(n: Option<int>) {
    n.Some? && n.value != 0
  }

  /** The keys of an object, in insertion order. */
  function Keys(fields: Fields): (ks: seq<string>)
    ensures |ks| == |fields|
    ensures forall i :: 0 <= i < |fields| ==> ks[i] == fields[i].0
  {
    if fields == [] then [] else Keys(fields[..|fields| - 1]) + [fields[|fields| - 1].0]
  }

  /**
   * Property read `o[key]`: the value of the field named `key`, or `None`
   * when there is none. When a key occurs twice (as after `JSON.parse` of a
   * document that repeats it) the later occurrence wins.
   */
  function Lookup(fields: Fields, key: string): (r: Option<Json>)
    ensures r.None? <==> key !in Keys(fields)
    ensures r.Some? ==> (key, r.value) in fields
  {
    if fields == [] then None
    else if fields[|fields| - 1].0 == key then Some(fields[|fields| - 1].1)
    else
      var r := Lookup(fields[..|fields| - 1], key);
      assert Keys(fields) == Keys(fields[..|fields| - 1]) + [fields[|fields| - 1].0];
      r
  }

  /** Overwrite the value of every field named `key`, keeping its position. */
  function Replace(fields: Fields, key: string, value: Json): (r: Fields)
    ensures Keys(r) == Keys(fields)
    ensures key in Keys(fields) ==> Lookup(r, key) == Some(value)
    ensures forall k :: k != key ==> Lookup(r, k) == Lookup(fields, k)
  {
    if fields == [] then []
    else
      var last := fields[|fields| - 1];
      var init := Replace(fields[..|fields| - 1], key, value);
      init + [if last.0 == key then (key, value) else last]
  }

  /**
   * Property assignment `o[key] = value`: an existing field keeps its place
   * and takes the new value; a new field goes at the end.
   */
  function Put(fields: Fields, key: string, value: Json): (r: Fields)
    ensures Lookup(r, key) == Some(value)
    ensures forall k :: k != key ==> Lookup(r, k) == Lookup(fields, k)
    ensures Keys(r) == if key in Keys(fields) then Keys(fields) else Keys(fields) + [key]
  {
    if key in Keys(fields) then Replace(fields, key, value)
    else
      var r := fields + [(key, value)];
      assert r[..|r| - 1] == fields;
      r
  }

  /** A truthy `any` argument, or nothing. */
  function JsonArg(j: Option<Json>): (r: Option<Json>)
    ensures r.Some? <==> Given(j)
    ensures r.Some? ==> r == j
  {
    if Given(j) then j else None
  }

  /** A non-empty string argument as a JSON string, or nothing. */
  function StrArg(s: Option<string>): (r: Option<Json>)
    ensures r.Some? <==> GivenString(s)
    ensures r.Some? ==> r.value == Str(s.value)
  {
    if GivenString(s) then Some(Str(s.value)) else None
  }

  /** A non-zero number argument as a JSON number, or nothing. */
  function NumArg(n: Option<int>): (r: Option<Json>)
    ensures r.Some? <==> GivenNumber(n)
    ensures r.Some? ==> r.value == Num(n.value)
  {
    if GivenNumber(n) then Some(Num(n.value)) else None
  }

  /** `if (arg) body.key = arg`. */
  function PutOpt(fields: Fields, key: string, arg: Option<Json>): (r: Fields)
    ensures Lookup(r, key) == if arg.Some? then arg else Lookup(fields, key)
    ensures forall k :: k != key ==> Lookup(r, k) == Lookup(fields, k)
  {
    if arg.Some? then Put(fields, key, arg.value) else fields
  }

  /** Reading any key after `if (arg) body.key = arg`: the argument under `key` when given, the old value otherwise. */
  lemma LookupPutOpt(fields: Fields, key: string, arg: Option<Json>, k: string)
    ensures Lookup(PutOpt(fields, key, arg), k) == if k == key && arg.Some? then arg else Lookup(fields, k)
  {
  }

  // ---------------------------------------------------------------------------
  // Decimal text of integers (`n.toString()`, template literals) and its inverse.

  predicate IsDigit(c: char) {
    '0' <= c <= '9'
  }

  predicate AllDigits(s: string) {
    forall i :: 0 <= i < |s| ==> IsDigit(s[i])
  }

  function DigitChar(d: nat): (c: char)
    requires d < 10
    ensures IsDigit(c)
  {
    ('0' as int + d) as char
  }

  function DigitValue(c: char): nat
    requires IsDigit(c)
  {
    c as int - '0' as int
  }

  /** Base-ten digits of a natural number, most significant first, without leading zeros. */
  function NatToDecimal(n: nat): (s: string)
    ensures |s| >= 1 && AllDigits(s)
    ensures |s| > 1 ==> s[0] != '0'
  {
    if n < 10 then [DigitChar(n)] else NatToDecimal(n / 10) + [DigitChar(n % 10)]
  }

  /** `String(i)` for a safe integer `i`, which JavaScript writes in plain decimal. */
  function IntToDecimal(i: int): (s: string)
    ensures |s| >= 1
  {
    if i < 0 then "-" + NatToDecimal(-i) else NatToDecimal(i)
  }

  function DigitsValue(s: string): nat
    requires AllDigits(s)
  {
    if s == [] then 0 else DigitsValue(s[..|s| - 1]) * 10 + DigitValue(s[|s| - 1])
  }

  /** Reads an optionally signed decimal integer; `None` for anything else. */
  function ParseDecimal(s: string): Option<int> {
    if |s| > 1 && s[0] == '-' && AllDigits(s[1..]) then Some(-(DigitsValue(s[1..]) as int))
    else if |s| > 0 && AllDigits(s) then Some(DigitsValue(s))
    else None
  }

  lemma {:induction false} NatToDecimalValue(n: nat)
    ensures DigitsValue(NatToDecimal(n)) == n
  {
    var s := NatToDecimal(n);
    if n < 10 {
      assert s[..|s| - 1] == [];
    } else {
      NatToDecimalValue(n / 10);
      assert s[..|s| - 1] == NatToDecimal(n / 10);
    }
  }

  /** Reading back the decimal text of an integer gives that integer. */
  lemma DecimalRoundTrip(i: int)
    ensures ParseDecimal(IntToDecimal(i)) == Some(i)
  {
    if i < 0 {
      NegativeRoundTrip(i);
    } else {
      NonNegativeRoundTrip(i);
    }
  }

  lemma NegativeRoundTrip(i: int)
    requires i < 0
    ensures ParseDecimal(IntToDecimal(i)) == Some(i)
  {
    var digits := NatToDecimal(-i);
    var s := "-" + digits;
    assert s[1..] == digits;
    NatToDecimalValue(-i);
  }

  lemma NonNegativeRoundTrip(i: int)
    requires i >= 0
    ensures ParseDecimal(IntToDecimal(i)) == Some(i)
  {
    var s := NatToDecimal(i);
    assert IsDigit(s[0]);
    NatToDecimalValue(i);
  }

  // ---------------------------------------------------------------------------
  // `String(v)`: how a template literal `${v}` renders a parsed value.

  /** Joins the renderings of array elements with ","; `null` elements render as "". */
  function RenderItems(items: seq<Json>): string
    decreases items, 0
  {
    if items == [] then ""
    else
      var first := if items[0].Null? then "" else Render(items[0]);
      if |items| == 1 then first else first + "," + RenderItems(items[1..])
  }

  /**
   * A string renders as itself, a number as decimal text that reads back as
   * that number, a boolean as `true` or `false`, any object as
   * `[object Object]`.
   */
  function Render(j: Json): (r: string)
    ensures j.Str? ==> r == j.s
    ensures j.Num? ==> ParseDecimal(r) == Some(j.n)
    ensures j.Bool? ==> r == if j.b then "true" else "false"
    ensures j.Obj? ==> r == "[object Object]"
    decreases j, 1
  {
    match j
    case Null => "null"
    case Bool(b) => if b then "true" else "false"
    case Num(n) => DecimalRoundTrip(n); IntToDecimal(n)
    case Str(s) => s
    case Arr(items) => RenderItems(items)
    case Obj(_) => "[object Object]"
  }
}
