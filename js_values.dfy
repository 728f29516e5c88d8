/** JavaScript values as they appear in the dashboard's records, and the few
    built-in conversions the core relies on: truthiness, `Number(...)` (used by
    relational comparisons against a number), `parseFloat`, `toLowerCase`,
    `\s` and `Array.prototype.join`. */
module JsValues {
  import opened Wrappers

  /** A JSON value as a record field can hold it. Numbers are exact reals;
      JSON cannot carry `NaN`, so no record value is `NaN`. */
  datatype Value = Undefined | Null | Bool(b: bool) | Num(n: real) | Str(s: string)

  /** One own property of a record. */
  datatype Entry = Entry(key: string, value: Value)

  /** A record (a plain JavaScript object): its own properties in key order,
      the order `Object.keys` and `Object.entries` report. */
  type Record = seq<Entry>

  /** The keys of a record, in order (`Object.keys`). */
  function Keys(r: Record): (ks: seq<string>)
    ensures |ks| == |r|
    ensures forall i :: 0 <= i < |r| ==> ks[i] == r[i].key
  {
    seq(|r|, i requires 0 <= i < |r| => r[i].key)
  }

  /** `record[key]`: the value of the first entry with that key. */
  function Get(r: Record, key: string): Value {
    if r == [] then Undefined
    else if r[0].key == key then r[0].value
    else Get(r[1..], key)
  }

  /** `record[key]` is `undefined` when there is no such key, and otherwise
      the value of the first entry with that key. */
  lemma {:induction false} GetMeaning(r: Record, key: string)
    ensures key !in Keys(r) ==> Get(r, key) == Undefined
    ensures forall i :: 0 <= i < |r| && r[i].key == key && key !in Keys(r[..i]) ==> Get(r, key) == r[i].value
  {
    if r != [] && r[0].key != key {
      GetMeaning(r[1..], key);
      assert forall i :: 1 <= i <= |r| ==> Keys(r[..i]) == [r[0].key] + Keys(r[1..][..i - 1]);
    }
  }

  /** A defined value read from a record is stored in one of its entries. */
  lemma {:induction false} GetIsStored(r: Record, key: string)
    ensures Get(r, key) != Undefined ==> exists i :: 0 <= i < |r| && r[i] == Entry(key, Get(r, key))
  {
    if r != [] && r[0].key != key {
      GetIsStored(r[1..], key);
      var v := Get(r, key);
      if v != Undefined {
        var i :| 0 <= i < |r| - 1 && r[1..][i] == Entry(key, v);
        assert r[i + 1] == Entry(key, v);
      }
    }
  }

  /** JavaScript truthiness (`if (v)`, `v || d`). */
  predicate Truthy(v: Value) {
    match v
    case Undefined => false
    case Null => false
    case Bool(b) => b
    case Num(n) => n != 0.0
    case Str(s) => s != ""
  }

  /** `v || 0`: the value itself when truthy, else the number 0. */
  function OrZero(v: Value): (r: Value)
    ensures r != Undefined && r != Null
    ensures Truthy(v) ==> r == v
    ensures !Truthy(v) ==> r == Num(0.0)
  {
    if Truthy(v) then v else Num(0.0)
  }

  // ---------------------------------------------------------------------
  // Characters and strings

  predicate IsDigit(c: char) { '0' <= c <= '9' }

  /** The characters `\s` matches in a JavaScript regular expression
      (WhiteSpace and LineTerminator). */
  predicate IsSpace(c: char) {
    c == ' ' || c == '\t' || c == '\n' || c == '\U{B}' || c == '\U{C}' || c == '\r'
    || c == '\U{A0}' || c == '\U{1680}' || ('\U{2000}' <= c <= '\U{200A}')
    || c == '\U{2028}' || c == '\U{2029}' || c == '\U{202F}' || c == '\U{205F}'
    || c == '\U{3000}' || c == '\U{FEFF}'
  }

  predicate IsUpper(c: char) { 'A' <= c <= 'Z' }

  /** `toLowerCase` on one character (ASCII letters only). */
  function LowerChar(c: char): (d: char)
    ensures !IsUpper(d)
    ensures !IsUpper(c) ==> d == c
    ensures IsSpace(d) <==> IsSpace(c)
  {
    if IsUpper(c) then (c as int + 32) as char else c
  }

  /** `String.prototype.toLowerCase` (ASCII letters only). */
  function ToLower(s: string): (r: string)
    ensures |r| == |s|
    ensures forall i :: 0 <= i < |s| ==> r[i] == LowerChar(s[i])
  {
    if s == [] then [] else [LowerChar(s[0])] + ToLower(s[1..])
  }

  /** A string with no upper-case letter is its own lower-case form. */
  lemma {:induction false} ToLowerIdentity(s: string)
    requires forall i :: 0 <= i < |s| ==> !IsUpper(s[i])
    ensures ToLower(s) == s
  {
    if s != [] {
      ToLowerIdentity(s[1..]);
    }
  }

  /** `s` without its leading whitespace. */
  function TrimStart(s: string): (r: string)
    ensures |r| <= |s| && r == s[|s| - |r|..]
    ensures r == [] || !IsSpace(r[0])
    ensures forall i :: 0 <= i < |s| - |r| ==> IsSpace(s[i])
  {
    if s != [] && IsSpace(s[0]) then TrimStart(s[1..]) else s
  }

  /** `s` without its trailing whitespace. */
  function TrimEnd(s: string): (r: string)
    ensures |r| <= |s| && r == s[..|r|]
    ensures r == [] || !IsSpace(r[|r| - 1])
    ensures forall i :: |r| <= i < |s| ==> IsSpace(s[i])
  {
    if s != [] && IsSpace(s[|s| - 1]) then TrimEnd(s[..|s| - 1]) else s
  }

  /** `Array.prototype.join` on strings. */
  function Join(xs: seq<string>, sep: string): string {
    if xs == [] then ""
    else if |xs| == 1 then xs[0]
    else xs[0] + sep + Join(xs[1..], sep)
  }

  /** A join of pieces none of which contains `c`, with a separator that does
      not contain it either, does not contain `c`. */
  lemma {:induction false} JoinAvoids(xs: seq<string>, sep: string, c: char)
    requires c !in sep
    requires forall i :: 0 <= i < |xs| ==> c !in xs[i]
    ensures c !in Join(xs, sep)
  {
    if |xs| > 1 {
      JoinAvoids(xs[1..], sep, c);
    }
  }

  // ---------------------------------------------------------------------
  // Numbers

  function Pow10(n: nat): (p: nat)
    ensures p >= 1
  {
    if n == 0 then 1 else 10 * Pow10(n - 1)
  }

  /** The value of a run of decimal digits. */
  function DigitsValue(ds: string): nat
    requires forall i :: 0 <= i < |ds| ==> IsDigit(ds[i])
  {
    if ds == [] then 0
    else
      assert IsDigit(ds[|ds| - 1]);
      DigitsValue(ds[..|ds| - 1]) * 10 + (ds[|ds| - 1] as int - '0' as int)
  }

  /** 10 to the power `e`, for a possibly negative exponent. */
  function Scale(e: int): (r: real)
    ensures r > 0.0
  {
    if e >= 0 then Pow10(e) as real else 1.0 / (Pow10(-e) as real)
  }

  /** The end of the run of digits that starts at `i`. */
  function DigitRun(s: string, i: nat): (j: nat)
    requires i <= |s|
    ensures i <= j <= |s|
    ensures forall k :: i <= k < j ==> IsDigit(s[k])
    ensures j < |s| ==> !IsDigit(s[j])
    decreases |s| - i
  {
    if i < |s| && IsDigit(s[i]) then DigitRun(s, i + 1) else i
  }

  /** An exponent part (`e`/`E`, an optional sign, at least one digit)
      starting at `i`: its value and where it ends. */
  function ScanExponent(s: string, i: nat): (r: Option<(int, nat)>)
    requires i <= |s|
    ensures r.Some? ==> i < r.value.1 <= |s|
  {
    if i < |s| && (s[i] == 'e' || s[i] == 'E') then
      var signed := i + 1 < |s| && (s[i + 1] == '+' || s[i + 1] == '-');
      var start := if signed then i + 2 else i + 1;
      var end := DigitRun(s, start);
      if end == start then None
      else
        var magnitude: int := DigitsValue(s[start..end]);
        Some((if signed && s[i + 1] == '-' then -magnitude else magnitude, end))
    else None
  }

  /** The longest prefix of `s` that is a signed decimal literal (sign,
      digits, optional fraction, optional exponent): its value and length.
      `None` when no prefix is one. */
  function ScanDecimal(s: string): (r: Option<(real, nat)>)
    ensures r.Some? ==> 0 < r.value.1 <= |s|
    ensures r.Some? ==> exists k :: 0 <= k < r.value.1 && (IsDigit(s[k]))
  {
    var negative := |s| > 0 && s[0] == '-';
    var start := if |s| > 0 && (s[0] == '-' || s[0] == '+') then 1 else 0;
    var intEnd := DigitRun(s, start);
    var hasPoint := intEnd < |s| && s[intEnd] == '.';
    var fracEnd := if hasPoint then DigitRun(s, intEnd + 1) else intEnd;
    if intEnd == start && fracEnd <= intEnd + 1 then None
    else
      var fracDigits := if hasPoint then s[intEnd + 1..fracEnd] else "";
      var mantissa := DigitsValue(s[start..intEnd]) as real
                      + DigitsValue(fracDigits) as real / Pow10(|fracDigits|) as real;
      var exponent := ScanExponent(s, fracEnd);
      var magnitude := if exponent.Some? then mantissa * Scale(exponent.value.0) else mantissa;
      var end := if exponent.Some? then exponent.value.1 else fracEnd;
      assert intEnd > start ==> IsDigit(s[start]);
      assert intEnd == start ==> IsDigit(s[intEnd + 1]);
      Some((if negative then -magnitude else magnitude, end))
  }

  /** `parseFloat(v)`: the number at the start of `String(v)` after leading
      whitespace, `None` for `NaN`. */
  function ParseFloat(v: Value): (r: Option<real>)
    ensures v.Num? ==> r == Some(v.n)
    ensures v.Undefined? || v.Null? || v.Bool? ==> r == None
    ensures v.Str? && r.Some? ==> exists k :: 0 <= k < |v.s| && IsDigit(v.s[k])
  {
    match v
    case Num(n) => Some(n)
    case Str(s) =>
      var t := TrimStart(s);
      (match ScanDecimal(t)
       case Some((x, _)) =>
         assert forall k :: 0 <= k < |t| ==> t[k] == s[|s| - |t| + k];
         Some(x)
       case None => None)
    case _ => None
  }

  /** `Number(s)` for a string: 0 for a blank string, the value when the whole
      trimmed string is a decimal literal, `None` (`NaN`) otherwise. */
  function StringToNumber(s: string): (r: Option<real>)
    ensures TrimEnd(TrimStart(s)) == "" ==> r == Some(0.0)
  {
    var t := TrimEnd(TrimStart(s));
    if t == "" then Some(0.0)
    else match ScanDecimal(t)
      case Some((x, end)) => if end == |t| then Some(x) else None
      case None => None
  }

  /** `Number(v)`, the coercion a relational or arithmetic operator applies
      to a value compared with or combined with a number. */
  function ToNumber(v: Value): (r: Option<real>)
    ensures v.Num? ==> r == Some(v.n)
    ensures v.Null? ==> r == Some(0.0)
    ensures v.Undefined? ==> r == None
  {
    match v
    case Undefined => None
    case Null => Some(0.0)
    case Bool(b) => Some(if b then 1.0 else 0.0)
    case Num(n) => Some(n)
    case Str(s) => StringToNumber(s)
  }
}
