/** JavaScript values as the admin screens see them, and the coercions the
    screens rely on: truthiness (`!x`, `a || b`), `String(x)` and `Number(x)`.
    Numbers are integers here; `NaN` is `None` in the result of `ToNumber`. */
module Js {

  datatype Option<+T> = None | Some(value: T)

  /** A value read from a fetched record, a form control or a query. */
  datatype JsVal = Undefined | Null | Bool(b: bool) | Num(n: int) | Str(s: string)

  /** JavaScript truthiness: `undefined`, `null`, `false`, `0` and `""` are falsy. */
  predicate Truthy(v: JsVal)
  {
    match v
    case Undefined => false
    case Null => false
    case Bool(b) => b
    case Num(n) => n != 0
    case Str(s) => s != ""
  }

  /** `a || b` */
  function Or(a: JsVal, b: JsVal): (r: JsVal)
    ensures Truthy(a) ==> r == a
    ensures !Truthy(a) ==> r == b
  {
    if Truthy(a) then a else b
  }

  /** The text of a JavaScript string value, with `""` for anything else
      (what a controlled text input shows). */
  function Text(v: JsVal): string
  {
    if v.Str? then v.s else ""
  }

  // ---------------------------------------------------------------------------
  // Decimal digits

  predicate IsDigit(c: char) { '0' <= c <= '9' }

  function DigitChar(d: int): (c: char)
    requires 0 <= d < 10
    ensures IsDigit(c)
  {
    (48 + d) as char
  }

  function DigitValue(c: char): (d: int)
    requires IsDigit(c)
    ensures 0 <= d < 10
  {
    c as int - 48
  }

  /** The decimal numeral of `n`, without leading zeros. */
  function NatToString(n: nat): (s: string)
    ensures |s| > 0
    ensures forall i :: 0 <= i < |s| ==> IsDigit(s[i])
    decreases n
  {
    if n < 10 then [DigitChar(n)] else NatToString(n / 10) + [DigitChar(n % 10)]
  }

  /** The value of a non-empty string of decimal digits. */
  function DigitsValue(s: string): (n: nat)
    requires forall i :: 0 <= i < |s| ==> IsDigit(s[i])
    decreases |s|
  {
    if s == [] then 0 else DigitsValue(s[..|s| - 1]) * 10 + DigitValue(s[|s| - 1])
  }

  /** `String(n)` for an integer. */
  function IntToString(i: int): (s: string)
    ensures |s| > 0
  {
    if i < 0 then "-" + NatToString(-i) else NatToString(i)
  }

  /** `String(v)`. */
  function ToStr(v: JsVal): string
  {
    match v
    case Undefined => "undefined"
    case Null => "null"
    case Bool(b) => if b then "true" else "false"
    case Num(n) => IntToString(n)
    case Str(s) => s
  }

  // ---------------------------------------------------------------------------
  // Whitespace and trimming (`String.prototype.trim`)

  /** The white space and line terminators that `trim()` and `Number()` skip:
      tab, line feed, vertical tab, form feed, carriage return, the space
      separators (U+0020, U+00A0, U+1680, U+2000 to U+200A, U+202F, U+205F,
      U+3000), the line and paragraph separators and the byte order mark. */
  predicate IsSpace(c: char)
  {
    c == ' ' || c == '\t' || c == '\n' || c == '\r' || c == '\U{000B}' || c == '\U{000C}' || c == '\U{00A0}'
    || c == '\U{1680}' || ('\U{2000}' <= c <= '\U{200A}') || c == '\U{2028}' || c == '\U{2029}'
    || c == '\U{202F}' || c == '\U{205F}' || c == '\U{3000}' || c == '\U{FEFF}'
  }

  function TrimStart(s: string): (r: string)
    ensures |r| <= |s|
    ensures r == s[|s| - |r|..]
    ensures r != [] ==> !IsSpace(r[0])
    ensures forall i :: 0 <= i < |s| - |r| ==> IsSpace(s[i])
  {
    if s != [] && IsSpace(s[0]) then
      var r := TrimStart(s[1..]);
      assert s[1..][|s| - 1 - |r|..] == s[|s| - |r|..];
      r
    else s
  }

  function TrimEnd(s: string): (r: string)
    ensures |r| <= |s|
    ensures r == s[..|r|]
    ensures r != [] ==> !IsSpace(r[|r| - 1])
    ensures forall i :: |r| <= i < |s| ==> IsSpace(s[i])
  {
    if s != [] && IsSpace(s[|s| - 1]) then
      var r := TrimEnd(s[..|s| - 1]);
      assert s[..|s| - 1][..|r|] == s[..|r|];
      r
    else s
  }

  function Trim(s: string): string
  {
    TrimEnd(TrimStart(s))
  }

  /** `s.trim()` is empty exactly when every character of `s` is white space. */
  lemma {:induction false} TrimEmpty(s: string)
    ensures Trim(s) == "" <==> forall i :: 0 <= i < |s| ==> IsSpace(s[i])
  {
    var t := TrimStart(s);
    if Trim(s) == "" {
      forall i | 0 <= i < |s| ensures IsSpace(s[i]) {
      }
    } else {
      var r := Trim(s);
      assert r[0] == t[0] == s[|s| - |t|];
      assert !IsSpace(s[|s| - |t|]);
    }
  }

  /** A full-width (ideographic) space, as an input method types it, is blank. */
  lemma FullWidthSpaceIsBlank()
    ensures Trim("\U{3000}") == ""
  {
    assert IsSpace('\U{3000}');
    assert TrimStart("\U{3000}") == "" by { assert "\U{3000}"[1..] == ""; }
  }

  // ---------------------------------------------------------------------------
  // `Number(v)`

  predicate AllDigits(s: string)
  {
    forall i :: 0 <= i < |s| ==> IsDigit(s[i])
  }

  /** The value of an integer numeral with an optional sign; `None` otherwise. */
  function ParseInt(s: string): (r: Option<int>)
    ensures s != [] && AllDigits(s) ==> r == Some(DigitsValue(s))
    ensures s == [] ==> r == None
  {
    if s == [] then None
    else if s[0] == '-' && |s| > 1 && AllDigits(s[1..]) then Some(0 - DigitsValue(s[1..]) as int)
    else if s[0] == '+' && |s| > 1 && AllDigits(s[1..]) then Some(DigitsValue(s[1..]))
    else if AllDigits(s) then Some(DigitsValue(s))
    else None
  }

  /** `Number(v)`, with `None` for `NaN`. A blank string is `0`. */
  function ToNumber(v: JsVal): Option<int>
  {
    match v
    case Undefined => None
    case Null => Some(0)
    case Bool(b) => Some(if b then 1 else 0)
    case Num(n) => Some(n)
    case Str(s) => if Trim(s) == "" then Some(0) else ParseInt(Trim(s))
  }

  /** The comparison `Number(v) === k` for an integer constant `k`. */
  predicate NumberIs(v: JsVal, k: int)
  {
    ToNumber(v) == Some(k)
  }

  /** Ids are compared as `String(a) === String(b)`. */
  predicate SameId(a: JsVal, b: JsVal)
  {
    ToStr(a) == ToStr(b)
  }

  // ---------------------------------------------------------------------------
  // Properties of the coercions

  lemma {:induction false} DigitsOfNat(n: nat)
    ensures AllDigits(NatToString(n)) && DigitsValue(NatToString(n)) == n
    decreases n
  {
    var s := NatToString(n);
    if n >= 10 {
      DigitsOfNat(n / 10);
      assert s[..|s| - 1] == NatToString(n / 10);
    }
  }

  /** `Number(String(n)) === n` for every integer `n`. */
  lemma NumberOfString(n: int)
    ensures ToNumber(Str(IntToString(n))) == Some(n)
  {
    var s := IntToString(n);
    var m: nat := if n < 0 then -n else n;
    DigitsOfNat(m);
    assert s[0] != ' ' && s[0] != '\t' && s[0] != '\n' && s[0] != '\r';
    assert !IsSpace(s[0]) by {
      if n >= 0 { assert IsDigit(s[0]); }
    }
    assert !IsSpace(s[|s| - 1]) by {
      assert IsDigit(NatToString(m)[|NatToString(m)| - 1]);
    }
    assert TrimStart(s) == s;
    assert TrimEnd(s) == s;
    if n < 0 {
      assert s[1..] == NatToString(m);
      assert s[0] == '-';
    }
  }

  /** `Number` skips white space on either side of a numeral:
      `Number(a + String(n) + b) === n` for white space characters `a`, `b`. */
  lemma PaddedNumeral(a: char, n: int, b: char)
    requires IsSpace(a) && IsSpace(b)
    ensures ToNumber(Str([a] + IntToString(n) + [b])) == Some(n)
  {
    NumberOfString(n);
    NumeralEnds(n);
    TrimPadded(a, IntToString(n), b);
  }

  /** Trimming drops one white space character on each side of a string
      that neither starts nor ends with white space, and leaves the string
      itself as it is. */
  lemma TrimPadded(a: char, t: string, b: char)
    requires IsSpace(a) && IsSpace(b)
    requires t != [] && !IsSpace(t[0]) && !IsSpace(t[|t| - 1])
    ensures Trim([a] + t + [b]) == t
    ensures Trim(t) == t
  {
    var s := [a] + t + [b];
    assert s[1..] == t + [b];
    assert (t + [b])[0] == t[0];
    assert TrimStart(s) == t + [b];
    assert (t + [b])[..|t|] == t;
    assert TrimStart(t) == t;
  }

  /** A numeral neither starts nor ends with white space. */
  lemma NumeralEnds(n: int)
    ensures !IsSpace(IntToString(n)[0])
    ensures !IsSpace(IntToString(n)[|IntToString(n)| - 1])
  {
    var m: nat := if n < 0 then -n else n;
    var d := NatToString(m);
    assert IsDigit(d[0]) && IsDigit(d[|d| - 1]);
    if n < 0 {
      assert IntToString(n) == "-" + d;
    }
  }

  /** Distinct integers have distinct decimal strings, so on numbers the loose
      comparison `String(a) === String(b)` agrees with `a === b`. */
  lemma SameIdNumbers(a: int, b: int)
    ensures SameId(Num(a), Num(b)) <==> a == b
  {
    if SameId(Num(a), Num(b)) {
      NumberOfString(a);
      NumberOfString(b);
    }
  }

  /** A number and its decimal string are the same id. */
  lemma SameIdNumberAndString(n: int)
    ensures SameId(Num(n), Str(IntToString(n)))
  {
  }
}
