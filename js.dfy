/** JavaScript values and the few built-in operations the dashboard relies on:
    truthiness, `String(v)`, strict equality `===`, `parseInt(s, 10)`,
    `String.prototype.trim`, ASCII `toLowerCase` and `includes`. */
module Js {

  datatype Option<+T> = None | Some(value: T)

  /** A primitive JavaScript value. Numbers are modelled as integers: every
      number the modelled code produces comes from `Date.now()` or `parseInt`. */
  datatype JsValue = Undefined | Null | Bool(b: bool) | Num(n: int) | NaN | Str(s: string)

  /** An exception caught by a handler: its `message` property ("" when it has
      none or when the thrown value is not an object) and `String(err)`. */
  datatype Thrown = Thrown(message: string, asString: string)

  /** The outcome of a remote call: the value it resolved with, or what it threw. */
  datatype Result<+T> = Ok(value: T) | Err(error: Thrown)

  /** `err && err.message ? err.message : String(err)` */
  function ErrorMessage(e: Thrown): (r: string)
    ensures r == e.message || r == e.asString
    ensures e.message != "" ==> r == e.message
    ensures r == "" <==> e.message == "" && e.asString == ""
  {
    if e.message != "" then e.message else e.asString
  }

  /** Boolean conversion: `undefined`, `null`, `false`, `0`, `NaN` and `""` are falsy. */
  predicate Truthy(v: JsValue)
    ensures Truthy(v) <==> v !in {Undefined, Null, Bool(false), Num(0), NaN, Str("")}
  {
    match v
    case Undefined => false
    case Null => false
    case Bool(b) => b
    case Num(n) => n != 0
    case NaN => false
    case Str(s) => s != ""
  }

  /** `a || b` */
  function Or(a: JsValue, b: JsValue): (r: JsValue)
    ensures r == a || r == b
    ensures Truthy(r) <==> Truthy(a) || Truthy(b)
    ensures Truthy(a) ==> r == a
  {
    if Truthy(a) then a else b
  }

  /** `a === b`: NaN is the one value not strictly equal to itself. */
  predicate StrictEquals(a: JsValue, b: JsValue)
    ensures StrictEquals(a, b) ==> a == b
  {
    !a.NaN? && !b.NaN? && a == b
  }

  /** `===` is symmetric, and NaN is the one value it does not relate to itself. */
  lemma StrictEqualsLaws(a: JsValue, b: JsValue)
    ensures StrictEquals(a, b) <==> StrictEquals(b, a)
    ensures StrictEquals(a, a) <==> !a.NaN?
  {
  }

  // ---------------------------------------------------------------------
  // Decimal digits and number-to-string conversion

  predicate IsDigit(c: char)
  {
    '0' <= c <= '9'
  }

  predicate AllDigits(s: string)
  {
    forall i :: 0 <= i < |s| ==> IsDigit(s[i])
  }

  function DigitChar(d: nat): (c: char)
    requires d < 10
    ensures IsDigit(c)
  {
    ('0' as int + d) as char
  }

  /** Decimal representation of a natural number, most significant digit first. */
  function NatToString(n: nat): (s: string)
    ensures s != [] && AllDigits(s)
    ensures s[0] == '0' ==> n == 0
    decreases n
  {
    if n < 10 then [DigitChar(n)] else NatToString(n / 10) + [DigitChar(n % 10)]
  }

  /** `Number.prototype.toString()` on an integer (exact for magnitudes below 10^21). */
  function IntToString(i: int): (s: string)
    ensures i >= 0 ==> s != [] && AllDigits(s)
    ensures i < 0 ==> |s| >= 2 && s[0] == '-' && AllDigits(s[1..]) && s[1] != '0'
  {
    if i < 0 then "-" + NatToString(-i) else NatToString(i)
  }

  /** `String(v)` */
  function ToString(v: JsValue): (r: string)
    ensures v.Str? ==> r == v.s
    ensures r == "" <==> v == Str("")
  {
    match v
    case Undefined => "undefined"
    case Null => "null"
    case Bool(b) => if b then "true" else "false"
    case Num(n) => IntToString(n)
    case NaN => "NaN"
    case Str(s) => s
  }

  /** The value of a string of decimal digits. */
  function DigitsValue(ds: string): nat
    requires AllDigits(ds)
  {
    if ds == [] then 0 else DigitsValue(ds[..|ds| - 1]) * 10 + (ds[|ds| - 1] as int - '0' as int)
  }

  lemma {:induction false} DigitsValueOfNatToString(n: nat)
    ensures DigitsValue(NatToString(n)) == n
    decreases n
  {
    if n >= 10 {
      var s := NatToString(n / 10);
      DigitsValueOfNatToString(n / 10);
      assert (s + [DigitChar(n % 10)])[..|s|] == s;
    }
  }

  /** Length of the longest prefix of `s` made of decimal digits. */
  function DigitPrefixLength(s: string): (k: nat)
    ensures k <= |s|
    ensures forall i :: 0 <= i < k ==> IsDigit(s[i])
    ensures k < |s| ==> !IsDigit(s[k])
  {
    if s != [] && IsDigit(s[0]) then 1 + DigitPrefixLength(s[1..]) else 0
  }

  // ---------------------------------------------------------------------
  // Whitespace and trimming

  /** The WhiteSpace and LineTerminator code points of ECMAScript (sections
      12.2 and 12.3 of ECMA-262), which `trim` and `parseInt` skip. */
  predicate IsWhitespace(c: char)
  {
    var n := c as int;
    n == 0x09 || n == 0x0A || n == 0x0B || n == 0x0C || n == 0x0D || n == 0x20
    || n == 0xA0 || n == 0x1680 || (0x2000 <= n <= 0x200A) || n == 0x2028 || n == 0x2029
    || n == 0x202F || n == 0x205F || n == 0x3000 || n == 0xFEFF
  }

  /** Number of whitespace characters at the start of `s`. */
  function LeadingWhitespace(s: string): (k: nat)
    ensures k <= |s|
    ensures forall i :: 0 <= i < k ==> IsWhitespace(s[i])
    ensures k < |s| ==> !IsWhitespace(s[k])
  {
    if s != [] && IsWhitespace(s[0]) then 1 + LeadingWhitespace(s[1..]) else 0
  }

  /** Number of whitespace characters at the end of `s`. */
  function TrailingWhitespace(s: string): (k: nat)
    ensures k <= |s|
    ensures forall i :: |s| - k <= i < |s| ==> IsWhitespace(s[i])
    ensures k < |s| ==> !IsWhitespace(s[|s| - 1 - k])
  {
    if s != [] && IsWhitespace(s[|s| - 1]) then 1 + TrailingWhitespace(s[..|s| - 1]) else 0
  }

  /** `s.trim()`: `s` with its leading and trailing whitespace removed. */
  function Trim(s: string): (t: string)
    ensures exists i, j :: (0 <= i <= j <= |s| && t == s[i..j]
                            && (forall k :: 0 <= k < i ==> IsWhitespace(s[k]))
                            && (forall k :: j <= k < |s| ==> IsWhitespace(s[k])))
    ensures t != [] ==> !IsWhitespace(t[0]) && !IsWhitespace(t[|t| - 1])
  {
    var a := LeadingWhitespace(s);
    var u := s[a..];
    var b := TrailingWhitespace(u);
    assert u[..|u| - b] == s[a..|s| - b];
    s[a..|s| - b]
  }

  /** A string trims to "" exactly when every character of it is whitespace. */
  lemma TrimEmptyIff(s: string)
    ensures Trim(s) == "" <==> forall k :: 0 <= k < |s| ==> IsWhitespace(s[k])
  {
    var a := LeadingWhitespace(s);
    var u := s[a..];
    var b := TrailingWhitespace(u);
    if Trim(s) == "" {
      assert |u| == b;
      assert a == |s|;
    } else {
      assert !IsWhitespace(Trim(s)[0]);
    }
  }

  /** Trimming twice is the same as trimming once. */
  lemma TrimIdempotent(s: string)
    ensures Trim(Trim(s)) == Trim(s)
  {
    var t := Trim(s);
    if t != [] {
      assert LeadingWhitespace(t) == 0;
      assert TrailingWhitespace(t) == 0;
    }
  }

  // ---------------------------------------------------------------------
  // parseInt

  /** `parseInt(s, 10)` (section 19.2.5 of ECMA-262): skip leading whitespace,
      read an optional sign, then the longest run of decimal digits; NaN when
      there is none. */
  function ParseInt(s: string): (r: JsValue)
    ensures r.Num? || r.NaN?
  {
    var t := s[LeadingWhitespace(s)..];
    var negative := t != [] && t[0] == '-';
    var body := if t != [] && (t[0] == '-' || t[0] == '+') then t[1..] else t;
    var digits := body[..DigitPrefixLength(body)];
    if digits == [] then NaN
    else
      var v: int := DigitsValue(digits);
      Num(if negative then -v else v)
  }

  /** The digit run of `d + rest` is exactly `d` when `rest` does not go on with a digit. */
  lemma {:induction false} DigitPrefixOfDigitsThen(d: string, rest: string)
    requires AllDigits(d)
    requires rest == [] || !IsDigit(rest[0])
    ensures DigitPrefixLength(d + rest) == |d|
    decreases |d|
  {
    if d != [] {
      assert (d + rest)[0] == d[0];
      assert (d + rest)[1..] == d[1..] + rest;
      DigitPrefixOfDigitsThen(d[1..], rest);
    }
  }

  /** `parseInt` reads a leading run of digits and ignores whatever follows it. */
  lemma ParseDigitPrefix(d: string, rest: string)
    requires d != [] && AllDigits(d)
    requires rest == [] || !IsDigit(rest[0])
    ensures ParseInt(d + rest) == Num(DigitsValue(d))
  {
    var s := d + rest;
    assert s[0] == d[0];
    assert LeadingWhitespace(s) == 0;
    assert s[0..] == s;
    DigitPrefixOfDigitsThen(d, rest);
    assert s[..|d|] == d;
  }

  /** A non-empty string of decimal digits parses to its base-10 value. */
  lemma ParseDigitString(s: string)
    requires s != [] && AllDigits(s)
    ensures ParseInt(s) == Num(DigitsValue(s))
  {
    assert LeadingWhitespace(s) == 0;
    assert DigitPrefixLength(s) == |s|;
    assert s[..|s|] == s;
  }

  /** `parseInt(String(n), 10) === n` for every integer `n`. */
  lemma ParseIntOfIntToString(n: int)
    ensures ParseInt(IntToString(n)) == Num(n)
  {
    if n < 0 {
      var d := NatToString(-n);
      var s := "-" + d;
      assert LeadingWhitespace(s) == 0;
      assert s[1..] == d;
      assert DigitPrefixLength(d) == |d|;
      assert d[..|d|] == d;
      DigitsValueOfNatToString(-n);
    } else {
      ParseDigitString(NatToString(n));
      DigitsValueOfNatToString(n);
    }
  }

  /** Strings that start with a character that is neither whitespace, a sign
      nor a digit parse to NaN. */
  lemma ParseIntNonNumeric(s: string)
    requires s != [] && !IsWhitespace(s[0]) && !IsDigit(s[0]) && s[0] != '-' && s[0] != '+'
    ensures ParseInt(s) == NaN
  {
    assert LeadingWhitespace(s) == 0;
    assert s[0..] == s;
  }

  // ---------------------------------------------------------------------
  // Case folding and substring search

  function ToLowerChar(c: char): char
  {
    if 'A' <= c <= 'Z' then (c as int + 32) as char else c
  }

  /** `s.toLowerCase()` on ASCII letters. */
  function ToLower(s: string): (r: string)
    ensures |r| == |s|
    ensures forall i :: 0 <= i < |s| ==> r[i] == ToLowerChar(s[i])
    ensures forall i :: 0 <= i < |s| ==> !('A' <= r[i] <= 'Z')
  {
    seq(|s|, k requires 0 <= k < |s| => ToLowerChar(s[k]))
  }

  /** Lowering a slice is slicing the lowered string. */
  lemma ToLowerOfSlice(s: string, i: int, j: int)
    requires 0 <= i <= j <= |s|
    ensures ToLower(s)[i..j] == ToLower(s[i..j])
  {
    var a, b := ToLower(s)[i..j], ToLower(s[i..j]);
    forall k | 0 <= k < j - i ensures a[k] == b[k] {
      assert s[i..j][k] == s[i + k];
    }
  }

  /** Lowering twice is lowering once. */
  lemma ToLowerIdempotent(s: string)
    ensures ToLower(ToLower(s)) == ToLower(s)
  {
  }

  /** `s.includes(sub)` */
  predicate Contains(s: string, sub: string)
    ensures Contains(s, sub) ==> |sub| <= |s|
    ensures sub <= s ==> Contains(s, sub)
    decreases |s|
  {
    sub <= s || (s != [] && Contains(s[1..], sub))
  }

  /** `sub` occurs in `s` starting at position `i`. */
  predicate OccursAt(s: string, sub: string, i: int)
  {
    0 <= i && i + |sub| <= |s| && s[i..i + |sub|] == sub
  }

  /** A position at which `includes` finds `sub`. */
  lemma {:induction false} ContainsWitness(s: string, sub: string) returns (i: int)
    requires Contains(s, sub)
    ensures OccursAt(s, sub, i)
    decreases |s|
  {
    if sub <= s {
      i := 0;
      assert s[0..|sub|] == sub;
    } else {
      var k := ContainsWitness(s[1..], sub);
      assert s[1..][k..k + |sub|] == s[k + 1..k + 1 + |sub|];
      i := k + 1;
    }
  }

  /** An occurrence at position `i` is found by `includes`. */
  lemma {:induction false} OccursContains(s: string, sub: string, i: int)
    requires OccursAt(s, sub, i)
    ensures Contains(s, sub)
    decreases i
  {
    if i == 0 {
      assert sub == s[..|sub|];
    } else {
      assert s[1..][i - 1..i - 1 + |sub|] == s[i..i + |sub|];
      OccursContains(s[1..], sub, i - 1);
    }
  }

  /** `includes` holds exactly when `sub` occurs at some position of `s`. */
  lemma ContainsIff(s: string, sub: string)
    ensures Contains(s, sub) <==> exists i :: OccursAt(s, sub, i)
  {
    if Contains(s, sub) {
      var i := ContainsWitness(s, sub);
    }
    if exists i :: OccursAt(s, sub, i) {
      var i :| OccursAt(s, sub, i);
      OccursContains(s, sub, i);
    }
  }

  /** Every string includes the empty string. */
  lemma ContainsEmpty(s: string)
    ensures Contains(s, "")
  {
  }
}
