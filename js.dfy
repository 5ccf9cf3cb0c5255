/** The few JavaScript semantics the command-line tool relies on:
    truthiness, `parseInt(value, 10)` and `Array.prototype.join`. */
module Js {
  import opened Wrappers

  /** A JavaScript number as this program can produce one: `parseInt`
      only ever yields an integer or NaN. */
  datatype Number = NaN | Int(value: int)

  /** Truthiness of a possibly undefined string: defined and non-empty. */
  predicate StringTruthy(s: Option<string>)
  {
    s.Some? && s.value != ""
  }

  /** Truthiness of a possibly undefined number: defined, not NaN, not 0. */
  predicate NumberTruthy(n: Option<Number>)
  {
    n.Some? && n.value.Int? && n.value.value != 0
  }

  /** Truthiness of a possibly undefined boolean. */
  predicate BoolTruthy(b: Option<bool>)
  {
    b == Some(true)
  }

  /** `a || b` on possibly undefined strings. */
  function OrString(a: Option<string>, b: Option<string>): Option<string>
  {
    if StringTruthy(a) then a else b
  }

  // ---------------------------------------------------------------------
  // parseInt(value, 10)
  // ---------------------------------------------------------------------

  /** The characters `parseInt` skips before the number: ECMAScript's
      WhiteSpace and LineTerminator productions. */
  predicate IsStrWhiteSpace(c: char)
  {
    || c == '\t' || c == '\n' || c == '\U{000B}' || c == '\U{000C}' || c == '\r'
    || c == ' ' || c == '\U{00A0}' || c == '\U{1680}'
    || ('\U{2000}' <= c <= '\U{200A}')
    || c == '\U{2028}' || c == '\U{2029}' || c == '\U{202F}' || c == '\U{205F}'
    || c == '\U{3000}' || c == '\U{FEFF}'
  }

  predicate IsDigit(c: char)
  {
    '0' <= c <= '9'
  }

  predicate AllDigits(s: string)
  {
    forall i :: 0 <= i < |s| ==> IsDigit(s[i])
  }

  predicate AllWhiteSpace(s: string)
  {
    forall i :: 0 <= i < |s| ==> IsStrWhiteSpace(s[i])
  }

  /** `s` without its leading white space. */
  function TrimStart(s: string): (r: string)
    ensures |r| <= |s| && r == s[|s| - |r|..]
    ensures r == [] || !IsStrWhiteSpace(r[0])
  {
    if s != [] && IsStrWhiteSpace(s[0]) then TrimStart(s[1..]) else s
  }

  /** The longest prefix of `s` made of decimal digits. */
  function DigitPrefix(s: string): (d: string)
    ensures d <= s && AllDigits(d)
    ensures |d| == |s| || !IsDigit(s[|d|])
  {
    if s != [] && IsDigit(s[0]) then [s[0]] + DigitPrefix(s[1..]) else []
  }

  /** The value of a string of decimal digits, most significant first. */
  function DigitsValue(d: string): nat
    requires AllDigits(d)
  {
    if d == [] then 0 else 10 * DigitsValue(d[..|d| - 1]) + (d[|d| - 1] as int - '0' as int)
  }

  /** `parseInt(s, 10)`: skip leading white space, read an optional sign,
      then the longest run of decimal digits; NaN when that run is empty. */
  function ParseInt(s: string): (r: Number)
    ensures s == [] ==> r == NaN
    ensures s != [] && IsDigit(s[0]) ==> r.Int? && r.value >= 0
    ensures s != [] && !IsStrWhiteSpace(s[0]) && !IsDigit(s[0]) && s[0] != '-' && s[0] != '+' ==> r == NaN
  {
    ParseSigned(TrimStart(s))
  }

  /** The part of `parseInt` after the white space has been skipped. */
  function ParseSigned(t: string): Number
  {
    var negative := t != [] && t[0] == '-';
    var u := if t != [] && (t[0] == '-' || t[0] == '+') then t[1..] else t;
    var d := DigitPrefix(u);
    if d == [] then NaN
    else
      var magnitude: int := DigitsValue(d);
      Int(if negative then -magnitude else magnitude)
  }

  /** The signed value `sign` and `digits` denote. */
  function SignedValue(sign: string, digits: string): int
    requires AllDigits(digits)
  {
    var magnitude: int := DigitsValue(digits);
    if sign == "-" then -magnitude else magnitude
  }

  lemma {:induction false} TrimStartSkips(ws: string, x: string)
    requires AllWhiteSpace(ws)
    requires x == [] || !IsStrWhiteSpace(x[0])
    ensures TrimStart(ws + x) == x
  {
    if ws == [] {
      assert ws + x == x;
    } else {
      assert (ws + x)[1..] == ws[1..] + x;
      TrimStartSkips(ws[1..], x);
    }
  }

  lemma {:induction false} DigitPrefixStops(digits: string, rest: string)
    requires AllDigits(digits)
    requires rest == [] || !IsDigit(rest[0])
    ensures DigitPrefix(digits + rest) == digits
  {
    if digits == [] {
      assert digits + rest == rest;
    } else {
      assert (digits + rest)[1..] == digits[1..] + rest;
      DigitPrefixStops(digits[1..], rest);
    }
  }

  lemma ParseSignedOfParts(sign: string, digits: string, rest: string)
    requires sign == "" || sign == "+" || sign == "-"
    requires digits != [] && AllDigits(digits)
    requires rest == [] || !IsDigit(rest[0])
    ensures ParseSigned(sign + digits + rest) == Int(SignedValue(sign, digits))
  {
    var u := digits + rest;
    var t := sign + u;
    assert t == sign + digits + rest;
    DigitPrefixStops(digits, rest);
    var stripped := if t != [] && (t[0] == '-' || t[0] == '+') then t[1..] else t;
    if sign == "" {
      assert t == u && !IsDigit('-') && !IsDigit('+');
      assert stripped == u;
    } else {
      assert t[0] == sign[0] && t[1..] == u;
      assert stripped == u;
    }
    assert (t != [] && t[0] == '-') == (sign == "-");
  }

  /** `parseInt` reads exactly the leading integer: white space, a sign,
      a non-empty run of digits, then anything that is not a digit. */
  lemma ParseIntOfParts(ws: string, sign: string, digits: string, rest: string)
    requires AllWhiteSpace(ws)
    requires sign == "" || sign == "+" || sign == "-"
    requires digits != [] && AllDigits(digits)
    requires rest == [] || !IsDigit(rest[0])
    ensures ParseInt(ws + sign + digits + rest) == Int(SignedValue(sign, digits))
  {
    var x := sign + digits + rest;
    assert ws + sign + digits + rest == ws + x;
    assert x[0] == (if sign == "" then digits[0] else sign[0]);
    TrimStartSkips(ws, x);
    ParseSignedOfParts(sign, digits, rest);
  }

  /** With no digit after the white space and the sign, `parseInt` gives NaN. */
  lemma ParseIntNoDigits(ws: string, sign: string, rest: string)
    requires AllWhiteSpace(ws)
    requires sign == "" || sign == "+" || sign == "-"
    requires rest == [] || !IsDigit(rest[0])
    requires sign == "" && rest != [] ==> !IsStrWhiteSpace(rest[0]) && rest[0] != '+' && rest[0] != '-'
    ensures ParseInt(ws + sign + rest) == NaN
  {
    var x := sign + rest;
    assert ws + sign + rest == ws + x;
    assert x != [] ==> x[0] == (if sign == "" then rest[0] else sign[0]);
    TrimStartSkips(ws, x);
    ParseSignedNoDigits(sign, rest);
  }

  lemma ParseSignedNoDigits(sign: string, rest: string)
    requires sign == "" || sign == "+" || sign == "-"
    requires rest == [] || !IsDigit(rest[0])
    requires sign == "" && rest != [] ==> rest[0] != '+' && rest[0] != '-'
    ensures ParseSigned(sign + rest) == NaN
  {
    if sign == "" {
      assert sign + rest == rest;
    } else {
      assert (sign + rest)[1..] == rest;
    }
  }

  /** The decimal rendering of a natural number (as `String(n)` gives it). */
  function ShowNat(n: nat): (s: string)
    ensures s != [] && AllDigits(s)
  {
    if n < 10 then ['0' + n as char] else ShowNat(n / 10) + ['0' + (n % 10) as char]
  }

  /** The decimal rendering of an integer. */
  function ShowInt(n: int): string
  {
    if n < 0 then "-" + ShowNat(-n) else ShowNat(n)
  }

  lemma {:induction false} DigitsValueShowNat(n: nat)
    ensures DigitsValue(ShowNat(n)) == n
  {
    var s := ShowNat(n);
    if n >= 10 {
      assert s[..|s| - 1] == ShowNat(n / 10);
      DigitsValueShowNat(n / 10);
    }
  }

  /** Round trip: `parseInt` reads back every decimal rendering. */
  lemma ParseIntShowInt(n: int)
    ensures ParseInt(ShowInt(n)) == Int(n)
  {
    var m: nat := if n < 0 then -n else n;
    var sign := if n < 0 then "-" else "";
    var digits := ShowNat(m);
    assert ShowInt(n) == sign + digits;
    ParseIntSignedDigits(sign, digits);
    DigitsValueShowNat(m);
  }

  lemma ParseIntSignedDigits(sign: string, digits: string)
    requires sign == "" || sign == "-"
    requires digits != [] && AllDigits(digits)
    ensures ParseInt(sign + digits) == Int(SignedValue(sign, digits))
  {
    var t := sign + digits;
    assert t[0] == (if sign == "" then digits[0] else '-');
    ParseIntNoLeadingSpace(t);
    assert sign + digits + "" == t;
    ParseSignedOfParts(sign, digits, "");
  }

  lemma ParseIntNoLeadingSpace(t: string)
    requires t == [] || !IsStrWhiteSpace(t[0])
    ensures ParseInt(t) == ParseSigned(t)
  {
  }

  // ---------------------------------------------------------------------
  // Array.prototype.join and a splitting partner
  // ---------------------------------------------------------------------

  /** `parts.join(sep)`. */
  function Join(parts: seq<string>, sep: string): string
  {
    if parts == [] then ""
    else if |parts| == 1 then parts[0]
    else parts[0] + sep + Join(parts[1..], sep)
  }

  /** The first part opens the joined string. */
  lemma JoinStartsWithFirst(parts: seq<string>, sep: string)
    requires |parts| >= 1
    ensures parts[0] <= Join(parts, sep)
  {
  }

  /** The last part closes the joined string. */
  lemma {:induction false} JoinEndsWithLast(parts: seq<string>, sep: string)
    requires |parts| >= 1
    ensures var j := Join(parts, sep); var last := parts[|parts| - 1];
      |last| <= |j| && j[|j| - |last|..] == last
    decreases |parts|
  {
    if |parts| > 1 {
      JoinEndsWithLast(parts[1..], sep);
      assert parts[1..][|parts[1..]| - 1] == parts[|parts| - 1];
    }
  }

  /** Cuts `s` at every occurrence of `c` (as `s.split(c)` does). */
  function Split(s: string, c: char): (parts: seq<string>)
    ensures |parts| >= 1
  {
    if s == [] then [""]
    else
      var tail := Split(s[1..], c);
      if s[0] == c then [""] + tail
      else [[s[0]] + tail[0]] + tail[1..]
  }

  lemma {:induction false} SplitPrefix(x: string, t: string, c: char)
    requires c !in x
    ensures Split(x + t, c) == [x + Split(t, c)[0]] + Split(t, c)[1..]
  {
    if x == [] {
      assert x + t == t;
      assert x + Split(t, c)[0] == Split(t, c)[0];
    } else {
      assert (x + t)[1..] == x[1..] + t;
      SplitPrefix(x[1..], t, c);
      assert [x[0]] + (x[1..] + Split(t, c)[0]) == x + Split(t, c)[0];
    }
  }

  /** Round trip: joining with a one-character separator that no part
      contains, then splitting on it, gives the parts back. */
  lemma {:induction false} SplitJoin(parts: seq<string>, c: char)
    requires parts != []
    requires forall i :: 0 <= i < |parts| ==> c !in parts[i]
    ensures Split(Join(parts, [c]), c) == parts
  {
    if |parts| == 1 {
      SplitPrefix(parts[0], "", c);
      assert parts[0] + "" == parts[0];
    } else {
      var rest := Join(parts[1..], [c]);
      SplitJoin(parts[1..], c);
      assert Join(parts, [c]) == parts[0] + ([c] + rest);
      SplitPrefix(parts[0], [c] + rest, c);
      assert ([c] + rest)[1..] == rest;
      assert parts[0] + "" == parts[0];
      assert parts == [parts[0]] + parts[1..];
    }
  }
}
