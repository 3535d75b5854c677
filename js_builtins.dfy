/** The JavaScript built-ins the handlers rely on, with the semantics the
    handlers observe: `parseInt(text, 10)`, a number interpolated into a
    template literal, ASCII `toLowerCase`, `String.prototype.includes`,
    `Array.prototype.includes` and `Array.prototype.slice`. */
module JsBuiltins {
  import opened Common

  predicate IsDigit(c: char) {
    '0' <= c <= '9'
  }

  predicate AllDigits(s: string) {
    forall i :: 0 <= i < |s| ==> IsDigit(s[i])
  }

  function DigitChar(d: nat): (c: char)
    requires d < 10
    ensures IsDigit(c)
  {
    (('0' as int) + d) as char
  }

  function DigitValue(c: char): (d: nat)
    requires IsDigit(c)
    ensures d < 10
  {
    (c as int) - ('0' as int)
  }

  /** The decimal value of a string of digits. */
  function DigitsValue(s: string): nat
    requires AllDigits(s)
  {
    if s == [] then 0 else DigitsValue(s[..|s| - 1]) * 10 + DigitValue(s[|s| - 1])
  }

  /** A non-negative integer as `${n}` writes it: decimal, no leading zeros. */
  function NatToString(n: nat): (s: string)
    ensures |s| >= 1 && AllDigits(s)
    ensures s[0] == '0' ==> n == 0
  {
    if n < 10 then [DigitChar(n)] else NatToString(n / 10) + [DigitChar(n % 10)]
  }

  lemma {:induction false} DigitsValueOfNatToString(n: nat)
    ensures DigitsValue(NatToString(n)) == n
  {
    if n >= 10 {
      var s := NatToString(n);
      assert s[..|s| - 1] == NatToString(n / 10);
      DigitsValueOfNatToString(n / 10);
    }
  }

  /** The white space `parseInt` skips before the number: ECMAScript's
      WhiteSpace (tab, vertical tab, form feed, the byte order mark and the
      space separators of Unicode category Zs) and LineTerminator. */
  predicate IsJsWhiteSpace(c: char) {
    c == '\t' || c == 11 as char || c == 12 as char || c == 0xFEFF as char ||
    c == ' ' || c == 0xA0 as char || c == 0x1680 as char || (0x2000 as char <= c <= 0x200A as char) ||
    c == 0x202F as char || c == 0x205F as char || c == 0x3000 as char ||
    c == '\n' || c == '\r' || c == 0x2028 as char || c == 0x2029 as char
  }

  function TrimStart(s: string): (r: string)
    ensures |r| <= |s| && r == s[|s| - |r|..]
    ensures r != [] ==> !IsJsWhiteSpace(r[0])
  {
    if s != [] && IsJsWhiteSpace(s[0]) then TrimStart(s[1..]) else s
  }

  /** The longest prefix of `s` made of decimal digits. */
  function DigitPrefix(s: string): (r: string)
    ensures AllDigits(r) && r <= s
    ensures |r| < |s| ==> !IsDigit(s[|r|])
  {
    if s != [] && IsDigit(s[0]) then [s[0]] + DigitPrefix(s[1..]) else []
  }

  /** `parseInt(text, 10)`: skip leading white space, read an optional sign,
      then the longest run of decimal digits; no digit at all is `NaN`
      (here `None`). */
  function ParseInt(text: string): Option<int> {
    var t := TrimStart(text);
    var negative := t != [] && t[0] == '-';
    var unsigned := if t != [] && (t[0] == '-' || t[0] == '+') then t[1..] else t;
    var digits := DigitPrefix(unsigned);
    if digits == [] then None
    else if negative then Some(-(DigitsValue(digits) as int))
    else Some(DigitsValue(digits))
  }

  /** Round trip: `parseInt` reads back the decimal text of any natural
      number, with or without a minus sign in front. */
  lemma {:induction false} ParseIntOfNatToString(n: nat)
    ensures ParseInt(NatToString(n)) == Some(n)
    ensures ParseInt("-" + NatToString(n)) == Some(-(n as int))
  {
    ParseIntOfDigits(NatToString(n));
    DigitsValueOfNatToString(n);
  }

  /** `parseInt` reads a non-empty run of digits as its decimal value, and
      the same run behind a minus sign as its negation. */
  lemma {:induction false} ParseIntOfDigits(s: string)
    requires s != [] && AllDigits(s)
    ensures ParseInt(s) == Some(DigitsValue(s))
    ensures ParseInt("-" + s) == Some(-(DigitsValue(s) as int))
  {
    AllDigitsPrefix(s);
    var m := "-" + s;
    assert m[1..] == s;
    assert !IsJsWhiteSpace(m[0]);
    assert TrimStart(m) == m;
    var digits := DigitPrefix(s);
    assert digits == s;
  }

  lemma {:induction false} AllDigitsPrefix(s: string)
    requires AllDigits(s)
    ensures DigitPrefix(s) == s
    ensures s != [] ==> TrimStart(s) == s
  {
    if s != [] {
      assert IsDigit(s[0]) && !IsJsWhiteSpace(s[0]);
      assert AllDigits(s[1..]) by {
        forall i | 0 <= i < |s[1..]| ensures IsDigit(s[1..][i]) {
          assert s[1..][i] == s[i + 1];
        }
      }
      AllDigitsPrefix(s[1..]);
      assert [s[0]] + s[1..] == s;
    }
  }

  /** A text with no decimal digit parses to `NaN`. */
  lemma ParseIntWithoutDigits(text: string)
    requires forall i :: 0 <= i < |text| ==> !IsDigit(text[i])
    ensures ParseInt(text) == None
  {
    var t := TrimStart(text);
    var unsigned := if t != [] && (t[0] == '-' || t[0] == '+') then t[1..] else t;
    assert unsigned != [] ==> unsigned[0] == text[|text| - |unsigned|];
  }

  /** ASCII case folding, as `toLowerCase` does on ASCII letters. */
  function LowerChar(c: char): (r: char)
    ensures 'A' <= c <= 'Z' ==> 'a' <= r <= 'z' && r as int == c as int + 32
    ensures !('A' <= c <= 'Z') ==> r == c
  {
    if 'A' <= c <= 'Z' then (c as int + 32) as char else c
  }

  function ToLowerCase(s: string): (r: string)
    ensures |r| == |s|
    ensures forall i :: 0 <= i < |s| ==> r[i] == LowerChar(s[i])
  {
    if s == [] then [] else [LowerChar(s[0])] + ToLowerCase(s[1..])
  }

  /** `s` has `t` as a contiguous piece starting at index `i`. */
  ghost predicate OccursAt(s: string, t: string, i: int) {
    0 <= i && i + |t| <= |s| && s[i..i + |t|] == t
  }

  /** `s.includes(t)`, written as the left-to-right scan. */
  function Includes(s: string, t: string): bool
    decreases |s|
  {
    if |t| > |s| then false
    else if s[..|t|] == t then true
    else Includes(s[1..], t)
  }

  /** The scan finds `t` exactly when `t` occurs somewhere in `s`. */
  lemma {:induction false} IncludesIff(s: string, t: string)
    ensures Includes(s, t) <==> exists i :: OccursAt(s, t, i)
    decreases |s|
  {
    if |t| > |s| {
      forall i | OccursAt(s, t, i) ensures false { }
    } else if s[..|t|] == t {
      assert OccursAt(s, t, 0);
    } else {
      IncludesIff(s[1..], t);
      if Includes(s[1..], t) {
        var i :| OccursAt(s[1..], t, i);
        assert s[i + 1..i + 1 + |t|] == s[1..][i..i + |t|];
        assert OccursAt(s, t, i + 1);
      } else {
        forall i | OccursAt(s, t, i) ensures false {
          if i > 0 {
            assert s[1..][i - 1..i - 1 + |t|] == s[i..i + |t|];
            assert OccursAt(s[1..], t, i - 1);
          }
        }
      }
    }
  }

  /** `array.includes(x)`: a left-to-right membership scan. */
  function ArrayIncludes<T(==)>(s: seq<T>, x: T): (r: bool)
    ensures r <==> x in s
  {
    if s == [] then false else s[0] == x || ArrayIncludes(s[1..], x)
  }

  /** The index `Array.prototype.slice` derives from a relative position: a
      negative one counts from the end, and the result is clamped to
      `[0, len]`. */
  function RelativeIndex(k: int, len: nat): (r: nat)
    ensures r <= len
    ensures 0 <= k <= len ==> r == k
    ensures k > len ==> r == len
  {
    if k < 0 then (if len + k < 0 then 0 else len + k)
    else if k > len then len
    else k
  }

  /** `s.slice(start, end)`. */
  function Slice<T>(s: seq<T>, start: int, end: int): seq<T> {
    var from := RelativeIndex(start, |s|);
    var to := RelativeIndex(end, |s|);
    if from < to then s[from..to] else []
  }

  /** For non-negative bounds, `slice` is the sub-sequence between the two
      bounds, each clipped to the length. */
  lemma SliceNonNegative<T>(s: seq<T>, start: int, end: int)
    requires 0 <= start <= end
    ensures Slice(s, start, end) == s[Min(start, |s|)..Min(end, |s|)]
    ensures |Slice(s, start, end)| <= end - start
  {
  }

  /** `s.length`: JavaScript counts UTF-16 code units, so a character
      outside the Basic Multilingual Plane counts twice. */
  function Utf16Length(s: string): (r: nat)
    ensures |s| <= r <= 2 * |s|
    ensures (forall i :: 0 <= i < |s| ==> s[i] as int <= 0xFFFF) ==> r == |s|
  {
    if s == [] then 0 else (if s[0] as int > 0xFFFF then 2 else 1) + Utf16Length(s[1..])
  }

  function Min(a: int, b: int): int {
    if a <= b then a else b
  }
}
