/**
 * The few pieces of the Java platform the containers and matchers lean on:
 * nullable values, 32-bit `int` arithmetic, `Character.isWhitespace`,
 * `StringUtils.isBlank`, `String.contains`, `Integer.toString` and the
 * way string concatenation renders `null`.
 */
module JavaLang {

  /** A nullable Java reference: `None` is `null`. */
  datatype Option<+T> = None | Some(value: T)

  /** A value or the exception that was thrown instead. */
  datatype Result<+T, +E> = Success(value: T) | Failure(error: E)

  /** Normal completion of a `void` method, or the exception it threw. */
  datatype Outcome<+E> = Pass | Fail(error: E)

  /** A Java `int`. */
  type Int32 = x: int | -0x8000_0000 <= x < 0x8000_0000

  /** The value a Java `int` expression yields for the exact result `x`: two's complement wrap-around. */
  function Wrap32(x: int): (r: Int32)
    ensures (r - x) % 0x1_0000_0000 == 0
    ensures -0x8000_0000 <= x < 0x8000_0000 ==> r == x
  {
    var m := (x + 0x8000_0000) % 0x1_0000_0000;
    assert x + 0x8000_0000 == 0x1_0000_0000 * ((x + 0x8000_0000) / 0x1_0000_0000) + m;
    m - 0x8000_0000
  }

  /** `"" + s`: Java renders a null string as the four letters `null`. */
  function Stringify(s: Option<string>): (r: string)
    ensures s.Some? ==> r == s.value
    ensures s.None? ==> r == "null"
  {
    match s
    case Some(v) => v
    case None => "null"
  }

  /**
   * `Character.isWhitespace`: the space, line and paragraph separators other
   * than the three non-breaking spaces, and the nine listed control characters.
   */
  predicate IsWhitespace(c: char) {
    || c == ' ' || c == '\t' || c == '\n' || c == '\U{B}' || c == '\U{C}' || c == '\r'
    || ('\U{1C}' <= c <= '\U{1F}')
    || c == '\U{1680}'
    || ('\U{2000}' <= c <= '\U{2006}')
    || ('\U{2008}' <= c <= '\U{200A}')
    || c == '\U{2028}' || c == '\U{2029}' || c == '\U{205F}' || c == '\U{3000}'
  }

  /** `StringUtils.isBlank`: null, empty, or whitespace only. */
  predicate IsBlank(s: Option<string>) {
    match s
    case None => true
    case Some(v) => forall i :: 0 <= i < |v| ==> IsWhitespace(v[i])
  }

  /** `StringUtils.isNotBlank`. */
  predicate IsNotBlank(s: Option<string>)
    ensures IsNotBlank(s) <==> s.Some? && exists i :: 0 <= i < |s.value| && !IsWhitespace(s.value[i])
  {
    !IsBlank(s)
  }

  /** `sub` occurs in `s` starting at index `i`. */
  predicate OccursAt(s: string, sub: string, i: nat) {
    i + |sub| <= |s| && s[i..i + |sub|] == sub
  }

  /** `s.contains(sub)`, scanning `s` from the left as `String.indexOf` does. */
  function Contains(s: string, sub: string): bool
    decreases |s|
  {
    if |sub| > |s| then false
    else s[..|sub|] == sub || Contains(s[1..], sub)
  }

  /** The scan finds `sub` exactly when `sub` occurs somewhere in `s`. */
  lemma {:induction false} ContainsIffOccurs(s: string, sub: string)
    ensures Contains(s, sub) <==> exists i: nat :: OccursAt(s, sub, i)
    decreases |s|
  {
    if |sub| > |s| {
      forall i: nat ensures !OccursAt(s, sub, i) { }
    } else if s[..|sub|] == sub {
      assert OccursAt(s, sub, 0);
    } else {
      ContainsIffOccurs(s[1..], sub);
      if Contains(s[1..], sub) {
        var i: nat :| OccursAt(s[1..], sub, i);
        assert s[1..][i..i + |sub|] == s[i + 1..i + 1 + |sub|];
        assert OccursAt(s, sub, i + 1);
      } else {
        forall i: nat | OccursAt(s, sub, i) ensures false {
          if i > 0 {
            assert s[1..][i - 1..i - 1 + |sub|] == s[i..i + |sub|];
            assert OccursAt(s[1..], sub, i - 1);
          }
        }
      }
    }
  }

  /** The longest prefix of `s` in which `c` does not occur: what a reader takes up to the first `c`. */
  function TakeUntil(s: string, c: char): (r: string)
    ensures |r| <= |s| && r == s[..|r|] && c !in r
    ensures |r| < |s| ==> s[|r|] == c
  {
    if s == [] || s[0] == c then [] else [s[0]] + TakeUntil(s[1..], c)
  }

  /** A text without `c`, followed by a text that is empty or starts with `c`, is read back up to `c`. */
  lemma {:induction false} TakeUntilConcat(a: string, b: string, c: char)
    requires c !in a
    requires b == [] || b[0] == c
    ensures TakeUntil(a + b, c) == a
  {
    if a != [] {
      assert (a + b)[1..] == a[1..] + b;
      TakeUntilConcat(a[1..], b, c);
    }
  }

  /** The decimal digit for `d`. */
  function DigitChar(d: nat): (c: char)
    requires d < 10
    ensures '0' <= c <= '9' && c as int - '0' as int == d
  {
    "0123456789"[d]
  }

  /** Every character of `s` is a decimal digit. */
  predicate IsDigits(s: string) {
    forall i :: 0 <= i < |s| ==> '0' <= s[i] <= '9'
  }

  /** The number a string of decimal digits denotes. */
  function DigitsValue(s: string): nat
    requires IsDigits(s)
  {
    if s == [] then 0
    else DigitsValue(s[..|s| - 1]) * 10 + (s[|s| - 1] as int - '0' as int)
  }

  /** `Integer.toString` of a non-negative number: its shortest decimal rendering. */
  function NatToString(n: nat): (s: string)
    ensures |s| >= 1
  {
    if n < 10 then [DigitChar(n)] else NatToString(n / 10) + [DigitChar(n % 10)]
  }

  /** The rendering is made of digits, has no leading zero, and denotes `n`. */
  lemma {:induction false} NatToStringDenotes(n: nat)
    ensures IsDigits(NatToString(n))
    ensures DigitsValue(NatToString(n)) == n
    ensures NatToString(n)[0] == '0' ==> n == 0
  {
    var s := NatToString(n);
    if n >= 10 {
      NatToStringDenotes(n / 10);
      var p := NatToString(n / 10);
      assert s == p + [DigitChar(n % 10)];
      assert s[..|s| - 1] == p;
      assert s[0] == p[0];
    }
  }

  /** `Integer.toString`: a minus sign before the magnitude of a negative number. */
  function IntToString(i: int): (s: string)
    ensures i < 0 ==> |s| >= 2 && s[0] == '-' && s[1..] == NatToString(-i)
    ensures i >= 0 ==> s == NatToString(i)
  {
    if i < 0 then "-" + NatToString(-i) else NatToString(i)
  }

  /** A rendered number holds only digits and a leading minus sign. */
  lemma IntToStringChars(i: int)
    ensures forall k :: 0 <= k < |IntToString(i)| ==> IntToString(i)[k] == '-' || '0' <= IntToString(i)[k] <= '9'
  {
    var s := IntToString(i);
    if i < 0 {
      var n := NatToString(-i);
      NatToStringDenotes(-i);
      assert s == "-" + n;
      forall k | 0 <= k < |s| ensures s[k] == '-' || '0' <= s[k] <= '9' {
        if k > 0 {
          assert s[k] == n[k - 1];
        }
      }
    } else {
      NatToStringDenotes(i);
    }
  }
}
