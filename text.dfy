// The pieces of Rust's standard library the gateway leans on, stated over
// strings of ASCII characters: integer rendering (`to_string`, `{:0>2}`),
// integer parsing (`str::parse`), left padding, `str::repeat` and
// `str::replace` of one character.

module Text {
  import opened Gateway

  predicate IsDigit(c: char) { '0' <= c <= '9' }

  predicate AllDigits(s: string) { forall i :: 0 <= i < |s| ==> IsDigit(s[i]) }

  function DigitValue(c: char): nat
    requires IsDigit(c)
  {
    (c as int - '0' as int) as nat
  }

  function DigitChar(d: nat): (c: char)
    requires d < 10
    ensures IsDigit(c) && DigitValue(c) == d
  {
    ('0' as int + d) as char
  }

  function Pow10(k: nat): (p: nat)
    ensures p >= 1
  {
    if k == 0 then 1 else 10 * Pow10(k - 1)
  }

  /** The number a string of decimal digits denotes, most significant digit first. */
  function DigitsValue(s: string): nat
    requires AllDigits(s)
  {
    if s == [] then 0 else DigitsValue(s[..|s| - 1]) * 10 + DigitValue(s[|s| - 1])
  }

  /** A digit string of length k denotes a number below 10^k. */
  lemma {:induction false} DigitsValueBound(s: string)
    requires AllDigits(s)
    ensures DigitsValue(s) < Pow10(|s|)
  {
    if s != [] {
      DigitsValueBound(s[..|s| - 1]);
    }
  }

  /** Leading zeros do not change the value of a digit string. */
  lemma {:induction false} LeadingZero(s: string)
    requires AllDigits(s)
    ensures AllDigits(['0'] + s) && DigitsValue(['0'] + s) == DigitsValue(s)
  {
    if s != [] {
      LeadingZero(s[..|s| - 1]);
      assert (['0'] + s)[..|s|] == ['0'] + s[..|s| - 1];
    }
  }

  /**
   * Rust's `to_string` on an unsigned integer: the shortest decimal rendering,
   * which denotes `n` again and has no leading zero.
   */
  function NatToString(n: nat): (s: string)
    ensures 1 <= |s| && AllDigits(s)
    ensures DigitsValue(s) == n
    ensures |s| > 1 ==> s[0] != '0'
    ensures n < 10 <==> |s| == 1
  {
    if n < 10 then [DigitChar(n)]
    else
      var prefix := NatToString(n / 10);
      assert (prefix + [DigitChar(n % 10)])[..|prefix|] == prefix;
      prefix + [DigitChar(n % 10)]
  }

  /**
   * A digit string without a leading zero is the rendering of its own value:
   * `to_string` is the only such rendering of a number.
   */
  lemma {:induction false} CanonicalDecimal(s: string)
    requires s != [] && AllDigits(s) && (|s| > 1 ==> s[0] != '0')
    ensures s == NatToString(DigitsValue(s))
  {
    if |s| > 1 {
      var init := s[..|s| - 1];
      assert init[0] == s[0];
      CanonicalDecimal(init);
      var v := DigitsValue(init);
      assert v != 0;
      var n := DigitsValue(s);
      assert n / 10 == v && n % 10 == DigitValue(s[|s| - 1]);
      assert DigitChar(DigitValue(s[|s| - 1])) == s[|s| - 1];
      assert s == init + [s[|s| - 1]];
    } else {
      assert DigitChar(DigitValue(s[0])) == s[0];
    }
  }

  /** Distinct numbers have distinct renderings. */
  lemma NatToStringInjective(m: nat, n: nat)
    requires NatToString(m) == NatToString(n)
    ensures m == n
  {
  }

  function Repeat(c: char, n: nat): (r: string)
    ensures |r| == n
    ensures forall i :: 0 <= i < n ==> r[i] == c
  {
    if n == 0 then [] else [c] + Repeat(c, n - 1)
  }

  /** `str::repeat`: `s` written `n` times over. */
  function RepeatString(s: string, n: nat): (r: string)
    ensures |r| == |s| * n
    ensures |s| == 1 ==> r == Repeat(s[0], n)
    ensures s == "" ==> r == ""
  {
    if n == 0 then "" else s + RepeatString(s, n - 1)
  }

  /**
   * `s` left-padded with `c` up to `n` characters: the result is as long as
   * the longer of the two, ends in `s`, and every character in front of `s`
   * is `c`. A string already `n` long or longer is returned unchanged.
   */
  function LeftPad(s: string, n: nat, c: char): (r: string)
    ensures |r| == if n > |s| then n else |s|
    ensures r[|r| - |s|..] == s
    ensures forall i :: 0 <= i < |r| - |s| ==> r[i] == c
    ensures n <= |s| ==> r == s
  {
    if n > |s| then Repeat(c, n - |s|) + s else s
  }

  /**
   * `format!("{:0>2}", n)`: the decimal rendering of `n` zero-padded to two
   * characters. It always denotes `n`; below 100 it is exactly two digits,
   * the tens digit then the units digit, and from 100 on it is the plain
   * rendering.
   */
  function TwoDigits(n: nat): (r: string)
    ensures AllDigits(r) && DigitsValue(r) == n
    ensures 2 <= |r|
    ensures n <= 99 ==> |r| == 2
    ensures n > 99 ==> r == NatToString(n)
  {
    if n <= 99 then
      var r := [DigitChar(n / 10), DigitChar(n % 10)];
      assert r[..1] == [DigitChar(n / 10)] && DigitsValue(r[..1]) == n / 10 by {
        assert r[..1][..0] == [];
      }
      r
    else NatToString(n)
  }

  /** Zero-padding to two characters: `{:0>2}` is `to_string` left-padded with `0` to width 2. */
  lemma TwoDigitsIsLeftPad(n: nat)
    ensures TwoDigits(n) == LeftPad(NatToString(n), 2, '0')
  {
    var s := NatToString(n);
    if n < 10 {
      assert s == [DigitChar(n)];
    } else if n <= 99 {
      assert NatToString(n / 10) == [DigitChar(n / 10)];
    }
  }

  /** Two-digit renderings of numbers below 100 are distinct. */
  lemma TwoDigitsInjective(m: nat, n: nat)
    requires m <= 99 && n <= 99 && TwoDigits(m) == TwoDigits(n)
    ensures m == n
  {
  }

  /** `s.replace(c, "")` for a one-character pattern: `s` with every `c` deleted. */
  function RemoveAll(s: string, c: char): (r: string)
    ensures c !in r
    ensures |r| <= |s|
    ensures c !in s ==> r == s
  {
    if s == [] then []
    else
      assert s == [s[0]] + s[1..];
      (if s[0] == c then [] else [s[0]]) + RemoveAll(s[1..], c)
  }

  /** Deleting `c` keeps every other character as often as it occurred. */
  lemma {:induction false} RemoveAllKeepsOthers(s: string, c: char, x: char)
    requires x != c
    ensures multiset(RemoveAll(s, c))[x] == multiset(s)[x]
  {
    if s != [] {
      RemoveAllKeepsOthers(s[1..], c, x);
      assert s == [s[0]] + s[1..];
    }
  }

  /** Deleting a character distributes over concatenation, so the order of what remains is kept. */
  lemma {:induction false} RemoveAllAppend(a: string, b: string, c: char)
    ensures RemoveAll(a + b, c) == RemoveAll(a, c) + RemoveAll(b, c)
  {
    if a != [] {
      assert (a + b)[0] == a[0] && (a + b)[1..] == a[1..] + b;
      RemoveAllAppend(a[1..], b, c);
    } else {
      assert a + b == b;
    }
  }

  // ---------------------------------------------------------------------
  // `str::parse::<u32>`

  const InvalidDigit: string := "invalid digit found in string"
  const EmptyInput: string := "cannot parse integer from empty string"
  const PosOverflow: string := "number too large to fit in target type"

  /** The value Rust's parser accumulates, left to right, from `acc`. */
  function FoldDigits(acc: nat, s: string): nat
    requires AllDigits(s)
    decreases s
  {
    if s == [] then acc else FoldDigits(acc * 10 + DigitValue(s[0]), s[1..])
  }

  lemma {:induction false} FoldDigitsAtLeast(acc: nat, s: string)
    requires AllDigits(s)
    ensures FoldDigits(acc, s) >= acc
    decreases s
  {
    if s != [] {
      FoldDigitsAtLeast(acc * 10 + DigitValue(s[0]), s[1..]);
    }
  }

  lemma {:induction false} FoldDigitsSnoc(acc: nat, s: string, c: char)
    requires AllDigits(s) && IsDigit(c)
    ensures AllDigits(s + [c]) && FoldDigits(acc, s + [c]) == FoldDigits(acc, s) * 10 + DigitValue(c)
    decreases s
  {
    if s != [] {
      assert (s + [c])[1..] == s[1..] + [c];
      FoldDigitsSnoc(acc * 10 + DigitValue(s[0]), s[1..], c);
    }
  }

  /** Accumulating left to right from zero gives the value of the digit string. */
  lemma {:induction false} FoldDigitsValue(s: string)
    requires AllDigits(s)
    ensures FoldDigits(0, s) == DigitsValue(s)
  {
    if s != [] {
      var init := s[..|s| - 1];
      FoldDigitsValue(init);
      FoldDigitsSnoc(0, init, s[|s| - 1]);
      assert init + [s[|s| - 1]] == s;
    }
  }

  /** The digit loop of `u32::from_str`: the first bad character or overflow ends it. */
  function AccumulateU32(acc: U32, s: string): (r: Result<U32, string>)
    ensures r.Success? ==> AllDigits(s) && r.value == FoldDigits(acc, s)
    ensures r.Failure? ==> r.error == InvalidDigit || r.error == PosOverflow
    decreases s
  {
    if s == [] then Success(acc)
    else if !IsDigit(s[0]) then Failure(InvalidDigit)
    else if acc * 10 + DigitValue(s[0]) > U32_MAX then Failure(PosOverflow)
    else
      var r := AccumulateU32(acc * 10 + DigitValue(s[0]), s[1..]);
      assert r.Success? ==> AllDigits(s) by {
        if r.Success? {
          forall i | 0 <= i < |s| ensures IsDigit(s[i]) {
            if i > 0 { assert s[i] == s[1..][i - 1]; }
          }
        }
      }
      r
  }

  /** The digits `u32::from_str` reads: all of `s`, or all but a leading `+`. */
  function UnsignedDigits(s: string): string
  {
    if s != [] && s[0] == '+' then s[1..] else s
  }

  /**
   * Rust's `str::parse::<u32>`: an optional `+` followed by at least one
   * decimal digit, denoting a value that fits in 32 bits.
   */
  function ParseU32(s: string): (r: Result<U32, string>)
    ensures r.Success? <==> UnsignedDigits(s) != [] && AllDigits(UnsignedDigits(s))
                            && DigitsValue(UnsignedDigits(s)) <= U32_MAX
    ensures r.Success? ==> r.value == DigitsValue(UnsignedDigits(s))
    ensures r.Failure? ==> r.error == EmptyInput || r.error == InvalidDigit || r.error == PosOverflow
    ensures r == Failure(EmptyInput) <==> s == []
  {
    if s == [] then Failure(EmptyInput)
    else if |s| == 1 && (s[0] == '+' || s[0] == '-') then Failure(InvalidDigit)
    else
      var d := UnsignedDigits(s);
      var r := AccumulateU32(0, d);
      assert r.Success? ==> r.value == DigitsValue(d) by {
        if r.Success? { FoldDigitsValue(d); }
      }
      assert d != [] && AllDigits(d) && DigitsValue(d) <= U32_MAX ==> r.Success? by {
        if d != [] && AllDigits(d) && DigitsValue(d) <= U32_MAX {
          FoldDigitsValue(d);
          AccumulateWithinRange(0, d);
        }
      }
      r
  }

  lemma {:induction false} AccumulateWithinRange(acc: U32, s: string)
    requires AllDigits(s) && FoldDigits(acc, s) <= U32_MAX
    ensures AccumulateU32(acc, s) == Success(FoldDigits(acc, s))
    decreases s
  {
    if s != [] {
      var next := acc * 10 + DigitValue(s[0]);
      FoldDigitsAtLeast(next, s[1..]);
      AccumulateWithinRange(next, s[1..]);
    }
  }

  /** Parsing the rendering of a 32-bit value gives the value back. */
  lemma ParseU32RoundTrip(n: U32)
    ensures ParseU32(NatToString(n)) == Success(n)
  {
    var s := NatToString(n);
    assert UnsignedDigits(s) == s by { assert IsDigit(s[0]); }
    FoldDigitsValue(s);
    AccumulateWithinRange(0, s);
  }

  // ---------------------------------------------------------------------
  // `str::parse::<i32>` on a string too short to overflow

  /**
   * Rust's `str::parse::<i32>` on at most nine characters (which cannot
   * overflow): an optional sign followed by at least one digit. With a sign
   * the value lies strictly within 10^(|s| - 1) of zero.
   */
  function ParseShortI32(s: string): (r: Option<int>)
    requires |s| <= 9
    ensures AllDigits(s) && s != [] ==> r == Some(DigitsValue(s))
    ensures r.Some? && !AllDigits(s) ==> -(Pow10(|s| - 1) as int) < r.value < Pow10(|s| - 1)
    ensures s == [] ==> r == None
  {
    if s == [] then None
    else if IsDigit(s[0]) then
      if AllDigits(s) then Some(DigitsValue(s)) else None
    else if (s[0] == '+' || s[0] == '-') && |s| > 1 && AllDigits(s[1..]) then
      DigitsValueBound(s[1..]);
      if s[0] == '-' then Some(-(DigitsValue(s[1..]) as int)) else Some(DigitsValue(s[1..]))
    else None
  }
}
