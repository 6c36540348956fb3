/** String primitives the TypeScript sources take from the JavaScript runtime:
    the `\D` regular-expression class, `startsWith`, `includes`,
    `toLowerCase` (restricted to ASCII), `Number.prototype.toString` on
    integers and `slice` with a negative start. Each one is written out here
    so that the modules above it can state exact contracts. */
module Text {

  // ---------------------------------------------------------------------------
  // Digits
  // ---------------------------------------------------------------------------

  /** The characters the `[0-9]` class (and the complement of `\D`) matches. */
  predicate IsDigit(c: char) {
    '0' <= c <= '9'
  }

  predicate AllDigits(s: string) {
    forall i :: 0 <= i < |s| ==> IsDigit(s[i])
  }

  /** `s.replace(/\D/g, '')`: the ASCII digits of `s`, in their original order. */
  function Digits(s: string): (r: string)
    ensures AllDigits(r)
    ensures |r| <= |s|
    ensures AllDigits(s) ==> r == s
    decreases |s|
  {
    if |s| == 0 then ""
    else if IsDigit(s[0]) then [s[0]] + Digits(s[1..])
    else Digits(s[1..])
  }

  /** A string without digits strips to nothing. */
  lemma {:induction false} DigitsOfNonDigits(s: string)
    requires forall i :: 0 <= i < |s| ==> !IsDigit(s[i])
    ensures Digits(s) == ""
    decreases |s|
  {
    if |s| > 0 {
      DigitsOfNonDigits(s[1..]);
    }
  }

  /** Stripping distributes over concatenation. */
  lemma {:induction false} DigitsAppend(a: string, b: string)
    ensures Digits(a + b) == Digits(a) + Digits(b)
    decreases |a|
  {
    if |a| == 0 {
      assert a + b == b;
    } else {
      assert (a + b)[1..] == a[1..] + b;
      assert (a + b)[0] == a[0];
      DigitsAppend(a[1..], b);
    }
  }

  // ---------------------------------------------------------------------------
  // Prefixes, substrings and ASCII case
  // ---------------------------------------------------------------------------

  /** `s.startsWith(p)`. */
  predicate StartsWith(s: string, p: string) {
    |p| <= |s| && s[..|p|] == p
  }

  /** `sub` occurs in `s` beginning at index `i`. */
  predicate OccursAt(s: string, sub: string, i: int) {
    0 <= i && i + |sub| <= |s| && s[i..i + |sub|] == sub
  }

  /** `s.includes(sub)`, as a left-to-right scan. */
  predicate Contains(s: string, sub: string)
    decreases |s|
  {
    StartsWith(s, sub) || (|s| > 0 && Contains(s[1..], sub))
  }

  /** The scan finds `sub` exactly when `sub` occurs at some index of `s`. */
  lemma {:induction false} ContainsIff(s: string, sub: string)
    ensures Contains(s, sub) <==> exists i :: OccursAt(s, sub, i)
    decreases |s|
  {
    if StartsWith(s, sub) {
      assert OccursAt(s, sub, 0);
    } else if |s| == 0 {
    } else {
      ContainsIff(s[1..], sub);
      if Contains(s[1..], sub) {
        var j :| OccursAt(s[1..], sub, j);
        assert s[1..][j..j + |sub|] == s[j + 1..j + 1 + |sub|];
        assert OccursAt(s, sub, j + 1);
      }
      if i :| OccursAt(s, sub, i) {
        assert s[1..][i - 1..i - 1 + |sub|] == s[i..i + |sub|];
        assert OccursAt(s[1..], sub, i - 1);
      }
    }
  }

  /** `toLowerCase` on one ASCII character; every other character is kept. */
  function LowerChar(c: char): char {
    if 'A' <= c <= 'Z' then (c as int + 32) as char else c
  }

  /** `toLowerCase` restricted to ASCII letters. */
  function LowerAscii(s: string): (r: string)
    ensures |r| == |s|
    ensures forall i :: 0 <= i < |s| ==> r[i] == LowerChar(s[i])
  {
    seq(|s|, i requires 0 <= i < |s| => LowerChar(s[i]))
  }

  // ---------------------------------------------------------------------------
  // Decimal numerals
  // ---------------------------------------------------------------------------

  function DigitChar(d: nat): (c: char)
    requires d < 10
    ensures IsDigit(c)
  {
    ('0' as int + d) as char
  }

  function DigitValue(c: char): (d: nat)
    requires IsDigit(c)
    ensures d < 10 && DigitChar(d) == c
  {
    c as int - '0' as int
  }

  /** `n.toString()` for a non-negative integer: shortest decimal numeral. */
  function NatToDecimal(n: nat): (r: string)
    ensures 1 <= |r| && AllDigits(r)
    ensures 1 < |r| ==> r[0] != '0'
    decreases n
  {
    if n < 10 then [DigitChar(n)] else NatToDecimal(n / 10) + [DigitChar(n % 10)]
  }

  /** `i.toString()` for any integer: a minus sign, then the magnitude. */
  function IntToDecimal(i: int): (r: string)
    ensures 0 <= i ==> r == NatToDecimal(i)
    ensures i < 0 ==> |r| >= 2 && r[0] == '-' && r[1..] == NatToDecimal(-i)
  {
    if i < 0 then "-" + NatToDecimal(-i) else NatToDecimal(i)
  }

  /** The number a string of digits denotes (the partner of `NatToDecimal`). */
  function DecimalValue(s: string): nat
    requires AllDigits(s)
    decreases |s|
  {
    if |s| == 0 then 0 else 10 * DecimalValue(s[..|s| - 1]) + DigitValue(s[|s| - 1])
  }

  function Pow10(k: nat): (p: nat)
    ensures 1 <= p
  {
    if k == 0 then 1 else 10 * Pow10(k - 1)
  }

  /** Reading back the numeral `NatToDecimal` writes yields the number. */
  lemma {:induction false} DecimalRoundTrip(n: nat)
    ensures DecimalValue(NatToDecimal(n)) == n
    decreases n
  {
    var r := NatToDecimal(n);
    if n >= 10 {
      DecimalRoundTrip(n / 10);
      assert r[..|r| - 1] == NatToDecimal(n / 10);
      assert DigitValue(r[|r| - 1]) == n % 10;
    } else {
      assert r[..0] == "";
    }
  }

  /** A numeral of `k` digits denotes a number below `10^k`. */
  lemma {:induction false} DecimalValueBound(s: string)
    requires AllDigits(s)
    ensures DecimalValue(s) < Pow10(|s|)
    decreases |s|
  {
    if |s| > 0 {
      DecimalValueBound(s[..|s| - 1]);
    }
  }

  /** Appending digits shifts the prefix by a power of ten. */
  lemma {:induction false} DecimalValueAppend(a: string, b: string)
    requires AllDigits(a) && AllDigits(b)
    ensures DecimalValue(a + b) == DecimalValue(a) * Pow10(|b|) + DecimalValue(b)
    decreases |b|
  {
    if |b| == 0 {
      assert a + b == a;
    } else {
      var b' := b[..|b| - 1];
      assert AllDigits(a + b) && AllDigits(b') && AllDigits(a + b');
      assert (a + b)[..|a + b| - 1] == a + b';
      assert (a + b)[|a + b| - 1] == b[|b| - 1];
      DecimalValueAppend(a, b');
      var va, vb, p, d := DecimalValue(a), DecimalValue(b'), Pow10(|b'|), DigitValue(b[|b| - 1]);
      assert DecimalValue(a + b) == 10 * (va * p + vb) + d;
      assert DecimalValue(b) == 10 * vb + d;
      MulShift(va, p, Pow10(|b|), vb, d);
    }
  }

  lemma MulShift(va: int, p: int, p10: int, vb: int, d: int)
    requires p10 == 10 * p
    ensures 10 * (va * p + vb) + d == va * p10 + (10 * vb + d)
  {
  }

  lemma Pow10Monotone(j: nat, k: nat)
    requires j <= k
    ensures Pow10(j) <= Pow10(k)
    decreases k
  {
    if j < k {
      Pow10Monotone(j, k - 1);
    }
  }

  lemma MulAtLeast(k: nat, m: nat)
    requires 1 <= k
    ensures m <= k * m
    decreases k
  {
    if k > 1 {
      MulAtLeast(k - 1, m);
      assert k * m == (k - 1) * m + m;
    }
  }

  /** Euclidean remainder of `x * m + y` when `y` is already below `m`. */
  lemma ModOfShifted(x: nat, m: nat, y: nat)
    requires y < m
    ensures (x * m + y) % m == y
  {
    var n := x * m + y;
    var q, r := n / m, n % m;
    assert n == q * m + r;
    if q > x {
      MulAtLeast(q - x, m);
    } else if q < x {
      MulAtLeast(x - q, m);
    }
  }

  /** `s.slice(-k)` for `k >= 1`: the last `k` characters, or all of `s`. */
  function TakeLast(s: string, k: nat): (r: string)
    ensures |r| == if |s| <= k then |s| else k
    ensures r == s[|s| - |r|..]
  {
    if |s| <= k then s else s[|s| - k..]
  }

  /** The last `k` digits of a numeral denote the number modulo `10^k`. */
  lemma SuffixValue(s: string, k: nat)
    requires AllDigits(s)
    ensures AllDigits(TakeLast(s, k))
    ensures DecimalValue(TakeLast(s, k)) == DecimalValue(s) % Pow10(k)
  {
    if |s| <= k {
      DecimalValueBound(s);
      Pow10Monotone(|s|, k);
      ModOfShifted(0, Pow10(k), DecimalValue(s));
    } else {
      var a := s[..|s| - k];
      var b := s[|s| - k..];
      assert s == a + b;
      DecimalValueAppend(a, b);
      DecimalValueBound(b);
      ModOfShifted(DecimalValue(a), Pow10(k), DecimalValue(b));
    }
  }

  /** A number of at least `10^(k-1)` has a numeral of at least `k` digits. */
  lemma {:induction false} DecimalLength(n: nat, k: nat)
    requires k == 0 || Pow10(k - 1) <= n
    ensures k <= |NatToDecimal(n)|
    decreases n
  {
    if k > 1 {
      assert Pow10(k - 1) == 10 * Pow10(k - 2);
      DecimalLength(n / 10, k - 1);
    }
  }

  /** Two numerals of the same length that denote the same number are the
      same string. */
  lemma {:induction false} DecimalInjective(a: string, b: string)
    requires AllDigits(a) && AllDigits(b) && |a| == |b|
    requires DecimalValue(a) == DecimalValue(b)
    ensures a == b
    decreases |a|
  {
    if |a| > 0 {
      var a', b' := a[..|a| - 1], b[..|b| - 1];
      var da, db := DigitValue(a[|a| - 1]), DigitValue(b[|b| - 1]);
      var va, vb := DecimalValue(a'), DecimalValue(b');
      assert 10 * va + da == 10 * vb + db;
      ModOfShifted(va, 10, da);
      ModOfShifted(vb, 10, db);
      assert va * 10 + da == vb * 10 + db;
      assert da == db;
      assert va == vb;
      DecimalInjective(a', b');
      assert a == a' + [a[|a| - 1]] && b == b' + [b[|b| - 1]];
    }
  }
}
