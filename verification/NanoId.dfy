/** Time-ordered identifiers (src/common/nano_id.rs): eight base-62 characters
    of milliseconds, then eight random ones. A string is the sequence of its
    UTF-8 bytes, one `char` each. */
module NanoId {
  import opened Arithmetic

  const LEN: nat := 16
  const TS_LEN: nat := 8
  const NUMERALS: string := "0123456789"
  const UPPER: string := "ABCDEFGHIJKLM" + "NOPQRSTUVWXYZ"
  const LOWER: string := "abcdefghijklm" + "nopqrstuvwxyz"
  const ALPHANUMERIC: string := NUMERALS + UPPER + LOWER

  datatype NanoIdError = InvalidLength | InvalidCharacter
  datatype Validity = Valid | Invalid(error: NanoIdError)

  predicate IsAlphanumeric(c: char) {
    '0' <= c <= '9' || 'A' <= c <= 'Z' || 'a' <= c <= 'z'
  }

  predicate AllAlphanumeric(s: string) {
    forall i | 0 <= i < |s| :: IsAlphanumeric(s[i])
  }

  // --- Digits ---

  /** The digit a character stands for. */
  function DigitOf(c: char): (d: nat)
    requires IsAlphanumeric(c)
    ensures d < 62
  {
    if c <= '9' then c as int - '0' as int
    else if c <= 'Z' then c as int - 'A' as int + 10
    else c as int - 'a' as int + 36
  }

  /** The table lists the alphanumeric characters in byte order. */
  lemma TableIsOrdered(d: nat)
    requires d < 62
    ensures |ALPHANUMERIC| == 62 && IsAlphanumeric(ALPHANUMERIC[d]) && DigitOf(ALPHANUMERIC[d]) == d
  {
    if d < 10 {
      Numeral(d);
    } else if d < 36 {
      UpperCase(d - 10);
      assert ALPHANUMERIC[d] == UPPER[d - 10];
    } else {
      LowerCase(d - 36);
      assert ALPHANUMERIC[d] == LOWER[d - 36];
    }
  }

  lemma Numeral(d: nat)
    requires d < 10
    ensures NUMERALS[d] as int == '0' as int + d
  {
  }

  lemma UpperCase(d: nat)
    requires d < 26
    ensures UPPER[d] as int == 'A' as int + d
  {
  }

  lemma LowerCase(d: nat)
    requires d < 26
    ensures LOWER[d] as int == 'a' as int + d
  {
  }

  lemma DigitsKeepOrder(c: char, d: char)
    requires IsAlphanumeric(c) && IsAlphanumeric(d)
    ensures c < d <==> DigitOf(c) < DigitOf(d)
  {
  }

  function Pow62(n: nat): (p: nat)
    ensures p > 0
  {
    if n == 0 then 1 else 62 * Pow62(n - 1)
  }

  /** The number a string of digits stands for. */
  function Decode(s: string): nat
    requires AllAlphanumeric(s)
  {
    if s == [] then 0 else 62 * Decode(s[..|s| - 1]) + DigitOf(s[|s| - 1])
  }

  /** The last `n` base-62 digits of `ms`. */
  function Digits(ms: nat, n: nat): (s: string)
    ensures |s| == n
  {
    TableIsOrdered(ms % 62);
    if n == 0 then [] else Digits(ms / 62, n - 1) + [ALPHANUMERIC[ms % 62]]
  }

  /** encode_ts: the buffer is filled from its end while `ms` is divided down. */
  method EncodeTs(ms: nat) returns (ts: string)
    ensures ts == Digits(ms, 8)
    ensures |ts| == 8 && AllAlphanumeric(ts) && Decode(ts) == ms % Pow62(8)
  {
    var buf := new char[TS_LEN](_ => '0');
    var rest := ms;
    var i := TS_LEN;
    TableIsOrdered(0);
    while i > 0
      invariant 0 <= i <= TS_LEN
      invariant Digits(ms, TS_LEN) == Digits(rest, i) + buf[i..]
    {
      i := i - 1;
      buf[i] := ALPHANUMERIC[rest % 62];
      assert buf[i..] == [ALPHANUMERIC[rest % 62]] + buf[i + 1..];
      rest := rest / 62;
    }
    ts := buf[..];
    assert buf[..] == buf[0..];
    DecodeDigits(ms, TS_LEN);
  }

  lemma ModSplit(ms: nat, p: nat)
    requires p > 0
    ensures ms % (62 * p) == 62 * (ms / 62 % p) + ms % 62
  {
    var q, r := ms / 62, ms % 62;
    var k, m := q / p, q % p;
    assert ms == 62 * (k * p + m) + r;
    assert ms == (62 * p) * k + (62 * m + r) by {
      assert 62 * (k * p) == (62 * p) * k;
    }
    assert 0 <= 62 * m + r < 62 * p;
    QuotientIsUnique(ms, 62 * p, k, 62 * m + r);
  }

  lemma {:induction false} DecodeDigits(ms: nat, n: nat)
    ensures AllAlphanumeric(Digits(ms, n)) && Decode(Digits(ms, n)) == ms % Pow62(n)
  {
    if n == 0 {
    } else {
      DecodeDigits(ms / 62, n - 1);
      TableIsOrdered(ms % 62);
      var s, init := Digits(ms, n), Digits(ms / 62, n - 1);
      assert s[..n - 1] == init;
      ModSplit(ms, Pow62(n - 1));
    }
  }

  // --- Order ---

  /** Byte-wise order: the strings first differ at `k`, or `a` ends there. */
  predicate LessAt(a: string, b: string, k: nat) {
    k <= |a| && k < |b| && a[..k] == b[..k] && (k < |a| ==> a[k] < b[k])
  }

  ghost predicate Less(a: string, b: string) {
    exists k :: LessAt(a, b, k)
  }

  lemma LessBySnoc(a: string, b: string)
    requires |a| == |b| > 0
    ensures var n := |a| - 1;
            Less(a, b) <==> Less(a[..n], b[..n]) || (a[..n] == b[..n] && a[n] < b[n])
  {
    var n := |a| - 1;
    if Less(a, b) {
      var k: nat :| LessAt(a, b, k);
      if k < n {
        assert a[..n][..k] == a[..k] && b[..n][..k] == b[..k];
        assert LessAt(a[..n], b[..n], k);
      }
    }
    if Less(a[..n], b[..n]) {
      var k: nat :| LessAt(a[..n], b[..n], k);
      assert a[..n][..k] == a[..k] && b[..n][..k] == b[..k];
      assert LessAt(a, b, k);
    } else if a[..n] == b[..n] && a[n] < b[n] {
      assert LessAt(a, b, n);
    }
  }

  /** Byte-wise order on digit strings of one length is numeric order. */
  lemma {:induction false} LessIsNumeric(a: string, b: string)
    requires |a| == |b| && AllAlphanumeric(a) && AllAlphanumeric(b)
    ensures Less(a, b) <==> Decode(a) < Decode(b)
    ensures Decode(a) == Decode(b) <==> a == b
    decreases |a|
  {
    if a == [] {
      assert !Less(a, b);
    } else {
      var n := |a| - 1;
      LessBySnoc(a, b);
      LessIsNumeric(a[..n], b[..n]);
      DigitsKeepOrder(a[n], b[n]);
      DigitsKeepOrder(b[n], a[n]);
      assert a == a[..n] + [a[n]] && b == b[..n] + [b[n]];
    }
  }

  lemma CommonPrefix(a: string, b: string, x: string, y: string, k: nat)
    requires |a| == |b| <= k <= |a + x| && k <= |b + y| && (a + x)[..k] == (b + y)[..k]
    ensures a == b
  {
    assert a == (a + x)[..k][..|a|] && b == (b + y)[..k][..|a|];
  }

  lemma LessByPrefix(a: string, b: string, x: string, y: string)
    requires |a| == |b| && a != b
    ensures Less(a + x, b + y) <==> Less(a, b)
  {
    if Less(a, b) {
      var k: nat :| LessAt(a, b, k);
      assert (a + x)[..k] == a[..k] && (b + y)[..k] == b[..k];
      assert LessAt(a + x, b + y, k);
    }
    if Less(a + x, b + y) {
      var k: nat :| LessAt(a + x, b + y, k);
      var m := |a|;
      if k >= m {
        CommonPrefix(a, b, x, y, k);
      } else {
        assert (a + x)[..k] == a[..k] && (b + y)[..k] == b[..k];
        assert LessAt(a, b, k);
      }
    }
  }

  /** `new` at two instants, whatever the random suffixes. The prefix holds 62^8
      milliseconds; ids sort by time within that, and by time modulo it beyond. */
  lemma IdsSortByTime(t1: nat, t2: nat, suffix1: string, suffix2: string)
    requires t1 % Pow62(8) != t2 % Pow62(8)
    ensures Less(Digits(t1, 8) + suffix1, Digits(t2, 8) + suffix2)
        <==> t1 % Pow62(8) < t2 % Pow62(8)
  {
    DecodeDigits(t1, 8);
    DecodeDigits(t2, 8);
    LessIsNumeric(Digits(t1, 8), Digits(t2, 8));
    LessByPrefix(Digits(t1, 8), Digits(t2, 8), suffix1, suffix2);
  }

  lemma WithinRange(t: nat, p: nat)
    requires t < p
    ensures t % p == t
  {
  }

  lemma LessIsStrict(a: string, b: string)
    requires Less(a, b)
    ensures !Less(b, a) && a != b
  {
  }

  /** Injective and ordered on the first 62^8 milliseconds. */
  lemma IdsInRangeSortByTime(t1: nat, t2: nat, suffix1: string, suffix2: string)
    requires t1 < t2 < Pow62(8)
    ensures Less(Digits(t1, 8) + suffix1, Digits(t2, 8) + suffix2)
    ensures !Less(Digits(t2, 8) + suffix2, Digits(t1, 8) + suffix1)
    ensures Digits(t1, 8) + suffix1 != Digits(t2, 8) + suffix2
  {
    WithinRange(t1, Pow62(8));
    WithinRange(t2, Pow62(8));
    IdsSortByTime(t1, t2, suffix1, suffix2);
    LessIsStrict(Digits(t1, 8) + suffix1, Digits(t2, 8) + suffix2);
  }

  /** At 62^8 milliseconds (in the year 8888) the order starts over. */
  lemma OrderStartsOver(t: nat, suffix1: string, suffix2: string)
    requires 0 < t < Pow62(8)
    ensures Less(Digits(Pow62(8), 8) + suffix2, Digits(t, 8) + suffix1)
  {
    QuotientIsUnique(Pow62(8), Pow62(8), 1, 0);
    IdsSortByTime(Pow62(8), t, suffix2, suffix1);
  }

  // --- Validation ---

  function Validate(value: string): (r: Validity)
    ensures r == Valid <==> |value| == 16 && AllAlphanumeric(value)
    ensures r == Invalid(InvalidLength) <==> |value| != 16
  {
    if |value| != LEN then Invalid(InvalidLength)
    else if exists i :: 0 <= i < |value| && !IsAlphanumeric(value[i]) then Invalid(InvalidCharacter)
    else Valid
  }

  /** `new` with eight characters drawn from the table: the id is valid, and its
      time can be read back. */
  lemma NewIsValid(ms: nat, suffix: string)
    requires |suffix| == 8 && forall i | 0 <= i < 8 :: suffix[i] in ALPHANUMERIC
    ensures var id := Digits(ms, 8) + suffix;
            && |id| == 16 && Validate(id) == Valid
            && Decode(id[..8]) == ms % Pow62(8)
  {
    var id := Digits(ms, 8) + suffix;
    DecodeDigits(ms, 8);
    assert id[..8] == Digits(ms, 8);
    forall i | 0 <= i < 16
      ensures IsAlphanumeric(id[i])
    {
      if i < 8 {
        assert id[i] == Digits(ms, 8)[i];
      } else {
        TableIsOrdered(0);
        assert id[i] == suffix[i - 8];
        var d :| 0 <= d < |ALPHANUMERIC| && ALPHANUMERIC[d] == id[i];
        TableIsOrdered(d);
      }
    }
  }
}
