/** Strings as the runtime sees them: sequences of Unicode scalar values whose UTF-8 byte
    length matters, decimal rendering of machine integers and the parsing that undoes it. */
module Text {
  import opened Wrappers

  const U64_MAX: nat := 0xFFFF_FFFF_FFFF_FFFF

  function Min(a: int, b: int): int {
    if a <= b then a else b
  }

  function Max(a: int, b: int): int {
    if a >= b then a else b
  }

  // ---------- UTF-8 byte lengths ----------

  /** The number of bytes UTF-8 uses for one scalar value. */
  function CharBytes(c: char): (n: nat)
    ensures 1 <= n <= 4
  {
    var v := c as int;
    if v < 0x80 then 1 else if v < 0x800 then 2 else if v < 0x10000 then 3 else 4
  }

  /** How many bits of a scalar value fit in UTF-8 sequences of one to four bytes (section 3 of RFC 3629). */
  function PayloadBits(n: nat): nat
    requires 1 <= n <= 4
  {
    if n == 1 then 7 else (7 - n) + 6 * (n - 1)
  }

  function TwoTo(bits: nat): nat {
    if bits == 0 then 1 else 2 * TwoTo(bits - 1)
  }

  /** The shortest sequence that holds the value is the one used. */
  lemma CharBytesIsShortest(c: char, n: nat)
    requires 1 <= n <= 4
    ensures CharBytes(c) <= n <==> c as int < TwoTo(PayloadBits(n))
  {
    assert TwoTo(7) == 0x80;
    assert TwoTo(11) == 16 * TwoTo(7) && TwoTo(16) == 32 * TwoTo(11) && TwoTo(21) == 32 * TwoTo(16);
  }

  function ByteLen(s: string): (n: nat)
    ensures |s| <= n <= 4 * |s|
  {
    if s == [] then 0 else ByteLen(s[..|s| - 1]) + CharBytes(s[|s| - 1])
  }

  lemma {:induction false} ByteLenConcat(a: string, b: string)
    ensures ByteLen(a + b) == ByteLen(a) + ByteLen(b)
  {
    if b == [] {
      assert a + b == a;
    } else {
      var init := b[..|b| - 1];
      ByteLenConcat(a, init);
      assert (a + b)[..|a + b| - 1] == a + init;
    }
  }

  /** Cutting a string shorter makes it shorter in bytes, by at least one per scalar value. */
  lemma ByteLenOfPrefix(s: string, k: nat)
    requires k <= |s|
    ensures ByteLen(s[..k]) + (|s| - k) <= ByteLen(s)
  {
    hide ByteLen;
    ByteLenConcat(s[..k], s[k..]);
    assert s[..k] + s[k..] == s;
  }

  /** One scalar value further along is that value's bytes further along. */
  lemma ByteLenNext(s: string, k: nat)
    requires k < |s|
    ensures ByteLen(s[..k + 1]) == ByteLen(s[..k]) + CharBytes(s[k])
  {
    assert s[..k + 1][..k] == s[..k];
  }

  predicate IsAscii(s: string) {
    forall i :: 0 <= i < |s| ==> s[i] as int < 0x80
  }

  lemma {:induction false} AsciiByteLen(s: string)
    requires IsAscii(s)
    ensures ByteLen(s) == |s|
  {
    if s != [] {
      AsciiByteLen(s[..|s| - 1]);
    }
  }

  /** The length of the longest prefix of `s` that takes at most `budget` bytes; no prefix fits
      a negative budget, and the answer is then 0. */
  function LongestFit(s: string, budget: int): (k: nat)
    ensures k <= |s|
    ensures budget >= 0 ==> ByteLen(s[..k]) <= budget
    ensures k < |s| ==> ByteLen(s[..k + 1]) > budget
    ensures budget < 0 ==> k == 0
  {
    if s == [] then 0
    else if ByteLen(s) <= budget then
      assert s[..|s|] == s;
      |s|
    else
      var init := s[..|s| - 1];
      var k := LongestFit(init, budget);
      assert s[..k] == init[..k];
      assert if k < |init| then s[..k + 1] == init[..k + 1] else s[..k + 1] == s;
      k
  }

  lemma ByteLenMonotone(s: string, k: nat, m: nat)
    requires k <= m <= |s|
    ensures ByteLen(s[..k]) <= ByteLen(s[..m])
  {
    ByteLenOfPrefix(s[..m], k);
    assert s[..m][..k] == s[..k];
  }

  /** The clauses of `LongestFit` describe one number only. */
  lemma LongestFitUnique(s: string, budget: int, k: nat)
    requires k <= |s|
    requires ByteLen(s[..k]) <= budget
    requires k < |s| ==> ByteLen(s[..k + 1]) > budget
    ensures k == LongestFit(s, budget)
  {
    var m := LongestFit(s, budget);
    if k < m {
      ByteLenMonotone(s, k + 1, m);
    } else if m < k {
      ByteLenMonotone(s, m + 1, k);
    }
  }

  // ---------- blank strings ----------

  /** Unicode White_Space, which is what trimming removes. */
  predicate IsWhitespace(c: char) {
    var v := c as int;
    || 0x09 <= v <= 0x0D || v == 0x20 || v == 0x85 || v == 0xA0 || v == 0x1680
    || 0x2000 <= v <= 0x200A || v == 0x2028 || v == 0x2029 || v == 0x202F || v == 0x205F || v == 0x3000
  }

  /** True when trimming leaves nothing. */
  predicate IsBlank(s: string) {
    forall i :: 0 <= i < |s| ==> IsWhitespace(s[i])
  }

  // ---------- decimal numbers ----------

  predicate IsDigit(c: char) {
    '0' <= c <= '9'
  }

  predicate AllDigits(s: string) {
    forall i :: 0 <= i < |s| ==> IsDigit(s[i])
  }

  function DigitChar(d: nat): (c: char)
    requires d < 10
    ensures IsDigit(c) && c as int - '0' as int == d
  {
    ('0' as int + d) as char
  }

  function Decimal(n: nat): (s: string)
    ensures s != [] && AllDigits(s)
  {
    if n < 10 then [DigitChar(n)] else Decimal(n / 10) + [DigitChar(n % 10)]
  }

  function DigitsValue(s: string): nat
    requires AllDigits(s)
  {
    if s == [] then 0 else 10 * DigitsValue(s[..|s| - 1]) + (s[|s| - 1] as int - '0' as int)
  }

  /** Rust's `str::parse::<u64>`: an optional leading plus sign, then at least one digit, leading
      zeros allowed, rejecting values that do not fit. */
  function ParseU64(s: string): (r: Option<nat>) {
    var digits := if |s| > 1 && s[0] == '+' then s[1..] else s;
    if digits != [] && AllDigits(digits) && DigitsValue(digits) <= U64_MAX
    then Some(DigitsValue(digits))
    else None
  }

  /** What parses to a number: its digits, with any leading zeros and at most one plus sign before them, if
      the number fits. */
  lemma ParsesToIff(s: string, n: nat)
    ensures ParseU64(s) == Some(n) <==>
            n <= U64_MAX &&
            exists d: string :: d != [] && AllDigits(d) && DigitsValue(d) == n && (s == d || s == "+" + d)
  {
    if ParseU64(s) == Some(n) {
      var d := if |s| > 1 && s[0] == '+' then s[1..] else s;
      assert s == d || s == "+" + d;
    }
    if d: string :| d != [] && AllDigits(d) && DigitsValue(d) == n && (s == d || s == "+" + d) {
      if s == d {
        assert IsDigit(s[0]);
      } else {
        assert s[1..] == d;
      }
    }
  }

  lemma {:induction false} DecimalValue(n: nat)
    ensures DigitsValue(Decimal(n)) == n
  {
    if n >= 10 {
      DecimalValue(n / 10);
      assert Decimal(n)[..|Decimal(n)| - 1] == Decimal(n / 10);
    }
  }

  /** Parsing undoes printing, exactly for the values that fit. */
  lemma ParseDecimal(n: nat)
    ensures ParseU64(Decimal(n)) == if n <= U64_MAX then Some(n) else None
  {
    DecimalValue(n);
  }

  lemma DecimalInjective(m: nat, n: nat)
    requires Decimal(m) == Decimal(n)
    ensures m == n
  {
    DecimalValue(m);
    DecimalValue(n);
  }

  // ---------- colon-separated texts ----------

  /** A colon-free part after a colon can be read back off the end. */
  lemma SplitAtLastColon(a: string, b: string, c: string, d: string)
    requires ':' !in b && ':' !in d
    requires a + ":" + b == c + ":" + d
    ensures a == c && b == d
  {
    var k := a + ":" + b;
    assert k[|a|] == ':' && k[|c|] == ':';
    assert forall i :: |a| < i < |k| ==> k[i] == b[i - |a| - 1];
    assert forall i :: |c| < i < |k| ==> k[i] == d[i - |c| - 1];
    assert |a| == |c|;
    assert a == k[..|a|] && c == k[..|c|];
    assert b == k[|a| + 1..] && d == k[|c| + 1..];
  }

  /** The second pair is the first with its colon moved to the right: the left part took over what
      the right part starts with. */
  ghost predicate ColonMoved(a: string, b: string, c: string, d: string) {
    exists x: string :: c == a + ":" + x && b == x + ":" + d
  }

  /** Two pairs join to the same text exactly when they are the same pair or one is the other with its
      colon moved. */
  lemma JoinedEqualIff(a: string, b: string, c: string, d: string)
    ensures a + ":" + b == c + ":" + d <==> (a == c && b == d) || ColonMoved(a, b, c, d) || ColonMoved(c, d, a, b)
  {
    if a + ":" + b == c + ":" + d {
      if |a| == |c| {
        EqualParts(a, b, c, d);
      } else if |a| < |c| {
        LongerLeftPart(a, b, c, d);
      } else {
        LongerLeftPart(c, d, a, b);
      }
    }
    if ColonMoved(a, b, c, d) {
      MovedJoinsAlike(a, b, c, d);
    }
    if ColonMoved(c, d, a, b) {
      MovedJoinsAlike(c, d, a, b);
    }
  }

  lemma EqualParts(a: string, b: string, c: string, d: string)
    requires a + ":" + b == c + ":" + d && |a| == |c|
    ensures a == c && b == d
  {
    var k := a + ":" + b;
    assert a == k[..|a|] && c == k[..|c|];
    assert b == k[|a| + 1..] && d == k[|c| + 1..];
  }

  lemma LongerLeftPart(a: string, b: string, c: string, d: string)
    requires a + ":" + b == c + ":" + d && |a| < |c|
    ensures ColonMoved(a, b, c, d)
  {
    var k := a + ":" + b;
    var x := c[|a| + 1..];
    assert c == k[..|c|] && a + ":" == k[..|a| + 1];
    assert c == a + ":" + x;
    assert b == k[|a| + 1..] == x + ":" + d;
  }

  lemma MovedJoinsAlike(a: string, b: string, c: string, d: string)
    requires ColonMoved(a, b, c, d)
    ensures a + ":" + b == c + ":" + d
  {
    var x :| c == a + ":" + x && b == x + ":" + d;
    assert a + ":" + (x + ":" + d) == (a + ":" + x) + ":" + d;
  }

  /** Whether a left part can meet another at all: one has to continue the other after a colon. */
  lemma LeftPartsMeetIff(a: string, c: string)
    requires a != c
    ensures (exists b: string, d: string :: a + ":" + b == c + ":" + d) <==> a + ":" <= c || c + ":" <= a
  {
    if b: string, d: string :| a + ":" + b == c + ":" + d {
      JoinedEqualIff(a, b, c, d);
      if ColonMoved(a, b, c, d) {
        var x :| c == a + ":" + x && b == x + ":" + d;
        assert c[..|a| + 1] == a + ":";
      } else {
        var x :| a == c + ":" + x && d == x + ":" + b;
        assert a[..|c| + 1] == c + ":";
      }
    }
    if a + ":" <= c {
      ContinuedPartsMeet(a, c);
    }
    if c + ":" <= a {
      ContinuedPartsMeet(c, a);
    }
  }

  lemma ContinuedPartsMeet(a: string, c: string)
    requires a + ":" <= c
    ensures exists b: string, d: string :: a + ":" + b == c + ":" + d
    ensures exists b: string, d: string :: c + ":" + b == a + ":" + d
  {
    var x := c[|a| + 1..];
    assert c == a + ":" + x;
    assert a + ":" + (x + ":" + "") == c + ":" + "";
  }
}
