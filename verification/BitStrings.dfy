/** Bit strings, most significant bit first, and the numbers they spell: the reference against which
    base64url is stated. */
module BitStrings {

  type Bits = seq<bool>

  function Pow2(n: nat): (p: nat)
    ensures p >= 1
  {
    if n == 0 then 1 else 2 * Pow2(n - 1)
  }

  function Bit(b: bool): nat { if b then 1 else 0 }

  function Value(bits: Bits): nat {
    if bits == [] then 0 else 2 * Value(bits[..|bits| - 1]) + Bit(bits[|bits| - 1])
  }

  /** The low `n` bits of a number. */
  function BitsOf(v: nat, n: nat): (bits: Bits)
    ensures |bits| == n
  {
    if n == 0 then [] else BitsOf(v / 2, n - 1) + [v % 2 == 1]
  }

  function Zeros(n: nat): Bits { seq(n, _ => false) }

  lemma {:induction false} ValueIsBounded(bits: Bits)
    ensures Value(bits) < Pow2(|bits|)
  {
    if bits != [] {
      ValueIsBounded(bits[..|bits| - 1]);
    }
  }

  lemma {:induction false} ValueOfBits(v: nat, n: nat)
    requires v < Pow2(n)
    ensures Value(BitsOf(v, n)) == v
  {
    if n > 0 {
      ValueOfBits(v / 2, n - 1);
      assert BitsOf(v, n)[..n - 1] == BitsOf(v / 2, n - 1);
    }
  }

  lemma {:induction false} BitsOfValue(bits: Bits)
    ensures BitsOf(Value(bits), |bits|) == bits
  {
    if bits != [] {
      BitsOfValue(bits[..|bits| - 1]);
    }
  }

  lemma {:induction false} ValueConcat(a: Bits, b: Bits)
    ensures Value(a + b) == Value(a) * Pow2(|b|) + Value(b)
  {
    if b == [] {
      assert a + b == a;
    } else {
      var init := b[..|b| - 1];
      ValueConcat(a, init);
      assert (a + b)[..|a + b| - 1] == a + init;
      Doubled(Value(a), Pow2(|init|), Value(init), Bit(b[|b| - 1]));
    }
  }

  lemma Doubled(x: nat, p: nat, y: nat, bit: nat)
    ensures 2 * (x * p + y) + bit == x * (2 * p) + (2 * y + bit)
  {
  }

  /** Joining two numbers' bits spells their weighted sum. */
  lemma JoinBits(x: nat, m: nat, y: nat, n: nat)
    requires x < Pow2(m) && y < Pow2(n)
    ensures BitsOf(x, m) + BitsOf(y, n) == BitsOf(x * Pow2(n) + y, m + n)
  {
    ValueOfBits(x, m);
    ValueOfBits(y, n);
    JoinSpelled(BitsOf(x, m), BitsOf(y, n), m + n);
  }

  lemma JoinSpelled(a: Bits, b: Bits, length: nat)
    requires |a| + |b| == length
    ensures a + b == BitsOf(Value(a) * Pow2(|b|) + Value(b), length)
  {
    ValueConcat(a, b);
    BitsOfValue(a + b);
  }

  // Numbers of a fixed width, end to end

  function Spell(values: seq<nat>, width: nat): Bits {
    if values == [] then [] else Spell(values[..|values| - 1], width) + BitsOf(values[|values| - 1], width)
  }

  /** As many full-width numbers as the bits hold, from the front. */
  function Full(bits: Bits, width: nat): seq<nat>
    requires width > 0
  {
    if |bits| < width then [] else [Value(bits[..width])] + Full(bits[width..], width)
  }

  /** The bits after the last full-width number. */
  function Rest(bits: Bits, width: nat): (rest: Bits)
    requires width > 0
    ensures |rest| < width
  {
    if |bits| < width then bits else Rest(bits[width..], width)
  }

  predicate Fit(values: seq<nat>, width: nat) {
    forall i :: 0 <= i < |values| ==> values[i] < Pow2(width)
  }

  lemma Distribute(width: nat, n: nat)
    ensures width * (n + 1) == width * n + width
  {
  }

  lemma {:induction false} SpellLength(values: seq<nat>, width: nat)
    ensures |Spell(values, width)| == width * |values|
  {
    if values != [] {
      SpellLength(values[..|values| - 1], width);
      Distribute(width, |values| - 1);
    }
  }

  lemma ConcatAssoc(a: Bits, b: Bits, c: Bits)
    ensures a + b + c == a + (b + c)
  {
  }

  lemma {:induction false} SpellConcat(a: seq<nat>, b: seq<nat>, width: nat)
    ensures Spell(a + b, width) == Spell(a, width) + Spell(b, width)
  {
    if b == [] {
      assert a + b == a;
    } else {
      var init := b[..|b| - 1];
      SpellConcat(a, init, width);
      assert (a + b)[..|a + b| - 1] == a + init;
      ConcatAssoc(Spell(a, width), Spell(init, width), BitsOf(b[|b| - 1], width));
    }
  }

  lemma SpellOne(v: nat, width: nat)
    ensures Spell([v], width) == BitsOf(v, width)
  {
    assert [v][..0] == [];
  }

  /** Reading back spelled numbers, whatever shorter remainder follows them. */
  lemma {:induction false} FullOfSpell(values: seq<nat>, width: nat, rest: Bits)
    requires width > 0 && Fit(values, width) && |rest| < width
    ensures Full(Spell(values, width) + rest, width) == values
    ensures Rest(Spell(values, width) + rest, width) == rest
  {
    if values == [] {
      assert Spell(values, width) + rest == rest;
    } else {
      var head, tail := values[0], values[1..];
      SpellHead(head, tail, width, rest);
      assert values == [head] + tail;
      ValueOfBits(head, width);
      FullOfSpell(tail, width, rest);
    }
  }

  lemma SpellHead(head: nat, tail: seq<nat>, width: nat, rest: Bits)
    ensures var bits := Spell([head] + tail, width) + rest;
            && |bits| >= width
            && bits[..width] == BitsOf(head, width)
            && bits[width..] == Spell(tail, width) + rest
  {
    SpellConcat([head], tail, width);
    SpellOne(head, width);
    ConcatAssoc(BitsOf(head, width), Spell(tail, width), rest);
  }

  /** Spelling what was read, followed by the remainder, is everything. */
  lemma {:induction false} SpellOfFull(bits: Bits, width: nat)
    requires width > 0
    ensures Spell(Full(bits, width), width) + Rest(bits, width) == bits
    ensures Fit(Full(bits, width), width)
  {
    if |bits| >= width {
      var head, tail := Value(bits[..width]), bits[width..];
      SpellOfFull(tail, width);
      SpellHead(head, Full(tail, width), width, Rest(tail, width));
      BitsOfValue(bits[..width]);
      ValueIsBounded(bits[..width]);
      SameParts(Spell([head] + Full(tail, width), width) + Rest(tail, width), bits, width);
    }
  }

  lemma SameParts(a: Bits, b: Bits, k: nat)
    requires k <= |a| && k <= |b| && a[..k] == b[..k] && a[k..] == b[k..]
    ensures a == b
  {
    assert a == a[..k] + a[k..] && b == b[..k] + b[k..];
  }

  // Cutting bits into numbers, filling up the last one with zero bits

  function Padding(bits: Bits, width: nat): (k: nat)
    requires width > 0
    ensures k < width
  {
    if Rest(bits, width) == [] then 0 else width - |Rest(bits, width)|
  }

  function Chunked(bits: Bits, width: nat): seq<nat>
    requires width > 0
  {
    var rest := Rest(bits, width);
    if rest == [] then Full(bits, width) else Full(bits, width) + [Value(rest + Zeros(width - |rest|))]
  }

  lemma SpellOfChunked(bits: Bits, width: nat)
    requires width > 0
    ensures Spell(Chunked(bits, width), width) == bits + Zeros(Padding(bits, width))
    ensures Fit(Chunked(bits, width), width)
  {
    SpellOfFull(bits, width);
    var rest, full := Rest(bits, width), Full(bits, width);
    if rest == [] {
      NoPadding(Spell(full, width), bits);
    } else {
      var zeros := Zeros(width - |rest|);
      SpellPadded(full, rest, zeros, rest + zeros, width, bits);
      FitAppend(full, rest + zeros, width);
    }
  }

  lemma NoPadding(a: Bits, bits: Bits)
    requires a + [] == bits
    ensures a == bits + Zeros(0)
  {
  }

  lemma SpellPadded(full: seq<nat>, rest: Bits, zeros: Bits, last: Bits, width: nat, bits: Bits)
    requires |last| == width && last == rest + zeros && Spell(full, width) + rest == bits
    ensures Spell(full + [Value(last)], width) == bits + zeros
  {
    SpellConcat(full, [Value(last)], width);
    SpellOne(Value(last), width);
    BitsOfValue(last);
    ConcatAssoc(Spell(full, width), rest, zeros);
  }

  lemma FitAppend(values: seq<nat>, last: Bits, width: nat)
    requires Fit(values, width) && |last| == width
    ensures Fit(values + [Value(last)], width)
  {
    ValueIsBounded(last);
  }

  /** Only one way of cutting spells the bits followed by less than one number's worth of zeros. */
  lemma {:induction false} ChunkedIsUnique(bits: Bits, values: seq<nat>, width: nat, k: nat)
    requires width > 0 && Fit(values, width) && k < width && Spell(values, width) == bits + Zeros(k)
    ensures Chunked(bits, width) == values
    decreases |values|
  {
    if values != [] {
      var head, tail := values[0], values[1..];
      assert values == [head] + tail;
      SpellCons(head, tail, width);
      ValueOfBits(head, width);
      if |bits| >= width {
        TakeFront(BitsOf(head, width), Spell(tail, width), bits, k);
        ChunkedIsUnique(bits[width..], tail, width, k);
        ChunkedCons(bits, width);
      } else {
        ShortSpellIsEmpty(tail, width);
        assert Spell(values, width) == BitsOf(head, width) + [];
        LastChunk(bits, BitsOf(head, width), width, k);
      }
    }
  }

  lemma SpellCons(head: nat, tail: seq<nat>, width: nat)
    ensures Spell([head] + tail, width) == BitsOf(head, width) + Spell(tail, width)
  {
    SpellConcat([head], tail, width);
    SpellOne(head, width);
  }

  lemma TakeFront(front: Bits, back: Bits, bits: Bits, k: nat)
    requires front + back == bits + Zeros(k) && |front| <= |bits|
    ensures bits[..|front|] == front && bits[|front|..] + Zeros(k) == back
  {
    var w := |front|;
    assert front == (front + back)[..w] == (bits + Zeros(k))[..w] == bits[..w];
    assert back == (front + back)[w..] == (bits + Zeros(k))[w..];
  }

  lemma ChunkedCons(bits: Bits, width: nat)
    requires 0 < width <= |bits|
    ensures Chunked(bits, width) == [Value(bits[..width])] + Chunked(bits[width..], width)
  {
    var head, full, rest := [Value(bits[..width])], Full(bits[width..], width), Rest(bits[width..], width);
    assert Full(bits, width) == head + full && Rest(bits, width) == rest;
    if rest != [] {
      AppendAssoc(head, full, [Value(rest + Zeros(width - |rest|))]);
    }
  }

  lemma AppendAssoc(a: seq<nat>, b: seq<nat>, c: seq<nat>)
    ensures a + b + c == a + (b + c)
  {
  }

  lemma LastChunk(bits: Bits, last: Bits, width: nat, k: nat)
    requires k < width && |bits| < width == |last| && last + [] == bits + Zeros(k)
    ensures Chunked(bits, width) == [Value(last)]
  {
    assert last + [] == last;
    assert |last| == |bits| + k;
    assert Full(bits, width) + [Value(last)] == [Value(last)];
  }

  lemma ShortSpellIsEmpty(values: seq<nat>, width: nat)
    requires |Spell(values, width)| < width
    ensures values == [] && Spell(values, width) == []
  {
  }

  // Appending

  lemma {:induction false} FullAppend(bits: Bits, more: Bits, width: nat)
    requires width > 0
    ensures Full(bits + more, width) == Full(bits, width) + Full(Rest(bits, width) + more, width)
    ensures Rest(bits + more, width) == Rest(Rest(bits, width) + more, width)
    decreases |bits|
  {
    if |bits| >= width {
      FullAppend(bits[width..], more, width);
      assert (bits + more)[..width] == bits[..width];
      assert (bits + more)[width..] == bits[width..] + more;
    }
  }

  /** Cutting one number off the front is a division by a power of two. */
  lemma CutFront(bits: Bits, width: nat)
    requires width <= |bits|
    ensures var p := Pow2(|bits| - width);
            Value(bits[..width]) == Value(bits) / p && Value(bits[width..]) == Value(bits) % p
  {
    var front, back := bits[..width], bits[width..];
    assert bits == front + back;
    ValueConcat(front, back);
    ValueIsBounded(back);
    QuotientAndRemainder(Value(front), Pow2(|back|), Value(back), Value(bits));
  }

  lemma QuotientAndRemainder(q: nat, p: nat, r: nat, a: nat)
    requires r < p && a == q * p + r
    ensures a / p == q && a % p == r
  {
    var d := a / p;
    Euclid(a, p);
    if d < q {
      MulMonotone(d + 1, q, p);
    } else if d > q {
      MulMonotone(q + 1, d, p);
    }
  }

  lemma Euclid(a: nat, p: nat)
    requires p > 0
    ensures a / p * p <= a < (a / p + 1) * p && a == a / p * p + a % p
  {
  }

  lemma MulMonotone(a: nat, b: nat, c: nat)
    requires a <= b
    ensures a * c <= b * c
  {
  }

  lemma {:induction false} BitsOfZero(n: nat)
    ensures BitsOf(0, n) == Zeros(n)
  {
    if n > 0 {
      BitsOfZero(n - 1);
    }
  }
}
