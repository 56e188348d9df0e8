/** base64url without padding (section 5 of RFC 4648, padding omitted as section 3.2 allows): the
    shift-register decoder and the encoder, against the bit-string reading of the standard. */
module Base64Url {
  import opened Wrappers
  import opened BitStrings

  type Byte = x: nat | x < 256

  // The alphabet

  function ValueOf(c: char): (v: Option<nat>)
    ensures v.Some? ==> v.value < 64
  {
    if 'A' <= c <= 'Z' then Some(c as int - 'A' as int)
    else if 'a' <= c <= 'z' then Some(c as int - 'a' as int + 26)
    else if '0' <= c <= '9' then Some(c as int - '0' as int + 52)
    else if c == '-' then Some(62)
    else if c == '_' then Some(63)
    else None
  }

  function CharOf(v: nat): char
    requires v < 64
  {
    if v < 26 then ('A' as int + v) as char
    else if v < 52 then ('a' as int + v - 26) as char
    else if v < 62 then ('0' as int + v - 52) as char
    else if v == 62 then '-' else '_'
  }

  lemma AlphabetIsABijection(c: char, v: nat)
    requires v < 64
    ensures ValueOf(CharOf(v)) == Some(v) && CharOf(v) != '='
    ensures ValueOf(c) == Some(v) <==> c == CharOf(v)
  {
  }

  // The alphabet as section 5 of RFC 4648 lists it.
  const UPPER: string := "ABCDEFGHIJKLMNOPQRSTUVWXYZ"
  const LOWER: string := "abcdefghijklmnopqrstuvwxyz"
  const OTHERS: string := "0123456789-_"
  const ALPHABET: string := UPPER + LOWER + OTHERS

  lemma LettersListed(v: nat)
    requires v < 26
    ensures |UPPER| == 26 && UPPER[v] == ('A' as int + v) as char
    ensures |LOWER| == 26 && LOWER[v] == ('a' as int + v) as char
  {
    assert UPPER[v] as int == 'A' as int + v;
    assert LOWER[v] as int == 'a' as int + v;
  }

  lemma OthersListed(v: nat)
    requires 52 <= v < 64
    ensures |OTHERS| == 12 && OTHERS[v - 52] == CharOf(v)
  {
  }

  lemma Listed(v: nat)
    requires v < 64
    ensures |ALPHABET| == 64 && ALPHABET[v] == CharOf(v)
  {
    LettersListed(v % 26);
    OthersListed(if v < 52 then 52 else v);
    hide UPPER, LOWER, OTHERS;
    assert v < 26 ==> ALPHABET[v] == UPPER[v];
  }

  /** Each value is written as the character the standard lists for it, and a character has a value
      exactly when it is listed. */
  lemma AlphabetIsTheStandards(c: char, v: nat)
    requires v < 64
    ensures |ALPHABET| == 64 && CharOf(v) == ALPHABET[v]
    ensures ValueOf(c) == Some(v) <==> c == ALPHABET[v]
    ensures ValueOf(c).Some? <==> c in ALPHABET
  {
    AlphabetIsABijection(c, v);
    Listed(v);
    if ValueOf(c).Some? {
      Listed(ValueOf(c).value);
      AlphabetIsABijection(c, ValueOf(c).value);
    }
    if c in ALPHABET {
      var i :| 0 <= i < 64 && ALPHABET[i] == c;
      Listed(i);
      AlphabetIsABijection(c, i);
    }
  }

  predicate AllSymbols(text: string) {
    forall i :: 0 <= i < |text| ==> ValueOf(text[i]).Some?
  }

  function Symbols(text: string): (values: seq<nat>)
    requires AllSymbols(text)
    ensures |values| == |text|
    ensures forall i :: 0 <= i < |values| ==> values[i] < 64 && ValueOf(text[i]) == Some(values[i])
  {
    seq(|text|, i requires 0 <= i < |text| => ValueOf(text[i]).value)
  }

  predicate Sextets(values: seq<nat>) {
    forall i :: 0 <= i < |values| ==> values[i] < 64
  }

  function Chars(values: seq<nat>): (text: string)
    requires Sextets(values)
    ensures |text| == |values| && forall i :: 0 <= i < |text| ==> text[i] == CharOf(values[i])
  {
    seq(|values|, i requires 0 <= i < |values| => CharOf(values[i]))
  }

  lemma CharsOfSymbols(text: string)
    requires AllSymbols(text)
    ensures Chars(Symbols(text)) == text
  {
    forall i | 0 <= i < |text| ensures CharOf(Symbols(text)[i]) == text[i] {
      AlphabetIsABijection(text[i], Symbols(text)[i]);
    }
  }

  lemma SymbolsOfChars(values: seq<nat>)
    requires Sextets(values)
    ensures AllSymbols(Chars(values)) && Symbols(Chars(values)) == values && '=' !in Chars(values)
  {
    forall i | 0 <= i < |values| ensures ValueOf(Chars(values)[i]) == Some(values[i]) && Chars(values)[i] != '=' {
      AlphabetIsABijection(Chars(values)[i], values[i]);
    }
  }

  lemma Widths()
    ensures Pow2(2) == 4 && Pow2(4) == 16 && Pow2(6) == 64 && Pow2(8) == 256
  {
    assert Pow2(3) == 8 && Pow2(5) == 32 && Pow2(7) == 128;
  }

  // Reference meaning

  /** Everything before the first padding character. */
  function Body(text: string): (body: string)
    ensures body <= text && '=' !in body
    ensures |body| < |text| ==> text[|body|] == '='
  {
    if text == [] || text[0] == '=' then [] else
      var rest := Body(text[1..]);
      [text[0]] + rest
  }

  /** Decoding: the body's symbols spell a bit string, of which every whole byte is kept. */
  function Decoded(text: string): Result<seq<nat>, ()> {
    if AllSymbols(Body(text)) then Ok(Full(Spell(Symbols(Body(text)), 6), 8)) else Err(())
  }

  /** Encoding: the bytes spell a bit string, filled up with zero bits to whole symbols. */
  function Sextetted(bits: Bits): (values: seq<nat>)
    ensures Sextets(values)
  {
    SpellOfChunked(bits, 6);
    SextetsAreFit(Chunked(bits, 6));
    Chunked(bits, 6)
  }

  lemma SextetsAreFit(values: seq<nat>)
    ensures Sextets(values) <==> Fit(values, 6)
  {
    Widths();
  }

  lemma BytesAreFit(bytes: seq<Byte>)
    ensures Fit(bytes, 8)
  {
    Widths();
  }

  function Encoded(bytes: seq<Byte>): string {
    Chars(Sextetted(Spell(bytes, 8)))
  }

  // Main results about the meaning

  lemma {:induction false} BodyOfUnpadded(text: string)
    requires '=' !in text
    ensures Body(text) == text
  {
    if text != [] {
      assert text == [text[0]] + text[1..];
      BodyOfUnpadded(text[1..]);
    }
  }

  /** Decoding undoes encoding for every byte string. */
  lemma RoundTrip(bytes: seq<Byte>)
    ensures Decoded(Encoded(bytes)) == Ok(bytes)
  {
    SymbolsOfChars(Sextetted(Spell(bytes, 8)));
    BodyOfUnpadded(Encoded(bytes));
    BytesAreFit(bytes);
    RecutAndBack(bytes, 8, 6);
  }

  lemma RecutAndBack(values: seq<nat>, v: nat, w: nat)
    requires 0 < w <= v && Fit(values, v)
    ensures Full(Spell(Chunked(Spell(values, v), w), w), v) == values
  {
    var bits := Spell(values, v);
    SpellOfChunked(bits, w);
    FullOfSpell(values, v, Zeros(Padding(bits, w)));
  }

  /** An accepted body of n symbols yields three quarters of n bytes, rounded down. */
  lemma DecodedLength(text: string)
    requires Decoded(text).Ok?
    ensures |Decoded(text).value| == 6 * |Body(text)| / 8
  {
    var bits := Spell(Symbols(Body(text)), 6);
    SpellLength(Symbols(Body(text)), 6);
    SpellOfFull(bits, 8);
    SpellLength(Full(bits, 8), 8);
  }

  /** The bits that decoding drops. */
  function Dropped(text: string): Bits
    requires AllSymbols(text)
  {
    Rest(Spell(Symbols(text), 6), 8)
  }

  lemma DecodedBytes(text: string)
    requires Decoded(text).Ok?
    ensures forall i :: 0 <= i < |Decoded(text).value| ==> Decoded(text).value[i] < 256
  {
    Widths();
    SpellOfFull(Spell(Symbols(Body(text)), 6), 8);
  }

  /** Encoding undoes decoding of an unpadded text exactly when its length is not one more than a
      multiple of four and the bits that decoding drops are zero. */
  lemma ReencodesIff(text: string, bytes: seq<Byte>)
    requires '=' !in text && AllSymbols(text) && Decoded(text) == Ok(bytes)
    ensures Encoded(bytes) == text <==> |text| % 4 != 1 && Dropped(text) == Zeros(|Dropped(text)|)
  {
    BodyOfUnpadded(text);
    CharsOfSymbols(text);
    SymbolsOfChars(Sextetted(Spell(bytes, 8)));
    assert Encoded(bytes) == text <==> Sextetted(Spell(bytes, 8)) == Symbols(text);
    ReencodesSymbolsIff(Symbols(text), bytes);
  }

  lemma ReencodesSymbolsIff(values: seq<nat>, bytes: seq<Byte>)
    requires Sextets(values) && bytes == Full(Spell(values, 6), 8)
    ensures var rest := Rest(Spell(values, 6), 8);
            Sextetted(Spell(bytes, 8)) == values <==> |values| % 4 != 1 && rest == Zeros(|rest|)
  {
    var rest := Rest(Spell(values, 6), 8);
    SextetsAreFit(values);
    RecutLength(values, 6, 8);
    SpellLength(values, 6);
    SpellLength(bytes, 8);
    Leftover(|values|, |bytes|, |rest|);
    RecutRecoversIff(values, 6, 8);
  }

  lemma Leftover(symbols: nat, bytes: nat, rest: nat)
    requires 6 * symbols == 8 * bytes + rest && rest < 8
    ensures rest < 6 <==> symbols % 4 != 1
  {
    var half, q, r := rest / 2, symbols / 4, symbols % 4;
    assert rest == 2 * half && symbols == 4 * q + r;
    assert 3 * r == 4 * (bytes - 3 * q) + half;
  }

  lemma RecutLength(values: seq<nat>, w: nat, v: nat)
    requires 0 < w && 0 < v
    ensures |Spell(values, w)| == |Spell(Full(Spell(values, w), v), v)| + |Rest(Spell(values, w), v)|
  {
    SpellOfFull(Spell(values, w), v);
  }

  /** Cutting into wider numbers and back recovers the narrow ones exactly when what was left over is
      zero and shorter than one of them. */
  lemma RecutRecoversIff(values: seq<nat>, w: nat, v: nat)
    requires 0 < w && 0 < v && Fit(values, w)
    ensures var rest := Rest(Spell(values, w), v);
            Chunked(Spell(Full(Spell(values, w), v), v), w) == values <==> |rest| < w && rest == Zeros(|rest|)
  {
    var bits := Spell(values, w);
    var rest, kept := Rest(bits, v), Spell(Full(bits, v), v);
    SpellOfFull(bits, v);
    if |rest| < w && rest == Zeros(|rest|) {
      ChunkedIsUnique(kept, values, w, |rest|);
    }
    if Chunked(kept, w) == values {
      SpellOfChunked(kept, w);
      assert rest == (kept + rest)[|kept|..] == (kept + Zeros(Padding(kept, w)))[|kept|..] == Zeros(Padding(kept, w));
    }
  }

  // The decoder

  /** The shift register holds the bits not yet given out. */
  ghost predicate RegisterHolds(spelled: Bits, output: seq<nat>, buffer: nat, bits: nat, width: nat)
    requires width > 0
  {
    output == Full(spelled, width) && bits == |Rest(spelled, width)| && buffer == Value(Rest(spelled, width))
  }

  lemma RegisterBound(buffer: nat, bits: nat, value: nat)
    requires bits < 8 && buffer < Pow2(bits) && value < 64
    ensures Pow2(bits + 6) == 64 * Pow2(bits) <= 8192 && buffer * 64 + value < Pow2(bits + 6)
  {
    assert Pow2(bits + 5) == 2 * Pow2(bits + 4) && Pow2(bits + 4) == 2 * Pow2(bits + 3);
    assert Pow2(bits + 3) == 2 * Pow2(bits + 2) && Pow2(bits + 2) == 2 * Pow2(bits + 1);
    Pow2Monotone(bits, 7);
    Widths();
    assert Pow2(7) == 128;
  }

  lemma {:induction false} Pow2Monotone(m: nat, n: nat)
    requires m <= n
    ensures Pow2(m) <= Pow2(n)
    decreases n
  {
    if m < n {
      Pow2Monotone(m, n - 1);
    }
  }

  lemma EightMore(bits: nat)
    ensures Pow2(bits + 8) == 256 * Pow2(bits)
  {
    assert Pow2(bits + 8) == 2 * Pow2(bits + 7) && Pow2(bits + 7) == 2 * Pow2(bits + 6);
    assert Pow2(bits + 6) == 2 * Pow2(bits + 5) && Pow2(bits + 5) == 2 * Pow2(bits + 4);
    assert Pow2(bits + 4) == 2 * Pow2(bits + 3) && Pow2(bits + 3) == 2 * Pow2(bits + 2);
    assert Pow2(bits + 2) == 2 * Pow2(bits + 1) && Pow2(bits + 1) == 2 * Pow2(bits);
  }

  lemma SmallRemainder(x: nat)
    requires x < 256
    ensures x % 256 == x
  {
  }

  /** What is shifted out of the register above its kept bits is one byte. */
  lemma ByteFits(buffer: nat, bits: nat)
    requires buffer < Pow2(bits + 8)
    ensures buffer / Pow2(bits) < 256 && buffer / Pow2(bits) % 256 == buffer / Pow2(bits)
  {
    EightMore(bits);
    QuotientBelow(buffer, Pow2(bits), 256);
    SmallRemainder(buffer / Pow2(bits));
  }

  lemma QuotientBelow(a: nat, p: nat, q: nat)
    requires p > 0 && a < q * p
    ensures a / p < q
  {
    Euclid(a, p);
    if a / p >= q {
      MulMonotone(q, a / p, p);
    }
  }

  /** Shifting in one symbol: six bits go in, and a byte comes out once eight are there.  The register
      keeps fewer than eight bits and never holds more than thirteen, so 32 bits are ample. */
  method ShiftIn(buffer: nat, bits: nat, value: nat) returns (buffer': nat, bits': nat, bytes: seq<nat>)
    requires bits < 8 && buffer < Pow2(bits) && value < 64
    ensures buffer * 64 + value < Pow2(bits + 6) <= 8192
    ensures bits + 6 < 8 ==> bits' == bits + 6 && bytes == [] && buffer' == buffer * 64 + value
    ensures bits + 6 >= 8 ==>
      && bits' == bits - 2
      && bytes == [(buffer * 64 + value) / Pow2(bits')] && buffer' == (buffer * 64 + value) % Pow2(bits')
  {
    RegisterBound(buffer, bits, value);
    buffer' := buffer * 64 + value;
    bits', bytes := Emit(buffer', bits + 6);
    KeptBits(buffer', bits');
    if bits' > 0 {
      buffer' := buffer' % Pow2(bits');
    } else {
      buffer' := 0;
    }
  }

  /** Gives out bytes while the register has eight bits; it never has sixteen. */
  method Emit(buffer: nat, held: nat) returns (bits: nat, bytes: seq<nat>)
    requires held < 16 && buffer < Pow2(held)
    ensures if held < 8 then bits == held && bytes == [] else bits == held - 8 && bytes == [buffer / Pow2(bits)]
  {
    bits, bytes := held, [];
    while bits >= 8
      invariant (bits == held && bytes == []) || (bits + 8 == held && bytes == [buffer / Pow2(bits)])
    {
      bits := bits - 8;
      ByteFits(buffer, bits);
      bytes := bytes + [buffer / Pow2(bits) % 256];
    }
  }

  lemma KeptBits(buffer: nat, bits: nat)
    ensures buffer % Pow2(bits) < Pow2(bits)
    ensures bits == 0 ==> buffer % Pow2(bits) == 0
    ensures buffer < Pow2(bits) ==> buffer % Pow2(bits) == buffer
  {
    if buffer < Pow2(bits) {
      QuotientAndRemainder(0, Pow2(bits), buffer, buffer);
    }
  }

  /** What shifting in means: the bits spelled so far grow by one symbol. */
  lemma ShiftMeaning(spelled: Bits, x: nat, w: nat, v: nat, all: nat)
    requires 0 < w <= v && x < Pow2(w) && all == Value(Rest(spelled, v)) * Pow2(w) + x
    ensures var rest, rest' := Rest(spelled, v), Rest(spelled + BitsOf(x, w), v);
            var full, full' := Full(spelled, v), Full(spelled + BitsOf(x, w), v);
            if |rest| + w < v then full' == full && |rest'| == |rest| + w && Value(rest') == all
            else
              var p := Pow2(|rest| + w - v);
              full' == full + [all / p] && |rest'| == |rest| + w - v && Value(rest') == all % p
  {
    JoinedValue(Rest(spelled, v), x, w);
    FullAppend(spelled, BitsOf(x, w), v);
    OneByteAtMost(Rest(spelled, v) + BitsOf(x, w), v);
    assert Full(spelled, v) + [] == Full(spelled, v);
  }

  lemma JoinedValue(rest: Bits, x: nat, w: nat)
    requires x < Pow2(w)
    ensures Value(rest + BitsOf(x, w)) == Value(rest) * Pow2(w) + x
  {
    ValueConcat(rest, BitsOf(x, w));
    ValueOfBits(x, w);
  }

  lemma OneByteAtMost(bits: Bits, v: nat)
    requires 0 < v && |bits| < 2 * v
    ensures if |bits| < v then Full(bits, v) == [] && Rest(bits, v) == bits
            else
              var p := Pow2(|bits| - v);
              && Full(bits, v) == [Value(bits) / p]
              && |Rest(bits, v)| == |bits| - v && Value(Rest(bits, v)) == Value(bits) % p
  {
    if |bits| >= v {
      CutFront(bits, v);
    }
  }

  lemma RegisterStep(values: seq<nat>, x: nat, w: nat)
    ensures Spell(values + [x], w) == Spell(values, w) + BitsOf(x, w)
  {
    SpellConcat(values, [x], w);
    SpellOne(x, w);
  }

  lemma {:induction false} BodyStartsWith(text: string, i: nat)
    requires i <= |text| && '=' !in text[..i]
    ensures text[..i] <= Body(text)
  {
    if i > 0 {
      assert text[..i][0] == text[0];
      assert text[1..][..i - 1] == text[..i][1..];
      BodyStartsWith(text[1..], i - 1);
    }
  }

  lemma {:induction false} BodyIs(text: string, i: nat)
    requires i <= |text| && '=' !in text[..i] && (i < |text| ==> text[i] == '=')
    ensures Body(text) == text[..i]
  {
    if i > 0 {
      assert text[..i][0] == text[0];
      assert text[1..][..i - 1] == text[..i][1..];
      BodyIs(text[1..], i - 1);
    }
  }

  lemma BadSymbolIsInBody(text: string, i: nat)
    requires i < |text| && '=' !in text[..i] && text[i] != '=' && ValueOf(text[i]).None?
    ensures !AllSymbols(Body(text))
  {
    assert text[..i + 1] == text[..i] + [text[i]];
    BodyStartsWith(text, i + 1);
    assert Body(text)[i] == text[..i + 1][i];
  }

  lemma SymbolsSoFar(text: string, i: nat)
    requires i < |text| && AllSymbols(text[..i]) && ValueOf(text[i]).Some?
    ensures AllSymbols(text[..i + 1]) && Symbols(text[..i + 1]) == Symbols(text[..i]) + [ValueOf(text[i]).value]
  {
    var next := text[..i + 1];
    assert next == text[..i] + [text[i]];
  }

  /** Shifts one symbol through the register, which then holds the longer bit string. */
  method Push(ghost spelled: Bits, output: seq<nat>, buffer: nat, bits: nat, value: nat)
    returns (output': seq<nat>, buffer': nat, bits': nat)
    requires value < 64 && RegisterHolds(spelled, output, buffer, bits, 8)
    ensures RegisterHolds(spelled + BitsOf(value, 6), output', buffer', bits', 8)
  {
    Widths();
    ValueIsBounded(Rest(spelled, 8));
    ShiftMeaning(spelled, value, 6, 8, buffer * 64 + value);
    var bytes: seq<nat>;
    buffer', bits', bytes := ShiftIn(buffer, bits, value);
    output' := output + bytes;
  }

  lemma NothingHeld()
    ensures RegisterHolds(Spell(Symbols(""), 6), [], 0, 0, 8)
  {
  }

  method Decode(input: string) returns (r: Result<seq<nat>, ()>)
    ensures r == Decoded(input)
  {
    hide Spell, Symbols;
    var buffer: nat, bits: nat, output: seq<nat> := 0, 0, [];
    NothingHeld();
    assert input[..0] == "";
    var i := 0;
    while i < |input| && input[i] != '='
      invariant 0 <= i <= |input| && '=' !in input[..i] && AllSymbols(input[..i])
      invariant RegisterHolds(Spell(Symbols(input[..i]), 6), output, buffer, bits, 8)
    {
      var v := ValueOf(input[i]);
      if v.None? {
        BadSymbolIsInBody(input, i);
        return Err(());
      }
      SymbolsSoFar(input, i);
      RegisterStep(Symbols(input[..i]), v.value, 6);
      output, buffer, bits := Push(Spell(Symbols(input[..i]), 6), output, buffer, bits, v.value);
      i := i + 1;
    }
    BodyIs(input, i);
    r := Ok(output);
  }

  // The encoder

  lemma JoinTo(x: nat, m: nat, y: nat, n: nat, p: nat, z: nat, k: nat)
    requires x < Pow2(m) && y < Pow2(n) && Pow2(n) == p && z == x * p + y && k == m + n
    ensures BitsOf(x, m) + BitsOf(y, n) == BitsOf(z, k)
  {
    hide BitsOf, Pow2;
    JoinBits(x, m, y, n);
  }

  /** Three bytes are four symbols.  The bytes are given by their parts, split where symbols meet, and
      the widths are parameters with the values their names say. */
  lemma ThreeBytes(a6: nat, a2: nat, b4: nat, b4': nat, c2: nat, c6: nat, two: nat, four: nat, six: nat, eight: nat)
    requires a6 < 64 && a2 < 4 && b4 < 16 && b4' < 16 && c2 < 4 && c6 < 64
    requires six + two == four + four == eight && two + four == six
    requires Pow2(two) == 4 && Pow2(four) == 16 && Pow2(six) == 64
    ensures Spell([a6, a2 * 16 + b4, b4' * 4 + c2, c6], six) ==
            BitsOf(a6 * 4 + a2, eight) + BitsOf(b4 * 16 + b4', eight) + BitsOf(c2 * 64 + c6, eight)
  {
    hide BitsOf, Pow2, Spell;
    FourSymbols(a6, a2 * 16 + b4, b4' * 4 + c2, c6, six);
    JoinTo(a6, six, a2, two, 4, a6 * 4 + a2, eight);
    JoinTo(a2, two, b4, four, 16, a2 * 16 + b4, six);
    JoinTo(b4, four, b4', four, 16, b4 * 16 + b4', eight);
    JoinTo(b4', four, c2, two, 4, b4' * 4 + c2, six);
    JoinTo(c2, two, c6, six, 64, c2 * 64 + c6, eight);
    Regroup(BitsOf(a6, six), BitsOf(a2, two), BitsOf(b4, four), BitsOf(b4', four), BitsOf(c2, two), BitsOf(c6, six));
  }

  lemma FourSymbols(p: nat, q: nat, r: nat, s: nat, six: nat)
    ensures Spell([p, q, r, s], six) == BitsOf(p, six) + BitsOf(q, six) + BitsOf(r, six) + BitsOf(s, six)
  {
    SpellOne(p, six);
    RegisterStep([p], q, six);
    RegisterStep([p, q], r, six);
    RegisterStep([p, q, r], s, six);
    assert [p] + [q] == [p, q] && [p, q] + [r] == [p, q, r] && [p, q, r] + [s] == [p, q, r, s];
  }

  lemma Regroup(a: Bits, b: Bits, c: Bits, d: Bits, e: Bits, f: Bits)
    ensures a + (b + c) + (d + e) + f == (a + b) + (c + d) + (e + f)
  {
    ConcatAssoc(a, b, c);
    ConcatAssoc(a + b, c, d + e);
    ConcatAssoc(c, d, e);
    ConcatAssoc(a + b, c + d, e);
    ConcatAssoc(a + b + (c + d), e, f);
  }

  /** Zero bits at the end of a spelling can be dropped a whole symbol at a time. */
  lemma DropLast(values: seq<nat>, last: nat, bits: Bits, k: nat, six: nat)
    requires Spell(values + [last], six) == bits + Zeros(k) && six <= k
    ensures Spell(values, six) == bits + Zeros(k - six)
  {
    RegisterStep(values, last, six);
    DropZeros(Spell(values, six), BitsOf(last, six), bits, k);
  }

  lemma DropZeros(front: Bits, back: Bits, bits: Bits, k: nat)
    requires front + back == bits + Zeros(k) && |back| <= k
    ensures front == bits + Zeros(k - |back|)
  {
    var n := |front|;
    assert front == (front + back)[..n] == (bits + Zeros(k))[..n];
    assert (bits + Zeros(k))[..n] == bits + Zeros(k - |back|);
  }

  lemma TwoBytes(a: Bits, b: Bits, eight: nat)
    ensures a + b + BitsOf(0, eight) == a + b + Zeros(eight)
    ensures a + BitsOf(0, eight) + BitsOf(0, eight) == a + Zeros(eight + eight)
  {
    BitsOfZero(eight);
    assert Zeros(eight) + Zeros(eight) == Zeros(eight + eight);
    ConcatAssoc(a, Zeros(eight), Zeros(eight));
  }

  /** The symbols of a whole group. */
  function Quad(a: Byte, b: Byte, c: Byte): (values: seq<nat>)
    ensures |values| == 4 && Sextets(values)
  {
    [a / 4, a % 4 * 16 + b / 16, b % 16 * 4 + c / 64, c % 64]
  }

  lemma ByteParts(x: Byte, p: nat, q: nat) returns (hi: nat, lo: nat)
    requires (p == 4 && q == 64) || (p == 16 && q == 16) || (p == 64 && q == 4)
    ensures hi == x / p && lo == x % p && x == hi * p + lo && hi < q && lo < p
  {
    hi, lo := x / p, x % p;
  }

  lemma QuadFromParts(values: seq<nat>, a: nat, a6: nat, a2: nat, b: nat, b4: nat, b4': nat, c: nat, c2: nat, c6: nat)
    requires a6 < 64 && a2 < 4 && b4 < 16 && b4' < 16 && c2 < 4 && c6 < 64
    requires a == a6 * 4 + a2 && b == b4 * 16 + b4' && c == c2 * 64 + c6
    requires values == [a6, a2 * 16 + b4, b4' * 4 + c2, c6]
    ensures Spell(values, 6) == BitsOf(a, 8) + BitsOf(b, 8) + BitsOf(c, 8)
  {
    Widths();
    hide Spell, BitsOf, Pow2;
    ThreeBytes(a6, a2, b4, b4', c2, c6, 2, 4, 6, 8);
  }

  lemma QuadSpells(a: Byte, b: Byte, c: Byte)
    ensures Spell(Quad(a, b, c), 6) == BitsOf(a, 8) + BitsOf(b, 8) + BitsOf(c, 8)
  {
    var a6, a2 := ByteParts(a, 4, 64);
    var b4, b4' := ByteParts(b, 16, 16);
    var c2, c6 := ByteParts(c, 64, 4);
    QuadFromParts(Quad(a, b, c), a, a6, a2, b, b4, b4', c, c2, c6);
  }

  /** A last group of one or two bytes is encoded as if zero bytes followed, and the symbols that
      would consist of those alone are left off. */
  lemma ShortGroups(a: Byte, b: Byte)
    ensures Spell(Quad(a, b, 0)[..3], 6) == BitsOf(a, 8) + BitsOf(b, 8) + Zeros(2)
    ensures Spell(Quad(a, 0, 0)[..2], 6) == BitsOf(a, 8) + Zeros(4)
  {
    QuadSpells(a, b, 0);
    TwoBytes(BitsOf(a, 8), BitsOf(b, 8), 8);
    Shorten(Quad(a, b, 0), BitsOf(a, 8) + BitsOf(b, 8), 8, 6);
    QuadSpells(a, 0, 0);
    Shorten(Quad(a, 0, 0), BitsOf(a, 8), 16, 6);
    Shorten(Quad(a, 0, 0)[..3], BitsOf(a, 8), 10, 6);
    assert Quad(a, 0, 0)[..3][..2] == Quad(a, 0, 0)[..2];
  }

  lemma Shorten(values: seq<nat>, bits: Bits, k: nat, six: nat)
    requires values != [] && Spell(values, six) == bits + Zeros(k) && six <= k
    ensures Spell(values[..|values| - 1], six) == bits + Zeros(k - six)
  {
    var init, last := values[..|values| - 1], values[|values| - 1];
    assert values == init + [last];
    DropLast(init, last, bits, k, six);
  }

  /** Encodes the one to three bytes at an index. */
  method EncodeGroup(bytes: seq<Byte>, index: nat) returns (chars: string, ghost values: seq<nat>, ghost padding: nat)
    requires index < |bytes|
    ensures Sextets(values) && chars == Chars(values)
    ensures padding < 6 && (index + 3 <= |bytes| ==> padding == 0)
    ensures var end := if index + 3 <= |bytes| then index + 3 else |bytes|;
            Spell(values, 6) == Spell(bytes[index..end], 8) + Zeros(padding)
  {
    var a := bytes[index];
    var b := if index + 1 < |bytes| then bytes[index + 1] else 0;
    var c := if index + 2 < |bytes| then bytes[index + 2] else 0;
    chars := [CharOf(a / 4)];
    chars := chars + [CharOf(a % 4 * 16 + b / 16)];
    values, padding := Quad(a, b, c)[..2], 4;
    if index + 1 < |bytes| {
      chars := chars + [CharOf(b % 16 * 4 + c / 64)];
      values, padding := Quad(a, b, c)[..3], 2;
    }
    if index + 2 < |bytes| {
      chars := chars + [CharOf(c % 64)];
      values, padding := Quad(a, b, c), 0;
    }
    GroupSpells(bytes, index, a, b, c);
  }

  lemma GroupSpells(bytes: seq<Byte>, index: nat, a: Byte, b: Byte, c: Byte)
    requires index < |bytes| && a == bytes[index]
    requires b == if index + 1 < |bytes| then bytes[index + 1] else 0
    requires c == if index + 2 < |bytes| then bytes[index + 2] else 0
    ensures index + 3 <= |bytes| ==> Spell(Quad(a, b, c), 6) == Spell(bytes[index..index + 3], 8) + Zeros(0)
    ensures index + 2 == |bytes| ==> Spell(Quad(a, b, c)[..3], 6) == Spell(bytes[index..], 8) + Zeros(2)
    ensures index + 1 == |bytes| ==> Spell(Quad(a, b, c)[..2], 6) == Spell(bytes[index..], 8) + Zeros(4)
  {
    hide Spell, BitsOf, Quad, Zeros;
    QuadSpells(a, b, c);
    ShortGroups(a, b);
    ShortSpells(a, b, c, 8);
    if index + 3 <= |bytes| {
      assert bytes[index..index + 3] == [a, b, c];
      NoZeros(Spell([a, b, c], 8));
    } else if index + 2 == |bytes| {
      assert bytes[index..] == [a, b];
    } else {
      assert bytes[index..] == [a];
    }
  }

  lemma ShortSpells(a: nat, b: nat, c: nat, eight: nat)
    ensures Spell([a], eight) == BitsOf(a, eight)
    ensures Spell([a, b], eight) == BitsOf(a, eight) + BitsOf(b, eight)
    ensures Spell([a, b, c], eight) == BitsOf(a, eight) + BitsOf(b, eight) + BitsOf(c, eight)
  {
    SpellOne(a, eight);
    RegisterStep([a], b, eight);
    RegisterStep([a, b], c, eight);
    assert [a] + [b] == [a, b] && [a, b] + [c] == [a, b, c];
  }

  lemma AppendGroup(values: seq<nat>, done: seq<nat>, more: seq<nat>, group: seq<nat>, padding: nat,
                    six: nat, eight: nat)
    requires Spell(values, six) == Spell(done, eight) && Spell(more, six) == Spell(group, eight) + Zeros(padding)
    ensures Spell(values + more, six) == Spell(done + group, eight) + Zeros(padding)
  {
    SpellConcat(values, more, six);
    SpellConcat(done, group, eight);
    ConcatAssoc(Spell(done, eight), Spell(group, eight), Zeros(padding));
  }

  lemma CharsAppend(values: seq<nat>, more: seq<nat>)
    requires Sextets(values) && Sextets(more)
    ensures Sextets(values + more) && Chars(values + more) == Chars(values) + Chars(more)
  {
  }

  lemma NoZeros(bits: Bits)
    ensures bits + Zeros(0) == bits
  {
  }

  lemma NothingSpelled()
    ensures Spell([], 6) == Spell([], 8) + Zeros(0)
  {
  }

  method Encode(bytes: seq<Byte>) returns (output: string)
    ensures output == Encoded(bytes)
  {
    hide Spell, Zeros;
    output := "";
    var index := 0;
    ghost var values: seq<nat> := [];
    ghost var padding: nat := 0;
    ghost var done: seq<Byte> := [];
    NothingSpelled();
    while index < |bytes|
      invariant done == bytes[..if index <= |bytes| then index else |bytes|]
      invariant Sextets(values) && output == Chars(values)
      invariant padding < 6 && (index < |bytes| ==> padding == 0)
      invariant Spell(values, 6) == Spell(done, 8) + Zeros(padding)
    {
      NoZeros(Spell(done, 8));
      var chars: string;
      ghost var more;
      chars, more, padding := EncodeGroup(bytes, index);
      ghost var group := bytes[index..if index + 3 <= |bytes| then index + 3 else |bytes|];
      AppendGroup(values, done, more, group, padding, 6, 8);
      CharsAppend(values, more);
      output := output + chars;
      values := values + more;
      done := done + group;
      index := index + 3;
    }
    assert done == bytes;
    SextetsAreFit(values);
    ChunkedIsUnique(Spell(bytes, 8), values, 6, padding);
  }
}
