/** The base32 codec of authenticator secrets, section 6 of RFC 4648 without padding. */
module Base32 {
  import opened Common

  type Byte = b: int | 0 <= b < 256

  type Bit = b: int | 0 <= b < 2

  const ALPHABET: string := "ABCDEFGHIJKLMNOPQRSTUVWXYZ234567"

  // ---------------------------------------------------------------- bit strings

  function Power(n: nat): (p: nat)
    ensures p > 0
  {
    if n == 0 then 1 else 2 * Power(n - 1)
  }

  lemma Powers()
    ensures Power(4) == 16 && Power(5) == 32 && Power(8) == 256
  {
    assert Power(3) == 8 && Power(6) == 64;
  }

  /** `n.toString(2).padStart(width, '0')`. */
  function BitsOf(n: nat, width: nat): (bits: seq<Bit>)
    requires n < Power(width)
    ensures |bits| == width
  {
    if width == 0 then [] else BitsOf(n / 2, width - 1) + [n % 2]
  }

  /** `parseInt(bits, 2)`. */
  function Value(bits: seq<Bit>): (n: nat)
    ensures n < Power(|bits|)
  {
    if bits == [] then 0 else 2 * Value(bits[..|bits| - 1]) + bits[|bits| - 1]
  }

  lemma {:induction false} ValueOfBits(n: nat, width: nat)
    requires n < Power(width)
    ensures Value(BitsOf(n, width)) == n
  {
    if width > 0 {
      ValueOfBits(n / 2, width - 1);
      assert BitsOf(n, width)[..width - 1] == BitsOf(n / 2, width - 1);
    }
  }

  lemma {:induction false} BitsOfValue(bits: seq<Bit>)
    ensures BitsOf(Value(bits), |bits|) == bits
  {
    if bits != [] {
      BitsOfValue(bits[..|bits| - 1]);
    }
  }

  lemma ConcatStep(x: nat, p: nat, y: nat, bit: nat)
    ensures 2 * (x * p + y) + bit == x * (2 * p) + (2 * y + bit)
  {
  }

  /** Appending one bit. */
  lemma ValueSnoc(a: seq<Bit>, bit: Bit)
    ensures Value(a + [bit]) == 2 * Value(a) + bit
  {
    assert (a + [bit])[..|a|] == a;
  }

  lemma {:induction false} ValueOfConcat(a: seq<Bit>, b: seq<Bit>)
    ensures Value(a + b) == Value(a) * Power(|b|) + Value(b)
    decreases |b|
  {
    if b == [] {
      assert a + b == a;
    } else {
      var c, bit := b[..|b| - 1], b[|b| - 1];
      assert a + b == (a + c) + [bit] && b == c + [bit];
      ValueSnoc(a + c, bit);
      ValueSnoc(c, bit);
      ValueOfConcat(a, c);
      ConcatStep(Value(a), Power(|c|), Value(c), bit);
    }
  }

  function Zeros(n: nat): seq<Bit> {
    seq(n, _ => 0)
  }

  ghost predicate Fit(xs: seq<nat>, width: nat) {
    forall i | 0 <= i < |xs| :: xs[i] < Power(width)
  }

  /** The bits of all numbers, one after the other. */
  function Joined(xs: seq<nat>, width: nat): (bits: seq<Bit>)
    requires Fit(xs, width)
    ensures |bits| == width * |xs|
  {
    if xs == [] then [] else BitsOf(xs[0], width) + Joined(xs[1..], width)
  }

  lemma JoinedHead(x: nat, xs: seq<nat>, width: nat)
    requires x < Power(width) && Fit(xs, width)
    ensures Fit([x] + xs, width) && Joined([x] + xs, width) == BitsOf(x, width) + Joined(xs, width)
  {
    assert ([x] + xs)[1..] == xs;
  }

  /** The first five bits, filled up with zeros: `bits.slice(0, 5).padEnd(5, '0')`. */
  function FirstFive(bits: seq<Bit>): (head: seq<Bit>)
    ensures |head| == 5
  {
    if |bits| < 5 then bits + Zeros(5 - |bits|) else bits[..5]
  }

  /** The bits cut in groups of five, the last one filled up with zeros. */
  function Quintets(bits: seq<Bit>): (xs: seq<nat>)
    ensures Fit(xs, 5)
  {
    if bits == [] then [] else [Value(FirstFive(bits))] + Quintets(bits[Min(5, |bits|)..])
  }

  /** The whole groups of eight bits; what is left over is dropped. */
  function Octets(bits: seq<Bit>): (bytes: seq<Byte>) {
    if |bits| < 8 then []
    else
      Powers();
      [Value(bits[..8])] + Octets(bits[8..])
  }

  /** How many zeros fill the last group of five. */
  function Padding(n: nat): (p: nat)
    ensures p < 5
  {
    if n == 0 then 0 else if n < 5 then 5 - n else Padding(n - 5)
  }

  lemma {:induction false} JoinedQuintets(bits: seq<Bit>)
    ensures Joined(Quintets(bits), 5) == bits + Zeros(Padding(|bits|))
    decreases |bits|
  {
    if bits != [] {
      var head, tail := FirstFive(bits), bits[Min(5, |bits|)..];
      BitsOfValue(head);
      JoinedQuintets(tail);
      JoinedHead(Value(head), Quintets(tail), 5);
    }
  }

  lemma BytesFit(bytes: seq<Byte>)
    ensures Fit(bytes, 8)
  {
    Powers();
  }

  lemma {:induction false} OctetsOfJoined(bytes: seq<Byte>, rest: seq<Bit>)
    requires |rest| < 8 && Fit(bytes, 8)
    ensures Octets(Joined(bytes, 8) + rest) == bytes
  {
    if bytes != [] {
      var bits := Joined(bytes, 8) + rest;
      assert bits[..8] == BitsOf(bytes[0], 8) && bits[8..] == Joined(bytes[1..], 8) + rest;
      ValueOfBits(bytes[0], 8);
      OctetsOfJoined(bytes[1..], rest);
    }
  }

  // ---------------------------------------------------------------- characters

  /** `text.indexOf(c)`. */
  function IndexOf(text: string, c: char): (i: int)
    ensures -1 <= i < |text|
    ensures i >= 0 ==> text[i] == c
    ensures i == -1 ==> c !in text
  {
    if text == "" then -1
    else if text[0] == c then 0
    else
      var i := IndexOf(text[1..], c);
      if i == -1 then -1 else i + 1
  }

  /** `BASE32_ALPHABET[i]`. */
  function LetterAt(i: nat): char
    requires i < 32
  {
    if i < 26 then 'A' + i as char else '2' + (i - 26) as char
  }

  /** `BASE32_ALPHABET.indexOf(c)`. */
  function Position(c: char): (i: int)
    ensures -1 <= i < 32 && (i >= 0 ==> LetterAt(i) == c)
  {
    if 'A' <= c <= 'Z' then c as int - 'A' as int else if '2' <= c <= '7' then c as int - '2' as int + 26 else -1
  }

  lemma PositionOfLetter(i: nat)
    requires i < 32
    ensures Position(LetterAt(i)) == i
  {
  }

  /** These are the lookups in the alphabet of section 6 of RFC 4648. */
  lemma AlphabetLookups(i: nat, c: char)
    requires i < 32
    ensures |ALPHABET| == 32 && ALPHABET[i] == LetterAt(i) && IndexOf(ALPHABET, c) == Position(c)
  {
    var j := IndexOf(ALPHABET, c);
    assert forall k: nat | k < 32 :: ALPHABET[k] == LetterAt(k);
    if j >= 0 {
      PositionOfLetter(j);
    }
  }

  function Letters(xs: seq<nat>): (text: string)
    requires Fit(xs, 5)
    ensures |text| == |xs|
  {
    Powers();
    seq(|xs|, i requires 0 <= i < |xs| => LetterAt(xs[i]))
  }

  datatype DecodeError = InvalidCharacter

  /** The positions of the characters, unless one is not in the alphabet. */
  function Indices(text: string): (r: Result<seq<nat>, DecodeError>)
    ensures r.Ok? ==> Fit(r.value, 5) && |r.value| == |text|
    ensures r.Ok? <==> forall c | c in text :: Position(c) >= 0
  {
    if text == "" then Ok([])
    else
      var i, rest := Position(text[0]), Indices(text[1..]);
      Powers();
      assert text == [text[0]] + text[1..];
      if i == -1 || rest.Error? then Error(InvalidCharacter) else Ok([i] + rest.value)
  }

  lemma {:induction false} IndicesOfLetters(xs: seq<nat>)
    requires Fit(xs, 5)
    ensures Indices(Letters(xs)) == Ok(xs)
  {
    if xs != [] {
      Powers();
      var text := Letters(xs);
      assert text[1..] == Letters(xs[1..]) && text[0] == LetterAt(xs[0]);
      IndicesOfLetters(xs[1..]);
      PositionOfLetter(xs[0]);
      assert [xs[0]] + xs[1..] == xs;
    }
  }

  lemma {:induction false} LettersOfIndices(text: string)
    requires Indices(text).Ok?
    ensures Letters(Indices(text).value) == text
  {
    if text != "" {
      LettersOfIndices(text[1..]);
      assert Letters(Indices(text).value)[1..] == Letters(Indices(text[1..]).value);
    }
  }

  /** `value.replace(/=+$/g, '')`. */
  function StripPads(text: string): (r: string)
    ensures |r| <= |text| && r == text[..|r|] && (r != "" ==> r[|r| - 1] != '=')
    ensures forall i | |r| <= i < |text| :: text[i] == '='
  {
    if text != "" && text[|text| - 1] == '=' then StripPads(text[..|text| - 1]) else text
  }

  function UpperChar(c: char): char {
    if 'a' <= c <= 'z' then c - 'a' + 'A' else c
  }

  function Upper(text: string): string {
    seq(|text|, i requires 0 <= i < |text| => UpperChar(text[i]))
  }

  // ---------------------------------------------------------------- the codec

  function Encode(bytes: seq<Byte>): string {
    BytesFit(bytes);
    Letters(Quintets(Joined(bytes, 8)))
  }

  function Decode(text: string): Result<seq<Byte>, DecodeError> {
    var r := Indices(Upper(StripPads(text)));
    if r.Error? then Error(InvalidCharacter) else Ok(Octets(Joined(r.value, 5)))
  }

  /** `toBase32`. */
  method ToBase32(bytes: seq<Byte>) returns (output: string)
    ensures output == Encode(bytes)
  {
    BytesFit(bytes);
    var bits: seq<Bit> := [];
    var i := 0;
    while i < |bytes|
      invariant 0 <= i <= |bytes|
      invariant bits + Joined(bytes[i..], 8) == Joined(bytes, 8)
    {
      bits := bits + BitsOf(bytes[i], 8);
      i := i + 1;
    }
    assert bits == Joined(bytes, 8);
    output := WriteLetters(bits);
  }

  /** The second loop of `toBase32`. */
  method WriteLetters(bits: seq<Bit>) returns (output: string)
    ensures output == Letters(Quintets(bits))
  {
    output := "";
    var index := 0;
    while index < |bits|
      invariant 0 <= index
      invariant output + Letters(Quintets(bits[Min(index, |bits|)..])) == Letters(Quintets(bits))
    {
      ghost var rest := bits[index..];
      var chunk := bits[index..Min(index + 5, |bits|)];
      chunk := chunk + Zeros(5 - |chunk|);
      assert chunk == FirstFive(rest);
      Powers();
      output := output + [LetterAt(Value(chunk))];
      index := index + 5;
      assert rest[Min(5, |rest|)..] == bits[Min(index, |bits|)..];
      LettersHead(Value(chunk), Quintets(bits[Min(index, |bits|)..]));
    }
    assert bits[Min(index, |bits|)..] == [];
  }

  lemma LettersHead(x: nat, xs: seq<nat>)
    requires x < 32 && Fit(xs, 5)
    ensures Fit([x] + xs, 5) && Letters([x] + xs) == [LetterAt(x)] + Letters(xs)
  {
    Powers();
  }

  /** The bits of a text in the alphabet. */
  ghost function TextBits(text: string): seq<Bit>
    requires Indices(text).Ok?
  {
    Joined(Indices(text).value, 5)
  }

  lemma TextBitsHead(text: string)
    requires text != "" && Position(text[0]) != -1
    ensures Position(text[0]) < Power(5) && (Indices(text).Ok? <==> Indices(text[1..]).Ok?)
    ensures Indices(text).Ok? ==> TextBits(text) == BitsOf(Position(text[0]), 5) + TextBits(text[1..])
  {
    Powers();
    var rest := Indices(text[1..]);
    if rest.Ok? {
      JoinedHead(Position(text[0]), rest.value, 5);
    }
  }

  lemma Regroup(a: seq<Bit>, b: seq<Bit>, c: seq<Bit>)
    ensures a + (b + c) == (a + b) + c
  {
  }

  /** The first loop of `fromBase32`. */
  method ReadBits(text: string) returns (r: Result<seq<Bit>, DecodeError>)
    ensures r.Ok? <==> Indices(text).Ok?
    ensures r.Ok? ==> r.value == TextBits(text)
  {
    var bits: seq<Bit> := [];
    var i := 0;
    while i < |text|
      invariant 0 <= i <= |text|
      invariant Indices(text).Ok? <==> Indices(text[i..]).Ok?
      invariant Indices(text).Ok? ==> bits + TextBits(text[i..]) == TextBits(text)
    {
      ghost var rest := text[i..];
      assert rest[1..] == text[i + 1..] && rest[0] == text[i];
      var index := Position(text[i]);
      if index == -1 {
        return Error(InvalidCharacter);
      }
      TextBitsHead(rest);
      if Indices(text).Ok? {
        Regroup(bits, BitsOf(index, 5), TextBits(rest[1..]));
      }
      bits := bits + BitsOf(index, 5);
      i := i + 1;
    }
    r := Ok(bits);
  }

  /** The second loop of `fromBase32`. */
  method WriteBytes(bits: seq<Bit>) returns (bytes: seq<Byte>)
    ensures bytes == Octets(bits)
  {
    bytes := [];
    var at := 0;
    while at + 8 <= |bits|
      invariant 0 <= at <= |bits|
      invariant bytes + Octets(bits[at..]) == Octets(bits)
    {
      Powers();
      ghost var rest := bits[at..];
      assert rest[..8] == bits[at..at + 8] && rest[8..] == bits[at + 8..];
      bytes := bytes + [Value(bits[at..at + 8])];
      at := at + 8;
    }
  }

  /** `fromBase32`. */
  method FromBase32(text: string) returns (r: Result<seq<Byte>, DecodeError>)
    ensures r == Decode(text)
  {
    var read := ReadBits(Upper(StripPads(text)));
    if read.Error? {
      return Error(InvalidCharacter);
    }
    var bytes := WriteBytes(read.value);
    r := Ok(bytes);
  }

  // ---------------------------------------------------------------- round trips

  lemma UpperCaseStays(xs: seq<nat>)
    requires Fit(xs, 5)
    ensures Upper(Letters(xs)) == Letters(xs) && '=' !in Letters(xs)
  {
    Powers();
  }

  /** Case does not matter, and neither does padding. */
  lemma DecodeIgnoresCaseAndPads(text: string, pads: nat, bytes: seq<Byte>)
    requires Upper(text) == Encode(bytes)
    ensures Decode(text + seq(pads, _ => '=')) == Ok(bytes)
  {
    BytesFit(bytes);
    var bits := Joined(bytes, 8);
    UpperCaseStays(Quintets(bits));
    IndicesOfLetters(Quintets(bits));
    JoinedQuintets(bits);
    OctetsOfJoined(bytes, Zeros(Padding(|bits|)));
    StripPadsOf(text, pads);
  }

  lemma {:induction false} StripPadsOf(text: string, pads: nat)
    requires '=' !in Upper(text)
    ensures StripPads(text + seq(pads, _ => '=')) == text
  {
    var padded := text + seq(pads, _ => '=');
    if pads > 0 {
      assert padded[..|padded| - 1] == text + seq(pads - 1, _ => '=');
      StripPadsOf(text, pads - 1);
    } else {
      assert padded == text;
      assert text != "" ==> Upper(text)[|text| - 1] == UpperChar(text[|text| - 1]);
    }
  }

  /** Decoding the encoding of any byte string returns it exactly. */
  lemma RoundTrip(bytes: seq<Byte>)
    ensures Decode(Encode(bytes)) == Ok(bytes)
  {
    BytesFit(bytes);
    UpperCaseStays(Quintets(Joined(bytes, 8)));
    DecodeIgnoresCaseAndPads(Encode(bytes), 0, bytes);
    assert Encode(bytes) + seq(0, _ => '=') == Encode(bytes);
  }

  // ---------------------------------------------------------------- canonical texts

  lemma {:induction false} JoinedOctets(bits: seq<Bit>)
    ensures var bytes := Octets(bits);
            Fit(bytes, 8) && 8 * |bytes| <= |bits| < 8 * |bytes| + 8 && Joined(bytes, 8) == bits[..8 * |bytes|]
    decreases |bits|
  {
    if |bits| >= 8 {
      Powers();
      var head, tail := bits[..8], bits[8..];
      BitsOfValue(head);
      JoinedOctets(tail);
      JoinedHead(Value(head), Octets(tail), 8);
      assert bits[..8 * |Octets(bits)|] == head + tail[..8 * |Octets(tail)|];
    }
  }

  lemma {:induction false} JoinedIsInjective(xs: seq<nat>, ys: seq<nat>)
    requires Fit(xs, 5) && Fit(ys, 5) && Joined(xs, 5) == Joined(ys, 5)
    ensures xs == ys
  {
    if xs != [] && ys != [] {
      assert Joined(xs, 5)[..5] == BitsOf(xs[0], 5) && Joined(ys, 5)[..5] == BitsOf(ys[0], 5);
      assert Joined(xs, 5)[5..] == Joined(xs[1..], 5) && Joined(ys, 5)[5..] == Joined(ys[1..], 5);
      ValueOfBits(xs[0], 5);
      ValueOfBits(ys[0], 5);
      JoinedIsInjective(xs[1..], ys[1..]);
      assert xs == [xs[0]] + xs[1..] && ys == [ys[0]] + ys[1..];
    }
  }

  /** What the decoder drops: the bits after the last whole byte. */
  function Leftover(xs: seq<nat>): seq<Bit>
    requires Fit(xs, 5)
  {
    var bits := Joined(xs, 5);
    JoinedOctets(bits);
    bits[8 * |Octets(bits)|..]
  }

  /** Filling bits up to groups of five gives the groups back exactly if it adds what was cut off. */
  lemma RefillIff(xs: seq<nat>, kept: seq<Bit>, left: seq<Bit>)
    requires Fit(xs, 5) && Joined(xs, 5) == kept + left
    ensures Quintets(kept) == xs <==> left == Zeros(Padding(|kept|))
  {
    JoinedQuintets(kept);
    if left == Zeros(Padding(|kept|)) {
      JoinedIsInjective(Quintets(kept), xs);
    }
    if Quintets(kept) == xs {
      assert (kept + left)[|kept|..] == left && (kept + Zeros(Padding(|kept|)))[|kept|..] == Zeros(Padding(|kept|));
    }
  }

  lemma {:induction false} PaddingFits(n: nat, left: nat, groups: nat)
    requires left < 5 && n + left == 5 * groups
    ensures left == Padding(n)
    decreases n
  {
    if n >= 5 {
      PaddingFits(n - 5, left, groups - 1);
    }
  }

  /** Decoding cuts the bits in two. */
  lemma OctetsAndLeftover(xs: seq<nat>)
    requires Fit(xs, 5)
    ensures var bytes := Octets(Joined(xs, 5));
            && Fit(bytes, 8) && Joined(xs, 5) == Joined(bytes, 8) + Leftover(xs)
            && |Leftover(xs)| < 8 && 8 * |bytes| + |Leftover(xs)| == 5 * |xs|
  {
    JoinedOctets(Joined(xs, 5));
  }

  lemma ZerosFit(kept: seq<Bit>, left: seq<Bit>, groups: nat)
    requires |kept| + |left| == 5 * groups
    ensures left == Zeros(Padding(|kept|)) <==> |left| < 5 && left == Zeros(|left|)
  {
    if |left| < 5 {
      PaddingFits(|kept|, |left|, groups);
    }
  }

  /** The numbers are those an encoder writes exactly when fewer than five bits are left over, all of them zero. */
  lemma CanonicalIff(xs: seq<nat>)
    requires Fit(xs, 5)
    ensures var bytes := Octets(Joined(xs, 5));
            Fit(bytes, 8) && (Quintets(Joined(bytes, 8)) == xs
                              <==> |Leftover(xs)| < 5 && Leftover(xs) == Zeros(|Leftover(xs)|))
  {
    var bytes := Octets(Joined(xs, 5));
    OctetsAndLeftover(xs);
    RefillIff(xs, Joined(bytes, 8), Leftover(xs));
    ZerosFit(Joined(bytes, 8), Leftover(xs), |xs|);
  }

  /** Encoding what was decoded gives the text back exactly for canonical texts in upper case without padding. */
  lemma ReencodeIff(text: string)
    requires Upper(StripPads(text)) == text && Indices(text).Ok?
    ensures Decode(text).Ok?
    ensures var left := Leftover(Indices(text).value);
            Encode(Decode(text).value) == text <==> |left| < 5 && left == Zeros(|left|)
  {
    var xs := Indices(text).value;
    var bytes := Octets(Joined(xs, 5));
    CanonicalIff(xs);
    LettersOfIndices(text);
    IndicesOfLetters(Quintets(Joined(bytes, 8)));
  }

  // ---------------------------------------------------------------- as numbers

  /** The number that the digits write in a base, most significant first. */
  function Number(digits: seq<nat>, base: nat): nat {
    if digits == [] then 0 else Number(digits[..|digits| - 1], base) * base + digits[|digits| - 1]
  }

  lemma {:induction false} JoinedSnoc(xs: seq<nat>, x: nat, width: nat)
    requires Fit(xs, width) && x < Power(width)
    ensures Fit(xs + [x], width) && Joined(xs + [x], width) == Joined(xs, width) + BitsOf(x, width)
  {
    if xs == [] {
      assert [] + [x] == [x] && [x][1..] == [];
    } else {
      JoinedSnoc(xs[1..], x, width);
      assert (xs + [x])[1..] == xs[1..] + [x];
    }
  }

  /** The bits of the digits spell the number they write. */
  lemma {:induction false} ValueOfJoined(xs: seq<nat>, width: nat)
    requires Fit(xs, width)
    ensures Value(Joined(xs, width)) == Number(xs, Power(width))
  {
    if xs != [] {
      var init, x := xs[..|xs| - 1], xs[|xs| - 1];
      assert xs == init + [x];
      ValueOfJoined(init, width);
      JoinedSnoc(init, x, width);
      ValueOfConcat(Joined(init, width), BitsOf(x, width));
      ValueOfBits(x, width);
    }
  }

  lemma {:induction false} ValueOfZeros(n: nat)
    ensures Value(Zeros(n)) == 0
  {
    if n > 0 {
      assert Zeros(n)[..n - 1] == Zeros(n - 1);
      ValueOfZeros(n - 1);
    }
  }

  /** The letters write, in base 32, the number the bytes write in base 256, moved up to a whole letter. */
  lemma EncodedNumber(bytes: seq<Byte>)
    ensures var text, pad := Encode(bytes), Padding(8 * |bytes|);
            && 5 * |text| == 8 * |bytes| + pad
            && Indices(text).Ok? && Number(Indices(text).value, 32) == Number(bytes, 256) * Power(pad)
  {
    BytesFit(bytes);
    Powers();
    var bits := Joined(bytes, 8);
    var pad := Padding(|bits|);
    JoinedQuintets(bits);
    IndicesOfLetters(Quintets(bits));
    ValueOfJoined(bytes, 8);
    ValueOfJoined(Quintets(bits), 5);
    ValueOfConcat(bits, Zeros(pad));
    ValueOfZeros(pad);
  }

  /** `high` is what is left of `n` without what is less than `unit`. */
  predicate Whole(high: nat, n: nat, unit: nat) {
    high * unit <= n < high * unit + unit
  }

  lemma WholeOf(high: nat, n: nat, unit: nat, low: nat)
    requires n == high * unit + low && low < unit
    ensures Whole(high, n, unit)
  {
  }

  lemma HighBits(bits: seq<Bit>, high: seq<Bit>, low: seq<Bit>)
    requires bits == high + low
    ensures Whole(Value(high), Value(bits), Power(|low|))
  {
    ValueOfConcat(high, low);
    WholeOf(Value(high), Value(bits), Power(|low|), Value(low));
  }

  lemma KeptNumber(xs: seq<nat>, bytes: seq<nat>, left: seq<Bit>)
    requires Fit(xs, 5) && Fit(bytes, 8) && Joined(xs, 5) == Joined(bytes, 8) + left
    ensures Whole(Number(bytes, Power(8)), Number(xs, Power(5)), Power(|left|))
  {
    ValueOfJoined(bytes, 8);
    ValueOfJoined(xs, 5);
    HighBits(Joined(xs, 5), Joined(bytes, 8), left);
  }

  /** A decoding writes the number of the letters without the bits left over, which are fewer than eight. */
  lemma DecodedNumber(text: string)
    requires Decode(text).Ok?
    ensures var letters, bytes := Upper(StripPads(text)), Decode(text).value;
            && Indices(letters).Ok?
            && var xs := Indices(letters).value;
               && |Leftover(xs)| < 8 && 8 * |bytes| + |Leftover(xs)| == 5 * |letters|
               && Whole(Number(bytes, Power(8)), Number(xs, Power(5)), Power(|Leftover(xs)|))
  {
    var xs := Indices(Upper(StripPads(text))).value;
    OctetsAndLeftover(xs);
    KeptNumber(xs, Octets(Joined(xs, 5)), Leftover(xs));
  }

  /** A text is refused exactly if a character before its padding is in the alphabet in neither case. */
  lemma DecodeFailsIff(text: string)
    ensures Decode(text).Error? <==> exists i | 0 <= i < |StripPads(text)| :: UpperChar(text[i]) !in ALPHABET
  {
    var letters := Upper(StripPads(text));
    forall c ensures Position(c) >= 0 <==> c in ALPHABET {
      AlphabetLookups(0, c);
    }
    assert forall i | 0 <= i < |letters| :: letters[i] == UpperChar(text[i]);
    if i :| 0 <= i < |letters| && UpperChar(text[i]) !in ALPHABET {
      assert letters[i] in letters;
    }
  }
}
