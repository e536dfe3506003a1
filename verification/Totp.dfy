/**
 * Time-based one-time codes. HMAC-SHA1 is a parameter: any function to twenty bytes. The clock
 * reading is a parameter too.
 */
module Totp {
  import opened Common
  import opened Base32

  type Digest = d: seq<Byte> | |d| == 20 witness seq(20, _ => 0)

  type Hmac = (seq<Byte>, seq<Byte>) -> Digest

  datatype CodeError = BadSecret | CounterOutOfRange

  const COUNTER_LIMIT: nat := 0x1_0000_0000_0000_0000

  const CODES: nat := 1_000_000

  // ---------------------------------------------------------------- truncation

  /** `readUInt32BE`. */
  function ReadUInt32(d: seq<Byte>, at: nat): nat
    requires at + 4 <= |d|
  {
    0x100_0000 * d[at] as int + 0x1_0000 * d[at + 1] as int + 0x100 * d[at + 2] as int + d[at + 3]
  }

  /** The code: the mask `0x0f` keeps the value modulo 16, the mask `0x7fffffff` the value modulo 2^31. */
  function Truncated(d: Digest): nat {
    ReadUInt32(d, d[|d| - 1] % 16) % 0x8000_0000
  }

  /**
   * Section 5.3 of RFC 4226 on bit strings: the low four bits of the last byte give an offset, and
   * the number is the last 31 bits of the four bytes found there.
   */
  function DynamicTruncation(d: Digest): nat {
    Powers();
    Last31Bits(d, Value(BitsOf(d[19], 8)[4..]))
  }

  function Last31Bits(d: Digest, at: nat): nat
    requires at < 16
  {
    BytesFit(d[at..at + 4]);
    Value(Joined(d[at..at + 4], 8)[1..])
  }

  lemma LowBits(bits: seq<Bit>, k: nat)
    requires k <= |bits|
    ensures Value(bits[k..]) == Value(bits) % Power(|bits| - k)
  {
    var high, low := bits[..k], bits[k..];
    assert bits == high + low;
    ValueOfConcat(high, low);
    Remainder(Value(high), Power(|low|), Value(low));
  }

  lemma Remainder(q: nat, m: nat, r: nat)
    requires r < m
    ensures (q * m + r) % m == r
  {
    var n := q * m + r;
    var k := q - n / m;
    assert n == m * (n / m) + n % m;
    assert m * k == q * m - m * (n / m);
    SmallMultiple(m, k);
  }

  lemma SmallMultiple(m: int, k: int)
    requires 0 < m && -m < m * k < m
    ensures k == 0
  {
    MultipleAtLeast(m, k);
  }

  lemma MultipleAtLeast(m: int, k: int)
    requires m > 0
    ensures (k >= 1 ==> m * k >= m) && (k <= -1 ==> m * k <= -m)
  {
    if k >= 1 {
      assert m * k == m + m * (k - 1);
    } else if k <= -1 {
      assert m * k == -m + m * (k + 1);
    }
  }

  lemma BigPowers()
    ensures Power(8) == 0x100 && Power(16) == 0x1_0000 && Power(24) == 0x100_0000 && Power(31) == 0x8000_0000
  {
    assert Power(4) == 16 && Power(12) == 4096 && Power(20) == 0x10_0000 && Power(28) == 0x1000_0000;
  }

  lemma NumberSnoc(digits: seq<nat>, x: nat, base: nat)
    ensures Number(digits + [x], base) == Number(digits, base) * base + x
  {
    assert (digits + [x])[..|digits|] == digits;
  }

  lemma UInt32IsItsBits(b: seq<Byte>)
    requires |b| == 4 && Fit(b, 8)
    ensures Value(Joined(b, 8)) == ReadUInt32(b, 0)
  {
    Powers();
    ValueOfJoined(b, 8);
    assert b == [] + [b[0]] + [b[1]] + [b[2]] + [b[3]];
    NumberSnoc([], b[0], 256);
    NumberSnoc([] + [b[0]], b[1], 256);
    NumberSnoc([] + [b[0]] + [b[1]], b[2], 256);
    NumberSnoc([] + [b[0]] + [b[1]] + [b[2]], b[3], 256);
  }

  lemma OffsetBits(b: Byte)
    ensures b < Power(8) && Value(BitsOf(b, 8)[4..]) == b % 16
  {
    Powers();
    LowBits(BitsOf(b, 8), 4);
    ValueOfBits(b, 8);
  }

  lemma MaskedRead(d: Digest, at: nat)
    requires at < 16
    ensures Last31Bits(d, at) == ReadUInt32(d, at) % 0x8000_0000 < Power(31)
  {
    var four := d[at..at + 4];
    BytesFit(four);
    UInt32IsItsBits(four);
    LowBits(Joined(four, 8), 1);
    BigPowers();
  }

  /** The arithmetic of `generateCode` is the dynamic truncation of RFC 4226. */
  lemma TruncationMeetsTheStandard(d: Digest)
    ensures Truncated(d) == DynamicTruncation(d) < Power(31)
  {
    OffsetBits(d[19]);
    MaskedRead(d, d[19] % 16);
  }

  // ---------------------------------------------------------------- six digits

  predicate IsDigit(c: char) {
    '0' <= c <= '9'
  }

  function Digit(n: nat): (c: char)
    requires n < 10
    ensures IsDigit(c)
  {
    '0' + n as char
  }

  function DigitValue(c: char): nat
    requires IsDigit(c)
  {
    c as int - '0' as int
  }

  function Decimal(n: nat): (text: string)
    ensures text != "" && forall i | 0 <= i < |text| :: IsDigit(text[i])
  {
    if n < 10 then [Digit(n)] else Decimal(n / 10) + [Digit(n % 10)]
  }

  /** `text.padStart(6, '0')`. */
  function PadSix(text: string): string {
    if |text| < 6 then seq(6 - |text|, _ => '0') + text else text
  }

  /** The number a string of digits spells. */
  function ReadDecimal(text: string): nat
    requires forall i | 0 <= i < |text| :: IsDigit(text[i])
  {
    if text == "" then 0 else 10 * ReadDecimal(text[..|text| - 1]) + DigitValue(text[|text| - 1])
  }

  function PowerOfTen(n: nat): nat {
    if n == 0 then 1 else 10 * PowerOfTen(n - 1)
  }

  lemma {:induction false} DecimalSpells(n: nat, width: nat)
    requires n < PowerOfTen(width) && width > 0
    ensures |Decimal(n)| <= width && ReadDecimal(Decimal(n)) == n
    decreases width
  {
    if n >= 10 {
      assert width > 1 by {
        assert PowerOfTen(1) == 10;
      }
      DecimalSpells(n / 10, width - 1);
      assert Decimal(n)[..|Decimal(n)| - 1] == Decimal(n / 10);
    } else {
      assert Decimal(n)[..0] == "";
    }
  }

  lemma {:induction false} LeadingZeros(text: string, k: nat)
    requires forall i | 0 <= i < |text| :: IsDigit(text[i])
    ensures ReadDecimal(seq(k, _ => '0') + text) == ReadDecimal(text)
    decreases |text| + k
  {
    var padded := seq(k, _ => '0') + text;
    if text != "" {
      assert padded[..|padded| - 1] == seq(k, _ => '0') + text[..|text| - 1];
      LeadingZeros(text[..|text| - 1], k);
    } else if k > 0 {
      assert padded[..|padded| - 1] == seq(k - 1, _ => '0') + text;
      LeadingZeros(text, k - 1);
    }
  }

  /** `/^\d{6}$/`. */
  predicate SixDigits(text: string) {
    |text| == 6 && forall i | 0 <= i < 6 :: IsDigit(text[i])
  }

  lemma PaddedDigits(text: string)
    requires |text| <= 6 && forall i | 0 <= i < |text| :: IsDigit(text[i])
    ensures SixDigits(PadSix(text)) && ReadDecimal(PadSix(text)) == ReadDecimal(text)
  {
    LeadingZeros(text, 6 - |text|);
  }

  lemma SixDigitsSpell(n: nat)
    requires n < CODES
    ensures SixDigits(PadSix(Decimal(n))) && ReadDecimal(PadSix(Decimal(n))) == n
  {
    assert PowerOfTen(3) == 1000 && PowerOfTen(6) == 1_000_000;
    DecimalSpells(n, 6);
    PaddedDigits(Decimal(n));
  }

  // ---------------------------------------------------------------- codes

  /** `n` bytes, most significant first. */
  function BigEndian(c: nat, n: nat): (bytes: seq<Byte>)
    ensures |bytes| == n
  {
    if n == 0 then [] else BigEndian(c / 256, n - 1) + [c % 256]
  }

  function Counter(now: int, offset: int): int {
    now / 30_000 + offset
  }

  /** The code of a counter value. */
  function CodeAt(hmac: Hmac, key: seq<Byte>, counter: nat): string {
    PadSix(Decimal(Truncated(hmac(key, BigEndian(counter, 8))) % CODES))
  }

  /** `generateCode`. */
  function GenerateCode(hmac: Hmac, secret: string, now: int, offset: int): Result<string, CodeError> {
    var key := Decode(secret);
    if key.Error? then Error(BadSecret)
    else if !(0 <= Counter(now, offset) < COUNTER_LIMIT) then Error(CounterOutOfRange)
    else Ok(CodeAt(hmac, key.value, Counter(now, offset)))
  }

  /** A code is six digits that spell the HOTP value of RFC 4226 for its counter. */
  lemma CodesAreStandard(hmac: Hmac, key: seq<Byte>, counter: nat)
    ensures var code := CodeAt(hmac, key, counter);
            SixDigits(code) && ReadDecimal(code) == DynamicTruncation(hmac(key, BigEndian(counter, 8))) % 1_000_000
  {
    var d := hmac(key, BigEndian(counter, 8));
    TruncationMeetsTheStandard(d);
    SixDigitsSpell(Truncated(d) % CODES);
  }

  /** For a generated secret the HMAC key is the random byte string itself. */
  lemma GeneratedSecretIsTheKey(hmac: Hmac, random: seq<Byte>, now: int, offset: int)
    requires 0 <= Counter(now, offset) < COUNTER_LIMIT
    ensures GenerateCode(hmac, Encode(random), now, offset) == Ok(CodeAt(hmac, random, Counter(now, offset)))
  {
    RoundTrip(random);
  }

  // ---------------------------------------------------------------- verification

  function StripSpaces(text: string): (r: string)
    ensures forall c | c in r :: !IsSpace(c)
    ensures (forall c | c in text :: !IsSpace(c)) ==> r == text
  {
    if text == "" then ""
    else if IsSpace(text[0]) then
      assert text[0] in text;
      StripSpaces(text[1..])
    else
      assert forall c | c in text[1..] :: c in text;
      [text[0]] + StripSpaces(text[1..])
  }

  /** The clock as the loop reads it, once per offset. */
  type Clock = int -> int

  /** The clock never goes back. */
  ghost predicate Forward(clock: Clock) {
    forall a, b | a <= b :: clock(a) <= clock(b)
  }

  /** A verification of a code without spaces. */
  datatype Check = Check(hmac: Hmac, secret: string, code: string, clock: Clock)

  /** What `generateCode` answers at an offset of the window. */
  function CodeOf(c: Check, o: int): Result<string, CodeError> {
    GenerateCode(c.hmac, c.secret, c.clock(o), o)
  }

  function CounterOf(c: Check, o: int): int {
    Counter(c.clock(o), o)
  }

  /** Offset `o` has a code, and it is not this one. */
  predicate Passes(c: Check, o: int) {
    CodeOf(c, o).Ok? && CodeOf(c, o).value != c.code
  }

  /** The loop over the offsets from `lo` leaves at `o`. */
  ghost predicate StopsAt(c: Check, lo: int, o: int) {
    lo <= o && !Passes(c, o) && forall p | lo <= p < o :: Passes(c, p)
  }

  /** The loop stops at an offset with this code. */
  ghost predicate Accepts(c: Check, lo: int, hi: int) {
    exists o | lo <= o <= hi :: StopsAt(c, lo, o) && CodeOf(c, o).Ok?
  }

  /** The loop stops at an offset that has no code. */
  ghost predicate Throws(c: Check, lo: int, hi: int) {
    exists o | lo <= o <= hi :: StopsAt(c, lo, o) && CodeOf(c, o).Error?
  }

  lemma StopDecides(c: Check, lo: int, hi: int, o: int)
    requires o <= hi && StopsAt(c, lo, o)
    ensures Accepts(c, lo, hi) <==> CodeOf(c, o).Ok?
    ensures Throws(c, lo, hi) <==> CodeOf(c, o).Error?
  {
    forall q | StopsAt(c, lo, q) ensures q == o {
    }
  }

  /** `verifyCode`. */
  method VerifyCode(hmac: Hmac, secret: string, code: string, window: int, clock: Clock)
    returns (r: Result<bool, CodeError>)
    ensures var c := Check(hmac, secret, StripSpaces(code), clock);
            && (r == Ok(true) <==> SixDigits(c.code) && Accepts(c, -window, window))
            && (r.Error? <==> SixDigits(c.code) && Throws(c, -window, window))
  {
    var normalized := StripSpaces(code);
    if !SixDigits(normalized) {
      return Ok(false);
    }
    ghost var c := Check(hmac, secret, normalized, clock);
    var offset := -window;
    while offset <= window
      invariant -window <= offset
      invariant forall p | -window <= p < offset :: Passes(c, p)
    {
      var generated := GenerateCode(hmac, secret, clock(offset), offset);
      assert generated == CodeOf(c, offset);
      if generated.Error? {
        StopDecides(c, -window, window, offset);
        return Error(generated.error);
      }
      if generated.value == normalized {
        StopDecides(c, -window, window, offset);
        return Ok(true);
      }
      assert Passes(c, offset);
      offset := offset + 1;
    }
    r := Ok(false);
  }

  /** Some offset of the window has this code. */
  ghost predicate Matches(c: Check, lo: int, hi: int) {
    exists o | lo <= o <= hi :: CodeOf(c, o) == Ok(c.code)
  }

  lemma {:induction false} SomeStop(c: Check, lo: int, o: int) returns (first: int)
    requires lo <= o && !Passes(c, o)
    ensures lo <= first <= o && StopsAt(c, lo, first)
    decreases o - lo
  {
    if m :| lo <= m < o && !Passes(c, m) {
      first := SomeStop(c, lo, m);
    } else {
      first := o;
    }
  }

  lemma CountersGrow(c: Check, a: int, b: int)
    requires Forward(c.clock) && a <= b
    ensures CounterOf(c, a) <= CounterOf(c, b)
  {
  }

  /** A code is accepted exactly when some offset of the window has it and the window starts at a valid counter. */
  lemma AcceptsIff(c: Check, window: int)
    requires Forward(c.clock)
    ensures Accepts(c, -window, window) <==> CounterOf(c, -window) >= 0 && Matches(c, -window, window)
  {
    if CounterOf(c, -window) >= 0 && Matches(c, -window, window) {
      var o :| -window <= o <= window && CodeOf(c, o) == Ok(c.code);
      var first := SomeStop(c, -window, o);
      StopDecides(c, -window, window, first);
      CountersGrow(c, -window, first);
      CountersGrow(c, first, o);
    }
    if Accepts(c, -window, window) {
      var o :| -window <= o <= window && StopsAt(c, -window, o) && CodeOf(c, o).Ok?;
      assert o == -window || Passes(c, -window);
    }
  }

  /**
   * It throws exactly when the loop runs at all and the secret is bad, the window starts too low, or it runs out of
   * counters unmatched.
   */
  lemma ThrowsIff(c: Check, window: int)
    requires Forward(c.clock)
    ensures Throws(c, -window, window)
       <==> && window >= 0
            && (|| Decode(c.secret).Error?
                || CounterOf(c, -window) < 0
                || (CounterOf(c, window) >= COUNTER_LIMIT && !Matches(c, -window, window)))
  {
    AcceptsIff(c, window);
    if window >= 0 {
      if Decode(c.secret).Error? || CounterOf(c, -window) < 0 {
        assert StopsAt(c, -window, -window);
      } else if !Passes(c, window) {
        var first := SomeStop(c, -window, window);
        StopDecides(c, -window, window, first);
        CountersGrow(c, -window, first);
        CountersGrow(c, first, window);
      } else {
        NothingStops(c, window);
      }
    }
  }

  /** If even the last offset has a code, so has every one before it from a valid counter on. */
  lemma NothingStops(c: Check, window: int)
    requires Forward(c.clock) && window >= 0 && Passes(c, window) && CounterOf(c, -window) >= 0
    ensures !Throws(c, -window, window)
  {
    forall o | -window <= o <= window ensures CodeOf(c, o).Ok? {
      CountersGrow(c, -window, o);
      CountersGrow(c, o, window);
    }
  }

  /** The format gate and the space stripping reject no genuine code of the window: however spaced, it is accepted. */
  lemma GenuineCodesAreAccepted(c: Check, code: string, window: int, offset: int)
    requires -window <= offset <= window && Forward(c.clock) && CounterOf(c, -window) >= 0
    requires c.code == StripSpaces(code) && CodeOf(c, offset) == Ok(c.code)
    ensures SixDigits(c.code) && Accepts(c, -window, window)
  {
    CodesAreStandard(c.hmac, Decode(c.secret).value, CounterOf(c, offset));
    AcceptsIff(c, window);
  }

  /** In particular the code exactly as it was generated is accepted. */
  lemma GeneratedCodesAreAccepted(c: Check, window: int, offset: int)
    requires -window <= offset <= window && Forward(c.clock) && CounterOf(c, -window) >= 0
    requires CodeOf(c, offset) == Ok(c.code)
    ensures StripSpaces(c.code) == c.code && SixDigits(c.code) && Accepts(c, -window, window)
  {
    CodesHaveNoSpaces(c.hmac, Decode(c.secret).value, CounterOf(c, offset));
    GenuineCodesAreAccepted(c, c.code, window, offset);
  }

  /** A code as generated has no spaces to lose. */
  lemma CodesHaveNoSpaces(hmac: Hmac, key: seq<Byte>, counter: nat)
    ensures StripSpaces(CodeAt(hmac, key, counter)) == CodeAt(hmac, key, counter)
  {
    CodesAreStandard(hmac, key, counter);
  }

  /** Different counters give different messages to the HMAC. */
  lemma {:induction false} BigEndianIsInjective(a: nat, b: nat, n: nat)
    requires BigEndian(a, n) == BigEndian(b, n) && a < Power(8 * n) && b < Power(8 * n)
    ensures a == b
    decreases n
  {
    if n > 0 {
      assert BigEndian(a, n)[..n - 1] == BigEndian(a / 256, n - 1)
             && BigEndian(b, n)[..n - 1] == BigEndian(b / 256, n - 1);
      assert BigEndian(a, n)[n - 1] == a % 256 && BigEndian(b, n)[n - 1] == b % 256;
      PowerOfBytes(n);
      BigEndianIsInjective(a / 256, b / 256, n - 1);
    }
  }

  /** The message of a counter, read with the most significant byte first, is the counter. */
  lemma {:induction false} BigEndianReads(c: nat, n: nat)
    requires c < Power(8 * n)
    ensures Number(BigEndian(c, n), 256) == c
    decreases n
  {
    if n > 0 {
      PowerOfBytes(n);
      BigEndianReads(c / 256, n - 1);
      assert BigEndian(c, n)[..n - 1] == BigEndian(c / 256, n - 1);
    }
  }

  /** And it is the only message of its length that does. */
  lemma {:induction false} OnlyMessageOf(bytes: seq<Byte>)
    ensures BigEndian(Number(bytes, 256), |bytes|) == bytes
    decreases |bytes|
  {
    if bytes != [] {
      var init, x := bytes[..|bytes| - 1], bytes[|bytes| - 1];
      OnlyMessageOf(init);
      assert Number(bytes, 256) / 256 == Number(init, 256) && Number(bytes, 256) % 256 == x;
    }
  }

  /** The code of a counter is that of the eight bytes that write the counter in base 256. */
  lemma CodeOfMessage(hmac: Hmac, key: seq<Byte>, counter: nat, message: seq<Byte>)
    requires |message| == 8 && Number(message, 256) == counter
    ensures var code := CodeAt(hmac, key, counter);
            SixDigits(code) && ReadDecimal(code) == DynamicTruncation(hmac(key, message)) % 1_000_000
  {
    OnlyMessageOf(message);
    CodesAreStandard(hmac, key, counter);
  }

  /** The counter changes every thirty seconds. */
  lemma CounterIff(now: int, offset: int, k: int)
    ensures Counter(now, offset) == k <==> 30_000 * (k - offset) <= now < 30_000 * (k - offset + 1)
  {
  }

  lemma SixteenTimes(p: nat)
    ensures Power(p + 4) == 16 * Power(p)
  {
    assert Power(p + 2) == 2 * Power(p + 1) && Power(p + 3) == 2 * Power(p + 2);
  }

  lemma PowerOfBytes(n: nat)
    requires n > 0
    ensures Power(8 * n) == 256 * Power(8 * (n - 1))
  {
    var p := 8 * (n - 1);
    SixteenTimes(p);
    SixteenTimes(p + 4);
    assert 8 * n == p + 4 + 4;
  }
}
