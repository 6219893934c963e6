// Packet sizing for PCM channels (M23_PCM_sizing.c), in unsigned 32-bit
// arithmetic.
module PcmSizing {
  import opened Bytes

  const PACKET_BITS := 112000
  const INTRA_PACKET_HEADER := 80
  const PACKETS_PER_SECOND := 11

  function Wrap32(x: int): U32 {
    x % 0x1_0000_0000
  }

  /* ---------- unpacked mode ---------- */

  // What the caller's variables are set to; an unset one keeps its value.
  datatype Setting = Unset | Set(value: nat)

  datatype Sizing =
    | Refused
    | DivisionByZero
    | Sizing(syncOn: bool, majorsPerPacket: Setting, numberOfMinors: Setting)

  // Bits one minor frame takes on the line, and in a packet, where a word
  // takes 16 bits or 32 and every minor frame has its own header.
  function LineBits(words: U32, length: U32): nat {
    words * length
  }

  function PacketBits(words: U32, length: U32): (b: nat)
    ensures b >= INTRA_PACKET_HEADER
  {
    (if length <= 16 then 16 else 32) * words + INTRA_PACKET_HEADER
  }

  function Quotient(a: nat, b: nat): nat
    requires b > 0
  {
    a / b
  }

  function Minimum(a: nat, b: nat): nat {
    if a > b then b else a
  }

  // The smaller of the two limits, by time and by size.
  function MinorsAllowed(bitRate: nat, bitsPerMinor: nat, bitsInPacket: nat): nat
    requires bitsPerMinor > 0 && bitsInPacket > 0
  {
    Minimum(Quotient(Quotient(bitRate, bitsPerMinor), PACKETS_PER_SECOND), Quotient(PACKET_BITS, bitsInPacket))
  }

  // CalcUnPackedMode.
  function UnpackedMode(bitRate: U32, words: U32, length: U32, minorPerMajor: U32): Sizing {
    var bitsPerMinor := Wrap32(LineBits(words, length));
    var bitsInPacket := Wrap32(PacketBits(words, length));
    if bitsPerMinor == 0 then Refused
    else if bitsInPacket == 0 then DivisionByZero
    else
      var minors := MinorsAllowed(bitRate, bitsPerMinor, bitsInPacket);
      if minorPerMajor == 0 then Sizing(false, Unset, Unset)
      else if minorPerMajor == 1 then Sizing(true, Unset, Set(minors))
      else
        var majors := Quotient(minors, minorPerMajor);
        Sizing(majors != 0, if majors == 0 then Unset else Set(majors), Set(minorPerMajor))
  }

  // n minor frames fit a packet: in size, and in an eleventh of a second.
  predicate MinorsFit(n: nat, bitRate: U32, words: U32, length: U32) {
    n * FrameBits(words, length) <= 14000 * 8 && 11 * (n * (words * length)) <= bitRate
  }

  // A word of more than 16 bits takes 32; every minor frame has a header of
  // five words.
  function FrameBits(words: U32, length: U32): nat {
    (if length > 16 then 32 * words else 16 * words) + 5 * 16
  }

  // The products the source computes do not exceed 32 bits.
  predicate NoWrap(words: U32, length: U32) {
    LineBits(words, length) < 0x1_0000_0000 && PacketBits(words, length) < 0x1_0000_0000
  }

  lemma Times(n: nat, a: nat, b: nat)
    requires b > 0
    ensures n * b <= a <==> n <= Quotient(a, b)
  {
    var q, r := a / b, a % b;
    assert a == b * q + r;
    if n <= q {
      MonotoneProduct(n, q, b);
    } else {
      MonotoneProduct(q + 1, n, b);
      Distribute(q, b);
    }
  }

  lemma MonotoneProduct(m: nat, n: nat, b: nat)
    requires m <= n
    ensures m * b <= n * b
  {
  }

  lemma Distribute(q: nat, b: nat)
    ensures (q + 1) * b == b * q + b
  {
  }

  lemma {:induction false} MinorsFitExactly(n: nat, bitRate: U32, words: U32, length: U32)
    requires NoWrap(words, length) && LineBits(words, length) > 0
    ensures MinorsFit(n, bitRate, words, length)
        <==> n <= MinorsAllowed(bitRate, LineBits(words, length), PacketBits(words, length))
  {
    var line, packet := LineBits(words, length), PacketBits(words, length);
    assert packet == FrameBits(words, length) && line == words * length;
    hide LineBits, PacketBits, FrameBits;
    Times(n, PACKET_BITS, packet);
    Times(PACKETS_PER_SECOND * n, bitRate, line);
    Times(n, Quotient(bitRate, line), PACKETS_PER_SECOND);
    assert 11 * (n * line) == (11 * n) * line;
  }

  // The answer is the right one: sync is on exactly when one major frame
  // fits, and then the count given is the largest that fits.
  ghost predicate Tight(s: Sizing, bitRate: U32, words: U32, length: U32, minorPerMajor: U32)
    requires s.Sizing?
  {
    && (s.syncOn <==> MinorsFit(minorPerMajor, bitRate, words, length))
    && (s.syncOn ==>
          s.majorsPerPacket.Set?
          && forall k: nat :: MajorsFit(k, bitRate, words, length, minorPerMajor) <==> k <= s.majorsPerPacket.value)
  }

  predicate MajorsFit(k: nat, bitRate: U32, words: U32, length: U32, minorPerMajor: U32) {
    MinorsFit(k * minorPerMajor, bitRate, words, length)
  }

  // With more than one minor frame to a major frame, unpacked sizing is tight
  // whenever the source's products fit 32 bits.
  lemma UnpackedSizingIsTight(bitRate: U32, words: U32, length: U32, minorPerMajor: U32)
    requires minorPerMajor > 1 && NoWrap(words, length) && LineBits(words, length) > 0
    ensures var s := UnpackedMode(bitRate, words, length, minorPerMajor);
      s.Sizing? && Tight(s, bitRate, words, length, minorPerMajor) && s.numberOfMinors == Set(minorPerMajor)
  {
    var s := UnpackedMode(bitRate, words, length, minorPerMajor);
    var line, packet := LineBits(words, length), PacketBits(words, length);
    var minors := MinorsAllowed(bitRate, line, packet);
    hide LineBits, PacketBits, MinorsAllowed, Quotient;
    MinorsFitExactly(minorPerMajor, bitRate, words, length);
    Times(1, minors, minorPerMajor);
    forall k: nat
      ensures MajorsFit(k, bitRate, words, length, minorPerMajor) <==> k <= Quotient(minors, minorPerMajor)
    {
      MajorsFitExactly(k, bitRate, words, length, minorPerMajor);
    }
    hide MinorsFit, MajorsFit;
    assert Wrap32(line) == line && Wrap32(packet) == packet;
  }

  lemma MajorsFitExactly(k: nat, bitRate: U32, words: U32, length: U32, minorPerMajor: U32)
    requires NoWrap(words, length) && LineBits(words, length) > 0 && minorPerMajor > 0
    ensures MajorsFit(k, bitRate, words, length, minorPerMajor)
        <==> k <= Quotient(MinorsAllowed(bitRate, LineBits(words, length), PacketBits(words, length)), minorPerMajor)
  {
    hide MinorsFit, MinorsAllowed, Quotient, LineBits, PacketBits;
    MinorsFitExactly(k * minorPerMajor, bitRate, words, length);
    Times(k, MinorsAllowed(bitRate, LineBits(words, length), PacketBits(words, length)), minorPerMajor);
  }

  // Frames too long for 32 bits never fit.
  lemma WrappedNeverFits(n: nat, bitRate: U32, words: U32, length: U32)
    requires !NoWrap(words, length) && n > 0
    ensures !MinorsFit(n, bitRate, words, length)
  {
    assert PacketBits(words, length) == FrameBits(words, length) && LineBits(words, length) == words * length;
    hide LineBits, PacketBits, FrameBits;
    MonotoneProduct(1, n, FrameBits(words, length));
    MonotoneProduct(1, n, words * length);
  }

  // So for every input the source answers, the answer is right if and only
  // if no product wraps around, or the wrapped products allow fewer minor
  // frames than one major frame has.
  lemma UnpackedSizingExactly(bitRate: U32, words: U32, length: U32, minorPerMajor: U32)
    requires minorPerMajor > 1
    requires Wrap32(LineBits(words, length)) != 0 && Wrap32(PacketBits(words, length)) != 0
    ensures var s := UnpackedMode(bitRate, words, length, minorPerMajor);
      s.Sizing?
      && (Tight(s, bitRate, words, length, minorPerMajor)
          <==> NoWrap(words, length)
               || MinorsAllowed(bitRate, Wrap32(LineBits(words, length)), Wrap32(PacketBits(words, length)))
                  < minorPerMajor)
  {
    var minors := MinorsAllowed(bitRate, Wrap32(LineBits(words, length)), Wrap32(PacketBits(words, length)));
    if NoWrap(words, length) {
      UnpackedSizingIsTight(bitRate, words, length, minorPerMajor);
    } else {
      WrappedNeverFits(minorPerMajor, bitRate, words, length);
      hide LineBits, PacketBits, Wrap32, MinorsAllowed, Quotient, MinorsFit;
      Times(1, minors, minorPerMajor);
    }
  }

  // A minor frame of 2^28 + 1 words is taken for one of a single word.
  lemma WrappedAnswer()
    ensures UnpackedMode(11_000_000, 0x1000_0001, 16, 2) == Sizing(true, Set(583), Set(2))
    ensures !MinorsFit(2, 11_000_000, 0x1000_0001, 16)
  {
    WrappedNeverFits(2, 11_000_000, 0x1000_0001, 16);
    assert Wrap32(LineBits(0x1000_0001, 16)) == 16;
    assert Wrap32(PacketBits(0x1000_0001, 16)) == 96;
    assert Quotient(Quotient(11_000_000, 16), PACKETS_PER_SECOND) == 62500;
    assert Quotient(PACKET_BITS, 96) == 1166;
    assert Quotient(1166, 2) == 583;
    hide LineBits, PacketBits, Wrap32, Quotient, MinorsFit;
  }

  // With one minor frame to a major frame the number of minors given is the
  // largest that fits, and sync stays on even if that is none.
  lemma SingleMinorSizing(bitRate: U32, words: U32, length: U32, n: nat)
    requires NoWrap(words, length) && LineBits(words, length) > 0
    ensures var s := UnpackedMode(bitRate, words, length, 1);
      s.Sizing? && s.syncOn && s.numberOfMinors.Set?
      && (MinorsFit(n, bitRate, words, length) <==> n <= s.numberOfMinors.value)
  {
    hide MinorsFit, MinorsAllowed, Quotient;
    MinorsFitExactly(n, bitRate, words, length);
  }

  // The only frame length on which the source divides by zero.
  lemma DividesByZeroExactly(bitRate: U32, words: U32, length: U32, minorPerMajor: U32)
    requires Wrap32(LineBits(words, length)) != 0
    ensures UnpackedMode(bitRate, words, length, minorPerMajor).DivisionByZero?
        <==> length <= 16 && (words + 5) % 0x1000_0000 == 0
  {
    PacketWrapsToZero(words, length);
    hide LineBits, PacketBits, Wrap32;
  }

  lemma PacketWrapsToZero(words: U32, length: U32)
    ensures Wrap32(PacketBits(words, length)) == 0 <==> length <= 16 && (words + 5) % 0x1000_0000 == 0
  {
    var x := if length <= 16 then words + 5 else 2 * words + 5;
    assert PacketBits(words, length) == 16 * x;
    var q, r := x / 0x1000_0000, x % 0x1000_0000;
    assert 16 * x == 0x1_0000_0000 * q + 16 * r;
  }

  /* ---------- throughput mode ---------- */

  datatype Throughput = Throughput(wordsPerPacket: U32, minors: U32)

  // CalcThroughPutMode.
  function ThroughputMode(bitRate: U32): Throughput {
    var rate := bitRate / 160;
    if rate >= 8192 then Throughput(8000, 8000 / 500) else Throughput(rate - rate % 16, 1)
  }

  predicate WordsFit(words: nat, bitRate: U32) {
    words % 16 == 0 && 160 * words <= bitRate
  }

  // Always a multiple of 16 words that the bit rate can carry; below 8192
  // words the largest one.
  lemma ThroughputFits(bitRate: U32, words: nat)
    ensures WordsFit(ThroughputMode(bitRate).wordsPerPacket, bitRate)
    ensures bitRate < 160 * 8192 && WordsFit(words, bitRate) ==> words <= ThroughputMode(bitRate).wordsPerPacket
    ensures bitRate < 160 * 8192 ==> ThroughputMode(bitRate).minors == 1
    ensures bitRate >= 160 * 8192 ==> ThroughputMode(bitRate) == Throughput(16 * 500, 16)
  {
    var rate := bitRate / 160;
    assert rate - rate % 16 == 16 * (rate / 16);
    if WordsFit(words, bitRate) {
      assert words == 16 * (words / 16);
      assert words <= rate;
    }
  }

  /* ---------- packed mode ---------- */

  datatype Packed = Packed(majorFrame: bool, frameWords: U32, majorFrameWords: U32, minorFrameWords: U32)

  function Product(a: nat, b: nat): (p: nat) {
    a * b
  }

  // Words of a minor frame behind the sync pattern.
  function DataWords(words: U32, syncLength: U32): U32 {
    if syncLength <= 16 then words else Wrap32(words - 1)
  }

  function MinorFrameWords(bits: U32, syncLength: U32): U32 {
    if (syncLength == 16 || syncLength == 32) && bits % 16 != 0 then bits / 16 + 1 else bits / 16
  }

  function SyncWords(syncLength: U32): nat {
    syncLength / 16 + if syncLength % 16 != 0 then 1 else 0
  }

  // CalcPackedMode.
  function PackedMode(bitRate: U32, words: U32, minorPerMajor: U32, length: U32, syncLength: U32): Packed {
    var data := DataWords(words, syncLength);
    var bits := Wrap32(Product(data, length));
    var majorBits := Wrap32(Product(Wrap32(syncLength + bits), minorPerMajor));
    var minorFrameWords := MinorFrameWords(bits, syncLength);
    var frame := Wrap32(minorFrameWords + SyncWords(syncLength) + 5);
    var major := if minorPerMajor > 1 then Wrap32(Product(frame, minorPerMajor)) else 0;
    Packing(bitRate, minorPerMajor, majorBits, minorFrameWords, frame, major)
  }

  function Packing(bitRate: U32, minorPerMajor: U32, majorBits: nat, minorFrameWords: U32, frame: U32,
                   major: U32): Packed {
    Packed(minorPerMajor > 1 && major <= 8000 && bitRate / 11 > majorBits, frame, major, minorFrameWords)
  }

  // Packed words hold all data bits of the minor frame exactly when the sync
  // pattern has 16 or 32 bits or the data fill whole words; otherwise the
  // last, partly filled word is dropped.
  lemma PackedWordsHoldTheData(bitRate: U32, words: U32, minorPerMajor: U32, length: U32, syncLength: U32)
    requires Product(DataWords(words, syncLength), length) < 0x1_0000_0000
    ensures var bits := Product(DataWords(words, syncLength), length);
      var p := PackedMode(bitRate, words, minorPerMajor, length, syncLength);
      && (16 * p.minorFrameWords >= bits <==> syncLength == 16 || syncLength == 32 || bits % 16 == 0)
      && 16 * p.minorFrameWords < bits + 16
  {
    var bits := Product(DataWords(words, syncLength), length);
    assert Wrap32(bits) == bits;
    hide DataWords, Wrap32, Product;
    assert PackedMode(bitRate, words, minorPerMajor, length, syncLength).minorFrameWords
        == MinorFrameWords(bits, syncLength) by {
      hide MinorFrameWords;
    }
    hide PackedMode;
    WordsForBits(bits, syncLength);
  }

  lemma WordsForBits(bits: U32, syncLength: U32)
    ensures var w := MinorFrameWords(bits, syncLength);
      && (16 * w >= bits <==> syncLength == 16 || syncLength == 32 || bits % 16 == 0)
      && bits - 16 < 16 * w < bits + 16
  {
    assert bits == 16 * (bits / 16) + bits % 16;
  }

  // Bits of a minor frame behind the sync pattern: a pattern of more than 16
  // bits takes the place of one word.
  function DataBits(words: U32, length: U32, syncLength: U32): (b: nat)
    requires words > 0
  {
    Product(if syncLength > 16 then words - 1 else words, length)
  }

  // Nothing wraps around.
  predicate Fit32(words: U32, minorPerMajor: U32, length: U32, syncLength: U32)
    requires words > 0
  {
    && syncLength + DataBits(words, length, syncLength) < 0x1_0000_0000
    && Product(syncLength + DataBits(words, length, syncLength), minorPerMajor) < 0x1_0000_0000
    && Product(syncLength + DataBits(words, length, syncLength) + 112, minorPerMajor) < 0x10_0000_0000
  }

  lemma PackedSizes(bitRate: U32, words: U32, minorPerMajor: U32, length: U32, syncLength: U32)
    requires words > 0 && Fit32(words, minorPerMajor, length, syncLength)
    ensures var p := PackedMode(bitRate, words, minorPerMajor, length, syncLength);
      var bits := DataBits(words, length, syncLength);
      && bits - 16 < 16 * p.minorFrameWords < bits + 16
      && syncLength <= 16 * (p.frameWords - p.minorFrameWords - 5) < syncLength + 16
      && p.majorFrameWords == (if minorPerMajor > 1 then Product(p.frameWords, minorPerMajor) else 0)
      && (p.majorFrame <==>
            minorPerMajor > 1 && p.majorFrameWords <= 8000
            && 11 * (Product(syncLength + bits, minorPerMajor) + 1) <= bitRate)
  {
    hide Product, PackedMode, Packing, MinorFrameWords, SyncWords, DataBits, DataWords, Wrap32, Fit32;
    var bits := DataBits(words, length, syncLength);
    ProductsFit(words, minorPerMajor, length, syncLength);
    WordsForBits(bits, syncLength);
    WordsForSync(syncLength);
    var frame := MinorFrameWords(bits, syncLength) + SyncWords(syncLength) + 5;
    FrameFits(words, minorPerMajor, length, syncLength, frame);
    UnwrappedMode(bitRate, words, minorPerMajor, length, syncLength, bits, frame);
    PackingFits(bitRate, minorPerMajor, Product(syncLength + bits, minorPerMajor), MinorFrameWords(bits, syncLength),
                frame, if minorPerMajor > 1 then Product(frame, minorPerMajor) else 0);
  }

  // The sizes of packed mode, while nothing wraps around: a frame takes the
  // whole words of its data, as many as its sync pattern fills in whole or in
  // part, and five for the header; a major frame goes into one packet when it
  // is one at all, has at most 8000 words, and comes more than 11 times a
  // second.
  lemma PackedFrames(bitRate: U32, words: U32, minorPerMajor: U32, length: U32, syncLength: U32)
    requires words > 0
    requires var bits := syncLength + (if syncLength > 16 then words - 1 else words) * length;
      bits < 0x1_0000_0000 && bits * minorPerMajor < 0x1_0000_0000 && (bits + 112) * minorPerMajor < 0x10_0000_0000
    ensures var p := PackedMode(bitRate, words, minorPerMajor, length, syncLength);
      var bits := (if syncLength > 16 then words - 1 else words) * length;
      && bits - 16 < 16 * p.minorFrameWords < bits + 16
      && syncLength <= 16 * (p.frameWords - p.minorFrameWords - 5) < syncLength + 16
      && p.majorFrameWords == (if minorPerMajor > 1 then p.frameWords * minorPerMajor else 0)
      && (p.majorFrame <==>
            minorPerMajor > 1 && p.majorFrameWords <= 8000
            && 11 * ((syncLength + bits) * minorPerMajor + 1) <= bitRate)
  {
    hide PackedMode;
    PackedSizes(bitRate, words, minorPerMajor, length, syncLength);
  }

  lemma UnwrappedMode(bitRate: U32, words: U32, minorPerMajor: U32, length: U32, syncLength: U32, bits: U32,
                      frame: U32)
    requires Wrap32(Product(DataWords(words, syncLength), length)) == bits && syncLength + bits < 0x1_0000_0000
    requires Product(syncLength + bits, minorPerMajor) < 0x1_0000_0000 && Product(frame, minorPerMajor) < 0x1_0000_0000
    requires frame == MinorFrameWords(bits, syncLength) + SyncWords(syncLength) + 5
    ensures PackedMode(bitRate, words, minorPerMajor, length, syncLength)
         == Packing(bitRate, minorPerMajor, Product(syncLength + bits, minorPerMajor),
                    MinorFrameWords(bits, syncLength), frame,
                    if minorPerMajor > 1 then Product(frame, minorPerMajor) else 0)
  {
    hide Product, Wrap32, MinorFrameWords, SyncWords, DataWords, Packing;
    Unwrapped(syncLength + bits);
    Unwrapped(Product(syncLength + bits, minorPerMajor));
    Unwrapped(frame);
    Unwrapped(Product(frame, minorPerMajor));
  }

  lemma PackingFits(bitRate: U32, minorPerMajor: U32, majorBits: nat, minorFrameWords: U32, frame: U32, major: U32)
    ensures var p := Packing(bitRate, minorPerMajor, majorBits, minorFrameWords, frame, major);
      && p.minorFrameWords == minorFrameWords && p.frameWords == frame && p.majorFrameWords == major
      && (p.majorFrame <==> minorPerMajor > 1 && major <= 8000 && 11 * (majorBits + 1) <= bitRate)
  {
    Elevenths(bitRate, majorBits);
  }

  lemma Unwrapped(x: int)
    requires 0 <= x < 0x1_0000_0000
    ensures Wrap32(x) == x
  {
  }

  lemma ProductsFit(words: U32, minorPerMajor: U32, length: U32, syncLength: U32)
    requires words > 0 && Fit32(words, minorPerMajor, length, syncLength)
    ensures 0 <= DataBits(words, length, syncLength) < 0x1_0000_0000
    ensures Wrap32(Product(DataWords(words, syncLength), length)) == DataBits(words, length, syncLength)
  {
    assert DataWords(words, syncLength) == if syncLength > 16 then words - 1 else words;
    Unwrapped(Product(DataWords(words, syncLength), length));
  }

  lemma WordsForSync(syncLength: U32)
    ensures syncLength <= 16 * SyncWords(syncLength) < syncLength + 16
  {
    assert syncLength == 16 * (syncLength / 16) + syncLength % 16;
  }

  lemma FrameFits(words: U32, minorPerMajor: U32, length: U32, syncLength: U32, frame: nat)
    requires words > 0 && Fit32(words, minorPerMajor, length, syncLength)
    requires 16 * frame < syncLength + DataBits(words, length, syncLength) + 112
    ensures frame < 0x1_0000_0000 && Product(frame, minorPerMajor) < 0x1_0000_0000
    ensures syncLength + DataBits(words, length, syncLength) < 0x1_0000_0000
    ensures Product(syncLength + DataBits(words, length, syncLength), minorPerMajor) < 0x1_0000_0000
  {
    var bits := syncLength + DataBits(words, length, syncLength) + 112;
    hide DataBits, Product;
    ScaledProduct(frame, bits, minorPerMajor);
  }

  lemma ScaledProduct(frame: nat, bits: nat, n: nat)
    requires 16 * frame < bits && Product(bits, n) < 0x10_0000_0000
    ensures Product(frame, n) < 0x1_0000_0000
  {
    MonotoneProduct(16 * frame, bits, n);
    assert (16 * frame) * n == 16 * (frame * n);
  }

  lemma Elevenths(bitRate: nat, x: nat)
    ensures bitRate / 11 > x <==> 11 * (x + 1) <= bitRate
  {
  }
}
