/**
 * Tuning derivations: the SPI frame that tunes VRX1's synthesiser, the
 * address-line levels that select a VRX4 channel, and the hardware effects of
 * re-applying a channel or stepping it.
 */
module Tuning {
  import opened Catalog
  import opened Hardware
  import opened Indexing

  /**
   * The RX5808 synthesiser word for a frequency: the frequency is
   * 479 + 2 * N MHz, rounded down to the 2 MHz grid.
   */
  function Vrx1Word(mhz: int): (n: nat)
    requires mhz >= 479
    ensures 479 + 2 * n <= mhz < 479 + 2 * n + 2
  {
    (mhz - 479) / 2
  }

  /**
   * The four bytes sent to VRX1, least significant first: the low 5 bits of
   * N above a set bit 0 (bits 1 and 2 clear), the next 6 bits of N shifted
   * left by 2, the top 2 bits of N, and a zero byte.
   */
  function Vrx1Frame(mhz: int): (frame: seq<int>)
    requires mhz >= 479
    ensures |frame| == 4
  {
    var n := Vrx1Word(mhz);
    var data0 := (n % 32) * 8 + 1;      // ((N & 0x1F) << 3) | 0x01
    var data1 := ((n / 32) % 64) * 4;   // ((N >> 5) & 0x3F) << 2
    var data2 := (n / 2048) % 4;        // (N >> 11) & 0x03
    [data0, data1, data2, 0]
  }

  /**
   * A VRX1 frame is four bytes with bit 0 of the first set, bits 1 and 2 of
   * the first and bits 0 and 1 of the second clear, at most 2 bits in the
   * third and a zero fourth, and it carries the low 13 bits of the tuning word.
   */
  lemma Vrx1FrameFields(mhz: int)
    requires mhz >= 479
    ensures var frame := Vrx1Frame(mhz);
      && (forall k | 0 <= k < 4 :: 0 <= frame[k] < 256)
      && frame[0] % 2 == 1 && (frame[0] / 2) % 4 == 0
      && frame[1] % 4 == 0
      && frame[2] <= 3 && frame[3] == 0
      && Vrx1Decode(frame) == Vrx1Word(mhz) % 8192
  {
    WordSplit(Vrx1Word(mhz));
  }

  /** Reads the tuning word back out of a frame: (data0 >> 3) + 32 * (data1 >> 2) + 2048 * data2. */
  function Vrx1Decode(frame: seq<int>): int
    requires |frame| == 4
  {
    frame[0] / 8 + 32 * (frame[1] / 4) + 2048 * frame[2]
  }

  /** The three bit fields of the frame cover the low 13 bits of N. */
  lemma WordSplit(n: nat)
    ensures ((n % 32) * 8 + 1) / 8 == n % 32
    ensures (((n / 32) % 64) * 4) / 4 == (n / 32) % 64
    ensures n % 32 + 32 * ((n / 32) % 64) + 2048 * ((n / 2048) % 4) == n % 8192
  {
    var r0, q := n % 32, n / 32;
    var r1, q2 := q % 64, q / 64;
    var r2, q3 := q2 % 4, q2 / 4;
    DivModUnique(r0 * 8 + 1, 8, r0, 1);
    DivModUnique(r1 * 4, 4, r1, 0);
    assert n == 2048 * q2 + (32 * r1 + r0);
    DivModUnique(n, 2048, q2, 32 * r1 + r0);
    assert n == 8192 * q3 + (r0 + 32 * r1 + 2048 * r2);
    DivModUnique(n, 8192, q3, r0 + 32 * r1 + 2048 * r2);
  }

  /** The reference frequency: 5800 MHz gives N = 2660 and the frame 21 4C 01 00. */
  lemma Vrx1FrameAt5800()
    ensures Vrx1Word(5800) == 2660
    ensures Vrx1Frame(5800) == [0x21, 0x4C, 0x01, 0x00]
  {
  }

  /** Every VRX1 catalog channel is tunable and its frame carries its whole tuning word. */
  lemma CatalogFrameExact(i: int)
    requires 0 <= i < |Vrx1Table|
    ensures Vrx1Table[i] >= 479 && Vrx1Word(Vrx1Table[i]) < 8192
    ensures Vrx1Decode(Vrx1Frame(Vrx1Table[i])) == Vrx1Word(Vrx1Table[i])
  {
    CatalogInBand(VRX1, i);
    Vrx1FrameFields(Vrx1Table[i]);
  }

  /** The three line levels of a 3-bit field, most significant bit first. */
  function FieldLevels(bits: nat): (levels: seq<int>)
    ensures |levels| == 3
    ensures forall k | 0 <= k < 3 :: levels[k] == 0 || levels[k] == 1
    ensures 4 * levels[0] + 2 * levels[1] + levels[2] == bits % 8
  {
    FieldBits(bits);
    [(bits / 4) % 2, (bits / 2) % 2, bits % 2]
  }

  /** Bits 2, 1 and 0 of a number, read most significant first, make up its remainder modulo 8. */
  lemma FieldBits(bits: nat)
    ensures (bits / 4) % 2 <= 1 && (bits / 2) % 2 <= 1 && bits % 2 <= 1
    ensures 4 * ((bits / 4) % 2) + 2 * ((bits / 2) % 2) + bits % 2 == bits % 8
  {
    var q, r := bits / 8, bits % 8;
    var a := if r >= 4 then 1 else 0;
    var b := if r - 4 * a >= 2 then 1 else 0;
    var c := r - 4 * a - 2 * b;
    assert bits == 8 * q + 4 * a + 2 * b + c;
    DivModUnique(bits, 4, 2 * q + a, 2 * b + c);
    DivModUnique(2 * q + a, 2, q, a);
    DivModUnique(bits, 2, 4 * q + 2 * a + b, c);
    DivModUnique(4 * q + 2 * a + b, 2, 2 * q + a, b);
  }

  /**
   * The six line writes of one address: the channel-select field on the CS
   * lines, then the band-select field on the S lines, each most significant
   * bit first.
   */
  function AddressWrites(csBits: nat, sBits: nat): (w: seq<HwEvent>)
    ensures |w| == 6
    ensures forall k | 0 <= k < 6 :: w[k].Line? && (w[k].level == 0 || w[k].level == 1)
    ensures [w[0].pin, w[1].pin, w[2].pin] == CsPins && [w[3].pin, w[4].pin, w[5].pin] == SPins
    ensures 4 * w[0].level + 2 * w[1].level + w[2].level == csBits % 8
    ensures 4 * w[3].level + 2 * w[4].level + w[5].level == sBits % 8
  {
    var cs := FieldLevels(csBits);
    var s := FieldLevels(sBits);
    [ Line(CsPins[0], cs[0]), Line(CsPins[1], cs[1]), Line(CsPins[2], cs[2]),
      Line(SPins[0], s[0]), Line(SPins[1], s[1]), Line(SPins[2], s[2]) ]
  }

  /**
   * The line writes that select VRX4 channel i: the levels, read back most
   * significant bit first, are i % 8 on the CS lines and i / 8 on the S lines.
   */
  function Vrx4Writes(i: int): (w: seq<HwEvent>)
    requires 0 <= i < ChannelCount(VRX4)
    ensures |w| == 6 && forall k | 0 <= k < 6 :: w[k].Line? && (w[k].level == 0 || w[k].level == 1)
    ensures [w[0].pin, w[1].pin, w[2].pin] == CsPins && [w[3].pin, w[4].pin, w[5].pin] == SPins
    ensures 4 * w[0].level + 2 * w[1].level + w[2].level == i % 8
    ensures 4 * w[3].level + 2 * w[4].level + w[5].level == i / 8
  {
    TableLengths();
    var e := Vrx4Table[i];
    Vrx4TableAddressing(i);
    ThreeBits(e.csBits);
    ThreeBits(e.sBits);
    AddressWrites(e.csBits, e.sBits)
  }

  /** A 3-bit value is its own remainder modulo 8. */
  lemma ThreeBits(x: nat)
    requires x < 8
    ensures x % 8 == x
  {
  }

  /**
   * What re-applying a receiver's stored channel drives: an SPI frame for
   * VRX1, the address lines for VRX4, and nothing for the button-tuned
   * receivers, which remember their own channel.
   */
  function ApplyWrites(id: ReceiverId, ch: int): (w: seq<HwEvent>)
    requires 0 <= ch < ChannelCount(id)
    ensures Quiet(w)
    ensures id == VRX1 ==> w == [Spi(Vrx1Frame(ChannelFreq(VRX1, ch)))]
    ensures id == VRX4 ==> w == Vrx4Writes(ch)
    ensures (id == VRX2 || id == VRX3) <==> w == []
  {
    match id
    case VRX1 => CatalogFrameExact(ch); [Spi(Vrx1Frame(Vrx1Table[ch]))]
    case VRX4 => Vrx4Writes(ch)
    case _ => []
  }

  /**
   * What one channel step drives once the new index is stored: the new
   * channel's frame or lines on VRX1 and VRX4, one press of the matching
   * control pin on VRX2 and VRX3.
   */
  function StepWrites(id: ReceiverId, ch: int, up: bool): (w: seq<HwEvent>)
    requires 0 <= ch < ChannelCount(id)
    ensures Quiet(w) && |w| >= 1
    ensures (id == VRX1 || id == VRX4) ==> w == ApplyWrites(id, ch)
    ensures (id == VRX2 || id == VRX3) ==> w == [Pulse(ControlPin(id, up))]
  {
    if id == VRX2 || id == VRX3 then [Pulse(ControlPin(id, up))] else ApplyWrites(id, ch)
  }

  /** Every frequency of a list can be sent to VRX1. */
  predicate AllTunable(freqs: seq<int>)
  {
    forall i | 0 <= i < |freqs| :: freqs[i] >= 479
  }

  /** Every VRX1 catalog frequency can be sent to VRX1. */
  lemma Vrx1Tunable()
    ensures AllTunable(Vrx1Table)
  {
    forall i | 0 <= i < |Vrx1Table|
      ensures Vrx1Table[i] >= 479
    {
      CatalogFrameExact(i);
    }
  }

  /** The frames of a sweep over the first k frequencies of a list, in order. */
  function SweepFrames(freqs: seq<int>, k: nat): (t: seq<HwEvent>)
    requires AllTunable(freqs) && k <= |freqs|
    ensures |t| == k && Quiet(t)
  {
    seq(k, (j: int) => if 0 <= j < k then Spi(Vrx1Frame(freqs[j])) else Spi([]))
  }

  /** One more frequency of a sweep appends that frequency's frame. */
  lemma SweepFramesStep(t: seq<HwEvent>, freqs: seq<int>, k: nat)
    requires AllTunable(freqs) && k < |freqs|
    ensures t + SweepFrames(freqs, k + 1) == t + SweepFrames(freqs, k) + [Spi(Vrx1Frame(freqs[k]))]
  {
    assert SweepFrames(freqs, k + 1) == SweepFrames(freqs, k) + [Spi(Vrx1Frame(freqs[k]))];
  }
}
