/**
 * The static receiver catalog of the controller: the four receivers in
 * declaration order, their channel tables and the pins each one is wired to.
 * The catalog is built once and never changes.
 */
module Catalog {
  import opened Wrappers

  /** The four receivers, keys of the configuration dictionary. */
  datatype ReceiverId = VRX1 | VRX2 | VRX3 | VRX4

  /** Declaration order of the configuration dictionary (its key order). */
  const Order: seq<ReceiverId> := [VRX1, VRX2, VRX3, VRX4]

  /** The receiver's key as it appears in commands and status lines. */
  function IdName(id: ReceiverId): (s: string)
    ensures |s| == 4 && s[..3] == "VRX"
  {
    match id
    case VRX1 => "VRX1"
    case VRX2 => "VRX2"
    case VRX3 => "VRX3"
    case VRX4 => "VRX4"
  }

  /** Dictionary membership of a key: `name in VRX_CONFIG`. */
  function ParseId(name: string): (r: Option<ReceiverId>)
    ensures r.Some? ==> IdName(r.value) == name
    ensures r.None? ==> forall id :: IdName(id) != name
  {
    if name == "VRX1" then Some(VRX1)
    else if name == "VRX2" then Some(VRX2)
    else if name == "VRX3" then Some(VRX3)
    else if name == "VRX4" then Some(VRX4)
    else None
  }

  /** Position of a receiver in declaration order (`list.index`). */
  function IndexOf(id: ReceiverId): (i: nat)
    ensures i < |Order| && Order[i] == id
  {
    match id
    case VRX1 => 0
    case VRX2 => 1
    case VRX3 => 2
    case VRX4 => 3
  }

  /**
   * A channel descriptor: a bare frequency in MHz (VRX1 to VRX3), or a
   * frequency with the two 3-bit address fields of VRX4.
   */
  datatype ChannelEntry = Flat(mhz: int) | Addressed(mhz: int, csBits: nat, sBits: nat)

  /** VRX1 (5.8 GHz, RX5808-style): 96 channels, twelve bands of eight. */
  const Vrx1Table: seq<int> :=
    BandA + BandB + BandE + BandF + BandR + BandP
    + BandL + BandU + BandO + BandH + BandT + BandN

  const BandA: seq<int> := [5474, 5492, 5510, 5528, 5546, 5564, 5582, 5600]
  const BandB: seq<int> := [5362, 5399, 5436, 5473, 5500, 5547, 5584, 5621]
  const BandE: seq<int> := [5300, 5348, 5366, 5384, 5400, 5420, 5438, 5456]
  const BandF: seq<int> := [5129, 5159, 5189, 5219, 5249, 5279, 5309, 5339]
  const BandR: seq<int> := [4990, 5020, 5050, 5080, 5110, 5150, 5170, 5200]
  const BandP: seq<int> := [5333, 5373, 5413, 5453, 5493, 5533, 5573, 5613]
  const BandL: seq<int> := [4875, 4884, 4900, 4858, 4995, 5032, 5069, 5099]
  const BandU: seq<int> := [5960, 5980, 6000, 6020, 6030, 6040, 6050, 6060]
  const BandO: seq<int> := [5865, 5845, 5825, 5805, 5785, 5765, 5745, 5735]
  const BandH: seq<int> := [5733, 5752, 5771, 5790, 5809, 5828, 5847, 5866]
  const BandT: seq<int> := [5705, 5685, 5665, 5645, 5885, 5905, 5925, 5945]
  const BandN: seq<int> := [5740, 5760, 5780, 5800, 5820, 5840, 5860, 5880]

  /** VRX2 (1.2 GHz, tuned by button emulation): 13 channels. */
  const Vrx2Table: seq<int> := [
      1010, 1040, 1080, 1120, 1160, 1200, 1240,
      1280, 1320, 1360, 1258, 1100, 1140
    ]

  /** VRX3 (1.5 GHz, tuned by button emulation): 12 channels. */
  const Vrx3Table: seq<int> := [
      1405, 1430, 1455, 1480, 1505, 1530, 1555,
      1580, 1605, 1630, 1655, 1680
    ]

  /** VRX4 (3.3 GHz, parallel address lines): 64 channels in eight bands FR1..FR8. */
  const Vrx4Table: seq<ChannelEntry> := Fr1 + Fr2 + Fr3 + Fr4 + Fr5 + Fr6 + Fr7 + Fr8

  const Fr1: seq<ChannelEntry> := [
      Addressed(3360, 0, 0), Addressed(3380, 1, 0), Addressed(3400, 2, 0), Addressed(3420, 3, 0),
      Addressed(3440, 4, 0), Addressed(3460, 5, 0), Addressed(3480, 6, 0), Addressed(3500, 7, 0)
    ]
  const Fr2: seq<ChannelEntry> := [
      Addressed(3200, 0, 1), Addressed(3220, 1, 1), Addressed(3240, 2, 1), Addressed(3260, 3, 1),
      Addressed(3280, 4, 1), Addressed(3300, 5, 1), Addressed(3320, 6, 1), Addressed(3340, 7, 1)
    ]
  const Fr3: seq<ChannelEntry> := [
      Addressed(3330, 0, 2), Addressed(3350, 1, 2), Addressed(3370, 2, 2), Addressed(3390, 3, 2),
      Addressed(3410, 4, 2), Addressed(3430, 5, 2), Addressed(3450, 6, 2), Addressed(3470, 7, 2)
    ]
  const Fr4: seq<ChannelEntry> := [
      Addressed(3170, 0, 3), Addressed(3190, 1, 3), Addressed(3210, 2, 3), Addressed(3230, 3, 3),
      Addressed(3250, 4, 3), Addressed(3270, 5, 3), Addressed(3290, 6, 3), Addressed(3310, 7, 3)
    ]
  const Fr5: seq<ChannelEntry> := [
      Addressed(3320, 0, 4), Addressed(3345, 1, 4), Addressed(3370, 2, 4), Addressed(3395, 3, 4),
      Addressed(3420, 4, 4), Addressed(3445, 5, 4), Addressed(3470, 6, 4), Addressed(3495, 7, 4)
    ]
  const Fr6: seq<ChannelEntry> := [
      Addressed(3310, 0, 5), Addressed(3330, 1, 5), Addressed(3355, 2, 5), Addressed(3380, 3, 5),
      Addressed(3405, 4, 5), Addressed(3430, 5, 5), Addressed(3455, 6, 5), Addressed(3480, 7, 5)
    ]
  const Fr7: seq<ChannelEntry> := [
      Addressed(3220, 0, 6), Addressed(3240, 1, 6), Addressed(3260, 2, 6), Addressed(3280, 3, 6),
      Addressed(3300, 4, 6), Addressed(3320, 5, 6), Addressed(3340, 6, 6), Addressed(3360, 7, 6)
    ]
  const Fr8: seq<ChannelEntry> := [
      Addressed(3060, 0, 7), Addressed(3080, 1, 7), Addressed(3100, 2, 7), Addressed(3120, 3, 7),
      Addressed(3140, 4, 7), Addressed(3160, 5, 7), Addressed(3180, 6, 7), Addressed(3200, 7, 7)
    ]

  /** Length of a receiver's channel list (TableLengths ties it to the lists). */
  function ChannelCount(id: ReceiverId): (n: nat)
    ensures n > 0
  {
    match id
    case VRX1 => 96
    case VRX2 => 13
    case VRX3 => 12
    case VRX4 => 64
  }

  /** The channel counts are the lengths of the channel lists. */
  lemma TableLengths()
    ensures |Vrx1Table| == ChannelCount(VRX1) && |Vrx2Table| == ChannelCount(VRX2)
    ensures |Vrx3Table| == ChannelCount(VRX3) && |Vrx4Table| == ChannelCount(VRX4)
  {
  }

  /** The catalog entry at a channel index; out-of-range indices are a programming error. */
  function Entry(id: ReceiverId, i: int): ChannelEntry
    requires 0 <= i < ChannelCount(id)
  {
    TableLengths();
    match id
    case VRX1 => Flat(Vrx1Table[i])
    case VRX2 => Flat(Vrx2Table[i])
    case VRX3 => Flat(Vrx3Table[i])
    case VRX4 => Vrx4Table[i]
  }

  /** Lowest and highest catalog frequency of each receiver, in MHz. */
  function Band(id: ReceiverId): (int, int)
  {
    match id
    case VRX1 => (4858, 6060)
    case VRX2 => (1010, 1360)
    case VRX3 => (1405, 1680)
    case VRX4 => (3060, 3500)
  }

  /**
   * The frequency of a channel, read out of either form of entry
   * (a bare number or the first component of an address tuple).
   */
  function ChannelFreq(id: ReceiverId, i: int): (mhz: int)
    requires 0 <= i < ChannelCount(id)
    ensures Band(id).0 <= mhz <= Band(id).1
    ensures id == VRX1 ==> mhz == Vrx1Table[i]
    ensures id == VRX2 ==> mhz == Vrx2Table[i]
    ensures id == VRX3 ==> mhz == Vrx3Table[i]
    ensures id == VRX4 ==> mhz == Vrx4Table[i].mhz
  {
    CatalogInBand(id, i);
    match Entry(id, i)
    case Flat(f) => f
    case Addressed(f, _, _) => f
  }

  /** Every frequency of a table lies in [lo, hi]. */
  ghost predicate AllInBand(t: seq<int>, lo: int, hi: int)
  {
    forall j | 0 <= j < |t| :: lo <= t[j] <= hi
  }

  lemma ConcatInBand(a: seq<int>, b: seq<int>, lo: int, hi: int)
    requires AllInBand(a, lo, hi) && AllInBand(b, lo, hi)
    ensures AllInBand(a + b, lo, hi)
  {
    forall j | 0 <= j < |a + b| ensures lo <= (a + b)[j] <= hi {
      if j >= |a| { assert (a + b)[j] == b[j - |a|]; }
    }
  }

  lemma Vrx1InBand()
    ensures AllInBand(Vrx1Table, 4858, 6060)
  {
    assert AllInBand(BandA, 4858, 6060);
    assert AllInBand(BandB, 4858, 6060);
    ConcatInBand(BandA, BandB, 4858, 6060);
    assert AllInBand(BandE, 4858, 6060);
    ConcatInBand(BandA + BandB, BandE, 4858, 6060);
    assert AllInBand(BandF, 4858, 6060);
    ConcatInBand(BandA + BandB + BandE, BandF, 4858, 6060);
    assert AllInBand(BandR, 4858, 6060);
    ConcatInBand(BandA + BandB + BandE + BandF, BandR, 4858, 6060);
    assert AllInBand(BandP, 4858, 6060);
    ConcatInBand(BandA + BandB + BandE + BandF + BandR, BandP, 4858, 6060);
    assert AllInBand(BandL, 4858, 6060);
    ConcatInBand(BandA + BandB + BandE + BandF + BandR + BandP, BandL, 4858, 6060);
    assert AllInBand(BandU, 4858, 6060);
    ConcatInBand(BandA + BandB + BandE + BandF + BandR + BandP + BandL, BandU, 4858, 6060);
    assert AllInBand(BandO, 4858, 6060);
    ConcatInBand(BandA + BandB + BandE + BandF + BandR + BandP + BandL + BandU, BandO, 4858, 6060);
    assert AllInBand(BandH, 4858, 6060);
    ConcatInBand(BandA + BandB + BandE + BandF + BandR + BandP + BandL + BandU + BandO, BandH, 4858, 6060);
    assert AllInBand(BandT, 4858, 6060);
    ConcatInBand(BandA + BandB + BandE + BandF + BandR + BandP + BandL + BandU + BandO + BandH, BandT, 4858, 6060);
    assert AllInBand(BandN, 4858, 6060);
    ConcatInBand(BandA + BandB + BandE + BandF + BandR + BandP + BandL + BandU + BandO + BandH + BandT, BandN, 4858, 6060);
  }

  /** Every catalog frequency of a receiver lies in its band's range. */
  lemma CatalogInBand(id: ReceiverId, i: int)
    requires 0 <= i < ChannelCount(id)
    ensures Band(id).0 <= Entry(id, i).mhz <= Band(id).1
  {
    match id
    case VRX1 => Vrx1InBand();
    case VRX2 =>
    case VRX3 =>
    case VRX4 => Vrx4TableAddressing(i);
  }

  /** Entry j of a run of whole bands addresses channel j % 8 of band j / 8. */
  ghost predicate AddressedBands(t: seq<ChannelEntry>)
  {
    forall j | 0 <= j < |t| ::
      && t[j].Addressed?
      && t[j].csBits == j % 8 && t[j].sBits == j / 8
      && 3060 <= t[j].mhz <= 3500
  }

  /** Band k, when its entries are channels 0..7 of band k. */
  ghost predicate AddressedBand(band: seq<ChannelEntry>, k: nat)
  {
    && |band| == 8
    && forall j | 0 <= j < 8 ::
         band[j].Addressed? && band[j].csBits == j && band[j].sBits == k && 3060 <= band[j].mhz <= 3500
  }

  lemma AppendBand(t: seq<ChannelEntry>, band: seq<ChannelEntry>, k: nat)
    requires AddressedBands(t) && |t| == 8 * k && AddressedBand(band, k)
    ensures AddressedBands(t + band)
  {
  }

  /** In the VRX4 table, entry i addresses channel i % 8 of band i / 8. */
  lemma Vrx4TableAddressing(i: int)
    requires 0 <= i < |Vrx4Table|
    ensures Vrx4Table[i].Addressed?
    ensures Vrx4Table[i].csBits == i % 8 && Vrx4Table[i].sBits == i / 8
    ensures 3060 <= Vrx4Table[i].mhz <= 3500
    ensures |Vrx4Table| == 64 && Vrx4Table[i].csBits < 8 && Vrx4Table[i].sBits < 8
  {
    assert AddressedBands([]);
    assert AddressedBand(Fr1, 0);
    AppendBand([], Fr1, 0);
    assert [] + Fr1 == Fr1;
    assert AddressedBand(Fr2, 1);
    AppendBand(Fr1, Fr2, 1);
    assert AddressedBand(Fr3, 2);
    AppendBand(Fr1 + Fr2, Fr3, 2);
    assert AddressedBand(Fr4, 3);
    AppendBand(Fr1 + Fr2 + Fr3, Fr4, 3);
    assert AddressedBand(Fr5, 4);
    AppendBand(Fr1 + Fr2 + Fr3 + Fr4, Fr5, 4);
    assert AddressedBand(Fr6, 5);
    AppendBand(Fr1 + Fr2 + Fr3 + Fr4 + Fr5, Fr6, 5);
    assert AddressedBand(Fr7, 6);
    AppendBand(Fr1 + Fr2 + Fr3 + Fr4 + Fr5 + Fr6, Fr7, 6);
    assert AddressedBand(Fr8, 7);
    AppendBand(Fr1 + Fr2 + Fr3 + Fr4 + Fr5 + Fr6 + Fr7, Fr8, 7);
  }

  /** VRX4's three channel-select and three band-select lines, most significant bit first. */
  const CsPins: seq<int> := [5, 6, 12]
  const SPins: seq<int> := [13, 16, 17]

  /** The button-emulation pin of VRX2 or VRX3 for one step up or down. */
  function ControlPin(id: ReceiverId, up: bool): int
    requires id == VRX2 || id == VRX3
  {
    if id == VRX2 then (if up then 19 else 26)
    else (if up then 21 else 20)
  }
}
