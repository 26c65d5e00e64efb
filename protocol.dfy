/** Fixed widths, byte helpers and the named constants of the maXTouch object
    protocol that the driver uses. */
module Protocol {

  /** C `uint8_t` and `uint16_t` as bounded integers. */
  type u8 = x: int | 0 <= x < 0x100
  type u16 = x: int | 0 <= x < 0x1_0000

  datatype Option<T> = None | Some(value: T)

  /** Storing an `int` into a `uint8_t` / `uint16_t` keeps it modulo 2^8 / 2^16. */
  function Wrap8(x: int): u8 { x % 0x100 }
  function Wrap16(x: int): u16 { x % 0x1_0000 }

  function Min(a: int, b: int): int { if a <= b then a else b }

  /** A byte value survives the trip through `bv8` and back. The solver finds
      this unevenly over the whole byte range, so the proof halves the range
      down to sixteen-value blocks. */
  lemma ByteRoundTrip(x: u8)
    ensures (x as bv8) as int == x
  {
    if x < 0x80 {
      if x < 0x40 {
        if x < 0x20 { if x < 0x10 { } else { } } else { if x < 0x30 { } else { } }
      } else {
        if x < 0x60 { if x < 0x50 { } else { } } else { if x < 0x70 { } else { } }
      }
    } else {
      if x < 0xc0 {
        if x < 0xa0 { if x < 0x90 { } else { } } else { if x < 0xb0 { } else { } }
      } else {
        if x < 0xe0 { if x < 0xd0 { } else { } } else { if x < 0xf0 { } else { } }
      }
    }
  }

  /** A `bv8` survives the trip through an integer and back. */
  lemma BitsRoundTrip(x: bv8)
    ensures (x as int) as bv8 == x
  {
    ByteRoundTrip(x as int);
  }

  /** A little-endian 16-bit field made of two bytes. */
  function Le16(lo: bv8, hi: bv8): (r: u16)
    ensures r % 0x100 == lo as int && r / 0x100 == hi as int
  {
    hi as int * 0x100 + lo as int
  }

  /** The two bytes of a 16-bit value on a little-endian host, low byte first. */
  function LeBytes(v: u16): (b: (u8, u8))
    ensures Le16(b.0 as bv8, b.1 as bv8) == v
  {
    ByteRoundTrip(v % 0x100);
    ByteRoundTrip(v / 0x100);
    (v % 0x100, v / 0x100)
  }

  /** `n` bytes of 0xff: the sentinel filling of a message buffer. */
  function Fill(n: nat): (s: seq<bv8>)
    ensures |s| == n && forall i :: 0 <= i < n ==> s[i] == 0xff
  {
    seq(n, _ => 0xff)
  }

  /** What a transfer of exactly `size` bytes delivers of a record `m`: its first
      `size` bytes, or all of it followed by 0xff filling. */
  function Frame(m: seq<bv8>, size: nat): (r: seq<bv8>)
    ensures |r| == size
    ensures forall i :: 0 <= i < size && i < |m| ==> r[i] == m[i]
    ensures forall i :: |m| <= i < size ==> r[i] == 0xff
  {
    if |m| >= size then m[..size] else m + Fill(size - |m|)
  }

  // Object types of the maXTouch object table.
  const GenMessageT5: u8 := 5
  const GenCommandT6: u8 := 6
  const GenPowerT7: u8 := 7
  const TouchMultiT9: u8 := 9
  const SptGpioPwmT19: u8 := 19
  const SptMessageCountT44: u8 := 44
  const TouchMultiTouchScreenT100: u8 := 100
  /** The message processor and the command processor are the T5 and T6 objects. */
  const GenMessageProcessor: u8 := 5
  const GenCommandProcessor: u8 := 6

  // Status bits of a T9 touch message (the same bits the older driver calls MXT_MSGF_*).
  const T9Detect: bv8 := 0x80
  const T9Press: bv8 := 0x40
  const T9Release: bv8 := 0x20
  // Detect bit of a T100 touch message.
  const T100Detect: bv8 := 0x80

  // Configuration bits and register offsets read at boot.
  const T9OrientSwitch: bv8 := 0x01
  const T100CfgSwitchXY: bv8 := 0x20
  const T100TchAuxVect: bv8 := 0x02
  const T100TchAuxAmpl: bv8 := 0x04
  const T100TchAuxArea: bv8 := 0x08
  const T9XSizeOffset: nat := 3
  const T9YSizeOffset: nat := 4
  const T9CtrlOffset: nat := 0
  const T9OrientOffset: nat := 9
  const T9RangeOffset: nat := 18
  const T100Cfg1Offset: nat := 1
  const T100TchAuxOffset: nat := 3
  const T100XRangeOffset: nat := 13
  const T100YRangeOffset: nat := 24
  const CmdProcResetOffset: nat := 0

  /** Size of the information block at address 0, of one object-table entry,
      and of the trailing CRC of the configuration space. */
  const InfoBlockSize: nat := 7
  const ObjectEntrySize: nat := 6
  const RawCrcSize: nat := 3

  // The externally visible multitouch report.
  const ReportIdMTouch: u8 := 1
  const TipSwitchBit: bv8 := 1
  const ConfidenceBit: bv8 := 2
  /** In-range bit of the older driver's report. */
  const InRangeBit: bv8 := 4
  const MaxContacts: nat := 10
  const SlotCount: nat := 20

  /** The report id that marks "no message". */
  const InvalidReportId: bv8 := 0xff

  /** The "active" power configuration written on resume (cycle times in ms). */
  const T7ActiveCycle: u8 := 20
  const T7IdleCycle: u8 := 100
}
