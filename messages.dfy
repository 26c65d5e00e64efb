/** The message decoder (the decode half of AtmelProcessMessage in atmel.cpp
    and of OnInterruptIsr in atmel.c) and the contact tracker that writes a
    decoded touch into the 20-entry slot table. */
module Messages {
  import opened Protocol
  import opened Scan

  /** One contact slot: the four per-slot arrays of the device context. */
  datatype Slot = Slot(flags: bv8, x: bv16, y: bv16, area: bv16)

  /** What a message means for the tracker. */
  datatype Event =
    | NoEvent
    | StatusMessage(status: bv8)
    | Touch(slot: nat, flags: bv8, x: bv16, y: bv16, area: bv16)

  /** Every message the decoder looks at is at least this long: it reads bytes 0
      to 6 of a T9 message (byte 6, the amplitude, is read and not used). */
  const MinMessageSize: nat := 7

  /** The 12-bit X of a T9 message: byte 2 is the high byte, the upper nibble of
      byte 4 the low bits. */
  function RawT9X(m: seq<bv8>): (x: bv16)
    requires |m| >= MinMessageSize
    ensures x < 0x1000
  {
    ((m[2] as bv16) << 4) | ((m[4] as bv16 >> 4) & 0xf)
  }

  /** The 12-bit Y of a T9 message: byte 3 is the high byte, the lower nibble of
      byte 4 the low bits. */
  function RawT9Y(m: seq<bv8>): (y: bv16)
    requires |m| >= MinMessageSize
    ensures y < 0x1000
  {
    ((m[3] as bv16) << 4) | (m[4] as bv16 & 0xf)
  }

  /** The 10/12-bit switch: an axis whose maximum is below 1024 reports 10 bits. */
  function ScaleT9(raw: bv16, max: u16): (v: bv16)
    requires raw < 0x1000
    ensures max < 1024 ==> v == raw >> 2 && v < 0x400
    ensures max >= 1024 ==> v == raw
  {
    if max < 1024 then raw >> 2 else raw
  }

  /** A little-endian 16-bit coordinate of a T100 message at byte `at`. */
  function T100Coordinate(m: seq<bv8>, at: nat): (v: bv16)
    requires at + 1 < |m|
    ensures v & 0xff == m[at] as bv16 && v >> 8 == m[at + 1] as bv16
  {
    ((m[at + 1] as bv16) << 8) | (m[at] as bv16)
  }

  /** T100 has no release bit: a message without detect for a slot that held
      detect becomes a synthetic T9 release. */
  function T100Flags(msgFlags: bv8, previous: bv8): (f: bv8)
    ensures msgFlags & T100Detect != 0 ==> f == T9Detect
    ensures msgFlags & T100Detect == 0 && previous & T100Detect != 0 ==> f == T9Release
    ensures msgFlags & T100Detect == 0 && previous & T100Detect == 0 ==> f == 0
  {
    if msgFlags & T100Detect != 0 then T9Detect
    else if previous & T100Detect != 0 then T9Release
    else 0
  }

  /** The T9 report-id range; a member fits the report-id byte. */
  function InT9Range(p: Profile, id: int): (r: bool)
    ensures r ==> 0 <= id < 0x100
    ensures p.t9ReportIdMax < p.t9ReportIdMin ==> !r
  {
    p.t9ReportIdMin <= id <= p.t9ReportIdMax
  }

  /** The T100 report-id range; a member fits the report-id byte. */
  function InT100Range(p: Profile, id: int): (r: bool)
    ensures r ==> 0 <= id < 0x100
    ensures p.t100ReportIdMax < p.t100ReportIdMin ==> !r
  {
    p.t100ReportIdMin <= id <= p.t100ReportIdMax
  }

  /** The slot a T100 report id maps to: its first two ids are reserved. */
  function T100Slot(p: Profile, id: int): (s: int)
    ensures s >= 0 <==> id >= p.t100ReportIdMin + 2
    ensures InT100Range(p, id) ==> -2 <= s <= p.t100ReportIdMax - p.t100ReportIdMin - 2
  {
    id - p.t100ReportIdMin - 2
  }

  /** The decoder writes the slot table only inside its 20 entries. The source
      does not check this: a T9 report id of 20 or more, or a T100 report id
      more than 21 past the range start, indexes past the arrays. Callers must
      not hand such messages in. */
  predicate SafeId(p: Profile, id: bv8)
  {
    var n := id as int;
    id == InvalidReportId || n == p.t6ReportId ||
    (if InT9Range(p, n) then n < SlotCount
     else if InT100Range(p, n) then T100Slot(p, n) < SlotCount
     else true)
  }

  /** The slot a message writes, if any. */
  function Target(p: Profile, id: bv8): (r: Option<nat>)
  {
    var n := id as int;
    if id == InvalidReportId || n == p.t6ReportId then None
    else if InT9Range(p, n) then Some(n)
    else if InT100Range(p, n) && T100Slot(p, n) >= 0 then Some(T100Slot(p, n))
    else None
  }

  /** Classify a message by its report id and decode it; the T100 case consults
      the slot's previous flags. */
  function Decode(p: Profile, m: seq<bv8>, slots: seq<Slot>): (e: Event)
    requires |m| >= MinMessageSize && |slots| == SlotCount && SafeId(p, m[0])
    ensures m[0] == InvalidReportId ==> e == NoEvent
    ensures e.Touch? <==> Target(p, m[0]).Some?
    ensures e.Touch? ==> e.slot == Target(p, m[0]).value < SlotCount
    ensures e.Touch? && InT9Range(p, m[0] as int) && m[0] as int != p.t6ReportId ==>
              e.flags == m[1] && e.area == m[5] as bv16 && e.x < 0x1000 && e.y < 0x1000
    ensures e.Touch? && !InT9Range(p, m[0] as int) && m[0] as int != p.t6ReportId ==>
              InT100Range(p, m[0] as int)
              && e.flags == T100Flags(m[1], slots[e.slot].flags) && e.area == 10
              && e.x == T100Coordinate(m, 2) && e.y == T100Coordinate(m, 4)
  {
    var id := m[0] as int;
    if m[0] == InvalidReportId then NoEvent
    else if id == p.t6ReportId then StatusMessage(m[1])
    else if InT9Range(p, id) then
      Touch(id, m[1], ScaleT9(RawT9X(m), p.maxX), ScaleT9(RawT9Y(m), p.maxY), m[5] as bv16)
    else if InT100Range(p, id) then
      var s := T100Slot(p, id);
      if s >= 0 then
        Touch(s, T100Flags(m[1], slots[s].flags), T100Coordinate(m, 2), T100Coordinate(m, 4), 10)
      else NoEvent
    else NoEvent
  }

  /** The tracker: a touch overwrites its slot, every other slot is kept. */
  function Track(slots: seq<Slot>, e: Event): (r: seq<Slot>)
    requires |slots| == SlotCount
    requires e.Touch? ==> e.slot < SlotCount
    ensures |r| == SlotCount
    ensures e.Touch? ==> r[e.slot] == Slot(e.flags, e.x, e.y, e.area)
    ensures forall k :: 0 <= k < SlotCount && !(e.Touch? && e.slot == k) ==> r[k] == slots[k]
  {
    if e.Touch? then slots[e.slot := Slot(e.flags, e.x, e.y, e.area)] else slots
  }

  /** The three position bytes (bytes 2 to 4) of a T9 message for 12-bit
      coordinates `x` and `y`, as the chip lays them out. */
  function PackT9Position(x: bv16, y: bv16): (b: seq<bv8>)
    requires x < 0x1000 && y < 0x1000
    ensures |b| == 3
  {
    [(x >> 4) as bv8, (y >> 4) as bv8, (((x & 0xf) << 4) | (y & 0xf)) as bv8]
  }

  /** Decoding a T9 position recovers the 12-bit coordinates the chip packed. */
  lemma T9PositionRoundTrip(id: bv8, flags: bv8, x: bv16, y: bv16, area: bv8, ampl: bv8)
    requires x < 0x1000 && y < 0x1000
    ensures var m := [id, flags] + PackT9Position(x, y) + [area, ampl];
      RawT9X(m) == x && RawT9Y(m) == y
  {
    var m := [id, flags] + PackT9Position(x, y) + [area, ampl];
    assert m[2] == (x >> 4) as bv8 && m[3] == (y >> 4) as bv8;
    assert m[4] == (((x & 0xf) << 4) | (y & 0xf)) as bv8;
  }

  /** The little-endian bytes of a 16-bit coordinate. */
  function PackLe16(v: bv16): (b: seq<bv8>)
    ensures |b| == 2
  {
    [(v & 0xff) as bv8, (v >> 8) as bv8]
  }

  /** Decoding a T100 coordinate recovers the 16-bit value the chip sent. */
  lemma T100CoordinateRoundTrip(head: seq<bv8>, v: bv16, tail: seq<bv8>)
    ensures T100Coordinate(head + PackLe16(v) + tail, |head|) == v
  {
    var m := head + PackLe16(v) + tail;
    assert m[|head|] == (v & 0xff) as bv8 && m[|head| + 1] == (v >> 8) as bv8;
  }

  /** A T9 screen narrower than 1024 gets 10-bit coordinates: the decoded X is
      the 12-bit field shifted right by 2, and a wider one gets the field as is. */
  lemma T9TenBitScaling(p: Profile, m: seq<bv8>, slots: seq<Slot>)
    requires |m| >= MinMessageSize && |slots| == SlotCount && SafeId(p, m[0])
    requires m[0] != InvalidReportId && m[0] as int != p.t6ReportId && InT9Range(p, m[0] as int)
    ensures p.maxX < 1024 ==> Decode(p, m, slots).x == RawT9X(m) >> 2
    ensures p.maxX >= 1024 ==> Decode(p, m, slots).x == RawT9X(m)
    ensures p.maxY < 1024 ==> Decode(p, m, slots).y == RawT9Y(m) >> 2
    ensures p.maxY >= 1024 ==> Decode(p, m, slots).y == RawT9Y(m)
  {
  }

  /** T100 release is inferred: a detect followed by a message without detect
      for the same slot leaves the slot marked released, with the new position. */
  lemma {:induction false} T100SyntheticRelease(p: Profile, down: seq<bv8>, up: seq<bv8>, slots: seq<Slot>)
    requires |down| >= MinMessageSize && |up| >= MinMessageSize && |slots| == SlotCount
    requires down[0] == up[0] && SafeId(p, down[0])
    requires down[0] != InvalidReportId && down[0] as int != p.t6ReportId
    requires !InT9Range(p, down[0] as int) && InT100Range(p, down[0] as int)
    requires T100Slot(p, down[0] as int) >= 0
    requires down[1] & T100Detect != 0 && up[1] & T100Detect == 0
    ensures var s := T100Slot(p, down[0] as int);
      var after := Track(slots, Decode(p, down, slots));
      after[s].flags == T9Detect
      && Track(after, Decode(p, up, after))[s]
         == Slot(T9Release, T100Coordinate(up, 2), T100Coordinate(up, 4), 10)
  {
    var s := T100Slot(p, down[0] as int);
    var after := Track(slots, Decode(p, down, slots));
    assert after[s].flags == T9Detect;
    assert T9Detect & T100Detect != 0;
  }
}
