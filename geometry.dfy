/** Screen geometry read from the touch object at boot (mxt_read_t9_resolution,
    mxt_read_t100_config) and the byte pairs handed to the report descriptor. */
module Geometry {
  import opened Protocol

  /** A T9 range of 0 means the chip's default, 1023. */
  function T9DefaultRange(r: u16): (d: u16)
    ensures r == 0 ==> d == 1023
    ensures r != 0 ==> d == r
  {
    if r == 0 then 1023 else r
  }

  /** (max_x, max_y) of a T9 screen: each range plus one, kept in 16 bits,
      with the axes exchanged when the orientation's switch bit is set. */
  function T9Screen(rangeX: u16, rangeY: u16, orient: bv8): (r: (u16, u16))
    ensures rangeX < 0xffff && rangeY < 0xffff ==> 2 <= r.0 && 2 <= r.1
    ensures rangeX == 0 && rangeY == 0 ==> r == (1024, 1024)
  {
    var rx, ry := T9DefaultRange(rangeX), T9DefaultRange(rangeY);
    if orient & T9OrientSwitch != 0 then (Wrap16(ry + 1), Wrap16(rx + 1))
    else (Wrap16(rx + 1), Wrap16(ry + 1))
  }

  /** (max_x, max_y) of a T100 screen: each range plus one, kept in 16 bits,
      exchanged when the first configuration byte's switch bit is set. */
  function T100Screen(rangeX: u16, rangeY: u16, cfg: bv8): (r: (u16, u16))
    ensures rangeX < 0xffff && rangeY < 0xffff ==> 1 <= r.0 && 1 <= r.1
    ensures r.0 as int + r.1 as int == Wrap16(rangeX + 1) + Wrap16(rangeY + 1)
  {
    if cfg & T100CfgSwitchXY != 0 then (Wrap16(rangeY + 1), Wrap16(rangeX + 1))
    else (Wrap16(rangeX + 1), Wrap16(rangeY + 1))
  }

  function Swap(p: (u16, u16)): (u16, u16) { (p.1, p.0) }

  /** Only the switch bit of the orientation matters, and it exchanges the axes;
      an unswitched axis is its range plus one, a zero range counting as 1023. */
  lemma T9ScreenAxes(rangeX: u16, rangeY: u16, orient: bv8)
    ensures orient & T9OrientSwitch != 0 ==> T9Screen(rangeX, rangeY, orient) == Swap(T9Screen(rangeX, rangeY, 0))
    ensures orient & T9OrientSwitch == 0 ==> T9Screen(rangeX, rangeY, orient) == T9Screen(rangeX, rangeY, 0)
    ensures rangeX < 0xffff ==> T9Screen(rangeX, rangeY, 0).0 == (if rangeX == 0 then 1024 else rangeX + 1)
    ensures rangeY < 0xffff ==> T9Screen(rangeX, rangeY, 0).1 == (if rangeY == 0 then 1024 else rangeY + 1)
  {
  }

  /** The T100 counterpart: the switch bit exchanges the axes, and each axis is
      its range plus one (wrapping to 0 for a range of 0xffff). */
  lemma T100ScreenAxes(rangeX: u16, rangeY: u16, cfg: bv8)
    ensures cfg & T100CfgSwitchXY != 0 ==> T100Screen(rangeX, rangeY, cfg) == Swap(T100Screen(rangeX, rangeY, 0))
    ensures cfg & T100CfgSwitchXY == 0 ==> T100Screen(rangeX, rangeY, cfg) == T100Screen(rangeX, rangeY, 0)
    ensures T100Screen(rangeX, rangeY, 0).0 == (if rangeX == 0xffff then 0 else rangeX + 1)
    ensures T100Screen(rangeX, rangeY, 0).1 == (if rangeY == 0xffff then 0 else rangeY + 1)
  {
  }

  /** Offsets of the optional T100 auxiliary fields (vector, amplitude, area):
      the fields the TCHAUX byte enables get consecutive offsets from 6, in that
      order; a field it does not enable keeps its previous offset. */
  function T100AuxOffsets(tchaux: bv8, vect: u8, ampl: u8, area: u8): (r: (u8, u8, u8))
    ensures tchaux & T100TchAuxVect != 0 ==> r.0 == 6
    ensures tchaux & T100TchAuxVect == 0 ==> r.0 == vect
    ensures tchaux & T100TchAuxAmpl != 0 ==> r.1 == 6 + (if tchaux & T100TchAuxVect != 0 then 1 else 0)
    ensures tchaux & T100TchAuxAmpl == 0 ==> r.1 == ampl
    ensures tchaux & T100TchAuxArea != 0 ==>
              r.2 == 6 + (if tchaux & T100TchAuxVect != 0 then 1 else 0)
                       + (if tchaux & T100TchAuxAmpl != 0 then 1 else 0)
    ensures tchaux & T100TchAuxArea == 0 ==> r.2 == area
  {
    var aux := 6;
    var v := if tchaux & T100TchAuxVect != 0 then aux else vect;
    var aux1 := if tchaux & T100TchAuxVect != 0 then aux + 1 else aux;
    var a := if tchaux & T100TchAuxAmpl != 0 then aux1 else ampl;
    var aux2 := if tchaux & T100TchAuxAmpl != 0 then aux1 + 1 else aux1;
    var ar := if tchaux & T100TchAuxArea != 0 then aux2 else area;
    (v, a, ar)
  }

  /** The byte pair cached for the report descriptor is max_x (or max_y) in
      little-endian order, and reassembles to it. */
  lemma HidBytesReassemble(v: u16)
    ensures LeBytes(v).0 == v % 0x100 && LeBytes(v).1 == v / 0x100
    ensures LeBytes(v).0 + 0x100 * LeBytes(v).1 == v
  {
  }
}
