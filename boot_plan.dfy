/** What BOOTTOUCHSCREEN reads from the chip's configuration space and caches
    in the device context, as functions of the register memory: the
    information block, the object table, the scanned profile, the screen
    geometry of the touch object, the byte pairs for the report descriptor,
    and the register writes of the reset and of the resume branch. The methods
    of Driver.Device are proved to do what these describe. */
module BootPlan {
  import opened Protocol
  import opened ObjectTable
  import opened Scan
  import opened Geometry
  import opened Messages
  import opened Bus
  import opened Batches

  /** The information block at address 0. */
  function ConfigInfo(regs: seq<bv8>): IdInfo
  {
    ParseInfo(Peek(regs, 0, InfoBlockSize))
  }

  /** The bytes of the second read at address 0: the information block, one
      entry per object and the three CRC bytes. */
  function ConfigBlock(regs: seq<bv8>): (b: seq<bv8>)
    ensures |b| == InfoBlockSize + ObjectEntrySize * ConfigInfo(regs).numObjects + RawCrcSize
  {
    Peek(regs, 0, InfoBlockSize + ObjectEntrySize * ConfigInfo(regs).numObjects + RawCrcSize)
  }

  /** The object table: the entries that follow the information block. */
  function ConfigObjects(regs: seq<bv8>): (objs: seq<ObjectEntry>)
    ensures |objs| == ConfigInfo(regs).numObjects
  {
    ParseTable(ConfigBlock(regs)[InfoBlockSize..], ConfigInfo(regs).numObjects)
  }

  /** A little-endian 16-bit register pair. */
  function Reg16(regs: seq<bv8>, address: u16): u16
  {
    var b := Peek(regs, address, 2);
    Le16(b[0], b[1])
  }

  /** A one-byte register. */
  function Reg8(regs: seq<bv8>, address: u16): bv8
  {
    Peek(regs, address, 1)[0]
  }

  /** The register `offset` bytes into object `o`; the sum is kept in 16 bits
      as the `uint16_t` register number is. */
  function ObjectReg(o: ObjectEntry, offset: nat): u16
  {
    Wrap16(o.startAddress + offset)
  }

  /** mxt_read_t9_resolution: the range pair (x then y, little-endian, the
      field order of the protocol's `struct t9_range`) and the orientation byte
      of the T9 object give max_x and max_y. */
  function T9Geometry(p: Profile, o: ObjectEntry, regs: seq<bv8>): (r: Profile)
    ensures r.(maxX := p.maxX, maxY := p.maxY) == p
    ensures var range := Peek(regs, ObjectReg(o, T9RangeOffset), 4);
      Reg8(regs, ObjectReg(o, T9OrientOffset)) & T9OrientSwitch == 0 && range == [0, 0, 0, 0] ==> r.maxX == 1024 && r.maxY == 1024
  {
    var range := Peek(regs, ObjectReg(o, T9RangeOffset), 4);
    var screen := T9Screen(Le16(range[0], range[1]), Le16(range[2], range[3]), Reg8(regs, ObjectReg(o, T9OrientOffset)));
    p.(maxX := screen.0, maxY := screen.1)
  }

  /** mxt_read_t100_config: the X and Y ranges and the first configuration
      byte give max_x and max_y; the TCHAUX byte places the auxiliary fields. */
  function T100Geometry(p: Profile, o: ObjectEntry, regs: seq<bv8>): (r: Profile)
    ensures r.(maxX := p.maxX, maxY := p.maxY, t100AuxVect := p.t100AuxVect, t100AuxAmpl := p.t100AuxAmpl,
               t100AuxArea := p.t100AuxArea) == p
    ensures Reg8(regs, ObjectReg(o, T100TchAuxOffset)) & (T100TchAuxVect | T100TchAuxAmpl | T100TchAuxArea) == 0 ==>
      r.t100AuxVect == p.t100AuxVect && r.t100AuxAmpl == p.t100AuxAmpl && r.t100AuxArea == p.t100AuxArea
  {
    var screen := T100Screen(Reg16(regs, ObjectReg(o, T100XRangeOffset)), Reg16(regs, ObjectReg(o, T100YRangeOffset)),
                             Reg8(regs, ObjectReg(o, T100Cfg1Offset)));
    var aux := T100AuxOffsets(Reg8(regs, ObjectReg(o, T100TchAuxOffset)), p.t100AuxVect, p.t100AuxAmpl, p.t100AuxArea);
    p.(maxX := screen.0, maxY := screen.1, t100AuxVect := aux.0, t100AuxAmpl := aux.1, t100AuxArea := aux.2)
  }

  /** The touch object the geometry is read from exists when the profile names
      its kind (mxt_findobject's result is dereferenced unchecked). */
  predicate HasTouchObject(p: Profile, objs: seq<ObjectEntry>)
  {
    (p.multitouch == TouchMultiT9 ==> FindObject(objs, TouchMultiT9).Some?)
    && (p.multitouch == TouchMultiTouchScreenT100 ==> FindObject(objs, TouchMultiTouchScreenT100).Some?)
  }

  /** The geometry read of BOOTTOUCHSCREEN, from the first object of the kind
      the profile names; a profile of neither kind reads nothing. */
  function ReadGeometry(p: Profile, objs: seq<ObjectEntry>, regs: seq<bv8>): (r: Profile)
    requires HasTouchObject(p, objs)
    ensures r.(maxX := p.maxX, maxY := p.maxY, t100AuxVect := p.t100AuxVect, t100AuxAmpl := p.t100AuxAmpl,
               t100AuxArea := p.t100AuxArea) == p
    ensures p.multitouch != TouchMultiTouchScreenT100 ==>
      r.t100AuxVect == p.t100AuxVect && r.t100AuxAmpl == p.t100AuxAmpl && r.t100AuxArea == p.t100AuxArea
    ensures p.multitouch != TouchMultiT9 && p.multitouch != TouchMultiTouchScreenT100 ==> r == p
  {
    if p.multitouch == TouchMultiT9 then T9Geometry(p, objs[FindObject(objs, TouchMultiT9).value], regs)
    else if p.multitouch == TouchMultiTouchScreenT100 then
      T100Geometry(p, objs[FindObject(objs, TouchMultiTouchScreenT100).value], regs)
    else p
  }

  /** The byte pairs of max_x and max_y for the report descriptor, cached when
      the profile names a touch object. */
  function WithHid(p: Profile): (r: Profile)
    ensures r.(maxXHid := p.maxXHid, maxYHid := p.maxYHid) == p
    ensures p.multitouch == TouchMultiT9 || p.multitouch == TouchMultiTouchScreenT100 ==>
      r.maxXHid.0 + 0x100 * r.maxXHid.1 == r.maxX && r.maxYHid.0 + 0x100 * r.maxYHid.1 == r.maxY
    ensures p.multitouch != TouchMultiT9 && p.multitouch != TouchMultiTouchScreenT100 ==> r == p
  {
    HidBytesReassemble(p.maxX);
    HidBytesReassemble(p.maxY);
    if p.multitouch == TouchMultiT9 || p.multitouch == TouchMultiTouchScreenT100 then
      p.(maxXHid := LeBytes(p.maxX), maxYHid := LeBytes(p.maxY))
    else p
  }

  /** The geometry read and the descriptor bytes change only the screen size,
      the auxiliary T100 offsets and the descriptor bytes: every report-id range,
      address and size the scan cached is kept. The descriptor bytes, when
      cached, reassemble to the screen size. */
  lemma GeometryKeepsScan(p: Profile, objs: seq<ObjectEntry>, regs: seq<bv8>)
    requires HasTouchObject(p, objs)
    ensures var r := WithHid(ReadGeometry(p, objs, regs));
      r.(maxX := p.maxX, maxY := p.maxY, maxXHid := p.maxXHid, maxYHid := p.maxYHid,
         t100AuxVect := p.t100AuxVect, t100AuxAmpl := p.t100AuxAmpl, t100AuxArea := p.t100AuxArea) == p
    ensures var r := WithHid(ReadGeometry(p, objs, regs));
      p.multitouch == TouchMultiT9 || p.multitouch == TouchMultiTouchScreenT100 ==>
        r.maxXHid.0 + 0x100 * r.maxXHid.1 == r.maxX && r.maxYHid.0 + 0x100 * r.maxYHid.1 == r.maxY
    ensures var r := WithHid(ReadGeometry(p, objs, regs));
      p.multitouch != TouchMultiT9 && p.multitouch != TouchMultiTouchScreenT100 ==> r == p
  {
    var r := ReadGeometry(p, objs, regs);
    HidBytesReassemble(r.maxX);
    HidBytesReassemble(r.maxY);
  }

  /** The profile the scan caches, with max_reportid set from the counter. */
  function Scanned(info: IdInfo, regs: seq<bv8>, init: Profile): Profile
  {
    ScanTable(info, ConfigObjects(regs), init)
  }

  /** What the first boot needs of the chip for the driver to stay inside its
      buffers: a message size the decoder can read, queued messages whose
      report ids stay inside the slot table under the scanned profile, a
      command processor to reset, and the touch object the geometry is read
      from. */
  predicate BootReady(info: IdInfo, regs: seq<bv8>, pending: seq<seq<bv8>>, init: Profile)
  {
    var objs := ConfigObjects(regs);
    var p := Scanned(info, regs, init);
    p.t5MsgSize >= MinMessageSize && Deliverable(p, pending)
    && FindObject(objs, GenCommandProcessor).Some? && HasTouchObject(p, objs)
  }

  /** The profile after the first boot. */
  function Booted(info: IdInfo, regs: seq<bv8>, init: Profile): Profile
    requires HasTouchObject(Scanned(info, regs, init), ConfigObjects(regs))
  {
    WithHid(ReadGeometry(Scanned(info, regs, init), ConfigObjects(regs), regs))
  }

  /** atmel_reset_device: 1 written at the reset offset of the command
      processor. */
  function ResetWrite(o: ObjectEntry): (w: RegWrite)
    ensures w.address as int == o.startAddress % 0x10000 && w.data == [1]
  {
    RegWrite(ObjectReg(o, CmdProcResetOffset), [1])
  }

  /** The first write of the resume branch: the active power configuration
      (idle then active cycle time, the field order of the protocol's
      `struct t7_config`) to T7 on a T100 screen, otherwise 0x83 to
      the control byte of the first T9 object. */
  function ResumeWrite(p: Profile, objs: seq<ObjectEntry>): (w: RegWrite)
    requires p.multitouch != TouchMultiTouchScreenT100 ==> FindObject(objs, TouchMultiT9).Some?
    ensures p.multitouch == TouchMultiTouchScreenT100 ==> w.address == p.t7Address && w.data == [100, 20]
    ensures p.multitouch != TouchMultiTouchScreenT100 ==>
      var t9 := FindObject(objs, TouchMultiT9).value;
      w.address as int == objs[t9].startAddress % 0x10000 && w.data == [0x83]
  {
    if p.multitouch == TouchMultiTouchScreenT100 then RegWrite(p.t7Address, [T7IdleCycle as bv8, T7ActiveCycle as bv8])
    else RegWrite(ObjectReg(objs[FindObject(objs, TouchMultiT9).value], T9CtrlOffset), [0x83])
  }
}
