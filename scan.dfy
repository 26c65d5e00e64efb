/** The object-table scan of BOOTTOUCHSCREEN: a running report-id counter,
    starting at 1, hands each object with report ids a consecutive range, and
    the addresses, ranges and sizes of the objects the driver uses are cached
    in the device profile. The loop in Driver.Device.ScanObjectTable is proved
    equal to the fold defined here; the lemmas state what the fold means. */
module Scan {
  import opened Protocol
  import opened ObjectTable

  /** The fields of the device context that are cached from the object table
      and the touch object's configuration. */
  datatype Profile = Profile(
    t5Address: u16, t5MsgSize: u8, t6ReportId: u8, t6Address: u16, t7Address: u16,
    t9ReportIdMin: u8, t9ReportIdMax: u8, t19ReportId: u8, t44Address: u16,
    t100ReportIdMin: u8, t100ReportIdMax: u8, maxReportId: u8,
    numTouchIds: u8, multitouch: u8,
    maxX: u16, maxY: u16, maxXHid: (u8, u8), maxYHid: (u8, u8),
    t100AuxVect: u8, t100AuxAmpl: u8, t100AuxArea: u8)

  /** A freshly created device context is all zeros. */
  const ZeroProfile := Profile(0, 0, 0, 0, 0, 0, 0, 0, 0, 0, 0, 0, 0, 0, 0, 0, (0, 0), (0, 0), 0, 0, 0)

  /** The running counter and the profile as the scan threads them. */
  datatype ScanState = ScanState(counter: nat, profile: Profile)

  /** Number of report ids an object claims: ids per instance times instances. */
  function Ids(o: ObjectEntry): (n: nat)
    ensures o.numReportIds != 0 ==> n >= 1
  {
    o.numReportIds * ObjInstances(o)
  }

  /** Size of a T5 message: the whole object on mXT224 firmware before 2.0
      (family 0x80, version below 0x20), which sends a trailing CRC byte; one
      byte less otherwise. `info` is the identity the driver consults. */
  function T5MessageSize(info: IdInfo, o: ObjectEntry): (n: u8)
    ensures info.family == 0x80 && info.version < 0x20 ==> n == ObjSize(o) % 0x100
    ensures !(info.family == 0x80 && info.version < 0x20) ==> n == ObjSize(o) - 1
  {
    if info.family == 0x80 && info.version < 0x20 then Wrap8(ObjSize(o)) else ObjSize(o) - 1
  }

  /** The fields the scan never writes: the screen size, its descriptor bytes
      and the T100 auxiliary offsets, all filled by the geometry read. */
  predicate KeepsGeometry(p: Profile, q: Profile)
  {
    q.maxX == p.maxX && q.maxY == p.maxY && q.maxXHid == p.maxXHid && q.maxYHid == p.maxYHid
    && q.t100AuxVect == p.t100AuxVect && q.t100AuxAmpl == p.t100AuxAmpl && q.t100AuxArea == p.t100AuxArea
    && q.maxReportId == p.maxReportId
  }

  /** One iteration of the scan loop over object `o`: an object with report ids
      claims the next ids * instances of them, and a T9 or T100 object records
      that range. */
  function ScanStep(info: IdInfo, st: ScanState, o: ObjectEntry): (r: ScanState)
  {
    var next := st.counter + Ids(o);
    var minId: u8 := if o.numReportIds != 0 then Wrap8(st.counter) else 0;
    var maxId: u8 := if o.numReportIds != 0 then Wrap8(next - 1) else 0;
    var p := st.profile;
    var p' :=
      if o.objType == GenMessageT5 then
        p.(t5MsgSize := T5MessageSize(info, o), t5Address := o.startAddress)
      else if o.objType == GenCommandT6 then
        p.(t6ReportId := minId, t6Address := o.startAddress)
      else if o.objType == GenPowerT7 then
        p.(t7Address := o.startAddress)
      else if o.objType == TouchMultiT9 then
        p.(multitouch := TouchMultiT9, t9ReportIdMin := minId, t9ReportIdMax := maxId,
           numTouchIds := Wrap8(Ids(o)))
      else if o.objType == SptMessageCountT44 then
        p.(t44Address := o.startAddress)
      else if o.objType == SptGpioPwmT19 then
        p.(t19ReportId := minId)
      else if o.objType == TouchMultiTouchScreenT100 then
        p.(multitouch := TouchMultiTouchScreenT100, t100ReportIdMin := minId,
           t100ReportIdMax := maxId, numTouchIds := Wrap8(o.numReportIds - 2))
      else p;
    ScanState(if o.numReportIds != 0 then next else st.counter, p')
  }

  /** The scan after its first `n` iterations, starting from counter 1 and the
      profile `init` the context held before. */
  function ScanPrefix(info: IdInfo, objs: seq<ObjectEntry>, n: nat, init: Profile): (st: ScanState)
    requires n <= |objs|
  {
    if n == 0 then ScanState(1, init)
    else ScanStep(info, ScanPrefix(info, objs, n - 1, init), objs[n - 1])
  }

  /** The whole scan; the device then stores the final counter as max_reportid. */
  function ScanTable(info: IdInfo, objs: seq<ObjectEntry>, init: Profile): (p: Profile)
    ensures KeepsGeometry(init, p.(maxReportId := init.maxReportId))
  {
    ScanKeepsGeometry(info, objs, |objs|, init);
    var st := ScanPrefix(info, objs, |objs|, init);
    st.profile.(maxReportId := Wrap8(st.counter))
  }

  /** A step advances the counter by the ids the object claims; a T9 or T100
      object with report ids records the range from the old counter to one
      before the new one. */
  lemma StepClaimsRange(info: IdInfo, st: ScanState, o: ObjectEntry)
    ensures var r := ScanStep(info, st, o);
      r.counter == st.counter + Ids(o)
      && (o.objType == TouchMultiT9 && o.numReportIds != 0 ==>
            r.profile.t9ReportIdMin == Wrap8(st.counter) && r.profile.t9ReportIdMax == Wrap8(r.counter - 1))
      && (o.objType == TouchMultiTouchScreenT100 && o.numReportIds != 0 ==>
            r.profile.t100ReportIdMin == Wrap8(st.counter) && r.profile.t100ReportIdMax == Wrap8(r.counter - 1))
  {
  }

  /** The scan never writes the screen size, its descriptor bytes, the T100
      auxiliary offsets or max_reportid; the geometry read fills the first
      three. */
  lemma {:induction false} ScanKeepsGeometry(info: IdInfo, objs: seq<ObjectEntry>, n: nat, init: Profile)
    requires n <= |objs|
    ensures KeepsGeometry(init, ScanPrefix(info, objs, n, init).profile)
  {
    if n > 0 {
      ScanKeepsGeometry(info, objs, n - 1, init);
    }
  }

  /** Report ids claimed by the objects before index `n`, in table order. */
  function IdsBefore(objs: seq<ObjectEntry>, n: nat): nat
    requires n <= |objs|
  {
    if n == 0 then 0 else IdsBefore(objs, n - 1) + Ids(objs[n - 1])
  }

  /** The report-id range of object `j`, as unbounded integers: the ids after
      all earlier objects' ids, or (0, 0) for an object without report ids. */
  function ReportRange(objs: seq<ObjectEntry>, j: nat): (int, int)
    requires j < |objs|
  {
    if objs[j].numReportIds != 0 then (1 + IdsBefore(objs, j), IdsBefore(objs, j) + Ids(objs[j]))
    else (0, 0)
  }

  /** The counter after `n` iterations is one more than the ids claimed so far. */
  lemma {:induction false} ScanCounter(info: IdInfo, objs: seq<ObjectEntry>, n: nat, init: Profile)
    requires n <= |objs|
    ensures ScanPrefix(info, objs, n, init).counter == 1 + IdsBefore(objs, n)
  {
    if n > 0 {
      ScanCounter(info, objs, n - 1, init);
    }
  }

  /** max_reportid is the final counter value, kept modulo 256. */
  lemma MaxReportIdIsCounter(info: IdInfo, objs: seq<ObjectEntry>, init: Profile)
    ensures ScanTable(info, objs, init).maxReportId == Wrap8(1 + IdsBefore(objs, |objs|))
  {
    ScanCounter(info, objs, |objs|, init);
  }

  lemma {:induction false} IdsBeforeMonotone(objs: seq<ObjectEntry>, j: nat, k: nat)
    requires j <= k <= |objs|
    ensures IdsBefore(objs, j) <= IdsBefore(objs, k)
  {
    if j < k {
      IdsBeforeMonotone(objs, j, k - 1);
    }
  }

  /** A non-empty range holds exactly num_report_ids * instances ids. */
  lemma RangeSize(objs: seq<ObjectEntry>, j: nat)
    requires j < |objs| && objs[j].numReportIds != 0
    ensures ReportRange(objs, j).1 - ReportRange(objs, j).0 + 1 == objs[j].numReportIds * ObjInstances(objs[j])
    ensures ReportRange(objs, j).0 >= 1
  {
  }

  /** Non-empty ranges are disjoint and ascend in table order. */
  lemma RangesAscending(objs: seq<ObjectEntry>, j: nat, k: nat)
    requires j < k < |objs|
    requires objs[j].numReportIds != 0 && objs[k].numReportIds != 0
    ensures ReportRange(objs, j).0 <= ReportRange(objs, j).1 < ReportRange(objs, k).0
  {
    IdsBeforeMonotone(objs, j + 1, k);
    assert IdsBefore(objs, j + 1) == IdsBefore(objs, j) + Ids(objs[j]);
  }

  /** Ranges are consecutive: the next object with report ids starts right after
      the previous one ends, and the first one starts at 1. */
  lemma {:induction false} RangesConsecutive(objs: seq<ObjectEntry>, j: nat, k: nat)
    requires j < k < |objs|
    requires objs[j].numReportIds != 0 && objs[k].numReportIds != 0
    requires forall m :: j < m < k ==> objs[m].numReportIds == 0
    ensures ReportRange(objs, k).0 == ReportRange(objs, j).1 + 1
  {
    IdsBeforeSkipsEmpty(objs, j + 1, k);
  }

  lemma {:induction false} FirstRangeStartsAtOne(objs: seq<ObjectEntry>, k: nat)
    requires k < |objs| && objs[k].numReportIds != 0
    requires forall m :: 0 <= m < k ==> objs[m].numReportIds == 0
    ensures ReportRange(objs, k).0 == 1
  {
    IdsBeforeSkipsEmpty(objs, 0, k);
  }

  lemma {:induction false} IdsBeforeSkipsEmpty(objs: seq<ObjectEntry>, j: nat, k: nat)
    requires j <= k <= |objs|
    requires forall m :: j <= m < k ==> objs[m].numReportIds == 0
    ensures IdsBefore(objs, k) == IdsBefore(objs, j)
  {
    if j < k {
      IdsBeforeSkipsEmpty(objs, j, k - 1);
    }
  }

  /** When fewer than 256 ids are handed out, the byte-wide fields hold the
      ranges exactly. */
  lemma RangesFitInBytes(objs: seq<ObjectEntry>, j: nat)
    requires j < |objs|
    requires 1 + IdsBefore(objs, |objs|) < 0x100
    ensures Wrap8(ReportRange(objs, j).0) == ReportRange(objs, j).0
    ensures Wrap8(ReportRange(objs, j).1) == ReportRange(objs, j).1
  {
    IdsBeforeMonotone(objs, j + 1, |objs|);
  }

  /** Index of the last object before `n` whose type is in `types`. */
  function LastOfType(objs: seq<ObjectEntry>, n: nat, types: set<u8>): (r: Option<nat>)
    requires n <= |objs|
    ensures r.Some? ==> r.value < n && objs[r.value].objType in types
    ensures r.Some? ==> forall m :: r.value < m < n ==> objs[m].objType !in types
    ensures r.None? ==> forall m :: 0 <= m < n ==> objs[m].objType !in types
  {
    if n == 0 then None
    else if objs[n - 1].objType in types then Some(n - 1)
    else LastOfType(objs, n - 1, types)
  }

  /** The last T9 object in the table sets the T9 report-id range; without one
      the fields keep the values the context held. */
  lemma {:induction false} T9RangeFromLast(info: IdInfo, objs: seq<ObjectEntry>, n: nat, init: Profile)
    requires n <= |objs|
    ensures var p := ScanPrefix(info, objs, n, init).profile;
      match LastOfType(objs, n, {TouchMultiT9})
      case None => p.t9ReportIdMin == init.t9ReportIdMin && p.t9ReportIdMax == init.t9ReportIdMax
      case Some(j) => p.t9ReportIdMin == Wrap8(ReportRange(objs, j).0)
                      && p.t9ReportIdMax == Wrap8(ReportRange(objs, j).1)
  {
    if n > 0 {
      T9RangeFromLast(info, objs, n - 1, init);
      var prev := ScanPrefix(info, objs, n - 1, init);
      var p := ScanPrefix(info, objs, n, init).profile;
      if objs[n - 1].objType == TouchMultiT9 {
        ScanCounter(info, objs, n - 1, init);
        assert LastOfType(objs, n, {TouchMultiT9}) == Some(n - 1);
        var next := ScanStep(info, prev, objs[n - 1]);
        assert p == next.profile;
        if objs[n - 1].numReportIds != 0 {
          assert ReportRange(objs, n - 1) == (prev.counter, next.counter - 1);
        } else {
          assert p.t9ReportIdMin == 0 && p.t9ReportIdMax == 0;
        }
      } else {
        assert LastOfType(objs, n, {TouchMultiT9}) == LastOfType(objs, n - 1, {TouchMultiT9});
        StepKeepsOtherIds(info, prev, objs[n - 1]);
      }
    }
  }

  /** A step of the scan leaves the cached report-id fields of the object kinds
      other than its own as they were. */
  lemma StepKeepsOtherIds(info: IdInfo, st: ScanState, o: ObjectEntry)
    ensures var q := ScanStep(info, st, o).profile;
      (o.objType != TouchMultiT9 ==>
         q.t9ReportIdMin == st.profile.t9ReportIdMin && q.t9ReportIdMax == st.profile.t9ReportIdMax)
      && (o.objType != TouchMultiTouchScreenT100 ==>
         q.t100ReportIdMin == st.profile.t100ReportIdMin && q.t100ReportIdMax == st.profile.t100ReportIdMax)
      && (o.objType != GenCommandT6 ==> q.t6ReportId == st.profile.t6ReportId && q.t6Address == st.profile.t6Address)
      && (o.objType != SptMessageCountT44 ==> q.t44Address == st.profile.t44Address)
      && (o.objType != SptGpioPwmT19 ==> q.t19ReportId == st.profile.t19ReportId)
  {
  }

  /** The last T100 object sets the T100 report-id range. */
  lemma {:induction false} T100RangeFromLast(info: IdInfo, objs: seq<ObjectEntry>, n: nat, init: Profile)
    requires n <= |objs|
    ensures var p := ScanPrefix(info, objs, n, init).profile;
      match LastOfType(objs, n, {TouchMultiTouchScreenT100})
      case None => p.t100ReportIdMin == init.t100ReportIdMin && p.t100ReportIdMax == init.t100ReportIdMax
      case Some(j) => p.t100ReportIdMin == Wrap8(ReportRange(objs, j).0)
                      && p.t100ReportIdMax == Wrap8(ReportRange(objs, j).1)
  {
    if n > 0 {
      T100RangeFromLast(info, objs, n - 1, init);
      var prev := ScanPrefix(info, objs, n - 1, init);
      var p := ScanPrefix(info, objs, n, init).profile;
      if objs[n - 1].objType == TouchMultiTouchScreenT100 {
        ScanCounter(info, objs, n - 1, init);
        assert LastOfType(objs, n, {TouchMultiTouchScreenT100}) == Some(n - 1);
        var next := ScanStep(info, prev, objs[n - 1]);
        assert p == next.profile;
        if objs[n - 1].numReportIds != 0 {
          assert ReportRange(objs, n - 1) == (prev.counter, next.counter - 1);
        } else {
          assert p.t100ReportIdMin == 0 && p.t100ReportIdMax == 0;
        }
      } else {
        assert LastOfType(objs, n, {TouchMultiTouchScreenT100}) == LastOfType(objs, n - 1, {TouchMultiTouchScreenT100});
        StepKeepsOtherIds(info, prev, objs[n - 1]);
      }
    }
  }

  /** The last T9 or T100 object decides the multitouch kind and the number of
      touch ids: ids * instances for T9, ids - 2 for T100 (its first two report
      ids are reserved). */
  lemma {:induction false} MultitouchFromLast(info: IdInfo, objs: seq<ObjectEntry>, n: nat, init: Profile)
    requires n <= |objs|
    ensures var p := ScanPrefix(info, objs, n, init).profile;
      match LastOfType(objs, n, {TouchMultiT9, TouchMultiTouchScreenT100})
      case None => p.multitouch == init.multitouch && p.numTouchIds == init.numTouchIds
      case Some(j) =>
        p.multitouch == objs[j].objType
        && p.numTouchIds == (if objs[j].objType == TouchMultiT9 then Wrap8(Ids(objs[j]))
                             else Wrap8(objs[j].numReportIds - 2))
  {
    if n > 0 {
      MultitouchFromLast(info, objs, n - 1, init);
    }
  }

  /** The last T5 object sets the message address and size. */
  lemma {:induction false} T5FromLast(info: IdInfo, objs: seq<ObjectEntry>, n: nat, init: Profile)
    requires n <= |objs|
    ensures var p := ScanPrefix(info, objs, n, init).profile;
      match LastOfType(objs, n, {GenMessageT5})
      case None => p.t5MsgSize == init.t5MsgSize && p.t5Address == init.t5Address
      case Some(j) => p.t5MsgSize == T5MessageSize(info, objs[j]) && p.t5Address == objs[j].startAddress
  {
    if n > 0 {
      T5FromLast(info, objs, n - 1, init);
    }
  }

  /** The last T6 object sets the command processor's report id and address, and
      the last T44 object the message-count address. */
  lemma {:induction false} T6T44FromLast(info: IdInfo, objs: seq<ObjectEntry>, n: nat, init: Profile)
    requires n <= |objs|
    ensures var p := ScanPrefix(info, objs, n, init).profile;
      (match LastOfType(objs, n, {GenCommandT6})
       case None => p.t6ReportId == init.t6ReportId && p.t6Address == init.t6Address
       case Some(j) => p.t6ReportId == Wrap8(ReportRange(objs, j).0) && p.t6Address == objs[j].startAddress)
      && (match LastOfType(objs, n, {SptMessageCountT44})
          case None => p.t44Address == init.t44Address
          case Some(j) => p.t44Address == objs[j].startAddress)
  {
    if n > 0 {
      T6T44FromLast(info, objs, n - 1, init);
      var prev := ScanPrefix(info, objs, n - 1, init);
      assert ScanPrefix(info, objs, n, init) == ScanStep(info, prev, objs[n - 1]);
      StepKeepsOtherIds(info, prev, objs[n - 1]);
      if objs[n - 1].objType == GenCommandT6 {
        ScanCounter(info, objs, n - 1, init);
        assert LastOfType(objs, n, {GenCommandT6}) == Some(n - 1);
        assert LastOfType(objs, n, {SptMessageCountT44}) == LastOfType(objs, n - 1, {SptMessageCountT44});
      } else if objs[n - 1].objType == SptMessageCountT44 {
        assert LastOfType(objs, n, {SptMessageCountT44}) == Some(n - 1);
        assert LastOfType(objs, n, {GenCommandT6}) == LastOfType(objs, n - 1, {GenCommandT6});
      } else {
        assert LastOfType(objs, n, {GenCommandT6}) == LastOfType(objs, n - 1, {GenCommandT6});
        assert LastOfType(objs, n, {SptMessageCountT44}) == LastOfType(objs, n - 1, {SptMessageCountT44});
      }
    }
  }

  /** The last T19 object sets the GPIO report id: the first id of its range,
      or 0 when it has none. */
  lemma {:induction false} T19FromLast(info: IdInfo, objs: seq<ObjectEntry>, n: nat, init: Profile)
    requires n <= |objs|
    ensures var p := ScanPrefix(info, objs, n, init).profile;
      match LastOfType(objs, n, {SptGpioPwmT19})
      case None => p.t19ReportId == init.t19ReportId
      case Some(j) => p.t19ReportId == Wrap8(ReportRange(objs, j).0)
  {
    if n > 0 {
      T19FromLast(info, objs, n - 1, init);
      if objs[n - 1].objType == SptGpioPwmT19 {
        ScanCounter(info, objs, n - 1, init);
      }
    }
  }

  /** The driver consults `info` of the device context, which nothing in the
      boot path fills: with a zero identity the trailing CRC byte is always
      dropped, whatever the chip's own information block says. */
  lemma ZeroInfoDropsCrcByte(o: ObjectEntry)
    ensures T5MessageSize(ZeroInfo, o) == o.sizeMinusOne
  {
  }
}
