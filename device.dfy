/** The device context of atmel.cpp and the driver routines that work on it:
    the message decoder writing the slot arrays in place, the report loop, the
    message pump with its adaptive hint, the interrupt and timer handlers, the
    power-up reset and the boot sequence. Each method is proved against the
    functions of Processing, Batches and PumpPlan. */
module Driver {
  import opened Protocol
  import opened ObjectTable
  import opened Scan
  import opened Geometry
  import opened Messages
  import opened Reports
  import opened Processing
  import opened SlotArrays
  import opened Bus
  import opened Batches
  import opened PumpPlan
  import opened BootPlan

  class Device {
    /** Flags, XValue, YValue and AREA. */
    const table: SlotTable
    var regsSet: bool
    var connectInterrupt: bool
    var touchScreenBooted: bool
    /** `devContext->info`, the identity the T5 message-size rule consults.
        Nothing in the driver writes it, so it keeps its initial value. */
    const info: IdInfo
    /** `core.info`, the information block read at boot. */
    var coreInfo: IdInfo
    /** `core.objs`, the object table read at boot. */
    var objects: seq<ObjectEntry>
    /** `msgprocobj` and `cmdprocobj`: indexes into `objects`, None for null. */
    var msgProcObj: Option<nat>
    var cmdProcObj: Option<nat>
    /** The values cached from the object table and the touch configuration. */
    var profile: Profile
    /** `last_message_count`: the pump's guess of how many messages are queued. */
    var lastMessageCount: u8
    /** Reports handed to the HID stack, oldest first. */
    var reports: seq<TouchReport>

    /** The slot table is well formed and is not part of the context object. */
    predicate Valid()
    {
      table.Valid() && this !in table.Footprint()
    }

    /** The part of the context that message processing changes. */
    function Tracked(): (t: Tracker)
      requires Valid()
      reads this, table.Footprint()
      ensures WellFormed(t)
    {
      Tracker(table.Contents(), reports, regsSet)
    }

    /** The message size suits the decoder, which reads seven bytes. */
    predicate Ready()
      reads this
    {
      profile.t5MsgSize >= MinMessageSize
    }

    /** A device context as the framework creates it: all zeros. */
    constructor ()
      ensures Valid() && fresh(table.Footprint())
      ensures forall j :: 0 <= j < SlotCount ==> table.Contents()[j] == Slot(0, 0, 0, 0)
      ensures !regsSet && !connectInterrupt && !touchScreenBooted
      ensures info == ZeroInfo && coreInfo == ZeroInfo && objects == []
      ensures msgProcObj == None && cmdProcObj == None
      ensures profile == ZeroProfile && lastMessageCount == 0 && reports == []
    {
      table := new SlotTable();
      regsSet, connectInterrupt, touchScreenBooted := false, false, false;
      info, coreInfo, objects := ZeroInfo, ZeroInfo, [];
      msgProcObj, cmdProcObj := None, None;
      profile, lastMessageCount, reports := ZeroProfile, 0, [];
    }

    /** The decode half of AtmelProcessMessage: classify the message by its
        report id and write a touch into its slot. */
    method TrackMessage(m: seq<bv8>)
      requires Valid() && Processable(profile, m)
      modifies table.Footprint()
      ensures Valid()
      ensures table.Contents() == Track(old(table.Contents()), Decode(profile, m, old(table.Contents())))
    {
      var n := m[0] as int;
      if m[0] == InvalidReportId || n == profile.t6ReportId {
        // The sentinel, or a status message whose status byte and CRC are
        // read and dropped.
      } else if InT9Range(profile, n) {
        var x := ScaleT9(RawT9X(m), profile.maxX);
        var y := ScaleT9(RawT9Y(m), profile.maxY);
        table.Write(n, Slot(m[1], x, y, m[5] as bv16));
      } else if InT100Range(profile, n) {
        var s := T100Slot(profile, n);
        if s >= 0 {
          var flags := T100Flags(m[1], table.flags[s]);
          table.Write(s, Slot(flags, T100Coordinate(m, 2), T100Coordinate(m, 4), 10));
        }
      }
    }

    /** AtmelProcessMessage: decode one message into the slot arrays, then build
        and deliver a report. Returns 0 for the sentinel, 1 otherwise. */
    method ProcessMessage(m: seq<bv8>) returns (ret: int)
      requires Valid() && Processable(profile, m)
      modifies this`regsSet, this`reports, table.Footprint()
      ensures Valid()
      ensures (Tracked(), ret) == Step(profile, old(Tracked()), m)
    {
      if m[0] == InvalidReportId {
        return 0;
      }
      TrackMessage(m);
      var contacts := table.Render(Cpp);
      reports := Deliver(reports, contacts);
      regsSet := true;
      return 1;
    }

    /** AtmelProcessInput: build and deliver a report from the slots as they are. */
    method ProcessInput()
      requires Valid()
      modifies this`reports, table.flags
      ensures Valid()
      ensures Tracked() == Input(Cpp, old(Tracked()))
    {
      var contacts := table.Render(Cpp);
      reports := Deliver(reports, contacts);
    }

    /** The processing loop of AtmelReadAndProcessMessages: hand each of the
        `count` messages in `buf` to the decoder and count the real ones. */
    method ProcessBuffer(buf: array<bv8>, size: nat, count: nat, ghost batch: seq<seq<bv8>>) returns (valid: nat)
      requires Valid() && buf !in table.Footprint()
      requires |batch| == count && InBuffer(buf[..], size, batch)
      requires AllProcessable(profile, batch)
      modifies this`regsSet, this`reports, table.Footprint()
      ensures Valid()
      ensures Tracked() == Fold(profile, old(Tracked()), batch)
      ensures valid == CountValid(batch)
    {
      ghost var t0 := Tracked();
      valid := 0;
      for i := 0 to count
        invariant Valid() && buf[..] == old(buf[..])
        invariant Tracked() == Fold(profile, t0, batch[..i])
        invariant valid == CountValid(batch[..i])
      {
        FoldStepAt(profile, t0, batch, i);
        var at := Offset(size, i);
        InBufferAt(buf[..], size, batch, i, at);
        var r := ProcessMessage(buf[at .. at + size]);
        if r == 1 {
          valid := valid + 1;
        }
      }
      assert batch[..count] == batch;
    }

    /** The messages of one successful read, `consumed` from the queue and then
        sentinels up to `count`, processed from the start of `buf`: the tracker
        advances over the consumed messages and the count of real ones is their
        number. */
    method ProcessRead(buf: array<bv8>, size: nat, count: nat, ghost consumed: seq<seq<bv8>>) returns (valid: nat)
      requires Valid() && buf !in table.Footprint() && size == profile.t5MsgSize >= MinMessageSize
      requires Deliverable(profile, consumed) && |consumed| <= count
      requires size * count <= buf.Length && buf[..size * count] == ReadBytes(consumed, size, count)
      modifies this`regsSet, this`reports, table.Footprint()
      ensures Valid()
      ensures Tracked() == Fold(profile, old(Tracked()), Framed(consumed, size))
      ensures valid == |consumed|
    {
      ghost var t0, batch, p0 := Tracked(), Batch(consumed, size, count), profile;
      BatchInBuffer(consumed, size, count, buf[..]);
      BatchFold(profile, t0, consumed, size, count);
      valid := ProcessBuffer(buf, size, count, batch);
      assert profile == p0;
      assert Tracked() == Fold(profile, t0, batch);
    }

    /** AtmelReadAndProcessMessages: read `count` messages in one transfer into
        a buffer pre-filled with 0xff, process each, and return how many were
        real messages; -1 without reading when `count` exceeds max_reportid, 0
        when the transfer fails. */
    method ReadAndProcessMessages(chip: Chip, count: u8) returns (ret: int)
      requires Valid() && Ready() && chip.Valid() && Deliverable(profile, chip.pending)
      modifies this`regsSet, this`reports, table.Footprint(), chip
      ensures Valid() && chip.Valid() && Deliverable(profile, chip.pending) && profile == old(profile)
      ensures chip.broken == old(chip.broken) && chip.regs == old(chip.regs) && chip.writes == old(chip.writes)
      ensures ret == ReadResult(count, profile.maxReportId, |old(chip.pending)|, chip.broken)
      ensures chip.pending == old(chip.pending)[Consumed(ret)..]
      ensures Tracked() == Drained(profile, old(Tracked()), old(chip.pending), Consumed(ret))
    {
      ghost var t0, p0 := Tracked(), chip.pending;
      DrainedNothing(profile, t0, p0);
      assert p0[0..] == p0;
      if count > profile.maxReportId {
        return -1;
      }
      var size := profile.t5MsgSize as nat;
      var buf := new bv8[profile.maxReportId * size];
      for j := 0 to buf.Length
        modifies buf
        invariant forall k :: 0 <= k < j ==> buf[k] == 0xff
      {
        buf[j] := 0xff;
      }
      MulAtLeast(size, count, profile.maxReportId);
      assert chip.pending == p0 && Tracked() == t0;
      assert buf !in table.Footprint() && chip !in table.Footprint();
      var ok := chip.ReadMessages(buf, count as nat, size);
      if !ok {
        return 0;
      }
      assert chip.pending == old(chip.pending)[Min(count as nat, |old(chip.pending)|)..];
      ghost var k := Min(count as nat, |p0|);
      assert Tracked() == t0;
      ret := ProcessRead(buf, size, count, p0[..k]);
      assert Tracked() == Drained(profile, t0, p0, k);
    }

    /** A drain of the message queue under way: it started from tracker `t0`
        with the messages `p0` pending, has read and processed the first
        `consumed` of them, and the rest are still pending. `trackers` lists
        the tracker after each prefix of `p0`. */
    predicate Pumping(chip: Chip, t0: Tracker, p0: seq<seq<bv8>>, trackers: seq<Tracker>, consumed: nat)
      reads this, table.Footprint(), chip
    {
      Valid() && Ready() && chip.Valid() && WellFormed(t0) && Deliverable(profile, p0)
      && Tabulates(profile, t0, p0, trackers)
      && consumed <= |p0| && chip.pending == p0[consumed..] && Deliverable(profile, chip.pending)
      && Tracked() == trackers[consumed]
    }

    /** A call of AtmelReadAndProcessMessages in the middle of a drain: the
        drain has consumed what the call consumed as well. */
    method ReadMore(chip: Chip, count: u8, ghost t0: Tracker, ghost p0: seq<seq<bv8>>, ghost trackers: seq<Tracker>,
                    ghost before: nat, ghost maxId: u8, ghost broken: bool)
      returns (read: int, ghost after: nat)
      requires Pumping(chip, t0, p0, trackers, before) && maxId == profile.maxReportId && broken == chip.broken
      modifies this`regsSet, this`reports, table.Footprint(), chip
      ensures Pumping(chip, t0, p0, trackers, after) && profile == old(profile)
      ensures chip.broken == old(chip.broken) && chip.regs == old(chip.regs) && chip.writes == old(chip.writes)
      ensures read == ReadResult(count, maxId, |p0| - before, broken)
      ensures after == before + Consumed(read)
    {
      read := ReadAndProcessMessages(chip, count);
      ghost var k := Consumed(read);
      after := before + k;
      TabulatesAppend(profile, t0, p0, trackers, before, k);
      assert p0[before..][k..] == p0[after..];
    }

    /** AtmelProcessMessagesUntilInvalid: up to two reads of max_reportid
        messages; 0 as soon as a read comes back short, -1 when both were full. */
    method ProcessMessagesUntilInvalid(chip: Chip) returns (ret: int)
      requires Valid() && Ready() && chip.Valid() && Deliverable(profile, chip.pending)
      modifies this`regsSet, this`reports, table.Footprint(), chip
      ensures Valid() && chip.Valid() && Deliverable(profile, chip.pending) && profile == old(profile)
      ensures chip.broken == old(chip.broken) && chip.regs == old(chip.regs) && chip.writes == old(chip.writes)
      ensures var plan := UntilInvalidPlan(profile.maxReportId, |old(chip.pending)|, chip.broken);
        ret == plan.0 && chip.pending == old(chip.pending)[plan.1..]
        && Tracked() == Drained(profile, old(Tracked()), old(chip.pending), plan.1)
    {
      ghost var t0, p0 := Tracked(), chip.pending;
      ghost var consumed: nat := 0;
      ghost var trackers := Tabulate(profile, t0, p0);
      assert p0[0..] == p0;
      var count := profile.maxReportId;
      var tries := 2;
      while tries > 0
        invariant 0 <= tries <= 2
        invariant Pumping(chip, t0, p0, trackers, consumed) && profile == old(profile)
        invariant chip.broken == old(chip.broken) && chip.regs == old(chip.regs) && chip.writes == old(chip.writes)
        invariant tries == 2 ==> consumed == 0
        invariant tries == 1 ==> consumed == ReadResult(count, count, |p0|, chip.broken) >= count
        invariant tries == 0 ==> UntilInvalidPlan(count, |p0|, chip.broken) == (-1, consumed)
      {
        var read;
        ghost var before := consumed;
        read, consumed := ReadMore(chip, count, t0, p0, trackers, before, count, chip.broken);
        UntilInvalidTry(count, |p0|, chip.broken, tries, before, read, consumed);
        if read < count {
          return 0;
        }
        tries := tries - 1;
      }
      return -1;
    }

    /** The read of AtmelDeviceReadT44 that fetches the message count together
        with the first message from T44, into a buffer one byte longer than a
        message: the count, 0 when the read fails, and the message bytes that
        follow it. */
    method ReadCountBytes(chip: Chip) returns (count: int, m: seq<bv8>)
      requires chip.Valid() && Ready()
      modifies chip
      ensures chip.Valid()
      ensures chip.broken == old(chip.broken) && chip.regs == old(chip.regs) && chip.writes == old(chip.writes)
      ensures count == if chip.broken || old(chip.pending) == [] then 0 else Min(|old(chip.pending)|, 0xff)
      ensures count == 0 ==> chip.pending == old(chip.pending)
      ensures count != 0 ==> chip.pending == old(chip.pending)[1..]
      ensures count != 0 ==> |m| == profile.t5MsgSize && m[..|m| - 1] == Frame(old(chip.pending)[0], |m| - 1)
    {
      var size := profile.t5MsgSize as nat;
      var buf := new bv8[size + 1];
      var ok := chip.ReadCountAndMessage(buf, size);
      if !ok {
        return 0, [];
      }
      if old(chip.pending) != [] {
        ByteRoundTrip(Min(|old(chip.pending)|, 0xff));
      }
      assert buf[0] == buf[..size][0];
      count := buf[0] as int;
      m := buf[1..size + 1];
      assert m[..size - 1] == buf[..size][1..];
    }

    /** The first half of AtmelDeviceReadT44: read the count and the first
        message and, unless the read failed or the count is 0, process that
        message. */
    method ReadCounter(chip: Chip, ghost t0: Tracker, ghost p0: seq<seq<bv8>>, ghost trackers: seq<Tracker>)
      returns (count: int, ghost consumed: nat)
      requires Pumping(chip, t0, p0, trackers, 0)
      modifies this`regsSet, this`reports, table.Footprint(), chip
      ensures Pumping(chip, t0, p0, trackers, consumed) && profile == old(profile)
      ensures chip.broken == old(chip.broken) && chip.regs == old(chip.regs) && chip.writes == old(chip.writes)
      ensures count == if chip.broken || p0 == [] then 0 else Min(|p0|, 0xff)
      ensures consumed == if count == 0 then 0 else 1
    {
      assert p0[0..] == p0;
      var m;
      count, m := ReadCountBytes(chip);
      if count == 0 {
        return 0, 0;
      }
      CounterMessage(profile, t0, p0, m);
      DrainedNothing(profile, t0, p0);
      assert Tracked() == trackers[0] == t0;
      var r := ProcessMessage(m);
      consumed := 1;
      assert Tracked() == Drained(profile, t0, p0, 1) == trackers[1];
    }

    /** AtmelDeviceReadT44: after the count and the first message, clamp the
        count to max_reportid and read the remaining count (kept in 8 bits) in
        one go. Always returns true. */
    method DeviceReadT44(chip: Chip) returns (ret: bool)
      requires Valid() && Ready() && chip.Valid() && Deliverable(profile, chip.pending)
      modifies this`regsSet, this`reports, table.Footprint(), chip
      ensures Valid() && chip.Valid() && Deliverable(profile, chip.pending) && profile == old(profile)
      ensures chip.broken == old(chip.broken) && chip.regs == old(chip.regs) && chip.writes == old(chip.writes)
      ensures ret
      ensures var n := T44Consumed(profile.maxReportId, |old(chip.pending)|, chip.broken);
        chip.pending == old(chip.pending)[n..] && Tracked() == Drained(profile, old(Tracked()), old(chip.pending), n)
    {
      ghost var t0, p0 := Tracked(), chip.pending;
      ghost var maxId, broken := profile.maxReportId, chip.broken;
      ghost var trackers := Tabulate(profile, t0, p0);
      assert p0[0..] == p0;
      var count;
      ghost var consumed;
      count, consumed := ReadCounter(chip, t0, p0, trackers);
      if count != 0 {
        if count > profile.maxReportId {
          count := profile.maxReportId;
        }
        var left := Wrap8(count - 1);
        if left != 0 {
          var n;
          n, consumed := ReadMore(chip, left, t0, p0, trackers, 1, maxId, broken);
        }
      }
      assert consumed == T44Consumed(maxId, |p0|, broken);
      return true;
    }

    /** One pass of the do-while loop of AtmelDeviceRead: read two messages
        with `total` handled so far, when the rest of the loop is to end with
        outcome `ok` after consuming `owed` more. */
    method ReadPair(chip: Chip, total: nat, ghost t0: Tracker, ghost p0: seq<seq<bv8>>, ghost trackers: seq<Tracker>,
                    ghost maxId: u8, ghost touchIds: u8, ghost broken: bool, ghost ok: bool, ghost owed: nat)
      returns (n: int, ghost after: nat)
      requires Pumping(chip, t0, p0, trackers, total)
      requires maxId == profile.maxReportId && touchIds == profile.numTouchIds && broken == chip.broken
      requires DrainPairs(total, maxId, touchIds, |p0| - total, broken).0 == ok
      requires DrainPairs(total, maxId, touchIds, |p0| - total, broken).1 == owed
      modifies this`regsSet, this`reports, table.Footprint(), chip
      ensures Pumping(chip, t0, p0, trackers, after) && profile == old(profile)
      ensures chip.broken == old(chip.broken) && chip.regs == old(chip.regs) && chip.writes == old(chip.writes)
      ensures n < 0 ==> after == total && !ok && owed == 0
      ensures n >= 0 ==> after == total + n
      ensures 0 <= n && (n < 2 || after >= touchIds) ==> ok && owed == n
      ensures 0 <= n && !(n < 2 || after >= touchIds) ==> n <= owed
      ensures 0 <= n && !(n < 2 || after >= touchIds) ==> DrainPairs(after, maxId, touchIds, |p0| - after, broken).0 == ok
      ensures 0 <= n && !(n < 2 || after >= touchIds) ==> DrainPairs(after, maxId, touchIds, |p0| - after, broken).1 == owed - n
    {
      n, after := ReadMore(chip, 2, t0, p0, trackers, total, maxId, broken);
      DrainPairsTry(total, maxId, touchIds, |p0| - total, broken, ok, owed, n, after, |p0| - after);
    }

    /** The do-while loop of AtmelDeviceRead, entered with `handled` messages
        handled: read two messages at a time until a read is refused or comes
        back short, or the total reaches num_touchids. */
    method ReadPairs(chip: Chip, handled: nat, ghost t0: Tracker, ghost p0: seq<seq<bv8>>, ghost trackers: seq<Tracker>,
                     ghost maxId: u8, ghost touchIds: u8, ghost broken: bool)
      returns (ok: bool, total: nat)
      requires Pumping(chip, t0, p0, trackers, handled)
      requires maxId == profile.maxReportId && touchIds == profile.numTouchIds && broken == chip.broken
      modifies this`regsSet, this`reports, table.Footprint(), chip
      ensures Pumping(chip, t0, p0, trackers, total) && profile == old(profile)
      ensures chip.broken == old(chip.broken) && chip.regs == old(chip.regs) && chip.writes == old(chip.writes)
      ensures ok == DrainPairs(handled, maxId, touchIds, |p0| - handled, broken).0
      ensures total == handled + DrainPairs(handled, maxId, touchIds, |p0| - handled, broken).1
    {
      ghost var d := DrainPairs(handled, maxId, touchIds, |p0| - handled, broken);
      ghost var owed: nat := d.1;
      total := handled;
      while true
        invariant Pumping(chip, t0, p0, trackers, total) && profile == old(profile)
        invariant chip.broken == old(chip.broken) && chip.regs == old(chip.regs) && chip.writes == old(chip.writes)
        invariant DrainPairs(total, maxId, touchIds, |p0| - total, broken).0 == d.0
        invariant DrainPairs(total, maxId, touchIds, |p0| - total, broken).1 == owed
        invariant total + owed == handled + d.1
        decreases |p0| - total
      {
        var n;
        ghost var after;
        n, after := ReadPair(chip, total, t0, p0, trackers, maxId, touchIds, broken, d.0, owed);
        if n < 0 {
          return false, total;
        }
        total := total + n;
        assert total == after;
        if n < 2 || total >= profile.numTouchIds {
          return true, total;
        }
        owed := owed - n;
      }
    }

    /** AtmelDeviceRead: read one message more than the last interrupt found
        (the hint replaced by 1 when it is out of range); if the read found more
        than the hint, keep reading two at a time until a read comes back short
        or num_touchids messages are handled; keep the total as the next hint.
        Fails only when a read is refused. */
    method DeviceRead(chip: Chip) returns (ret: bool)
      requires Valid() && Ready() && chip.Valid() && Deliverable(profile, chip.pending)
      modifies this`regsSet, this`reports, this`lastMessageCount, table.Footprint(), chip
      ensures Valid() && chip.Valid() && Deliverable(profile, chip.pending) && profile == old(profile)
      ensures chip.broken == old(chip.broken) && chip.regs == old(chip.regs) && chip.writes == old(chip.writes)
      ensures var plan := DeviceReadPlan(old(lastMessageCount), profile.maxReportId, profile.numTouchIds,
                                         |old(chip.pending)|, chip.broken);
        ret == plan.0 && lastMessageCount == plan.2 && chip.pending == old(chip.pending)[plan.1..]
        && Tracked() == Drained(profile, old(Tracked()), old(chip.pending), plan.1)
    {
      ghost var t0, p0 := Tracked(), chip.pending;
      ghost var hint, maxId, touchIds, broken := lastMessageCount, profile.maxReportId, profile.numTouchIds, chip.broken;
      ghost var trackers := Tabulate(profile, t0, p0);
      assert p0[0..] == p0;
      var count := lastMessageCount;
      if count < 1 || count > profile.maxReportId {
        count := 1;
      }
      var total;
      ghost var consumed;
      total, consumed := ReadMore(chip, Wrap8(count + 1), t0, p0, trackers, 0, maxId, broken);
      if total <= count {
        DeviceReadFirst(hint, maxId, touchIds, |p0|, broken, count, total);
        assert Tracked() == trackers[consumed] == Drained(profile, t0, p0, consumed);
        if total < 0 {
          return false;
        }
        lastMessageCount := Wrap8(total);
        return true;
      }
      ghost var first := total;
      ret, total := ReadPairs(chip, total, t0, p0, trackers, maxId, touchIds, broken);
      DeviceReadPairs(hint, maxId, touchIds, |p0|, broken, count, first,
                      DrainPairs(first, maxId, touchIds, |p0| - first, broken), total);
      assert Tracked() == trackers[total] == Drained(profile, t0, p0, total);
      if ret {
        lastMessageCount := Wrap8(total);
      }
    }

    /** The drain OnInterruptIsr picks: through T44 when the chip has a message
        counter, else through the adaptive read. */
    method Drain(chip: Chip) returns (ret: bool)
      requires Valid() && Ready() && chip.Valid() && Deliverable(profile, chip.pending)
      modifies this`regsSet, this`reports, this`lastMessageCount, table.Footprint(), chip
      ensures Valid() && chip.Valid() && profile == old(profile)
      ensures chip.broken == old(chip.broken) && chip.regs == old(chip.regs) && chip.writes == old(chip.writes)
      ensures profile.t44Address != 0 ==>
        var n := T44Consumed(profile.maxReportId, |old(chip.pending)|, chip.broken);
        ret && lastMessageCount == old(lastMessageCount) && chip.pending == old(chip.pending)[n..]
        && Tracked() == Drained(profile, old(Tracked()), old(chip.pending), n)
      ensures profile.t44Address == 0 ==>
        var plan := DeviceReadPlan(old(lastMessageCount), profile.maxReportId, profile.numTouchIds,
                                   |old(chip.pending)|, chip.broken);
        ret == plan.0 && lastMessageCount == plan.2 && chip.pending == old(chip.pending)[plan.1..]
        && Tracked() == Drained(profile, old(Tracked()), old(chip.pending), plan.1)
    {
      if profile.t44Address != 0 {
        ret := DeviceReadT44(chip);
      } else {
        ret := DeviceRead(chip);
      }
    }

    /** OnInterruptIsr: nothing, and false, unless the interrupt is connected;
        otherwise drain the queue through T44 when the chip has a message
        counter, else through the adaptive read, then build and deliver a
        report from the slots. Returns what the drain returned. */
    method OnInterruptIsr(chip: Chip) returns (ret: bool)
      requires Valid() && chip.Valid() && (connectInterrupt ==> Ready() && Deliverable(profile, chip.pending))
      modifies this`regsSet, this`reports, this`lastMessageCount, table.Footprint(), chip
      ensures Valid() && chip.Valid() && profile == old(profile)
      ensures chip.broken == old(chip.broken) && chip.regs == old(chip.regs) && chip.writes == old(chip.writes)
      ensures !connectInterrupt ==>
        !ret && Tracked() == old(Tracked()) && chip.pending == old(chip.pending) && lastMessageCount == old(lastMessageCount)
      ensures connectInterrupt && profile.t44Address != 0 ==>
        var n := T44Consumed(profile.maxReportId, |old(chip.pending)|, chip.broken);
        ret && lastMessageCount == old(lastMessageCount) && chip.pending == old(chip.pending)[n..]
        && Tracked() == Input(Cpp, Drained(profile, old(Tracked()), old(chip.pending), n))
      ensures connectInterrupt && profile.t44Address == 0 ==>
        var plan := DeviceReadPlan(old(lastMessageCount), profile.maxReportId, profile.numTouchIds,
                                   |old(chip.pending)|, chip.broken);
        ret == plan.0 && lastMessageCount == plan.2 && chip.pending == old(chip.pending)[plan.1..]
        && Tracked() == Input(Cpp, Drained(profile, old(Tracked()), old(chip.pending), plan.1))
    {
      if !connectInterrupt {
        return false;
      }
      ret := Drain(chip);
      ProcessInput();
    }

    /** AtmelTimerFunc: once the interrupt is connected and a message has been
        processed, build and deliver a report from the slots. */
    method TimerFunc()
      requires Valid()
      modifies this`reports, table.flags
      ensures Valid()
      ensures Tracked() == if connectInterrupt && regsSet then Input(Cpp, old(Tracked())) else old(Tracked())
    {
      if !connectInterrupt {
        return;
      }
      if !regsSet {
        return;
      }
      ProcessInput();
    }

    /** The two reads at address 0 that open the first boot: the information
        block, then the whole configuration block, whose object table is
        parsed and searched for the message and command processors. The CRC
        at its end is compared only for a log message. */
    method ReadConfig(chip: Chip) returns (ok: bool)
      modifies this`coreInfo, this`objects, this`msgProcObj, this`cmdProcObj
      ensures ok == !chip.broken
      ensures !ok ==> coreInfo == old(coreInfo) && objects == old(objects)
                      && msgProcObj == old(msgProcObj) && cmdProcObj == old(cmdProcObj)
      ensures ok ==> coreInfo == ConfigInfo(chip.regs) && objects == ConfigObjects(chip.regs)
                     && msgProcObj == FindObject(objects, GenMessageProcessor)
                     && cmdProcObj == FindObject(objects, GenCommandProcessor)
    {
      var data;
      ok, data := chip.ReadRegs(0, InfoBlockSize);
      if !ok {
        return;
      }
      coreInfo := ParseInfo(data);
      var n := coreInfo.numObjects;
      var block;
      ok, block := chip.ReadRegs(0, InfoBlockSize + ObjectEntrySize * n + RawCrcSize);
      objects := ParseTable(block[InfoBlockSize..], n);
      msgProcObj := FindObject(objects, GenMessageProcessor);
      cmdProcObj := FindObject(objects, GenCommandProcessor);
    }

    /** One iteration of the scan loop of BOOTTOUCHSCREEN: an object with
        report ids takes the next range from the counter; the fields of an
        object the driver uses are cached. */
    method ScanEntry(obj: ObjectEntry, reportId: nat) returns (next: nat)
      modifies this`profile
      ensures ScanState(next, profile) == ScanStep(info, ScanState(reportId, old(profile)), obj)
    {
      next := reportId;
      var minId: u8, maxId: u8 := 0, 0;
      if obj.numReportIds != 0 {
        minId := Wrap8(next);
        next := next + obj.numReportIds * ObjInstances(obj);
        maxId := Wrap8(next - 1);
      }
      if obj.objType == GenMessageT5 {
        if info.family == 0x80 && info.version < 0x20 {
          profile := profile.(t5MsgSize := Wrap8(ObjSize(obj)));
        } else {
          profile := profile.(t5MsgSize := ObjSize(obj) - 1);
        }
        profile := profile.(t5Address := obj.startAddress);
      } else if obj.objType == GenCommandT6 {
        profile := profile.(t6ReportId := minId, t6Address := obj.startAddress);
      } else if obj.objType == GenPowerT7 {
        profile := profile.(t7Address := obj.startAddress);
      } else if obj.objType == TouchMultiT9 {
        profile := profile.(multitouch := TouchMultiT9, t9ReportIdMin := minId, t9ReportIdMax := maxId,
                            numTouchIds := Wrap8(obj.numReportIds * ObjInstances(obj)));
      } else if obj.objType == SptMessageCountT44 {
        profile := profile.(t44Address := obj.startAddress);
      } else if obj.objType == SptGpioPwmT19 {
        profile := profile.(t19ReportId := minId);
      } else if obj.objType == TouchMultiTouchScreenT100 {
        profile := profile.(multitouch := TouchMultiTouchScreenT100, t100ReportIdMin := minId,
                            t100ReportIdMax := maxId, numTouchIds := Wrap8(obj.numReportIds - 2));
      }
    }

    /** The scan loop of BOOTTOUCHSCREEN: a report-id counter from 1 runs over
        the object table in order, and the final counter becomes
        max_reportid. */
    method ScanObjectTable()
      modifies this`profile
      ensures profile == ScanTable(info, objects, old(profile))
    {
      var reportId: nat := 1;
      for i := 0 to |objects|
        invariant ScanPrefix(info, objects, i, old(profile)) == ScanState(reportId, profile)
      {
        reportId := ScanEntry(objects[i], reportId);
      }
      profile := profile.(maxReportId := Wrap8(reportId));
    }

    /** mxt_read_t9_resolution: read the sizes (unused), the range pair and the
        orientation of the first T9 object, and cache the screen size they
        give. A failed read ends it early. */
    method ReadT9Resolution(chip: Chip)
      requires FindObject(objects, TouchMultiT9).Some?
      modifies this`profile
      ensures chip.broken ==> profile == old(profile)
      ensures !chip.broken ==> profile == T9Geometry(old(profile), objects[FindObject(objects, TouchMultiT9).value], chip.regs)
    {
      var o := objects[FindObject(objects, TouchMultiT9).value];
      var ok, xsize := chip.ReadRegs(ObjectReg(o, T9XSizeOffset), 1);
      if !ok {
        return;
      }
      var ysize, range, orient;
      ok, ysize := chip.ReadRegs(ObjectReg(o, T9YSizeOffset), 1);
      ok, range := chip.ReadRegs(ObjectReg(o, T9RangeOffset), 4);
      ok, orient := chip.ReadRegs(ObjectReg(o, T9OrientOffset), 1);
      var screen := T9Screen(Le16(range[0], range[1]), Le16(range[2], range[3]), orient[0]);
      profile := profile.(maxX := screen.0, maxY := screen.1);
    }

    /** mxt_read_t100_config: read the X and Y ranges and the first
        configuration byte of the first T100 object and cache the screen size
        they give, then read the TCHAUX byte and cache the offsets of the
        auxiliary fields it enables. A failed read ends it early. */
    method ReadT100Config(chip: Chip)
      requires FindObject(objects, TouchMultiTouchScreenT100).Some?
      modifies this`profile
      ensures chip.broken ==> profile == old(profile)
      ensures !chip.broken ==>
        profile == T100Geometry(old(profile), objects[FindObject(objects, TouchMultiTouchScreenT100).value], chip.regs)
    {
      var o := objects[FindObject(objects, TouchMultiTouchScreenT100).value];
      var ok, rx := chip.ReadRegs(ObjectReg(o, T100XRangeOffset), 2);
      if !ok {
        return;
      }
      var ry, cfg, tchaux;
      ok, ry := chip.ReadRegs(ObjectReg(o, T100YRangeOffset), 2);
      ok, cfg := chip.ReadRegs(ObjectReg(o, T100Cfg1Offset), 1);
      var screen := T100Screen(Le16(rx[0], rx[1]), Le16(ry[0], ry[1]), cfg[0]);
      profile := profile.(maxX := screen.0, maxY := screen.1);
      ok, tchaux := chip.ReadRegs(ObjectReg(o, T100TchAuxOffset), 1);
      var aux := T100AuxOffsets(tchaux[0], profile.t100AuxVect, profile.t100AuxAmpl, profile.t100AuxArea);
      profile := profile.(t100AuxVect := aux.0, t100AuxAmpl := aux.1, t100AuxArea := aux.2);
    }

    /** The geometry step of BOOTTOUCHSCREEN: read the configuration of the
        touch object the profile names, then cache the byte pairs of the
        screen size for the report descriptor. */
    method ReadTouchGeometry(chip: Chip)
      requires HasTouchObject(profile, objects)
      modifies this`profile
      ensures !chip.broken ==> profile == WithHid(ReadGeometry(old(profile), objects, chip.regs))
      ensures chip.broken ==> profile == WithHid(old(profile))
    {
      if profile.multitouch == TouchMultiT9 {
        ReadT9Resolution(chip);
      } else if profile.multitouch == TouchMultiTouchScreenT100 {
        ReadT100Config(chip);
      }
      if profile.multitouch == TouchMultiT9 || profile.multitouch == TouchMultiTouchScreenT100 {
        profile := profile.(maxXHid := LeBytes(profile.maxX), maxYHid := LeBytes(profile.maxY));
      }
    }

    /** atmel_reset_device: write 1 at the reset offset of the command
        processor. */
    method ResetDevice(chip: Chip) returns (ok: bool)
      requires cmdProcObj.Some? && cmdProcObj.value < |objects|
      modifies chip
      ensures chip.broken == old(chip.broken) && chip.regs == old(chip.regs) && chip.pending == old(chip.pending)
      ensures ok == !chip.broken
      ensures chip.writes == old(chip.writes) + (if ok then [ResetWrite(objects[cmdProcObj.value])] else [])
    {
      ok := chip.WriteRegs(ObjectReg(objects[cmdProcObj.value], CmdProcResetOffset), [1]);
    }

    /** OnD0Entry: reset the chip (its status is ignored), clear the flags of
        all twenty slots, forget that a message was processed and connect the
        interrupt. */
    method OnD0Entry(chip: Chip)
      requires Valid() && cmdProcObj.Some? && cmdProcObj.value < |objects|
      modifies this`regsSet, this`connectInterrupt, table.flags, chip
      ensures Valid()
      ensures table.Contents() == Cleared(old(table.Contents())) && !regsSet && connectInterrupt
      ensures chip.broken == old(chip.broken) && chip.regs == old(chip.regs) && chip.pending == old(chip.pending)
      ensures chip.writes == old(chip.writes) + (if chip.broken then [] else [ResetWrite(objects[cmdProcObj.value])])
    {
      var ok := ResetDevice(chip);
      table.ClearFlags();
      regsSet := false;
      connectInterrupt := true;
    }

    /** What the resume branch of BOOTTOUCHSCREEN dereferences: the command
        processor, and the first T9 object unless the screen is T100. */
    predicate ResumeReady()
      reads this
    {
      cmdProcObj.Some? && cmdProcObj.value < |objects|
      && (profile.multitouch != TouchMultiTouchScreenT100 ==> FindObject(objects, TouchMultiT9).Some?)
    }

    /** OnReleaseHardware: free the configuration buffer and set both processor
        pointers to null. The boot flag stays set, so the next BOOTTOUCHSCREEN
        takes the resume branch, and the command processor its reset needs is
        gone. */
    method OnReleaseHardware()
      modifies this`msgProcObj, this`cmdProcObj
      ensures msgProcObj == None && cmdProcObj == None
      ensures !ResumeReady()
    {
      msgProcObj, cmdProcObj := None, None;
    }

    /** The resume branch of BOOTTOUCHSCREEN: write the active power
        configuration to T7 on a T100 screen, or 0x83 to the control byte of
        the first T9 object otherwise, then reset the chip. A failed write
        ends it with its status. */
    method Resume(chip: Chip) returns (ok: bool)
      requires ResumeReady()
      modifies chip
      ensures chip.broken == old(chip.broken) && chip.regs == old(chip.regs) && chip.pending == old(chip.pending)
      ensures ok == !chip.broken
      ensures chip.writes == old(chip.writes)
        + (if ok then [ResumeWrite(profile, objects), ResetWrite(objects[cmdProcObj.value])] else [])
    {
      if profile.multitouch == TouchMultiTouchScreenT100 {
        ok := chip.WriteRegs(profile.t7Address, [T7IdleCycle as bv8, T7ActiveCycle as bv8]);
      } else {
        var o := objects[FindObject(objects, TouchMultiT9).value];
        ok := chip.WriteRegs(ObjectReg(o, T9CtrlOffset), [0x83]);
      }
      if !ok {
        return;
      }
      ok := ResetDevice(chip);
    }

    /** The configuration step of the first boot: read the information block
        and the object table, find the message and command processors and
        scan the table. */
    method Configure(chip: Chip) returns (ok: bool)
      modifies this`coreInfo, this`objects, this`msgProcObj, this`cmdProcObj, this`profile
      ensures ok == !chip.broken
      ensures regsSet == old(regsSet) && reports == old(reports) && touchScreenBooted == old(touchScreenBooted)
      ensures !ok ==>
        coreInfo == old(coreInfo) && objects == old(objects) && msgProcObj == old(msgProcObj)
        && cmdProcObj == old(cmdProcObj) && profile == old(profile)
      ensures ok ==>
        coreInfo == ConfigInfo(chip.regs) && objects == ConfigObjects(chip.regs)
        && msgProcObj == FindObject(objects, GenMessageProcessor)
        && cmdProcObj == FindObject(objects, GenCommandProcessor)
        && profile == Scanned(info, chip.regs, old(profile))
    {
      ok := ReadConfig(chip);
      if !ok {
        return;
      }
      ScanObjectTable();
    }

    /** The rest of the first boot: drain the queued messages, read the touch
        geometry and reset the chip. */
    method Settle(chip: Chip) returns (ok: bool)
      requires Valid() && chip.Valid() && Ready() && Deliverable(profile, chip.pending)
      requires HasTouchObject(profile, objects) && cmdProcObj.Some? && cmdProcObj.value < |objects|
      modifies this`profile, this`regsSet, this`reports, table.Footprint(), chip
      ensures Valid() && chip.Valid()
      ensures chip.broken == old(chip.broken) && chip.regs == old(chip.regs) && ok == !chip.broken
      ensures coreInfo == old(coreInfo) && objects == old(objects) && msgProcObj == old(msgProcObj)
              && cmdProcObj == old(cmdProcObj) && touchScreenBooted == old(touchScreenBooted)
      ensures !chip.broken ==> profile == WithHid(ReadGeometry(old(profile), objects, chip.regs))
      ensures chip.broken ==> profile == WithHid(old(profile))
      ensures chip.writes == old(chip.writes) + (if ok then [ResetWrite(objects[cmdProcObj.value])] else [])
      ensures var plan := UntilInvalidPlan(old(profile).maxReportId, |old(chip.pending)|, chip.broken);
        chip.pending == old(chip.pending)[plan.1..]
        && Tracked() == Drained(old(profile), old(Tracked()), old(chip.pending), plan.1)
    {
      var drained := ProcessMessagesUntilInvalid(chip);
      ReadTouchGeometry(chip);
      ok := ResetDevice(chip);
    }

    /** The first-boot branch of BOOTTOUCHSCREEN: configure, drain, read the
        geometry, reset the chip and mark the screen booted. A failed first
        read ends it with nothing changed; the boot timer it starts is not
        modelled. */
    method FirstBoot(chip: Chip) returns (ret: bool, ghost scanned: Profile)
      requires Valid() && chip.Valid()
      requires !chip.broken ==> BootReady(info, chip.regs, chip.pending, profile)
      modifies this`coreInfo, this`objects, this`msgProcObj, this`cmdProcObj, this`profile
      modifies this`regsSet, this`reports, table.Footprint(), this`touchScreenBooted, chip
      ensures Valid() && chip.Valid()
      ensures chip.broken == old(chip.broken) && chip.regs == old(chip.regs)
      ensures ret == !chip.broken
      ensures !ret ==>
        coreInfo == old(coreInfo) && objects == old(objects) && msgProcObj == old(msgProcObj)
        && cmdProcObj == old(cmdProcObj) && profile == old(profile) && touchScreenBooted == old(touchScreenBooted)
        && chip.pending == old(chip.pending) && chip.writes == old(chip.writes) && Tracked() == old(Tracked())
      ensures ret ==>
        coreInfo == ConfigInfo(chip.regs) && objects == ConfigObjects(chip.regs)
        && msgProcObj == FindObject(objects, GenMessageProcessor)
        && cmdProcObj == FindObject(objects, GenCommandProcessor) && cmdProcObj.Some? && cmdProcObj.value < |objects|
      ensures ret ==> scanned == Scanned(info, chip.regs, old(profile)) && HasTouchObject(scanned, objects)
      ensures ret ==> profile == WithHid(ReadGeometry(scanned, objects, chip.regs)) && touchScreenBooted
      ensures ret ==> chip.writes == old(chip.writes) + [ResetWrite(objects[cmdProcObj.value])]
      ensures ret ==>
        var plan := UntilInvalidPlan(scanned.maxReportId, |old(chip.pending)|, false);
        chip.pending == old(chip.pending)[plan.1..] && Tracked() == Drained(scanned, old(Tracked()), old(chip.pending), plan.1)
    {
      ret := Configure(chip);
      scanned := profile;
      if !ret {
        return;
      }
      ret := Settle(chip);
      if ret {
        touchScreenBooted := true;
      }
    }

    /** BOOTTOUCHSCREEN: the first boot, or on a later call the resume
        branch. */
    method Boot(chip: Chip) returns (ret: bool)
      requires Valid() && chip.Valid()
      requires !touchScreenBooted && !chip.broken ==> BootReady(info, chip.regs, chip.pending, profile)
      requires touchScreenBooted ==> ResumeReady()
      modifies this`coreInfo, this`objects, this`msgProcObj, this`cmdProcObj, this`profile
      modifies this`regsSet, this`reports, table.Footprint(), this`touchScreenBooted, chip
      ensures Valid() && chip.Valid()
      ensures chip.broken == old(chip.broken) && chip.regs == old(chip.regs)
      ensures ret == !chip.broken && touchScreenBooted == (old(touchScreenBooted) || ret)
      ensures old(touchScreenBooted) || !ret ==>
        coreInfo == old(coreInfo) && objects == old(objects)
        && msgProcObj == old(msgProcObj) && cmdProcObj == old(cmdProcObj) && profile == old(profile)
        && chip.pending == old(chip.pending) && Tracked() == old(Tracked())
      ensures old(touchScreenBooted) ==>
        chip.writes == old(chip.writes)
        + (if ret then [ResumeWrite(profile, objects), ResetWrite(objects[cmdProcObj.value])] else [])
      ensures !old(touchScreenBooted) && ret ==>
        coreInfo == ConfigInfo(chip.regs) && objects == ConfigObjects(chip.regs)
        && msgProcObj == FindObject(objects, GenMessageProcessor)
        && cmdProcObj == FindObject(objects, GenCommandProcessor) && cmdProcObj.Some?
        && profile == Booted(info, chip.regs, old(profile))
        && chip.writes == old(chip.writes) + [ResetWrite(objects[cmdProcObj.value])]
      ensures !old(touchScreenBooted) && ret ==>
        var s := Scanned(info, chip.regs, old(profile));
        var plan := UntilInvalidPlan(s.maxReportId, |old(chip.pending)|, false);
        chip.pending == old(chip.pending)[plan.1..] && Tracked() == Drained(s, old(Tracked()), old(chip.pending), plan.1)
    {
      if !touchScreenBooted {
        ghost var scanned;
        ret, scanned := FirstBoot(chip);
      } else {
        ret := Resume(chip);
      }
    }
  }
}
