/** atmel.c, the older single-message driver: each interrupt reads one T9
    message, writes it into the slot arrays unchecked, and renders a report in
    the Legacy style; the timer re-renders; power-up clears the slot flags. */
module LegacyDriver {
  import opened Protocol
  import opened Messages
  import opened Reports
  import opened Processing
  import opened SlotArrays

  /** The decoder indexes the slot arrays with the report id and checks it only
      against 0xff: any other id must name one of the twenty slots. */
  predicate LegacyProcessable(m: seq<bv8>)
  {
    |m| >= MinMessageSize && (m[0] == InvalidReportId || m[0] as int < SlotCount)
  }

  /** The slot atmel.c decodes from a message: the flags byte, the 12-bit x
      unscaled, the 12-bit y always divided by four, and the area byte. */
  function LegacySlot(m: seq<bv8>): (s: Slot)
    requires |m| >= MinMessageSize
    ensures s.x < 0x1000 && s.y < 0x400
    ensures s.flags == m[1] && s.area == m[5] as bv16
  {
    Slot(m[1], RawT9X(m), RawT9Y(m) / 4, m[5] as bv16)
  }

  /** The slots after the decode: the sentinel changes nothing, any other
      message replaces its own slot and no other. */
  function LegacyTrack(slots: seq<Slot>, m: seq<bv8>): (r: seq<Slot>)
    requires |slots| == SlotCount && LegacyProcessable(m)
    ensures |r| == SlotCount
    ensures m[0] == InvalidReportId ==> r == slots
    ensures m[0] != InvalidReportId ==>
      r[m[0] as int] == LegacySlot(m) && forall j :: 0 <= j < SlotCount && j != m[0] as int ==> r[j] == slots[j]
  {
    if m[0] == InvalidReportId then slots else slots[m[0] as int := LegacySlot(m)]
  }

  /** One interrupt: decode, render and deliver in the Legacy style, then
      record that a message was handled (the sentinel included). */
  function LegacyStep(t: Tracker, m: seq<bv8>): (r: Tracker)
    requires WellFormed(t) && LegacyProcessable(m)
    ensures WellFormed(r) && r.regsSet
  {
    Input(Legacy, Tracker(LegacyTrack(t.slots, m), t.reports, t.regsSet)).(regsSet := true)
  }

  /** A touch the interrupt decodes is in the report it delivers, with the
      message's own values, whenever its slot is among the first ten active
      ones: that report is the one the step appends. */
  lemma LegacyTouchReported(t: Tracker, m: seq<bv8>)
    requires WellFormed(t) && LegacyProcessable(m) && m[0] != InvalidReportId && m[1] != 0
    requires m[0] as int in Take(Active(LegacyTrack(t.slots, m)), MaxContacts)
    ensures var r := LegacyStep(t, m);
      |r.reports| == |t.reports| + 1 && r.reports[..|t.reports|] == t.reports
      && ContactOf(Legacy, m[0] as int, LegacySlot(m)) in r.reports[|t.reports|].contacts
  {
    var slots := LegacyTrack(t.slots, m);
    var shown := Take(Active(slots), MaxContacts);
    RenderSpec(Legacy, slots);
    ActiveFromShape(slots, 0);
    var k :| 0 <= k < |shown| && shown[k] == m[0] as int;
    var c := Render(Legacy, slots).0;
    assert c[k] == ContactOf(Legacy, m[0] as int, LegacySlot(m));
  }

  /** The device context of atmel.c that its interrupt, timer and power-up
      routines use. */
  class LegacyDevice {
    /** Flags, XValue, YValue and AREA. */
    const table: SlotTable
    var regsSet: bool
    var connectInterrupt: bool
    /** `lastmsg`: the message the last interrupt read. */
    var lastMsg: seq<bv8>
    /** Reports handed to the HID stack, oldest first. */
    var reports: seq<TouchReport>

    predicate Valid()
    {
      table.Valid() && this !in table.Footprint()
    }

    function Tracked(): (t: Tracker)
      requires Valid()
      reads this, table.Footprint()
      ensures WellFormed(t)
    {
      Tracker(table.Contents(), reports, regsSet)
    }

    /** A device context as the framework creates it: all zeros. */
    constructor ()
      ensures Valid() && fresh(table.Footprint())
      ensures forall j :: 0 <= j < SlotCount ==> table.Contents()[j] == Slot(0, 0, 0, 0)
      ensures !regsSet && !connectInterrupt && lastMsg == [] && reports == []
    {
      table := new SlotTable();
      regsSet, connectInterrupt, lastMsg, reports := false, false, [], [];
    }

    /** OnInterruptIsr of atmel.c: ignored while the interrupt is disconnected;
        otherwise decode the message the bus returned into its slot, render and
        deliver a report, and keep the message. Always claims the interrupt. */
    method OnInterruptIsr(msg: seq<bv8>) returns (ret: bool)
      requires Valid() && LegacyProcessable(msg)
      modifies this`regsSet, this`reports, this`lastMsg, table.Footprint()
      ensures Valid() && ret
      ensures !connectInterrupt ==> Tracked() == old(Tracked()) && lastMsg == old(lastMsg)
      ensures connectInterrupt ==> Tracked() == LegacyStep(old(Tracked()), msg) && lastMsg == msg
    {
      if !connectInterrupt {
        return true;
      }
      if msg[0] != InvalidReportId {
        table.Write(msg[0] as int, LegacySlot(msg));
      }
      var contacts := table.Render(Legacy);
      reports := Deliver(reports, contacts);
      lastMsg := msg;
      regsSet := true;
      return true;
    }

    /** CyapaTimerFunc: re-render the slots as they are, but only once the
        interrupt is connected and a message has been handled. */
    method TimerFunc()
      requires Valid()
      modifies this`reports, table.flags
      ensures Valid()
      ensures Tracked() == if connectInterrupt && regsSet then Input(Legacy, old(Tracked())) else old(Tracked())
    {
      if !connectInterrupt || !regsSet {
        return;
      }
      var contacts := table.Render(Legacy);
      reports := Deliver(reports, contacts);
    }

    /** OnD0Entry of atmel.c: clear the flags of all twenty slots, forget that
        a message was handled and connect the interrupt. */
    method OnD0Entry()
      requires Valid()
      modifies this`regsSet, this`connectInterrupt, table.flags
      ensures Valid()
      ensures table.Contents() == Cleared(old(table.Contents())) && !regsSet && connectInterrupt
      ensures reports == old(reports) && lastMsg == old(lastMsg)
    {
      table.ClearFlags();
      regsSet := false;
      connectInterrupt := true;
    }
  }
}
