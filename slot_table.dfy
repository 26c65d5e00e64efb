/** The four per-slot arrays of the device context (Flags, XValue, YValue and
    AREA), updated in place by the decoder, the report loop and the power-up
    reset. */
module SlotArrays {
  import opened Protocol
  import opened Messages
  import opened Reports

  /** The slots the four arrays hold, slot `j` made of entry `j` of each. */
  function SlotsOf(f: seq<bv8>, x: seq<bv16>, y: seq<bv16>, a: seq<bv16>): (s: seq<Slot>)
    requires |f| == SlotCount && |x| == SlotCount && |y| == SlotCount && |a| == SlotCount
    ensures |s| == SlotCount
    ensures forall j :: 0 <= j < SlotCount ==> s[j] == Slot(f[j], x[j], y[j], a[j])
  {
    seq(SlotCount, j requires 0 <= j < SlotCount => Slot(f[j], x[j], y[j], a[j]))
  }

  /** The slots with every flag cleared and the positions and areas kept. */
  function Cleared(slots: seq<Slot>): (r: seq<Slot>)
    requires |slots| == SlotCount
    ensures |r| == SlotCount
    ensures forall j :: 0 <= j < SlotCount ==> r[j] == slots[j].(flags := 0)
  {
    seq(SlotCount, j requires 0 <= j < SlotCount => slots[j].(flags := 0))
  }

  /** After the flags are cleared no slot is active, so a report built then is
      empty and nothing is sent. */
  lemma ClearedSendsNothing(style: Style, slots: seq<Slot>, reports: seq<TouchReport>)
    requires |slots| == SlotCount
    ensures Render(style, Cleared(slots)) == ([], Cleared(slots))
    ensures Deliver(reports, Render(style, Cleared(slots)).0) == reports
  {
    QuietSlotsSendNothing(style, Cleared(slots), reports);
  }

  class SlotTable {
    const flags: array<bv8>
    const xValue: array<bv16>
    const yValue: array<bv16>
    const area: array<bv16>

    /** Twenty entries each, in three distinct 16-bit arrays. */
    predicate Valid()
    {
      flags.Length == SlotCount && xValue.Length == SlotCount && yValue.Length == SlotCount
      && area.Length == SlotCount
      && xValue != yValue && xValue != area && yValue != area
    }

    function Footprint(): set<object>
    {
      {flags as object, xValue, yValue, area}
    }

    function Contents(): (s: seq<Slot>)
      requires Valid()
      reads Footprint()
      ensures |s| == SlotCount
    {
      SlotsOf(flags[..], xValue[..], yValue[..], area[..])
    }

    /** The flags of slot `i`, as the T100 decoder consults them. */
    function FlagsAt(i: nat): (f: bv8)
      requires Valid() && i < SlotCount
      reads flags
      ensures f == Contents()[i].flags
    {
      flags[i]
    }

    /** The arrays of a freshly created device context are zero. */
    constructor ()
      ensures Valid() && fresh(Footprint())
      ensures forall j :: 0 <= j < SlotCount ==> Contents()[j] == Slot(0, 0, 0, 0)
    {
      flags := new bv8[SlotCount](_ => 0);
      xValue := new bv16[SlotCount](_ => 0);
      yValue := new bv16[SlotCount](_ => 0);
      area := new bv16[SlotCount](_ => 0);
    }

    /** Write all four fields of slot `i`. */
    method Write(i: nat, s: Slot)
      requires Valid() && i < SlotCount
      modifies Footprint()
      ensures Valid()
      ensures Contents() == old(Contents())[i := s]
    {
      flags[i] := s.flags;
      xValue[i] := s.x;
      yValue[i] := s.y;
      area[i] := s.area;
    }

    /** The power-up reset: clear the flags of all twenty slots. */
    method ClearFlags()
      requires Valid()
      modifies flags
      ensures Valid()
      ensures Contents() == Cleared(old(Contents()))
    {
      for i := 0 to SlotCount
        invariant forall j :: 0 <= j < i ==> flags[j] == 0
        invariant forall j :: i <= j < SlotCount ==> flags[j] == old(flags[j])
      {
        flags[i] := 0;
      }
    }

    /** Report slot `i`: its entry, and the slot cleared when the entry reports
        a release. */
    method ReportSlot(style: Style, i: nat) returns (c: Contact)
      requires Valid() && i < SlotCount
      modifies flags
      ensures Valid()
      ensures c == ContactOf(style, i, old(Contents())[i])
      ensures Contents() == old(Contents())[i := Reported(old(Contents())[i])]
    {
      var f := flags[i];
      c := Contact(ContactStatus(style, f), i, xValue[i], yValue[i], area[i], area[i]);
      if ReleaseOnly(f) {
        flags[i] := 0;
      }
    }

    /** The report loop: walk the slots in index order, report each active one
      until ten are reported, and clear a slot whose release it reports. */
    method Render(style: Style) returns (contacts: seq<Contact>)
      requires Valid()
      modifies flags
      ensures Valid()
      ensures (contacts, Contents()) == Reports.Render(style, old(Contents()))
    {
      ghost var init := Contents();
      contacts := [];
      var count, i := 0, 0;
      while count < MaxContacts && i < SlotCount
        invariant Valid() && i <= SlotCount && count == |contacts|
        invariant contacts == RenderUpTo(style, init, i).0
        invariant Contents() == RenderUpTo(style, init, i).1
        decreases SlotCount - i
      {
        if flags[i] != 0 {
          var c := ReportSlot(style, i);
          contacts := contacts + [c];
          count := count + 1;
        }
        i := i + 1;
      }
      RenderUpToMeetsRender(style, init, i);
      RenderFromDone(style, Contents(), i, count);
      assert contacts + [] == contacts;
    }
  }
}
