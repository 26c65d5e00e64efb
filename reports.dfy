/** The report builder shared by every entry point of both drivers: it walks the
    20 slots in index order, reports the first ten whose flags are nonzero, and
    clears a slot once its release has been reported. */
module Reports {
  import opened Protocol
  import opened Messages

  /** One entry of the multitouch report. */
  datatype Contact = Contact(status: bv8, contactId: nat, x: bv16, y: bv16, width: bv16, height: bv16)

  /** The report handed to the HID layer. */
  datatype TouchReport = TouchReport(reportId: u8, contacts: seq<Contact>, actualCount: nat)

  /** atmel.cpp reports a release with confidence only; atmel.c reports it with
      no bits at all and reports a slot with no known flag as in range. */
  datatype Style = Cpp | Legacy

  function Touching(flags: bv8): bool
  {
    flags & T9Detect != 0 || flags & T9Press != 0
  }

  /** A slot whose flags show a release and neither detect nor press is cleared
      once reported. */
  function ReleaseOnly(flags: bv8): bool
  {
    !Touching(flags) && flags & T9Release != 0
  }

  /** The status byte of a reported slot (the bits are stated in
      ContactStatusBits). */
  function ContactStatus(style: Style, flags: bv8): (s: bv8)
    ensures s & !(TipSwitchBit | ConfidenceBit | InRangeBit) == 0
    ensures flags & (T9Detect | T9Press | T9Release) == 0 ==> s == (if style == Legacy then InRangeBit else 0)
  {
    match style
    case Cpp =>
      if flags & T9Detect != 0 then ConfidenceBit | TipSwitchBit
      else if flags & T9Press != 0 then ConfidenceBit | TipSwitchBit
      else if flags & T9Release != 0 then ConfidenceBit
      else 0
    case Legacy =>
      if flags & T9Detect != 0 then InRangeBit | ConfidenceBit | TipSwitchBit
      else if flags & T9Press != 0 then InRangeBit | ConfidenceBit | TipSwitchBit
      else if flags & T9Release != 0 then 0
      else InRangeBit
  }

  /** Tip switch exactly while touching; confidence while touching, and for a
      release too in atmel.cpp; in range, in atmel.c only, for everything but a
      release. */
  lemma ContactStatusBits(style: Style, flags: bv8)
    ensures var s := ContactStatus(style, flags);
      (s & TipSwitchBit != 0 <==> Touching(flags))
      && (style == Cpp ==> (s & ConfidenceBit != 0 <==> Touching(flags) || ReleaseOnly(flags)))
      && (style == Cpp ==> s & InRangeBit == 0)
      && (style == Legacy ==> (s & ConfidenceBit != 0 <==> Touching(flags)))
      && (style == Legacy ==> (s & InRangeBit != 0 <==> !ReleaseOnly(flags)))
  {
  }

  /** The report entry for slot `i`: the area stands for both width and height. */
  function ContactOf(style: Style, i: nat, s: Slot): Contact
  {
    Contact(ContactStatus(style, s.flags), i, s.x, s.y, s.area, s.area)
  }

  /** The slot after it has been reported. */
  function Reported(s: Slot): Slot
  {
    if ReleaseOnly(s.flags) then s.(flags := 0) else s
  }

  /** The report loop from slot `i` with `count` entries already filled: the
      entries it adds and the slots it leaves. */
  function RenderFrom(style: Style, slots: seq<Slot>, i: nat, count: nat): (r: (seq<Contact>, seq<Slot>))
    requires |slots| == SlotCount && i <= SlotCount
    ensures |r.1| == SlotCount
    ensures count + |r.0| <= MaxContacts || (count >= MaxContacts && r.0 == [])
    decreases SlotCount - i
  {
    if count >= MaxContacts || i >= SlotCount then ([], slots)
    else if slots[i].flags == 0 then RenderFrom(style, slots, i + 1, count)
    else
      var rest := RenderFrom(style, slots[i := Reported(slots[i])], i + 1, count + 1);
      ([ContactOf(style, i, slots[i])] + rest.0, rest.1)
  }

  /** One iteration of the report loop, unfolded. */
  lemma RenderFromUnfold(style: Style, slots: seq<Slot>, i: nat, count: nat)
    requires |slots| == SlotCount && i < SlotCount && count < MaxContacts
    ensures slots[i].flags == 0 ==> RenderFrom(style, slots, i, count) == RenderFrom(style, slots, i + 1, count)
    ensures slots[i].flags != 0 ==>
      var rest := RenderFrom(style, slots[i := Reported(slots[i])], i + 1, count + 1);
      RenderFrom(style, slots, i, count) == ([ContactOf(style, i, slots[i])] + rest.0, rest.1)
  {
  }

  /** The report loop once it has stopped. */
  lemma RenderFromDone(style: Style, slots: seq<Slot>, i: nat, count: nat)
    requires |slots| == SlotCount && i <= SlotCount && (count >= MaxContacts || i == SlotCount)
    ensures RenderFrom(style, slots, i, count) == ([], slots)
  {
  }

  /** The whole report loop: the contacts reported and the slots it leaves. */
  function Render(style: Style, slots: seq<Slot>): (r: (seq<Contact>, seq<Slot>))
    requires |slots| == SlotCount
    ensures |r.0| <= MaxContacts && |r.1| == SlotCount
  {
    RenderFrom(style, slots, 0, 0)
  }

  /** The first `n` iterations of the report loop, counted from slot 0: an
      iteration at an active slot reports it while fewer than ten are reported. */
  function RenderUpTo(style: Style, slots: seq<Slot>, n: nat): (r: (seq<Contact>, seq<Slot>))
    requires |slots| == SlotCount && n <= SlotCount
    ensures |r.1| == SlotCount
  {
    if n == 0 then ([], slots)
    else
      var prev := RenderUpTo(style, slots, n - 1);
      var s := prev.1;
      if |prev.0| < MaxContacts && s[n - 1].flags != 0 then
        (prev.0 + [ContactOf(style, n - 1, s[n - 1])], s[n - 1 := Reported(s[n - 1])])
      else prev
  }

  /** Running the loop's first `n` iterations and then the rest of the loop is
      the whole report. */
  lemma {:induction false} RenderUpToMeetsRender(style: Style, slots: seq<Slot>, n: nat)
    requires |slots| == SlotCount && n <= SlotCount
    ensures var prev := RenderUpTo(style, slots, n);
      var rest := RenderFrom(style, prev.1, n, |prev.0|);
      prev.0 + rest.0 == Render(style, slots).0 && rest.1 == Render(style, slots).1
  {
    if n == 0 {
      var rest := RenderFrom(style, slots, 0, 0);
      assert [] + rest.0 == rest.0;
    } else {
      RenderUpToMeetsRender(style, slots, n - 1);
      var prev := RenderUpTo(style, slots, n - 1);
      RenderIterationSplices(style, prev.0, prev.1, n - 1);
    }
  }

  /** One more iteration moves the split point of the loop by one slot without
      changing what the two halves produce together. */
  lemma RenderIterationSplices(style: Style, shown: seq<Contact>, s: seq<Slot>, i: nat)
    requires |s| == SlotCount && i < SlotCount
    ensures var next := if |shown| < MaxContacts && s[i].flags != 0
                        then (shown + [ContactOf(style, i, s[i])], s[i := Reported(s[i])])
                        else (shown, s);
      var before := RenderFrom(style, s, i, |shown|);
      var after := RenderFrom(style, next.1, i + 1, |next.0|);
      next.0 + after.0 == shown + before.0 && after.1 == before.1
  {
    if |shown| < MaxContacts && s[i].flags != 0 {
      SpliceReported(style, shown, s, i);
    } else {
      SpliceSkipped(style, shown, s, i);
    }
  }

  /** The splice at an active slot while fewer than ten are reported. */
  lemma SpliceReported(style: Style, shown: seq<Contact>, s: seq<Slot>, i: nat)
    requires |s| == SlotCount && i < SlotCount && |shown| < MaxContacts && s[i].flags != 0
    ensures var c := ContactOf(style, i, s[i]);
      var before := RenderFrom(style, s, i, |shown|);
      var after := RenderFrom(style, s[i := Reported(s[i])], i + 1, |shown| + 1);
      (shown + [c]) + after.0 == shown + before.0 && after.1 == before.1
  {
    var c := ContactOf(style, i, s[i]);
    var rest := RenderFrom(style, s[i := Reported(s[i])], i + 1, |shown| + 1);
    assert RenderFrom(style, s, i, |shown|) == ([c] + rest.0, rest.1);
    ConcatAssoc(shown, [c], rest.0);
  }

  lemma ConcatAssoc<T>(a: seq<T>, b: seq<T>, c: seq<T>)
    ensures a + (b + c) == (a + b) + c
  {
  }

  /** The splice at an inactive slot, or once ten are reported. */
  lemma SpliceSkipped(style: Style, shown: seq<Contact>, s: seq<Slot>, i: nat)
    requires |s| == SlotCount && i < SlotCount && !(|shown| < MaxContacts && s[i].flags != 0)
    ensures RenderFrom(style, s, i + 1, |shown|) == RenderFrom(style, s, i, |shown|)
  {
    if |shown| < MaxContacts {
      RenderFromUnfold(style, s, i, |shown|);
    } else {
      RenderFromDone(style, s, i, |shown|);
      RenderFromDone(style, s, i + 1, |shown|);
    }
  }

  /** A report is sent only when it holds at least one contact. */
  function Deliver(reports: seq<TouchReport>, contacts: seq<Contact>): (r: seq<TouchReport>)
    ensures |contacts| == 0 ==> r == reports
    ensures |contacts| > 0 ==> r == reports + [TouchReport(ReportIdMTouch, contacts, |contacts|)]
  {
    if |contacts| > 0 then reports + [TouchReport(ReportIdMTouch, contacts, |contacts|)] else reports
  }

  // ---------------------------------------------------------------------------
  // An independent description of the report: the active slots in index order,
  // cut at ten.

  predicate InSlots(idx: seq<nat>)
  {
    forall k :: 0 <= k < |idx| ==> idx[k] < SlotCount
  }

  /** The indices `j >= i` of slots with nonzero flags, ascending. */
  function ActiveFrom(slots: seq<Slot>, i: nat): (a: seq<nat>)
    requires |slots| == SlotCount && i <= SlotCount
    ensures InSlots(a)
    decreases SlotCount - i
  {
    if i == SlotCount then []
    else if slots[i].flags != 0 then [i] + ActiveFrom(slots, i + 1)
    else ActiveFrom(slots, i + 1)
  }

  /** The listed indices are active slots from `i` on, in ascending order. */
  lemma {:induction false} ActiveFromShape(slots: seq<Slot>, i: nat)
    requires |slots| == SlotCount && i <= SlotCount
    ensures forall k :: 0 <= k < |ActiveFrom(slots, i)| ==>
      i <= ActiveFrom(slots, i)[k] < SlotCount && slots[ActiveFrom(slots, i)[k]].flags != 0
    ensures forall k, l :: 0 <= k < l < |ActiveFrom(slots, i)| ==> ActiveFrom(slots, i)[k] < ActiveFrom(slots, i)[l]
    decreases SlotCount - i
  {
    if i < SlotCount {
      ActiveFromShape(slots, i + 1);
      var rest := ActiveFrom(slots, i + 1);
      if slots[i].flags != 0 {
        var a := [i] + rest;
        assert ActiveFrom(slots, i) == a;
        forall k | 0 < k < |a| ensures a[k] == rest[k - 1] && i < a[k] {
        }
      } else {
        assert ActiveFrom(slots, i) == rest;
      }
    }
  }

  /** Every active slot from `i` on is listed. */
  lemma {:induction false} ActiveFromComplete(slots: seq<Slot>, i: nat, j: nat)
    requires |slots| == SlotCount && i <= j < SlotCount && slots[j].flags != 0
    ensures j in ActiveFrom(slots, i)
    decreases SlotCount - i
  {
    if i < j {
      ActiveFromComplete(slots, i + 1, j);
    }
  }

  function Active(slots: seq<Slot>): seq<nat>
    requires |slots| == SlotCount
  {
    ActiveFrom(slots, 0)
  }

  function Take(a: seq<nat>, n: int): (r: seq<nat>)
    ensures |r| == if n <= 0 then 0 else Min(n, |a|)
  {
    if n <= 0 then [] else if |a| <= n then a else a[..n]
  }

  /** The report entries of the slots at `idx`, in that order. */
  function ContactsAt(style: Style, slots: seq<Slot>, idx: seq<nat>): (c: seq<Contact>)
    requires |slots| == SlotCount && InSlots(idx)
    ensures |c| == |idx|
    ensures forall k :: 0 <= k < |idx| ==> c[k] == ContactOf(style, idx[k], slots[idx[k]])
  {
    if idx == [] then [] else [ContactOf(style, idx[0], slots[idx[0]])] + ContactsAt(style, slots, idx[1..])
  }

  /** The slots after the slots at `idx` have been reported. */
  function ReportedAt(slots: seq<Slot>, idx: seq<nat>): (r: seq<Slot>)
    requires |slots| == SlotCount
    ensures |r| == SlotCount
  {
    seq(SlotCount, j requires 0 <= j < SlotCount => if j in idx then Reported(slots[j]) else slots[j])
  }

  lemma {:induction false} ActiveFromFrame(s1: seq<Slot>, s2: seq<Slot>, i: nat)
    requires |s1| == SlotCount && |s2| == SlotCount && i <= SlotCount
    requires forall j :: i <= j < SlotCount ==> s1[j].flags == s2[j].flags
    ensures ActiveFrom(s1, i) == ActiveFrom(s2, i)
    decreases SlotCount - i
  {
    if i < SlotCount {
      ActiveFromFrame(s1, s2, i + 1);
    }
  }

  lemma ReportedAtNothing(slots: seq<Slot>)
    requires |slots| == SlotCount
    ensures ReportedAt(slots, []) == slots
  {
  }

  lemma TakeCons(i: nat, a: seq<nat>, n: int)
    requires n >= 1
    ensures Take([i] + a, n) == [i] + Take(a, n - 1)
  {
  }

  /** Entries for slots other than `i` do not see a change to slot `i`. */
  lemma ContactsAtFrame(style: Style, slots: seq<Slot>, i: nat, s: Slot, idx: seq<nat>)
    requires |slots| == SlotCount && i < SlotCount && InSlots(idx) && i !in idx
    ensures ContactsAt(style, slots[i := s], idx) == ContactsAt(style, slots, idx)
  {
    var c1 := ContactsAt(style, slots[i := s], idx);
    var c2 := ContactsAt(style, slots, idx);
    forall k | 0 <= k < |idx| ensures c1[k] == c2[k] {
      assert idx[k] != i;
    }
  }

  /** Reporting slot `i` first and then the slots at `idx` is reporting `[i] + idx`. */
  lemma ReportedAtCons(slots: seq<Slot>, i: nat, idx: seq<nat>)
    requires |slots| == SlotCount && i < SlotCount && i !in idx
    ensures ReportedAt(slots[i := Reported(slots[i])], idx) == ReportedAt(slots, [i] + idx)
  {
    var r1 := ReportedAt(slots[i := Reported(slots[i])], idx);
    var r2 := ReportedAt(slots, [i] + idx);
    forall j | 0 <= j < SlotCount ensures r1[j] == r2[j] {
      assert (j in [i] + idx) == (j == i || j in idx);
    }
  }

  /** At an active slot `i` the slots to show are `i` followed by those the rest
      of the loop shows, whatever reporting slot `i` did to it. */
  lemma ActiveTakeCons(slots: seq<Slot>, i: nat, n: int)
    requires |slots| == SlotCount && i < SlotCount && n >= 1 && slots[i].flags != 0
    ensures var rest := Take(ActiveFrom(slots[i := Reported(slots[i])], i + 1), n - 1);
      Take(ActiveFrom(slots, i), n) == [i] + rest && i !in rest && InSlots(rest)
  {
    var s' := slots[i := Reported(slots[i])];
    var a := ActiveFrom(slots, i + 1);
    TakeCons(i, a, n);
    ActiveFromFrame(s', slots, i + 1);
    var rest := Take(a, n - 1);
    ActiveFromShape(slots, i + 1);
    forall k | 0 <= k < |rest| ensures i < rest[k] < SlotCount {
      assert rest[k] == a[k];
    }
  }

  /** The entries for `[i] + idx`: slot `i`'s entry, then those for `idx`. */
  lemma ContactsAtCons(style: Style, slots: seq<Slot>, i: nat, idx: seq<nat>)
    requires |slots| == SlotCount && i < SlotCount && InSlots(idx)
    ensures InSlots([i] + idx)
    ensures ContactsAt(style, slots, [i] + idx) == [ContactOf(style, i, slots[i])] + ContactsAt(style, slots, idx)
  {
    var take := [i] + idx;
    assert take[0] == i && take[1..] == idx;
  }

  /** From slot `i` with `count` entries filled, the report loop emits the next
      active slots up to the limit of ten and clears exactly the released ones
      among them. */
  predicate RendersActivePrefix(style: Style, slots: seq<Slot>, i: nat, count: nat)
    requires |slots| == SlotCount && i <= SlotCount
  {
    var take := Take(ActiveFrom(slots, i), MaxContacts - count);
    RenderFrom(style, slots, i, count) == (ContactsAt(style, slots, take), ReportedAt(slots, take))
  }

  /** The claim once the loop has stopped. */
  lemma RenderStepDone(style: Style, slots: seq<Slot>, i: nat, count: nat)
    requires |slots| == SlotCount && i <= SlotCount && (count >= MaxContacts || i == SlotCount)
    ensures RendersActivePrefix(style, slots, i, count)
  {
    assert Take(ActiveFrom(slots, i), MaxContacts - count) == [];
    ReportedAtNothing(slots);
  }

  /** The claim survives a step over an inactive slot. */
  lemma RenderStepInactive(style: Style, slots: seq<Slot>, i: nat, count: nat)
    requires |slots| == SlotCount && i < SlotCount && count < MaxContacts && slots[i].flags == 0
    requires RendersActivePrefix(style, slots, i + 1, count)
    ensures RendersActivePrefix(style, slots, i, count)
  {
    assert ActiveFrom(slots, i) == ActiveFrom(slots, i + 1);
  }

  /** The claim survives a step at an active slot `i`. */
  lemma RenderStepActive(style: Style, slots: seq<Slot>, i: nat, count: nat)
    requires |slots| == SlotCount && i < SlotCount && count < MaxContacts && slots[i].flags != 0
    requires RendersActivePrefix(style, slots[i := Reported(slots[i])], i + 1, count + 1)
    ensures RendersActivePrefix(style, slots, i, count)
  {
    var s' := slots[i := Reported(slots[i])];
    var rest := Take(ActiveFrom(s', i + 1), MaxContacts - count - 1);
    var after := RenderFrom(style, s', i + 1, count + 1);
    ActiveTakeCons(slots, i, MaxContacts - count);
    var take := [i] + rest;
    ContactsAtCons(style, slots, i, rest);
    ContactsAtFrame(style, slots, i, Reported(slots[i]), rest);
    ReportedAtCons(slots, i, rest);
    RenderFromUnfold(style, slots, i, count);
    assert RenderFrom(style, slots, i, count).0 == [ContactOf(style, i, slots[i])] + after.0;
    assert RenderFrom(style, slots, i, count).0 == ContactsAt(style, slots, take);
    assert RenderFrom(style, slots, i, count).1 == ReportedAt(slots, take);
  }

  /** The claim survives one step of the loop. */
  lemma RenderStep(style: Style, slots: seq<Slot>, i: nat, count: nat)
    requires |slots| == SlotCount && i < SlotCount && count < MaxContacts
    requires slots[i].flags == 0 ==> RendersActivePrefix(style, slots, i + 1, count)
    requires slots[i].flags != 0 ==> RendersActivePrefix(style, slots[i := Reported(slots[i])], i + 1, count + 1)
    ensures RendersActivePrefix(style, slots, i, count)
  {
    if slots[i].flags == 0 {
      RenderStepInactive(style, slots, i, count);
    } else {
      RenderStepActive(style, slots, i, count);
    }
  }

  lemma {:induction false} RenderFromIsActivePrefix(style: Style, slots: seq<Slot>, i: nat, count: nat)
    requires |slots| == SlotCount && i <= SlotCount
    ensures RendersActivePrefix(style, slots, i, count)
    decreases SlotCount - i
  {
    if count >= MaxContacts || i >= SlotCount {
      RenderStepDone(style, slots, i, count);
    } else {
      var active := slots[i].flags != 0;
      var next := if active then slots[i := Reported(slots[i])] else slots;
      RenderFromIsActivePrefix(style, next, i + 1, if active then count + 1 else count);
      RenderStep(style, slots, i, count);
    }
  }

  /** The report is the first ten active slots in index order, and the only
      slots it changes are the released ones it reported. */
  lemma RenderSpec(style: Style, slots: seq<Slot>)
    requires |slots| == SlotCount
    ensures var shown := Take(Active(slots), MaxContacts);
      Render(style, slots) == (ContactsAt(style, slots, shown), ReportedAt(slots, shown))
  {
    RenderFromIsActivePrefix(style, slots, 0, 0);
  }

  /** The report holds min(10, number of active slots) entries with strictly
      ascending contact ids, each built from its slot as it was. */
  lemma RenderShape(style: Style, slots: seq<Slot>)
    requires |slots| == SlotCount
    ensures var c := Render(style, slots).0;
      |c| == Min(MaxContacts, |Active(slots)|)
      && (forall k, l :: 0 <= k < l < |c| ==> c[k].contactId < c[l].contactId)
      && (forall k :: 0 <= k < |c| ==>
            c[k].contactId < SlotCount
            && slots[c[k].contactId].flags != 0
            && c[k] == ContactOf(style, c[k].contactId, slots[c[k].contactId]))
  {
    RenderSpec(style, slots);
    ActiveFromShape(slots, 0);
    var shown := Take(Active(slots), MaxContacts);
    var c := Render(style, slots).0;
    forall k | 0 <= k < |c| ensures c[k].contactId == Active(slots)[k] {
    }
  }

  /** A released contact is reported once: after the report its slot is empty,
      so the next report leaves it out, and every other slot is unchanged. */
  lemma ReleaseReportedOnce(style: Style, slots: seq<Slot>, j: nat)
    requires |slots| == SlotCount && j < SlotCount
    requires j in Take(Active(slots), MaxContacts) && ReleaseOnly(slots[j].flags)
    ensures var after := Render(style, slots).1;
      after[j].flags == 0 && j !in Active(after)
  {
    RenderSpec(style, slots);
    ActiveFromShape(Render(style, slots).1, 0);
  }

  /** Slots that are not reported, or that are still touching, come out of the
      report unchanged. */
  lemma RenderKeepsUnreleased(style: Style, slots: seq<Slot>, j: nat)
    requires |slots| == SlotCount && j < SlotCount
    requires j !in Take(Active(slots), MaxContacts) || !ReleaseOnly(slots[j].flags)
    ensures Render(style, slots).1[j] == slots[j]
  {
    RenderSpec(style, slots);
  }

  /** With no active slot the report is empty and nothing is delivered. */
  lemma QuietSlotsSendNothing(style: Style, slots: seq<Slot>, reports: seq<TouchReport>)
    requires |slots| == SlotCount
    requires forall j :: 0 <= j < SlotCount ==> slots[j].flags == 0
    ensures Render(style, slots) == ([], slots)
    ensures Deliver(reports, Render(style, slots).0) == reports
  {
    RenderSpec(style, slots);
    ActiveFromShape(slots, 0);
    assert Active(slots) == [];
    ReportedAtNothing(slots);
  }
}
