/** AtmelProcessMessage as a function on the tracker state: decode one message
    into the slot table, build and deliver a report, and mark the registers as
    set. The imperative methods of Driver.Device are proved against these
    functions. */
module Processing {
  import opened Protocol
  import opened Scan
  import opened Messages
  import opened Reports

  /** The part of the device context that message processing changes. */
  datatype Tracker = Tracker(slots: seq<Slot>, reports: seq<TouchReport>, regsSet: bool)

  predicate WellFormed(t: Tracker)
  {
    |t.slots| == SlotCount
  }

  /** A message the decoder may be handed: long enough, and whose report id
      keeps the writes inside the slot table. */
  predicate Processable(p: Profile, m: seq<bv8>)
  {
    |m| >= MinMessageSize && SafeId(p, m[0])
  }

  /** One call of AtmelProcessMessage, with its return value. The report is
      built after every message other than the sentinel, whatever its kind. */
  function Step(p: Profile, t: Tracker, m: seq<bv8>): (r: (Tracker, int))
    requires WellFormed(t) && Processable(p, m)
    ensures WellFormed(r.0)
    ensures m[0] == InvalidReportId <==> r.1 == 0
    ensures m[0] == InvalidReportId ==> r.0 == t
    ensures m[0] != InvalidReportId ==> r.1 == 1 && r.0.regsSet
    ensures |t.reports| <= |r.0.reports| <= |t.reports| + 1
  {
    if m[0] == InvalidReportId then (t, 0)
    else
      var tracked := Track(t.slots, Decode(p, m, t.slots));
      var shown := Render(Cpp, tracked);
      (Tracker(shown.1, Deliver(t.reports, shown.0), true), 1)
  }

  /** AtmelProcessInput: build and deliver a report from the slots as they are. */
  function Input(style: Style, t: Tracker): (r: Tracker)
    requires WellFormed(t)
    ensures WellFormed(r) && r.regsSet == t.regsSet
  {
    var shown := Render(style, t.slots);
    Tracker(shown.1, Deliver(t.reports, shown.0), t.regsSet)
  }

  predicate AllProcessable(p: Profile, msgs: seq<seq<bv8>>)
  {
    forall k :: 0 <= k < |msgs| ==> Processable(p, msgs[k])
  }

  /** Messages processed in order: the state after them. */
  function Fold(p: Profile, t: Tracker, msgs: seq<seq<bv8>>): (r: Tracker)
    requires WellFormed(t) && AllProcessable(p, msgs)
    ensures WellFormed(r)
  {
    if msgs == [] then t else Step(p, Fold(p, t, msgs[..|msgs| - 1]), msgs[|msgs| - 1]).0
  }

  /** The number of messages among `msgs` that are not the sentinel: what the
      message pump counts as handled. */
  function CountValid(msgs: seq<seq<bv8>>): (n: nat)
    requires forall k :: 0 <= k < |msgs| ==> |msgs[k]| > 0
    ensures n <= |msgs|
  {
    if msgs == [] then 0
    else CountValid(msgs[..|msgs| - 1]) + (if msgs[|msgs| - 1][0] != InvalidReportId then 1 else 0)
  }

  lemma {:induction false} FoldAppend(p: Profile, t: Tracker, a: seq<seq<bv8>>, b: seq<seq<bv8>>)
    requires WellFormed(t) && AllProcessable(p, a) && AllProcessable(p, b)
    ensures AllProcessable(p, a + b)
    ensures Fold(p, t, a + b) == Fold(p, Fold(p, t, a), b)
    decreases |b|
  {
    if b != [] {
      var b' := b[..|b| - 1];
      assert (a + b)[..|a + b| - 1] == a + b';
      FoldAppend(p, t, a, b');
    } else {
      assert a + b == a;
    }
  }

  /** Sentinel messages change nothing: a stretch of them after the real
      messages leaves the state the real messages produced. */
  lemma {:induction false} FoldSkipsSentinels(p: Profile, t: Tracker, msgs: seq<seq<bv8>>)
    requires WellFormed(t) && AllProcessable(p, msgs)
    requires forall k :: 0 <= k < |msgs| ==> msgs[k][0] == InvalidReportId
    ensures Fold(p, t, msgs) == t
    ensures CountValid(msgs) == 0
  {
    if msgs != [] {
      FoldSkipsSentinels(p, t, msgs[..|msgs| - 1]);
    }
  }

  /** Only bytes 0 to 5 of a message matter: the amplitude byte and anything
      after it are read and dropped. */
  lemma StepIgnoresTail(p: Profile, t: Tracker, m1: seq<bv8>, m2: seq<bv8>)
    requires WellFormed(t) && Processable(p, m1) && Processable(p, m2)
    requires m1[..6] == m2[..6]
    ensures Step(p, t, m1) == Step(p, t, m2)
  {
    HeadBytesAgree(m1, m2);
    T9PositionAgrees(m1, m2);
    T100PositionAgrees(m1, m2, 2);
    T100PositionAgrees(m1, m2, 4);
    assert Decode(p, m1, t.slots) == Decode(p, m2, t.slots);
  }

  lemma T9PositionAgrees(m1: seq<bv8>, m2: seq<bv8>)
    requires |m1| >= MinMessageSize && |m2| >= MinMessageSize
    requires m1[2] == m2[2] && m1[3] == m2[3] && m1[4] == m2[4]
    ensures RawT9X(m1) == RawT9X(m2) && RawT9Y(m1) == RawT9Y(m2)
  {
  }

  lemma T100PositionAgrees(m1: seq<bv8>, m2: seq<bv8>, at: nat)
    requires at + 1 < |m1| && at + 1 < |m2|
    requires m1[at] == m2[at] && m1[at + 1] == m2[at + 1]
    ensures T100Coordinate(m1, at) == T100Coordinate(m2, at)
  {
  }


  lemma HeadBytesAgree(m1: seq<bv8>, m2: seq<bv8>)
    requires |m1| >= 6 && |m2| >= 6 && m1[..6] == m2[..6]
    ensures m1[0] == m2[0] && m1[1] == m2[1] && m1[2] == m2[2]
    ensures m1[3] == m2[3] && m1[4] == m2[4] && m1[5] == m2[5]
  {
    assert forall k :: 0 <= k < 6 ==> m1[k] == m1[..6][k] && m2[k] == m2[..6][k];
  }

  /** A report-id that the decoder ignores (a T6 status message, or an id in no
      known range) still produces a report from the slots as they are. */
  lemma IgnoredIdStillReports(p: Profile, t: Tracker, m: seq<bv8>)
    requires WellFormed(t) && Processable(p, m) && m[0] != InvalidReportId
    requires Target(p, m[0]).None?
    ensures Step(p, t, m).0 == Input(Cpp, t).(regsSet := true)
  {
  }

  /** With at most ten active slots one report clears every released slot, so
      a second report (the timer's, say) clears nothing more. */
  lemma {:induction false} InputAfterInputKeepsSlots(style: Style, t: Tracker)
    requires WellFormed(t) && |Active(t.slots)| <= MaxContacts
    ensures Input(style, Input(style, t)).slots == Input(style, t).slots
  {
    var s1 := Render(style, t.slots).1;
    RenderSpec(style, t.slots);
    var shown := Take(Active(t.slots), MaxContacts);
    assert shown == Active(t.slots);
    forall j | 0 <= j < SlotCount ensures Render(style, s1).1[j] == s1[j] {
      if j in shown {
        assert s1[j] == Reported(t.slots[j]);
      } else if t.slots[j].flags != 0 {
        ActiveFromComplete(t.slots, 0, j);
      }
      assert !ReleaseOnly(s1[j].flags);
      RenderKeepsUnreleased(style, s1, j);
    }
  }
}
