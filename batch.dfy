/** What one read of the message processor hands the decoder: the pending
    messages it consumed, each cut or padded to the T5 message size, followed
    by sentinel messages for the part of the request the queue could not fill.
    The lemmas connect the bytes of a read to this list of messages, and the
    list to the tracker state after processing it. */
module Batches {
  import opened Protocol
  import opened Scan
  import opened Messages
  import opened Processing
  import opened Bus

  /** Queued messages the decoder can be handed: real messages whose report
      ids keep the slot writes inside the table. */
  predicate Deliverable(p: Profile, msgs: seq<seq<bv8>>)
  {
    forall k :: 0 <= k < |msgs| ==> IsMessage(msgs[k]) && SafeId(p, msgs[k][0])
  }

  /** Each message cut or padded to `size` bytes. */
  function Framed(msgs: seq<seq<bv8>>, size: nat): (r: seq<seq<bv8>>)
    ensures |r| == |msgs|
    ensures forall k :: 0 <= k < |msgs| ==> r[k] == Frame(msgs[k], size)
  {
    seq(|msgs|, k requires 0 <= k < |msgs| => Frame(msgs[k], size))
  }

  /** `n` sentinel messages of `size` bytes. */
  function Sentinels(n: nat, size: nat): (r: seq<seq<bv8>>)
    ensures |r| == n
    ensures forall k :: 0 <= k < n ==> r[k] == Fill(size)
  {
    seq(n, _ => Fill(size))
  }

  /** The messages a read of `count` delivers when it consumes `msgs`. */
  function Batch(msgs: seq<seq<bv8>>, size: nat, count: nat): (r: seq<seq<bv8>>)
    requires |msgs| <= count
    ensures |r| == count
  {
    Framed(msgs, size) + Sentinels(count - |msgs|, size)
  }

  lemma SliceLeft(a: seq<bv8>, b: seq<bv8>, lo: nat, len: nat)
    requires lo + len <= |a|
    ensures (a + b)[lo .. lo + len] == a[lo .. lo + len]
  {
  }

  lemma SliceFill(a: seq<bv8>, n: nat, lo: nat, len: nat)
    requires |a| <= lo && lo + len <= |a| + n
    ensures (a + Fill(n))[lo .. lo + len] == Fill(len)
  {
  }

  lemma BatchAtFront(msgs: seq<seq<bv8>>, size: nat, count: nat, i: nat, lo: nat)
    requires i < |msgs| <= count && lo == size * i
    ensures lo + size <= |ReadBytes(msgs, size, count)|
    ensures ReadBytes(msgs, size, count)[lo .. lo + size] == Frame(msgs[i], size)
  {
    MulBelow(size, i, |msgs|);
    MulAtLeast(size, |msgs|, count);
    StreamAt(msgs, size, i);
    SliceLeft(Stream(msgs, size), Fill(size * (count - |msgs|)), lo, size);
  }

  lemma BatchAtBack(msgs: seq<seq<bv8>>, size: nat, count: nat, i: nat, lo: nat)
    requires |msgs| <= i < count && lo == size * i
    ensures lo + size <= |ReadBytes(msgs, size, count)|
    ensures ReadBytes(msgs, size, count)[lo .. lo + size] == Fill(size)
  {
    MulBelow(size, i, count);
    MulAtLeast(size, |msgs|, i);
    SliceFill(Stream(msgs, size), size * (count - |msgs|), lo, size);
  }

  /** Message `i` of a read's buffer, the `size` bytes at `size * i`, is message
      `i` of the batch. */
  lemma BatchAt(msgs: seq<seq<bv8>>, size: nat, count: nat, i: nat, lo: nat)
    requires |msgs| <= count && i < count && lo == size * i
    ensures lo + size <= |ReadBytes(msgs, size, count)|
    ensures ReadBytes(msgs, size, count)[lo .. lo + size] == Batch(msgs, size, count)[i]
  {
    if i < |msgs| {
      BatchAtFront(msgs, size, count, i, lo);
    } else {
      BatchAtBack(msgs, size, count, i, lo);
    }
  }

  /** The byte offset of message `i` in a buffer of `size`-byte messages. */
  function Offset(size: nat, i: nat): nat
  {
    size * i
  }

  /** Message `i` of `batch` sits in `b` at byte `size * i`. */
  predicate InBuffer(b: seq<bv8>, size: nat, batch: seq<seq<bv8>>)
  {
    forall i :: 0 <= i < |batch| ==> size * i + size <= |b| && b[size * i .. size * i + size] == batch[i]
  }

  lemma InBufferAt(b: seq<bv8>, size: nat, batch: seq<seq<bv8>>, i: nat, lo: nat)
    requires InBuffer(b, size, batch) && i < |batch| && lo == Offset(size, i)
    ensures lo + size <= |b| && b[lo .. lo + size] == batch[i]
  {
  }

  lemma SlicePrefix(b: seq<bv8>, n: nat, lo: nat, len: nat)
    requires lo + len <= n <= |b|
    ensures b[..n][lo .. lo + len] == b[lo .. lo + len]
  {
  }

  /** Message `i` of a read sits in a buffer that starts with the read's bytes. */
  lemma BatchInBufferAt(msgs: seq<seq<bv8>>, size: nat, count: nat, b: seq<bv8>, i: nat, lo: nat)
    requires |msgs| <= count && size * count <= |b| && i < count && lo == size * i
    requires b[..size * count] == ReadBytes(msgs, size, count)
    ensures lo + size <= |b| && b[lo .. lo + size] == Batch(msgs, size, count)[i]
  {
    BatchAt(msgs, size, count, i, lo);
    SlicePrefix(b, size * count, lo, size);
  }

  /** A buffer that starts with the bytes of a read holds the read's batch. */
  lemma BatchInBuffer(msgs: seq<seq<bv8>>, size: nat, count: nat, b: seq<bv8>)
    requires |msgs| <= count && size * count <= |b|
    requires b[..size * count] == ReadBytes(msgs, size, count)
    ensures InBuffer(b, size, Batch(msgs, size, count))
  {
    forall i | 0 <= i < count
      ensures size * i + size <= |b| && b[size * i .. size * i + size] == Batch(msgs, size, count)[i]
    {
      BatchInBufferAt(msgs, size, count, b, i, size * i);
    }
  }

  /** One more message processed: the fold and the count of real messages
      advance by one step. */
  lemma FoldStepAt(p: Profile, t: Tracker, batch: seq<seq<bv8>>, i: nat)
    requires WellFormed(t) && AllProcessable(p, batch) && i < |batch|
    ensures AllProcessable(p, batch[..i]) && AllProcessable(p, batch[..i + 1])
    ensures Fold(p, t, batch[..i + 1]) == Step(p, Fold(p, t, batch[..i]), batch[i]).0
    ensures CountValid(batch[..i + 1]) == CountValid(batch[..i]) + (if batch[i][0] != InvalidReportId then 1 else 0)
  {
    assert batch[..i + 1][..i] == batch[..i];
  }

  /** Framed queued messages are messages the decoder accepts, and none of them
      is a sentinel. */
  lemma FramedProcessable(p: Profile, msgs: seq<seq<bv8>>, size: nat)
    requires Deliverable(p, msgs) && size >= MinMessageSize
    ensures AllProcessable(p, Framed(msgs, size))
    ensures forall k :: 0 <= k < |msgs| ==> Framed(msgs, size)[k][0] == msgs[k][0] != InvalidReportId
  {
  }

  lemma {:induction false} CountValidAppend(a: seq<seq<bv8>>, b: seq<seq<bv8>>)
    requires forall k :: 0 <= k < |a| ==> |a[k]| > 0
    requires forall k :: 0 <= k < |b| ==> |b[k]| > 0
    ensures forall k :: 0 <= k < |a + b| ==> |(a + b)[k]| > 0
    ensures CountValid(a + b) == CountValid(a) + CountValid(b)
    decreases |b|
  {
    if b == [] {
      assert a + b == a;
    } else {
      var b' := b[..|b| - 1];
      assert (a + b)[..|a + b| - 1] == a + b';
      CountValidAppend(a, b');
    }
  }

  lemma {:induction false} CountValidAllReal(msgs: seq<seq<bv8>>)
    requires forall k :: 0 <= k < |msgs| ==> |msgs[k]| > 0 && msgs[k][0] != InvalidReportId
    ensures CountValid(msgs) == |msgs|
  {
    if msgs != [] {
      CountValidAllReal(msgs[..|msgs| - 1]);
    }
  }

  /** Processing a batch is processing the consumed messages: the sentinels
      after them change nothing and are not counted. */
  lemma BatchFold(p: Profile, t: Tracker, msgs: seq<seq<bv8>>, size: nat, count: nat)
    requires WellFormed(t) && Deliverable(p, msgs) && size >= MinMessageSize && |msgs| <= count
    ensures AllProcessable(p, Batch(msgs, size, count))
    ensures Fold(p, t, Batch(msgs, size, count)) == Fold(p, t, Framed(msgs, size))
    ensures CountValid(Batch(msgs, size, count)) == |msgs|
  {
    var front, tail := Framed(msgs, size), Sentinels(count - |msgs|, size);
    FramedProcessable(p, msgs, size);
    FoldAppend(p, t, front, tail);
    FoldSkipsSentinels(p, Fold(p, t, front), tail);
    CountValidAppend(front, tail);
    CountValidAllReal(front);
  }

  /** The tracker after the first `n` queued messages are processed. */
  function Drained(p: Profile, t: Tracker, pending: seq<seq<bv8>>, n: nat): (r: Tracker)
    requires WellFormed(t) && p.t5MsgSize >= MinMessageSize && Deliverable(p, pending)
    requires n <= |pending|
    ensures WellFormed(r)
  {
    FramedProcessable(p, pending[..n], p.t5MsgSize);
    Fold(p, t, Framed(pending[..n], p.t5MsgSize))
  }

  /** `trackers[k]` is the tracker after the first `k` queued messages are
      processed. */
  predicate Tabulates(p: Profile, t: Tracker, pending: seq<seq<bv8>>, trackers: seq<Tracker>)
    requires WellFormed(t) && p.t5MsgSize >= MinMessageSize && Deliverable(p, pending)
  {
    |trackers| == |pending| + 1
    && forall k {:trigger Drained(p, t, pending, k)} :: 0 <= k <= |pending| ==> trackers[k] == Drained(p, t, pending, k)
  }

  /** The table of trackers for every prefix of the queue. */
  lemma Tabulate(p: Profile, t: Tracker, pending: seq<seq<bv8>>) returns (trackers: seq<Tracker>)
    requires WellFormed(t) && p.t5MsgSize >= MinMessageSize && Deliverable(p, pending)
    ensures Tabulates(p, t, pending, trackers) && trackers[0] == t
  {
    trackers := seq(|pending| + 1, k requires 0 <= k <= |pending| => Drained(p, t, pending, k));
    DrainedNothing(p, t, pending);
  }

  /** Draining `n` more messages after the first `m` moves along the table
      from entry `m` to entry `m + n`. */
  lemma TabulatesAppend(p: Profile, t: Tracker, pending: seq<seq<bv8>>, trackers: seq<Tracker>, m: nat, n: nat)
    requires WellFormed(t) && p.t5MsgSize >= MinMessageSize && Deliverable(p, pending)
    requires Tabulates(p, t, pending, trackers) && m + n <= |pending|
    ensures Deliverable(p, pending[m..]) && WellFormed(trackers[m])
    ensures Drained(p, trackers[m], pending[m..], n) == trackers[m + n]
  {
    assert trackers[m] == Drained(p, t, pending, m);
    DrainedAppend(p, t, pending, m, n);
    assert trackers[m + n] == Drained(p, t, pending, m + n);
  }

  /** Draining `m` messages and then `n` more of the rest is draining `m + n`. */
  lemma DrainedAppend(p: Profile, t: Tracker, pending: seq<seq<bv8>>, m: nat, n: nat)
    requires WellFormed(t) && p.t5MsgSize >= MinMessageSize && Deliverable(p, pending)
    requires m + n <= |pending|
    ensures Deliverable(p, pending[m..])
    ensures Drained(p, Drained(p, t, pending, m), pending[m..], n) == Drained(p, t, pending, m + n)
  {
    var size := p.t5MsgSize;
    var a, b := Framed(pending[..m], size), Framed(pending[m..][..n], size);
    assert Framed(pending[..m + n], size) == a + b;
    FramedProcessable(p, pending[..m], size);
    FramedProcessable(p, pending[m..][..n], size);
    FoldAppend(p, t, a, b);
  }

  /** The message of a counter read: after the count byte come the first
      `size - 1` bytes of the oldest queued message, which covers every byte
      the decoder looks at, so processing them is draining that message. */
  lemma CounterMessage(p: Profile, t: Tracker, pending: seq<seq<bv8>>, m: seq<bv8>)
    requires WellFormed(t) && p.t5MsgSize >= MinMessageSize && Deliverable(p, pending) && pending != []
    requires |m| == p.t5MsgSize && m[..|m| - 1] == Frame(pending[0], |m| - 1)
    ensures Processable(p, m) && m[0] != InvalidReportId
    ensures Step(p, t, m).0 == Drained(p, t, pending, 1)
  {
    var size := p.t5MsgSize as nat;
    var framed := Frame(pending[0], size);
    forall k | 0 <= k < 6
      ensures m[k] == framed[k]
    {
      assert m[k] == m[..size - 1][k];
    }
    assert m[..6] == framed[..6];
    StepIgnoresTail(p, t, m, framed);
    assert Framed(pending[..1], size) == [framed];
    assert [framed][..0] == [];
    assert Fold(p, t, [framed]) == Step(p, t, framed).0;
  }

  lemma DrainedNothing(p: Profile, t: Tracker, pending: seq<seq<bv8>>)
    requires WellFormed(t) && p.t5MsgSize >= MinMessageSize && Deliverable(p, pending)
    ensures Drained(p, t, pending, 0) == t
  {
    assert Framed(pending[..0], p.t5MsgSize) == [];
  }
}
