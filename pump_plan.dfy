/** The counting logic of the message pump (AtmelReadAndProcessMessages,
    AtmelProcessMessagesUntilInvalid, AtmelDeviceReadT44 and AtmelDeviceRead)
    as functions of the numbers involved: how many pending messages each call
    consumes, what it returns and which hint it keeps for the next interrupt.
    Every message the chip queues is a real one (its report id is not 0xff),
    so "messages handled" and "messages consumed" coincide. The methods of
    Driver.Device are proved to do exactly what these functions count. */
module PumpPlan {
  import opened Protocol

  /** AtmelReadAndProcessMessages asked for `count` messages while `available`
      are pending: -1, without reading, when `count` exceeds max_reportid; 0
      when the transfer fails; otherwise the number of real messages among
      those read. */
  function ReadResult(count: nat, maxId: nat, available: nat, broken: bool): (n: int)
    ensures -1 <= n <= count && n <= available
    ensures n == -1 <==> count > maxId
  {
    if count > maxId then -1
    else if broken then 0
    else Min(count, available)
  }

  /** The number of messages a read consumes from the queue. */
  function Consumed(n: int): nat
  {
    if n < 0 then 0 else n
  }

  /** The do-while loop of AtmelDeviceRead that reads two messages at a time,
      entered with `total` messages handled: it stops on an error, on a read
      that yields fewer than two messages, or once the total reaches
      num_touchids. The result is whether it ended without error and how many
      messages it consumed. */
  function DrainPairs(total: int, maxId: nat, touchIds: nat, available: nat, broken: bool): (r: (bool, nat))
    ensures r.1 <= available
    decreases available
  {
    var n := ReadResult(2, maxId, available, broken);
    if n < 0 then (false, 0)
    else if n < 2 || total + 2 >= touchIds then (true, n)
    else
      var rest := DrainPairs(total + 2, maxId, touchIds, available - 2, broken);
      (rest.0, 2 + rest.1)
  }

  /** One read of two messages in the pair loop, entered with `total` handled
      and `available` pending, when the rest of the loop is to end with outcome
      `ok` after consuming `owed` more: the read got `n`, which makes `total'`
      handled and leaves `available'` pending. */
  lemma DrainPairsTry(total: int, maxId: nat, touchIds: nat, available: nat, broken: bool, ok: bool, owed: nat,
                      n: int, total': int, available': nat)
    requires DrainPairs(total, maxId, touchIds, available, broken).0 == ok
    requires DrainPairs(total, maxId, touchIds, available, broken).1 == owed
    requires n == ReadResult(2, maxId, available, broken)
    requires n >= 0 ==> total' == total + n && available' == available - n
    ensures n < 0 ==> !ok && owed == 0
    ensures 0 <= n && (n < 2 || total' >= touchIds) ==> ok && owed == n
    ensures 0 <= n && !(n < 2 || total' >= touchIds) ==> n <= owed
    ensures 0 <= n && !(n < 2 || total' >= touchIds) ==> DrainPairs(total', maxId, touchIds, available', broken).0 == ok
    ensures 0 <= n && !(n < 2 || total' >= touchIds) ==> DrainPairs(total', maxId, touchIds, available', broken).1 == owed - n
  {
  }

  /** AtmelDeviceRead: the result, the messages consumed and the new
      last_message_count. An out-of-range hint is replaced by 1; the first read
      asks for one message more than the hint (the count kept in 8 bits); a
      read that returns more than the hint continues with the pairs. */
  function DeviceReadPlan(hint: u8, maxId: u8, touchIds: u8, available: nat, broken: bool): (r: (bool, nat, u8))
    ensures r.1 <= available
    ensures !r.0 ==> r.2 == hint
  {
    var count := if hint < 1 || hint > maxId then 1 else hint;
    var first := ReadResult(Wrap8(count + 1), maxId, available, broken);
    if first < 0 then (false, 0, hint)
    else if first <= count then (true, first, Wrap8(first))
    else
      var d := DrainPairs(first, maxId, touchIds, available - first, broken);
      (d.0, first + d.1, if d.0 then Wrap8(first + d.1) else hint)
  }

  /** The first read of AtmelDeviceRead, which asked for one message more than
      the clamped hint `count` and got `first`, ended the call: the plan is
      refusal or success with `first` messages. */
  lemma DeviceReadFirst(hint: u8, maxId: u8, touchIds: u8, available: nat, broken: bool, count: u8, first: int)
    requires count == if hint < 1 || hint > maxId then 1 else hint
    requires first == ReadResult(Wrap8(count + 1), maxId, available, broken)
    ensures var plan := DeviceReadPlan(hint, maxId, touchIds, available, broken);
      first < 0 ==> !plan.0 && plan.1 == 0 && plan.2 == hint
    ensures var plan := DeviceReadPlan(hint, maxId, touchIds, available, broken);
      0 <= first <= count ==> plan.0 && plan.1 == first && plan.2 == Wrap8(first)
  {
  }

  /** The pair loop of AtmelDeviceRead, entered after a first read of `first`
      messages, ended as `d` says after `consumed` messages in all. */
  lemma DeviceReadPairs(hint: u8, maxId: u8, touchIds: u8, available: nat, broken: bool, count: u8, first: int,
                        d: (bool, nat), consumed: nat)
    requires count == if hint < 1 || hint > maxId then 1 else hint
    requires first == ReadResult(Wrap8(count + 1), maxId, available, broken) > count
    requires d == DrainPairs(first, maxId, touchIds, available - first, broken)
    requires consumed == first + d.1
    ensures var plan := DeviceReadPlan(hint, maxId, touchIds, available, broken);
      plan.0 == d.0 && plan.1 == consumed && plan.2 == if d.0 then Wrap8(consumed) else hint
  {
  }

  /** AtmelProcessMessagesUntilInvalid, its two tries written out: the result
      and the messages consumed. Each try asks for max_reportid messages. */
  function UntilInvalidPlan(maxId: u8, available: nat, broken: bool): (r: (int, nat))
    ensures r.1 <= available
  {
    var first := ReadResult(maxId, maxId, available, broken);
    if first < maxId then (0, Consumed(first))
    else
      var second := ReadResult(maxId, maxId, available - first, broken);
      (if second < maxId then 0 else -1, first + Consumed(second))
  }

  /** One try of AtmelProcessMessagesUntilInvalid, with `tries` tries left
      before it: it read `read` messages after `before` were consumed, which
      makes `after` consumed. */
  lemma UntilInvalidTry(maxId: u8, available: nat, broken: bool, tries: nat, before: nat, read: int, after: nat)
    requires tries == 1 || tries == 2
    requires tries == 2 ==> before == 0
    requires tries == 1 ==> before == ReadResult(maxId, maxId, available, broken) >= maxId
    requires read == ReadResult(maxId, maxId, available - before, broken)
    requires after == before + Consumed(read)
    ensures read < maxId ==> UntilInvalidPlan(maxId, available, broken) == (0, after)
    ensures read >= maxId && tries - 1 == 1 ==> after == ReadResult(maxId, maxId, available, broken) >= maxId
    ensures read >= maxId && tries - 1 == 0 ==> UntilInvalidPlan(maxId, available, broken) == (-1, after)
  {
  }

  /** AtmelDeviceReadT44: the messages consumed. The chip reports its message
      count together with the first message; a count of 0 ends the read; the
      count is clamped to max_reportid, the first message is processed and the
      remaining count (kept in 8 bits) is read in one go. */
  function T44Consumed(maxId: u8, available: nat, broken: bool): (n: nat)
    ensures n <= available
  {
    if broken || available == 0 then 0
    else
      var count := Min(Min(available, 0xff), maxId);
      var left := Wrap8(count - 1);
      1 + (if left == 0 then 0 else Consumed(ReadResult(left, maxId, available - 1, broken)))
  }

  /** The pair loop stops either because the queue ran dry or because the total
      reached num_touchids. */
  lemma {:induction false} DrainPairsStops(total: int, maxId: nat, touchIds: nat, available: nat)
    requires DrainPairs(total, maxId, touchIds, available, false).0
    ensures DrainPairs(total, maxId, touchIds, available, false).1 == available
         || total + DrainPairs(total, maxId, touchIds, available, false).1 >= touchIds
    decreases available
  {
    var n := ReadResult(2, maxId, available, false);
    if n == 2 && total + 2 < touchIds {
      DrainPairsStops(total + 2, maxId, touchIds, available - 2);
    }
  }

  /** A successful AtmelDeviceRead on a working bus consumes every pending
      message, or at least num_touchids of them (unless max_reportid is 255,
      where the first request of hint + 1 messages wraps to 0). */
  lemma DeviceReadDrains(hint: u8, maxId: u8, touchIds: u8, available: nat)
    requires maxId < 0xff
    requires DeviceReadPlan(hint, maxId, touchIds, available, false).0
    ensures var r := DeviceReadPlan(hint, maxId, touchIds, available, false);
            r.1 == available || r.1 >= touchIds
  {
    var count := if hint < 1 || hint > maxId then 1 else hint;
    var first := ReadResult(Wrap8(count + 1), maxId, available, false);
    if first > count {
      DrainPairsStops(first, maxId, touchIds, available - first);
    }
  }

  /** The hint converges: when no more messages are pending than a usable hint
      announces, one read takes them all and the hint becomes their number. */
  lemma DeviceReadSettles(hint: u8, maxId: u8, touchIds: u8, available: nat)
    requires 1 <= hint < maxId && available <= hint
    ensures DeviceReadPlan(hint, maxId, touchIds, available, false) == (true, available, available)
  {
  }

  /** A hint equal to max_reportid (below 255) makes every later AtmelDeviceRead
      ask for one message more than max_reportid: the read is refused, nothing
      is consumed and the hint stays, so the driver stops draining the chip. */
  lemma DeviceReadStuckAtMax(hint: u8, maxId: u8, touchIds: u8, available: nat, broken: bool)
    requires 1 <= hint == maxId < 0xff
    ensures DeviceReadPlan(hint, maxId, touchIds, available, broken) == (false, 0, hint)
  {
  }

  /** The hint does reach max_reportid: with three report ids, a read that finds
      exactly three messages stores 3, and the read after it is refused. */
  lemma DeviceReadReachesStuckHint(available: nat, broken: bool)
    ensures DeviceReadPlan(1, 3, 10, 3, false) == (true, 3, 3)
    ensures DeviceReadPlan(3, 3, 10, available, broken) == (false, 0, 3)
  {
    assert DrainPairs(2, 3, 10, 1, false) == (true, 1);
  }

  /** A failing bus: AtmelDeviceRead still succeeds (the read returns 0, which is
      not more than the hint) and stores 0, unless the first request is refused. */
  lemma DeviceReadOnBrokenBus(hint: u8, maxId: u8, touchIds: u8, available: nat)
    ensures var count := if hint < 1 || hint > maxId then 1 else hint;
            var r := DeviceReadPlan(hint, maxId, touchIds, available, true);
            r.1 == 0 && (r.0 <==> Wrap8(count + 1) <= maxId) && (r.0 ==> r.2 == 0)
  {
  }

  /** AtmelProcessMessagesUntilInvalid returns -1 exactly when both tries came
      back full, which needs at least twice max_reportid pending messages (or a
      max_reportid of 0), and it consumes up to two batches. */
  lemma UntilInvalidOutcome(maxId: u8, available: nat, broken: bool)
    ensures var r := UntilInvalidPlan(maxId, available, broken);
            (r.0 == -1 <==> maxId == 0 || (!broken && available >= 2 * maxId))
            && (r.0 == 0 || r.0 == -1)
            && r.1 == (if broken then 0 else Min(available, 2 * maxId))
  {
  }

  /** The T44 path consumes the whole queue when it fits the count byte and
      max_reportid; with more pending it consumes max_reportid of them. */
  lemma T44ConsumesCount(maxId: u8, available: nat)
    requires 0 < available
    ensures 0 < maxId && available <= maxId ==> T44Consumed(maxId, available, false) == available
    ensures 0 < maxId < available && maxId <= 0xff ==> T44Consumed(maxId, available, false) == maxId
  {
  }

  /** With max_reportid 0 the clamped count is 0, the remaining count wraps to
      255, that read is refused, and only the first message is consumed. */
  lemma T44ZeroMaxReadsOne(available: nat)
    requires 0 < available
    ensures T44Consumed(0, available, false) == 1
  {
  }
}
