/** The touch controller as the driver sees it over the bus: register memory
    for configuration reads, a queue of pending messages behind the message
    processor (T5) and the message counter (T44), and a log of register
    writes. A chip whose bus has failed fails every transfer. */
module Bus {
  import opened Protocol

  /** One register write: the bytes written from `address` on. */
  datatype RegWrite = RegWrite(address: u16, data: seq<bv8>)

  /** The concatenation of the messages, each cut or padded to `size` bytes:
      what one read of several messages transfers. */
  function Stream(msgs: seq<seq<bv8>>, size: nat): (s: seq<bv8>)
    ensures |s| == size * |msgs|
  {
    if msgs == [] then [] else Stream(msgs[..|msgs| - 1], size) + Frame(msgs[|msgs| - 1], size)
  }

  lemma MulBelow(size: nat, i: nat, n: nat)
    requires i < n
    ensures size * i + size <= size * n
  {
    assert size * n == size * (n - 1) + size;
    if i < n - 1 {
      MulBelow(size, i, n - 1);
    }
  }

  /** Message `i` of a stream sits at byte `size * i`. */
  lemma {:induction false} StreamAt(msgs: seq<seq<bv8>>, size: nat, i: nat)
    requires i < |msgs|
    ensures size * i + size <= |Stream(msgs, size)|
    ensures Stream(msgs, size)[size * i .. size * i + size] == Frame(msgs[i], size)
  {
    var last := |msgs| - 1;
    var front := msgs[..last];
    var a, b := Stream(front, size), Frame(msgs[last], size);
    assert Stream(msgs, size) == a + b;
    var lo := size * i;
    MulBelow(size, i, |msgs|);
    if i < last {
      MulBelow(size, i, last);
      assert (a + b)[lo .. lo + size] == a[lo .. lo + size];
      StreamAt(front, size, i);
      assert front[i] == msgs[i];
    } else {
      assert lo == |a|;
      assert (a + b)[lo .. lo + size] == b;
    }
  }

  lemma MulAtLeast(size: nat, i: nat, n: nat)
    requires i <= n
    ensures size * i <= size * n
  {
    if i < n {
      MulBelow(size, i, n);
    }
  }

  lemma MulSplit(size: nat, m: nat, n: nat)
    ensures size * (m + n) == size * m + size * n
  {
  }

  /** The bytes a read of `count` messages of `size` bytes transfers when it
      consumes `msgs` from the queue: those messages, then sentinel bytes. */
  function ReadBytes(msgs: seq<seq<bv8>>, size: nat, count: nat): (data: seq<bv8>)
    requires |msgs| <= count
    ensures |data| == size * count
  {
    MulSplit(size, |msgs|, count - |msgs|);
    Stream(msgs, size) + Fill(size * (count - |msgs|))
  }

  /** `len` bytes of register memory `regs` from `address` on; addresses past
      its end read as 0xff. */
  function Peek(regs: seq<bv8>, address: nat, len: nat): (r: seq<bv8>)
    ensures |r| == len
    ensures forall k :: 0 <= k < len && address + k < |regs| ==> r[k] == regs[address + k]
    ensures forall k :: 0 <= k < len && address + k >= |regs| ==> r[k] == 0xff
  {
    Frame(if address <= |regs| then regs[address..] else [], len)
  }

  /** A pending message is non-empty and is not the "no message" sentinel. */
  predicate IsMessage(m: seq<bv8>)
  {
    |m| > 0 && m[0] != InvalidReportId
  }

  class Chip {
    /** Every transfer fails. */
    var broken: bool
    /** Register memory from address 0; addresses past its end read as 0xff. */
    var regs: seq<bv8>
    /** Messages waiting to be read, oldest first. */
    var pending: seq<seq<bv8>>
    /** Register writes in the order the chip received them. */
    var writes: seq<RegWrite>

    predicate Valid()
      reads this
    {
      forall k :: 0 <= k < |pending| ==> IsMessage(pending[k])
    }

    constructor (broken: bool, regs: seq<bv8>, pending: seq<seq<bv8>>)
      requires forall k :: 0 <= k < |pending| ==> IsMessage(pending[k])
      ensures Valid()
      ensures this.broken == broken && this.regs == regs && this.pending == pending && writes == []
    {
      this.broken := broken;
      this.regs := regs;
      this.pending := pending;
      writes := [];
    }

    /** Read `len` register bytes from `address`. */
    method ReadRegs(address: u16, len: nat) returns (ok: bool, data: seq<bv8>)
      ensures ok == !broken
      ensures ok ==> data == Peek(regs, address, len)
    {
      if broken {
        return false, [];
      }
      ok, data := true, Peek(regs, address, len);
    }

    /** Read `count` messages of `size` bytes from the message processor into
        the start of `buf`. The pending messages come first, oldest first, and
        are removed from the queue; once the queue is empty the chip sends
        sentinel messages. */
    method ReadMessages(buf: array<bv8>, count: nat, size: nat) returns (ok: bool)
      requires Valid() && size * count <= buf.Length
      modifies this, buf
      ensures Valid() && ok == !broken
      ensures broken == old(broken) && regs == old(regs) && writes == old(writes)
      ensures !ok ==> pending == old(pending) && buf[..] == old(buf[..])
      ensures ok ==> pending == old(pending)[Min(count, |old(pending)|)..]
      ensures ok ==> buf[..size * count] == ReadBytes(old(pending)[..Min(count, |old(pending)|)], size, count)
      ensures ok ==> buf[size * count..] == old(buf[size * count..])
    {
      if broken {
        return false;
      }
      var k := Min(count, |pending|);
      var data := ReadBytes(pending[..k], size, count);
      forall j | 0 <= j < |data| {
        buf[j] := data[j];
      }
      pending := pending[k..];
      ok := true;
    }

    /** Read `len` bytes from the message counter into the start of `buf`: the
        number of pending messages (at most 255) followed by the first `len - 1`
        bytes of the oldest one, which is removed from the queue. */
    method ReadCountAndMessage(buf: array<bv8>, len: nat) returns (ok: bool)
      requires Valid() && 1 <= len <= buf.Length
      modifies this, buf
      ensures Valid() && ok == !broken
      ensures broken == old(broken) && regs == old(regs) && writes == old(writes)
      ensures !ok ==> pending == old(pending) && buf[..] == old(buf[..])
      ensures ok ==> buf[len..] == old(buf[len..])
      ensures ok && old(pending) == [] ==> buf[..len] == [0] + Fill(len - 1) && pending == []
      ensures ok && old(pending) != [] ==>
        buf[..len] == [Min(|old(pending)|, 0xff) as bv8] + Frame(old(pending)[0], len - 1)
        && pending == old(pending)[1..]
    {
      if broken {
        return false;
      }
      var data;
      if pending == [] {
        data := [0] + Fill(len - 1);
      } else {
        data := [Min(|pending|, 0xff) as bv8] + Frame(pending[0], len - 1);
        pending := pending[1..];
      }
      forall j | 0 <= j < len {
        buf[j] := data[j];
      }
      ok := true;
    }

    /** Write bytes to the registers from `address` on. */
    method WriteRegs(address: u16, data: seq<bv8>) returns (ok: bool)
      modifies this
      ensures ok == !broken
      ensures broken == old(broken) && regs == old(regs) && pending == old(pending)
      ensures ok ==> writes == old(writes) + [RegWrite(address, data)]
      ensures !ok ==> writes == old(writes)
    {
      if broken {
        return false;
      }
      writes := writes + [RegWrite(address, data)];
      ok := true;
    }
  }
}
