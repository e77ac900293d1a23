/** The receive and send loops of a connection (src/header/Connection.cpp:50-98), against any finite
    sequence of results of `recv` and `send`. */
module ConnectionIo {

  const MAX_RECV := 1024

  datatype RecvResult = Data(bytes: string) | RecvWouldBlock | RecvInterrupted | RecvFailed | PeerClosed

  datatype SendResult = Sent(count: nat) | SendWouldBlock | SendInterrupted | SendFailed

  predicate LegalRecv(r: RecvResult) {
    r.Data? ==> 0 < |r.bytes| <= MAX_RECV
  }

  /** The results after which the receive loop goes on. */
  predicate RecvGoesOn(r: RecvResult) { r.Data? || r.RecvInterrupted? }

  /** The received chunks in order. */
  function Chunks(rs: seq<RecvResult>): string {
    if rs == [] then ""
    else Chunks(rs[..|rs| - 1]) + if rs[|rs| - 1].Data? then rs[|rs| - 1].bytes else ""
  }

  function TotalSent(rs: seq<SendResult>): nat {
    if rs == [] then 0
    else TotalSent(rs[..|rs| - 1]) + if rs[|rs| - 1].Sent? then rs[|rs| - 1].count else 0
  }

  /** The order is that of the results; a chunk counts as it is, and every other result as nothing. */
  lemma {:induction false} ChunksJoin(rs: seq<RecvResult>, more: seq<RecvResult>)
    ensures Chunks(rs + more) == Chunks(rs) + Chunks(more)
    decreases |more|
  {
    if more == [] {
      assert rs + more == rs;
    } else {
      var n := |more| - 1;
      var last := if more[n].Data? then more[n].bytes else "";
      assert (rs + more)[..|rs| + n] == rs + more[..n];
      assert Chunks(rs + more) == Chunks(rs + more[..n]) + last;
      ChunksJoin(rs, more[..n]);
      assert Chunks(more) == Chunks(more[..n]) + last;
      hide Chunks;
      Regroup(Chunks(rs), Chunks(more[..n]), last);
    }
  }

  lemma Regroup(a: string, b: string, c: string)
    ensures (a + b) + c == a + (b + c)
  {
  }

  lemma OneChunk(r: RecvResult)
    ensures r.Data? ==> Chunks([r]) == r.bytes
    ensures r in {RecvWouldBlock, RecvInterrupted, RecvFailed, PeerClosed} ==> Chunks([r]) == ""
  {
    assert [r][..0] == [];
    assert Chunks([]) == "";
  }

  lemma {:induction false} TotalSentJoin(rs: seq<SendResult>, more: seq<SendResult>)
    ensures TotalSent(rs + more) == TotalSent(rs) + TotalSent(more)
    decreases |more|
  {
    if more == [] {
      assert rs + more == rs;
    } else {
      var n := |more| - 1;
      assert (rs + more)[..|rs| + n] == rs + more[..n];
      TotalSentJoin(rs, more[..n]);
    }
  }

  lemma OneSent(r: SendResult)
    ensures r.Sent? ==> TotalSent([r]) == r.count
    ensures r in {SendWouldBlock, SendInterrupted, SendFailed} ==> TotalSent([r]) == 0
  {
    assert [r][..0] == [];
  }

  /** `send` never takes more than it was given. */
  predicate LegalSends(size: nat, rs: seq<SendResult>) {
    forall k | 0 <= k <= |rs| :: TotalSent(rs[..k]) <= size
  }

  /** `true`, `false`, or still inside the system call when the results have run out. */
  datatype RecvEnd = Ready | Gone | RecvPending
  datatype SendEnd = Finished | SendPending

  /** What one result of `recv` makes of the loop. */
  function Verdict(r: RecvResult): RecvEnd {
    if RecvGoesOn(r) then RecvPending else if r.RecvWouldBlock? then Ready else Gone
  }

  class Connection {
    var recvBuffer: string
    var sent: string         // what the kernel has taken
    var closeCalls: nat      // calls of close_callback_

    constructor ()
      ensures recvBuffer == "" && sent == "" && closeCalls == 0
    {
      recvBuffer, sent, closeCalls := "", "", 0;
    }

    /** The first `used` results are consumed. Exactly the chunks among them are appended, in order; the
        loop ends with true on EAGAIN alone, and closes once, with false, on an error or the end of input. */
    method RecvMessage(results: seq<RecvResult>) returns (end: RecvEnd, ghost used: nat)
      requires forall i | 0 <= i < |results| :: LegalRecv(results[i])
      modifies this`recvBuffer, this`closeCalls
      ensures used <= |results| && recvBuffer == old(recvBuffer) + Chunks(results[..used])
      ensures forall i | 0 <= i < used - 1 :: results[i].Data? || results[i] == RecvInterrupted
      ensures end == Ready <==> used > 0 && results[used - 1] == RecvWouldBlock
      ensures end == Gone <==> used > 0 && results[used - 1] in {RecvFailed, PeerClosed}
      ensures end == RecvPending ==> used == |results|
      ensures end == if used > 0 then Verdict(results[used - 1]) else RecvPending
      ensures closeCalls == old(closeCalls) + if end == Gone then 1 else 0
    {
      used := 0;
      var next := 0;
      assert recvBuffer + "" == recvBuffer;
      while next < |results|
        invariant next == used <= |results|
        invariant recvBuffer == old(recvBuffer) + Chunks(results[..used]) && closeCalls == old(closeCalls)
        invariant forall i | 0 <= i < used :: RecvGoesOn(results[i])
      {
        var r := results[next];
        ghost var before := recvBuffer;
        assert results[..used + 1][..used] == results[..used];
        assert Chunks(results[..used + 1]) == Chunks(results[..used]) + if r.Data? then r.bytes else "";
        next, used := next + 1, used + 1;
        if r.Data? {
          recvBuffer := recvBuffer + r.bytes;
          continue;
        }
        assert recvBuffer == old(recvBuffer) + Chunks(results[..used]);
        if r.RecvWouldBlock? { return Ready, used; }
        if r.RecvInterrupted? { continue; }
        closeCalls := closeCalls + 1;
        return Gone, used;
      }
      end := RecvPending;
    }

    /** What the kernel takes is a prefix of the buffer, the whole of it unless EAGAIN or an error ends the
        loop; every exit closes exactly once. */
    method SendMessage(buf: string, results: seq<SendResult>) returns (end: SendEnd, ghost used: nat)
      requires LegalSends(|buf|, results)
      modifies this`sent, this`closeCalls
      ensures used <= |results| && TotalSent(results[..used]) <= |buf|
      ensures sent == old(sent) + buf[..TotalSent(results[..used])]
      ensures end == Finished <==>
                || TotalSent(results[..used]) == |buf|
                || (used > 0 && results[used - 1] in {SendWouldBlock, SendFailed})
      ensures end == SendPending ==> used == |results| && TotalSent(results) < |buf|
      ensures forall i | 0 <= i < used - 1 :: results[i].Sent? || results[i] == SendInterrupted
      ensures forall i | 0 <= i < used :: TotalSent(results[..i]) < |buf|
      ensures closeCalls == old(closeCalls) + if end == Finished then 1 else 0
    {
      used := 0;
      var next, size, offset := 0, |buf|, 0;
      while size > 0
        invariant next == used <= |results| && offset == TotalSent(results[..used]) <= |buf|
        invariant size == |buf| - offset
        invariant sent == old(sent) + buf[..offset] && closeCalls == old(closeCalls)
        invariant forall i | 0 <= i < used :: results[i].Sent? || results[i] == SendInterrupted
        invariant forall i | 0 <= i < used :: TotalSent(results[..i]) < |buf|
        decreases |results| - next
      {
        if next == |results| {
          assert results[..used] == results;
          return SendPending, used;
        }
        var r := results[next];
        assert results[..used + 1][..used] == results[..used];
        next, used := next + 1, used + 1;
        if !r.Sent? {
          if r.SendInterrupted? { continue; }
          if r.SendWouldBlock? { break; }
          closeCalls := closeCalls + 1;
          return Finished, used;
        }
        assert TotalSent(results[..used]) == offset + r.count;
        assert buf[..offset] + buf[offset..offset + r.count] == buf[..offset + r.count];
        sent := sent + buf[offset..offset + r.count];
        offset := offset + r.count;
        size := size - r.count;
      }
      closeCalls := closeCalls + 1;
      end := Finished;
    }
  }
}
