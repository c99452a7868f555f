/** `send_all` and `recv_all`: whole structs over a byte stream whose calls transfer any part of
    what is asked for, and may be interrupted. */
module Framing {
  import opened CTypes

  /** What one `send` or `recv` call does: transfer up to `n` bytes, fail with EINTR, or fail.
      For `recv`, `Moved(0)` is end of file. */
  datatype Call = Moved(n: nat) | Interrupted | Broken

  /** `Running` means that the given calls did not suffice: the loop is still going. */
  datatype Code = Done | Failed | Running

  function Min(a: nat, b: nat): nat {
    if a < b then a else b
  }

  // ---------------------------------------------------------------------------------------
  // Sending

  /** Outcome of the loop on `len` bytes, and how many of them went out. */
  function SendRun(len: nat, calls: seq<Call>): (Code, nat) {
    if len == 0 then (Done, 0)
    else if calls == [] then (Running, 0)
    else
      match calls[0]
      case Broken => (Failed, 0)
      case Interrupted => SendRun(len, calls[1..])
      case Moved(n) =>
        var k := Min(n, len);
        var (code, sent) := SendRun(len - k, calls[1..]);
        (code, k + sent)
  }

  /** `send_all`; `wire` is what the peer will find in the stream. */
  method SendAll(buf: array<Byte>, calls: seq<Call>) returns (code: Code, wire: seq<Byte>)
    ensures code == SendRun(buf.Length, calls).0
    ensures SendRun(buf.Length, calls).1 <= buf.Length && wire == buf[..SendRun(buf.Length, calls).1]
  {
    var p: nat, len: nat := 0, buf.Length;
    var used: nat := 0;
    wire := [];
    while len > 0
      invariant p + len == buf.Length && used <= |calls|
      invariant wire == buf[..p]
      invariant SendRun(buf.Length, calls).0 == SendRun(len, calls[used..]).0
      invariant SendRun(buf.Length, calls).1 == p + SendRun(len, calls[used..]).1
      decreases |calls| - used
    {
      if used == |calls| {
        return Running, wire;
      }
      var call := calls[used];
      assert calls[used..][1..] == calls[used + 1..];
      used := used + 1;
      match call {
        case Broken =>
          return Failed, wire;
        case Interrupted =>
        case Moved(m) =>
          var n := Min(m, len);
          assert buf[..p + n] == buf[..p] + buf[p..p + n];
          wire := wire + buf[p..p + n];
          p := p + n;
          len := len - n;
      }
    }
    return Done, wire;
  }

  // ---------------------------------------------------------------------------------------
  // Receiving

  /** Outcome of the loop for `len` bytes of a stream that will carry `avail` more in all, and
      how many bytes it has taken. */
  function RecvRun(avail: nat, len: nat, calls: seq<Call>): (Code, nat) {
    if len == 0 then (Done, 0)
    else if calls == [] then (Running, 0)
    else
      match calls[0]
      case Broken => (Failed, 0)
      case Interrupted => RecvRun(avail, len, calls[1..])
      case Moved(n) =>
        var k := Min(Min(n, len), avail);
        if k == 0 then (Failed, 0)
        else
          var (code, taken) := RecvRun(avail - k, len - k, calls[1..]);
          (code, k + taken)
  }

  /** `recv_all` into `buf`, from a connection whose other end writes `stream` in all. */
  method RecvAll(stream: seq<Byte>, buf: array<Byte>, calls: seq<Call>) returns (code: Code)
    modifies buf
    ensures code == RecvRun(|stream|, buf.Length, calls).0
    ensures var taken := RecvRun(|stream|, buf.Length, calls).1;
            taken <= buf.Length && taken <= |stream| && buf[..taken] == stream[..taken] &&
            buf[taken..] == old(buf[taken..])
  {
    var p: nat, len: nat := 0, buf.Length;
    var used: nat := 0;
    while len > 0
      invariant p + len == buf.Length && used <= |calls| && p <= |stream|
      invariant buf[..p] == stream[..p] && buf[p..] == old(buf[p..])
      invariant RecvRun(|stream|, buf.Length, calls).0 == RecvRun(|stream| - p, len, calls[used..]).0
      invariant RecvRun(|stream|, buf.Length, calls).1 == p + RecvRun(|stream| - p, len, calls[used..]).1
      decreases |calls| - used
    {
      if used == |calls| {
        return Running;
      }
      var call := calls[used];
      assert calls[used..][1..] == calls[used + 1..];
      used := used + 1;
      match call {
        case Broken =>
          return Failed;
        case Interrupted =>
        case Moved(m) =>
          var n := Min(Min(m, len), |stream| - p);
          if n == 0 {
            return Failed;
          }
          Store(buf, p, stream[p..p + n]);
          assert stream[..p + n] == stream[..p] + stream[p..p + n];
          assert buf[p + n..] == old(buf[p..])[n..] == old(buf[p + n..]);
          p := p + n;
          len := len - n;
      }
    }
    return Done;
  }

  /** The kernel's copy into the caller's buffer. */
  method Store(buf: array<Byte>, p: nat, bytes: seq<Byte>)
    requires p + |bytes| <= buf.Length
    modifies buf
    ensures buf[..p + |bytes|] == old(buf[..p]) + bytes
    ensures buf[p + |bytes|..] == old(buf[p + |bytes|..])
  {
    for i := 0 to |bytes|
      invariant buf[..p + i] == old(buf[..p]) + bytes[..i]
      invariant buf[p + i..] == old(buf[p + i..])
    {
      buf[p + i] := bytes[i];
    }
  }

  // ---------------------------------------------------------------------------------------
  // What the loops guarantee

  lemma {:induction false} SendDoneIsComplete(len: nat, calls: seq<Call>)
    ensures SendRun(len, calls).1 <= len
    ensures SendRun(len, calls).0 == Done <==> SendRun(len, calls).1 == len
    decreases |calls|
  {
    if len > 0 && calls != [] {
      match calls[0]
      case Broken =>
      case Interrupted => SendDoneIsComplete(len, calls[1..]);
      case Moved(n) => SendDoneIsComplete(len - Min(n, len), calls[1..]);
    }
  }

  lemma {:induction false} RecvDoneIsComplete(avail: nat, len: nat, calls: seq<Call>)
    ensures RecvRun(avail, len, calls).1 <= len && RecvRun(avail, len, calls).1 <= avail
    ensures RecvRun(avail, len, calls).0 == Done <==> RecvRun(avail, len, calls).1 == len
    decreases |calls|
  {
    if len > 0 && calls != [] {
      match calls[0]
      case Broken =>
      case Interrupted => RecvDoneIsComplete(avail, len, calls[1..]);
      case Moved(n) =>
        var k := Min(Min(n, len), avail);
        if k > 0 {
          RecvDoneIsComplete(avail - k, len - k, calls[1..]);
        }
    }
  }

  /** One struct from peer to peer: for every pattern of short and interrupted calls on either
      side, if both loops report success the two structs are equal byte for byte, whatever is
      written to the stream afterwards. */
  method Exchange(mine: array<Byte>, theirs: array<Byte>, sends: seq<Call>, recvs: seq<Call>, later: seq<Byte>)
    returns (sent: Code, received: Code)
    requires mine.Length == theirs.Length && mine != theirs
    modifies theirs
    ensures sent == SendRun(mine.Length, sends).0
    ensures sent == Done && received == Done ==> theirs[..] == mine[..]
    ensures received == Done ==> mine.Length <= SendRun(mine.Length, sends).1 + |later|
  {
    var wire;
    sent, wire := SendAll(mine, sends);
    received := RecvAll(wire + later, theirs, recvs);
    SendDoneIsComplete(mine.Length, sends);
    RecvDoneIsComplete(|wire + later|, theirs.Length, recvs);
    if sent == Done && received == Done {
      assert theirs[..theirs.Length] == (wire + later)[..theirs.Length];
    }
  }

  /** Bytes the calls offer to move in all. */
  function Offered(calls: seq<Call>): nat {
    if calls == [] then 0 else (if calls[0].Moved? then calls[0].n else 0) + Offered(calls[1..])
  }

  /** Sending fails exactly if some call breaks before enough was offered, and is still going
      exactly if no call breaks and not enough was offered. */
  lemma {:induction false} SendFailsExactly(len: nat, calls: seq<Call>)
    ensures SendRun(len, calls).0 == Failed <==> exists k :: SendBreaksAt(len, calls, k)
    ensures SendRun(len, calls).0 == Running <==> Broken !in calls && Offered(calls) < len
    decreases |calls|
  {
    if len > 0 && calls != [] {
      var rest := if calls[0].Moved? then len - Min(calls[0].n, len) else len;
      SendFailsExactly(rest, calls[1..]);
      assert calls == [calls[0]] + calls[1..];
      assert SendBreaksAt(len, calls, 0) <==> calls[0] == Broken;
      forall k | 0 < k < |calls|
        ensures SendBreaksAt(len, calls, k) <==> rest > 0 && SendBreaksAt(rest, calls[1..], k - 1)
      {
        assert calls[..k][1..] == calls[1..][..k - 1];
      }
      forall k | SendBreaksAt(rest, calls[1..], k)
        ensures rest > 0 ==> SendBreaksAt(len, calls, k + 1)
      {
        assert calls[..k + 1][1..] == calls[1..][..k];
      }
    }
  }

  /** Call `k` breaks, and less than `len` was offered before it. */
  ghost predicate SendBreaksAt(len: nat, calls: seq<Call>, k: int) {
    0 <= k < |calls| && calls[k] == Broken && Offered(calls[..k]) < len
  }

  /** If no call breaks, sending finishes exactly when the calls move enough bytes: any finite
      number of interruptions and of short calls only delays it. */
  lemma {:induction false} SendFinishes(len: nat, calls: seq<Call>)
    requires Broken !in calls
    ensures SendRun(len, calls).0 == Done <==> Offered(calls) >= len
    ensures SendRun(len, calls).0 != Failed
    decreases |calls|
  {
    if len > 0 && calls != [] {
      match calls[0]
      case Interrupted => SendFinishes(len, calls[1..]);
      case Moved(n) => SendFinishes(len - Min(n, len), calls[1..]);
    }
  }

  /** Receiving likewise, provided the peer writes enough and does not close the stream. */
  lemma {:induction false} RecvFinishes(avail: nat, len: nat, calls: seq<Call>)
    requires Broken !in calls && Moved(0) !in calls && len <= avail
    ensures RecvRun(avail, len, calls).0 == Done <==> Offered(calls) >= len
    ensures RecvRun(avail, len, calls).0 != Failed
    decreases |calls|
  {
    if len > 0 && calls != [] {
      match calls[0]
      case Interrupted => RecvFinishes(avail, len, calls[1..]);
      case Moved(n) =>
        var k := Min(Min(n, len), avail);
        assert calls[0] in calls;
        RecvFinishes(avail - k, len - k, calls[1..]);
    }
  }

  /** Call `k` breaks or finds the end of the stream, and less than `len` had arrived before it. */
  ghost predicate RecvBreaksAt(avail: nat, len: nat, calls: seq<Call>, k: int) {
    && 0 <= k < |calls| && Min(Offered(calls[..k]), avail) < len
    && (calls[k] == Broken || (calls[k].Moved? && (calls[k].n == 0 || Offered(calls[..k]) >= avail)))
  }

  /** Receiving fails exactly if some call breaks, or finds the end of the stream, before `len`
      bytes have arrived. */
  lemma {:induction false} RecvFailsExactly(avail: nat, len: nat, calls: seq<Call>)
    ensures RecvRun(avail, len, calls).0 == Failed <==> exists k :: RecvBreaksAt(avail, len, calls, k)
    decreases |calls|
  {
    if len > 0 && calls != [] {
      var m := if calls[0].Moved? then Min(Min(calls[0].n, len), avail) else 0;
      assert RecvBreaksAt(avail, len, calls, 0) <==> calls[0] == Broken || (calls[0].Moved? && m == 0);
      if !RecvBreaksAt(avail, len, calls, 0) {
        var avail', len', rest := avail - m, len - m, calls[1..];
        RecvFailsExactly(avail', len', rest);
        forall k | 0 < k < |calls|
          ensures RecvBreaksAt(avail, len, calls, k) <==> RecvBreaksAt(avail', len', rest, k - 1)
        {
          RecvShift(avail, len, calls, m, k);
        }
        if k :| RecvBreaksAt(avail', len', rest, k) {
          RecvShift(avail, len, calls, m, k + 1);
        }
      }
    }
  }

  lemma RecvShift(avail: nat, len: nat, calls: seq<Call>, m: nat, k: int)
    requires 0 < k < |calls| && len > 0 && m <= avail && m <= len && calls[0] != Broken
    requires m == if calls[0].Moved? then Min(Min(calls[0].n, len), avail) else 0
    requires calls[0].Moved? ==> m > 0
    ensures RecvBreaksAt(avail, len, calls, k) <==> RecvBreaksAt(avail - m, len - m, calls[1..], k - 1)
  {
    assert calls[..k][1..] == calls[1..][..k - 1];
  }

  /** A stream that ends early is never mistaken for a whole struct. */
  lemma {:induction false} ShortStreamIsNeverDone(avail: nat, len: nat, calls: seq<Call>)
    requires avail < len
    ensures RecvRun(avail, len, calls).0 != Done
  {
    RecvDoneIsComplete(avail, len, calls);
  }
}
