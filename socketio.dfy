/**
 * The socket helpers of dry-dock/utils.c, replayed against scripts of
 * send(2) and recv(2) outcomes. They differ from the descriptor helpers in
 * what ends them: a send that takes nothing is an error, and a receive that
 * would block ends the call with what has arrived so far.
 */
module SocketIo {
  import opened Common
  import FdIo

  /** The largest value of the C int that carries counts and totals here. */
  const INT_MAX: int := 0x7fff_ffff

  /**
   * write_all_to_socket, continuing after `total` bytes went out: loop until
   * `count` bytes are out; a send of 0 bytes or an error other than EINTR
   * gives -1, and EINTR is retried.
   */
  function SendAll(script: seq<WriteCall>, count: nat, total: nat): (run: FdIo.WriteRun)
    requires total <= count
    ensures total <= run.sent <= count && run.sent <= total + Capacity(script)
    ensures run.status.Returned? ==> run.status.value == -1 || (run.status.value == count && run.sent == count)
    decreases |script|
  {
    if total == count then FdIo.WriteRun(Returned(total), total)
    else if script == [] then FdIo.WriteRun(Unfinished, total)
    else match script[0]
      case Accepts(n) =>
        if n == 0 then FdIo.WriteRun(Returned(-1), total)
        else SendAll(script[1..], count, total + Min(n, count - total))
      case WriteError(e) =>
        if e == EINTR then SendAll(script[1..], count, total) else FdIo.WriteRun(Returned(-1), total)
  }

  /** An EINTR anywhere in the script changes nothing. */
  lemma {:induction false} SendInterruptInvisible(script: seq<WriteCall>, k: nat, count: nat, total: nat)
    requires k <= |script| && total <= count
    ensures SendAll(script[..k] + [WriteError(EINTR)] + script[k..], count, total) == SendAll(script, count, total)
    decreases k
  {
    var s := script[..k] + [WriteError(EINTR)] + script[k..];
    if k > 0 && total < count {
      assert s[0] == script[0];
      assert s[1..] == script[1..][..k - 1] + [WriteError(EINTR)] + script[1..][k - 1..];
      match script[0]
      case Accepts(n) =>
        if n != 0 {
          SendInterruptInvisible(script[1..], k - 1, count, total + Min(n, count - total));
        }
      case WriteError(e) =>
        SendInterruptInvisible(script[1..], k - 1, count, total);
    } else if k == 0 && total < count {
      assert s[1..] == script;
    }
  }

  /** A send of 0 bytes and a send failing with anything but EINTR both end the call with -1. */
  lemma SendStops(e: Errno, rest: seq<WriteCall>, count: nat, total: nat)
    requires e != EINTR && total < count
    ensures SendAll([Accepts(0)] + rest, count, total).status == Returned(-1)
    ensures SendAll([WriteError(e)] + rest, count, total).status == Returned(-1)
  {
  }

  /** If every send takes something and the script takes enough, the call returns count. */
  lemma {:induction false} SendFullProgress(script: seq<WriteCall>, count: nat, total: nat)
    requires total <= count && total + Capacity(script) >= count
    requires forall i :: 0 <= i < |script| ==> script[i].Accepts? && script[i].n > 0
    ensures SendAll(script, count, total) == FdIo.WriteRun(Returned(count), count)
    decreases |script|
  {
    if total < count {
      SendFullProgress(script[1..], count, total + Min(script[0].n, count - total));
    }
  }

  /** The loop of write_all_to_socket: the specification's result, and the peer got the first `sent` bytes in order. */
  method WriteAllToSocket(script: seq<WriteCall>, buffer: array<Byte>, count: nat) returns (r: int, wire: seq<Byte>)
    requires count <= buffer.Length && count <= INT_MAX
    requires SendAll(script, count, 0).status.Returned?
    ensures var run := SendAll(script, count, 0);
      r == run.status.value && (r == -1 || r == count) && wire == buffer[..run.sent]
  {
    var total: nat := 0;
    var rest := script;
    wire := [];
    while total != count
      invariant total <= count
      invariant SendAll(rest, count, total) == SendAll(script, count, 0)
      invariant wire == buffer[..total]
      decreases |rest|
    {
      var call := rest[0];
      rest := rest[1..];
      match call
      case Accepts(n) =>
        if n == 0 {
          return -1, wire;
        }
        var sent := Min(n, count - total);
        wire := wire + buffer[total..total + sent];
        assert buffer[..total + sent] == buffer[..total] + buffer[total..total + sent];
        total := total + sent;
      case WriteError(e) =>
        if e == EINTR {
          continue;
        }
        return -1, wire;
    }
    return total, wire;
  }

  /**
   * read_all_from_socket, continuing with `got` already received: loop until
   * `count` bytes are in; a 0 return, EAGAIN and EWOULDBLOCK end the call
   * with the total so far, EINTR is retried, any other error gives -1.
   */
  function RecvAll(script: seq<ReadCall>, count: nat, got: seq<Byte>): (run: FdIo.ReadRun)
    requires |got| <= count
    ensures |got| <= |run.data| <= count
    ensures run.status.Returned? ==> run.status.value == -1 || run.status.value == |run.data|
    decreases |script|
  {
    if |got| == count then FdIo.ReadRun(Returned(|got|), got)
    else if script == [] then FdIo.ReadRun(Unfinished, got)
    else match script[0]
      case Data(b) =>
        if b == [] then FdIo.ReadRun(Returned(|got|), got)
        else RecvAll(script[1..], count, got + b[..Min(|b|, count - |got|)])
      case ReadError(e) =>
        if e == EINTR then RecvAll(script[1..], count, got)
        else if e == EAGAIN || e == EWOULDBLOCK then FdIo.ReadRun(Returned(|got|), got)
        else FdIo.ReadRun(Returned(-1), got)
  }

  /** What the call hands back starts with the bytes already in and is a prefix of those followed by everything the script offers. */
  lemma {:induction false} RecvKeepsOrder(script: seq<ReadCall>, count: nat, got: seq<Byte>)
    requires |got| <= count
    ensures got <= RecvAll(script, count, got).data <= got + Payload(script)
    decreases |script|
  {
    if |got| < count && script != [] {
      assert Payload(script) == (if script[0].Data? then script[0].bytes else []) + Payload(script[1..]);
      match script[0]
      case Data(b) =>
        if b != [] {
          var more := got + b[..Min(|b|, count - |got|)];
          RecvKeepsOrder(script[1..], count, more);
          if |b| <= count - |got| {
            assert more + Payload(script[1..]) == got + Payload(script);
          } else {
            assert more <= got + Payload(script);
          }
        }
      case ReadError(e) =>
        if e == EINTR {
          RecvKeepsOrder(script[1..], count, got);
        }
    }
  }

  /** An EINTR anywhere in the script changes nothing. */
  lemma {:induction false} RecvInterruptInvisible(script: seq<ReadCall>, k: nat, count: nat, got: seq<Byte>)
    requires k <= |script| && |got| <= count
    ensures RecvAll(script[..k] + [ReadError(EINTR)] + script[k..], count, got) == RecvAll(script, count, got)
    decreases k
  {
    var s := script[..k] + [ReadError(EINTR)] + script[k..];
    if k > 0 && |got| < count {
      assert s[0] == script[0];
      assert s[1..] == script[1..][..k - 1] + [ReadError(EINTR)] + script[1..][k - 1..];
      match script[0]
      case Data(b) =>
        if b != [] {
          RecvInterruptInvisible(script[1..], k - 1, count, got + b[..Min(|b|, count - |got|)]);
        }
      case ReadError(e) =>
        RecvInterruptInvisible(script[1..], k - 1, count, got);
    } else if k == 0 && |got| < count {
      assert s[1..] == script;
    }
  }

  /** A closed peer, EAGAIN and EWOULDBLOCK give the partial total; any other errno but EINTR gives -1. */
  lemma RecvStops(e: Errno, rest: seq<ReadCall>, count: nat, got: seq<Byte>)
    requires e != EINTR && |got| < count
    ensures RecvAll([Data([])] + rest, count, got) == FdIo.ReadRun(Returned(|got|), got)
    ensures RecvAll([ReadError(e)] + rest, count, got).status ==
      if e == EAGAIN || e == EWOULDBLOCK then Returned(|got|) else Returned(-1)
  {
  }

  /** If every receive delivers and the script offers enough, the call returns count bytes, in arrival order. */
  lemma {:induction false} RecvFullProgress(script: seq<ReadCall>, count: nat, got: seq<Byte>)
    requires |got| <= count && FdIo.Progressing(script) && |got| + |Payload(script)| >= count
    ensures RecvAll(script, count, got) == FdIo.ReadRun(Returned(count), (got + Payload(script))[..count])
    decreases |script|
  {
    if |got| < count {
      var b := script[0].bytes;
      var n := Min(|b|, count - |got|);
      assert Payload(script) == b + Payload(script[1..]);
      if n == |b| {
        assert b[..n] == b;
        RecvFullProgress(script[1..], count, got + b);
        assert got + b + Payload(script[1..]) == got + Payload(script);
      } else {
        assert |got + b[..n]| == count;
        assert (got + Payload(script))[..count] == got + b[..n];
      }
    } else {
      assert (got + Payload(script))[..count] == got;
    }
  }

  /** The loop of read_all_from_socket: the specification's result, with the received bytes at the front of the buffer. */
  method ReadAllFromSocket(script: seq<ReadCall>, buffer: array<Byte>, count: nat) returns (r: int)
    requires count <= buffer.Length && count <= INT_MAX
    requires RecvAll(script, count, []).status.Returned?
    modifies buffer
    ensures var run := RecvAll(script, count, []);
      r == run.status.value && r <= count && buffer[..] == run.data + old(buffer[|run.data|..])
  {
    ghost var run := RecvAll(script, count, []);
    var total: nat := 0;
    var rest := script;
    ghost var got: seq<Byte> := [];
    ghost var init := buffer[..];
    while count != total
      invariant total == |got| <= count
      invariant RecvAll(rest, count, got) == run
      invariant buffer[..] == got + init[total..]
      decreases |rest|
    {
      assert rest != [];
      var call := rest[0];
      rest := rest[1..];
      match call
      case Data(b) =>
        if b == [] {
          break;
        }
        var recvd := Min(|b|, count - total);
        DeliverAfter(buffer, init, got, total, b[..recvd]);
        got := got + b[..recvd];
        total := total + recvd;
      case ReadError(e) =>
        if e == EINTR {
          continue;
        } else if e == EAGAIN || e == EWOULDBLOCK {
          break;
        }
        assert run == FdIo.ReadRun(Returned(-1), got);
        return -1;
    }
    assert run == FdIo.ReadRun(Returned(|got|), got);
    return total;
  }
}
