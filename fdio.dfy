/**
 * The interruption-safe descriptor helpers of util.c. Each loop is replayed
 * against a finite script of kernel outcomes, one entry per system call, and
 * is proved equal to a specification function over that script; the lemmas
 * state what the retry discipline promises about that function.
 */
module FdIo {
  import opened Common

  datatype ReadRun = ReadRun(status: Status, data: seq<Byte>)

  datatype WriteRun = WriteRun(status: Status, sent: nat)

  /**
   * read_all_from_fd, continuing with the bytes `got` already in the buffer:
   * keep reading while fewer than `count` bytes are in and read does not
   * return 0; an EINTR is retried, any other error gives -1.
   */
  function ReadAll(script: seq<ReadCall>, count: nat, got: seq<Byte>): (run: ReadRun)
    requires |got| <= count
    ensures |got| <= |run.data| <= count
    ensures run.status.Returned? ==> run.status.value == -1 || run.status.value == |run.data|
    decreases |script|
  {
    if |got| == count then ReadRun(Returned(|got|), got)
    else if script == [] then ReadRun(Unfinished, got)
    else match script[0]
      case Data(b) =>
        if b == [] then ReadRun(Returned(|got|), got)
        else ReadAll(script[1..], count, got + b[..Min(|b|, count - |got|)])
      case ReadError(e) =>
        if e == EINTR then ReadAll(script[1..], count, got) else ReadRun(Returned(-1), got)
  }

  /** What the call hands back starts with the bytes already in and is a prefix of those followed by everything the script offers. */
  lemma {:induction false} ReadKeepsOrder(script: seq<ReadCall>, count: nat, got: seq<Byte>)
    requires |got| <= count
    ensures got <= ReadAll(script, count, got).data <= got + Payload(script)
    decreases |script|
  {
    if |got| < count && script != [] {
      assert Payload(script) == (if script[0].Data? then script[0].bytes else []) + Payload(script[1..]);
      match script[0]
      case Data(b) =>
        if b != [] {
          var more := got + b[..Min(|b|, count - |got|)];
          ReadKeepsOrder(script[1..], count, more);
          if |b| <= count - |got| {
            assert more + Payload(script[1..]) == got + Payload(script);
          } else {
            assert more <= got + Payload(script);
          }
        }
      case ReadError(e) =>
        if e == EINTR {
          ReadKeepsOrder(script[1..], count, got);
        }
    }
  }

  /** An EINTR anywhere in the script changes nothing: the interrupted read is simply issued again. */
  lemma {:induction false} ReadInterruptInvisible(script: seq<ReadCall>, k: nat, count: nat, got: seq<Byte>)
    requires k <= |script| && |got| <= count
    ensures ReadAll(script[..k] + [ReadError(EINTR)] + script[k..], count, got) == ReadAll(script, count, got)
    decreases k
  {
    var s := script[..k] + [ReadError(EINTR)] + script[k..];
    if k > 0 && |got| < count {
      assert s[0] == script[0];
      assert s[1..] == script[1..][..k - 1] + [ReadError(EINTR)] + script[1..][k - 1..];
      match script[0]
      case Data(b) =>
        if b != [] {
          ReadInterruptInvisible(script[1..], k - 1, count, got + b[..Min(|b|, count - |got|)]);
        }
      case ReadError(e) =>
        ReadInterruptInvisible(script[1..], k - 1, count, got);
    } else if k == 0 && |got| < count {
      assert s[1..] == script;
    }
  }

  /** A read failing with any errno but EINTR ends the call with -1 at once. */
  lemma ReadHardError(e: Errno, rest: seq<ReadCall>, count: nat, got: seq<Byte>)
    requires e != EINTR && |got| < count
    ensures ReadAll([ReadError(e)] + rest, count, got) == ReadRun(Returned(-1), got)
  {
  }

  /** A read returning 0 ends the call with the total read so far. */
  lemma ReadEndOfFile(rest: seq<ReadCall>, count: nat, got: seq<Byte>)
    requires |got| < count
    ensures ReadAll([Data([])] + rest, count, got) == ReadRun(Returned(|got|), got)
  {
  }

  predicate Progressing(script: seq<ReadCall>)
  {
    forall i :: 0 <= i < |script| ==> script[i].Data? && script[i].bytes != []
  }

  /** When every read delivers and the script offers enough, the call returns exactly count bytes, in read order. */
  lemma {:induction false} ReadFullProgress(script: seq<ReadCall>, count: nat, got: seq<Byte>)
    requires |got| <= count && Progressing(script) && |got| + |Payload(script)| >= count
    ensures ReadAll(script, count, got) == ReadRun(Returned(count), (got + Payload(script))[..count])
    decreases |script|
  {
    if |got| < count {
      var b := script[0].bytes;
      var n := Min(|b|, count - |got|);
      assert Payload(script) == b + Payload(script[1..]);
      if n == |b| {
        assert b[..n] == b;
        ReadFullProgress(script[1..], count, got + b);
        assert got + b + Payload(script[1..]) == got + Payload(script);
      } else {
        assert |got + b[..n]| == count;
        assert (got + Payload(script))[..count] == got + b[..n];
      }
    } else {
      assert (got + Payload(script))[..count] == got;
    }
  }

  /**
   * The loop of read_all_from_fd: the result is the specification's, and
   * exactly the bytes it read sit at the front of the buffer, in read order,
   * with the rest of the buffer untouched.
   */
  method ReadAllFromFd(script: seq<ReadCall>, buffer: array<Byte>, count: nat) returns (r: int)
    requires count <= buffer.Length
    requires ReadAll(script, count, []).status.Returned?
    modifies buffer
    ensures var run := ReadAll(script, count, []);
      r == run.status.value && r <= count && buffer[..] == run.data + old(buffer[|run.data|..])
  {
    var totalRead: nat := 0;
    var rest := script;
    ghost var got: seq<Byte> := [];
    ghost var run := ReadAll(script, count, []);
    ghost var init := buffer[..];
    while totalRead < count
      invariant totalRead == |got| <= count
      invariant ReadAll(rest, count, got) == run
      invariant buffer[..] == got + init[totalRead..]
      decreases |rest|
    {
      assert rest != [];
      var call := rest[0];
      rest := rest[1..];
      match call
      case Data(b) =>
        if b == [] {
          break;
        }
        var justRead := Min(|b|, count - totalRead);
        DeliverAfter(buffer, init, got, totalRead, b[..justRead]);
        got := got + b[..justRead];
        totalRead := totalRead + justRead;
      case ReadError(e) =>
        if e == EINTR {
          continue;
        }
        assert run == ReadRun(Returned(-1), got);
        return -1;
    }
    assert run == ReadRun(Returned(|got|), got);
    return totalRead;
  }

  /**
   * write_all_to_fd, continuing after `total` bytes went out: keep writing
   * while fewer than `count` are out and write does not return 0; an EINTR is
   * retried, any other error gives -1.
   */
  function WriteAll(script: seq<WriteCall>, count: nat, total: nat): (run: WriteRun)
    requires total <= count
    ensures total <= run.sent <= count && run.sent <= total + Capacity(script)
    ensures run.status.Returned? ==> run.status.value == -1 || run.status.value == run.sent
    decreases |script|
  {
    if total == count then WriteRun(Returned(total), total)
    else if script == [] then WriteRun(Unfinished, total)
    else match script[0]
      case Accepts(n) =>
        if n == 0 then WriteRun(Returned(total), total)
        else WriteAll(script[1..], count, total + Min(n, count - total))
      case WriteError(e) =>
        if e == EINTR then WriteAll(script[1..], count, total) else WriteRun(Returned(-1), total)
  }

  /** An EINTR anywhere in the script changes nothing. */
  lemma {:induction false} WriteInterruptInvisible(script: seq<WriteCall>, k: nat, count: nat, total: nat)
    requires k <= |script| && total <= count
    ensures WriteAll(script[..k] + [WriteError(EINTR)] + script[k..], count, total) == WriteAll(script, count, total)
    decreases k
  {
    var s := script[..k] + [WriteError(EINTR)] + script[k..];
    if k > 0 && total < count {
      assert s[0] == script[0];
      assert s[1..] == script[1..][..k - 1] + [WriteError(EINTR)] + script[1..][k - 1..];
      match script[0]
      case Accepts(n) =>
        if n != 0 {
          WriteInterruptInvisible(script[1..], k - 1, count, total + Min(n, count - total));
        }
      case WriteError(e) =>
        WriteInterruptInvisible(script[1..], k - 1, count, total);
    } else if k == 0 && total < count {
      assert s[1..] == script;
    }
  }

  /** Any errno but EINTR ends the call with -1; a 0-byte write ends it with the partial total. */
  lemma WriteStops(e: Errno, rest: seq<WriteCall>, count: nat, total: nat)
    requires e != EINTR && total < count
    ensures WriteAll([WriteError(e)] + rest, count, total) == WriteRun(Returned(-1), total)
    ensures WriteAll([Accepts(0)] + rest, count, total) == WriteRun(Returned(total), total)
  {
  }

  /** When every write takes something and the script takes enough, the call returns count. */
  lemma {:induction false} WriteFullProgress(script: seq<WriteCall>, count: nat, total: nat)
    requires total <= count && total + Capacity(script) >= count
    requires forall i :: 0 <= i < |script| ==> script[i].Accepts? && script[i].n > 0
    ensures WriteAll(script, count, total) == WriteRun(Returned(count), count)
    decreases |script|
  {
    if total < count {
      WriteFullProgress(script[1..], count, total + Min(script[0].n, count - total));
    }
  }

  /**
   * The loop of write_all_to_fd: the result is the specification's, and the
   * descriptor received the first `sent` bytes of the buffer, in order.
   */
  method WriteAllToFd(script: seq<WriteCall>, buffer: array<Byte>, count: nat) returns (r: int, wire: seq<Byte>)
    requires count <= buffer.Length
    requires WriteAll(script, count, 0).status.Returned?
    ensures var run := WriteAll(script, count, 0);
      r == run.status.value && r <= count && wire == buffer[..run.sent]
  {
    var totalWritten: nat := 0;
    var rest := script;
    wire := [];
    while totalWritten < count
      invariant totalWritten <= count
      invariant WriteAll(rest, count, totalWritten) == WriteAll(script, count, 0)
      invariant wire == buffer[..totalWritten]
      decreases |rest|
    {
      var call := rest[0];
      rest := rest[1..];
      match call
      case WriteError(e) =>
        if e == EINTR {
          continue;
        }
        return -1, wire;
      case Accepts(n) =>
        if n == 0 {
          break;
        }
        var justWritten := Min(n, count - totalWritten);
        wire := wire + buffer[totalWritten..totalWritten + justWritten];
        assert buffer[..totalWritten + justWritten] == buffer[..totalWritten] + buffer[totalWritten..totalWritten + justWritten];
        totalWritten := totalWritten + justWritten;
    }
    return totalWritten, wire;
  }

  /** One scripted outcome of close(2). */
  datatype CloseCall = Closed | CloseError(errno: Errno)

  /** close_fd_interrupt_proof: retry close while it fails with EINTR; 0 on success, -1 on any other failure. */
  function CloseRetry(script: seq<CloseCall>): (s: Status)
    ensures s.Returned? ==> s.value == 0 || s.value == -1
  {
    if script == [] then Unfinished
    else match script[0]
      case Closed => Returned(0)
      case CloseError(e) => if e == EINTR then CloseRetry(script[1..]) else Returned(-1)
  }

  /** The index of the first close outcome that is not an EINTR. */
  predicate SettlesAt(script: seq<CloseCall>, k: int)
  {
    0 <= k < |script| && script[k] != CloseError(EINTR) &&
    forall j :: 0 <= j < k ==> script[j] == CloseError(EINTR)
  }

  /** The helper succeeds exactly when the first close that is not interrupted succeeds, and fails exactly when it fails. */
  lemma {:induction false} CloseOutcome(script: seq<CloseCall>)
    ensures CloseRetry(script) == Returned(0) <==> exists k :: SettlesAt(script, k) && script[k] == Closed
    ensures CloseRetry(script) == Returned(-1) <==> exists k :: SettlesAt(script, k) && script[k].CloseError?
    ensures CloseRetry(script) == Unfinished <==> forall j :: 0 <= j < |script| ==> script[j] == CloseError(EINTR)
    decreases |script|
  {
    if script != [] {
      CloseOutcome(script[1..]);
      if script[0] == CloseError(EINTR) {
        forall k | SettlesAt(script[1..], k) ensures SettlesAt(script, k + 1) {
        }
        forall k | SettlesAt(script, k) ensures k > 0 && SettlesAt(script[1..], k - 1) {
        }
        if forall j :: 0 <= j < |script[1..]| ==> script[1..][j] == CloseError(EINTR) {
          forall j | 0 <= j < |script| ensures script[j] == CloseError(EINTR) {
            if j > 0 { assert script[j] == script[1..][j - 1]; }
          }
        }
      } else {
        assert SettlesAt(script, 0);
        forall k | SettlesAt(script, k) ensures k == 0 {
        }
      }
    }
  }

  /** The loop of close_fd_interrupt_proof returns what the specification says. */
  method CloseFdInterruptProof(script: seq<CloseCall>) returns (r: int)
    requires CloseRetry(script).Returned?
    ensures r == CloseRetry(script).value && (r == 0 || r == -1)
  {
    var rest := script;
    while true
      invariant CloseRetry(rest) == CloseRetry(script)
      decreases |rest|
    {
      var call := rest[0];
      rest := rest[1..];
      if call == Closed {
        break;
      }
      if call.errno != EINTR {
        return -1;
      }
    }
    return 0;
  }
}
