/** Vocabulary shared by every part of the launcher model. */
module Common {

  datatype Option<+T> = None | Some(value: T)

  datatype Result<+R, +E> = Success(value: R) | Failure(error: E)

  /** One octet of a buffer handed to read(2), write(2), send(2) or recv(2). */
  newtype Byte = b: int | 0 <= b < 256

  /** The errno values the launcher's retry loops tell apart; every other value is Other. */
  datatype Errno = EINTR | EAGAIN | EWOULDBLOCK | Other(code: int)

  /**
   * What a retry loop has done once its script of kernel outcomes is replayed:
   * it returned a value, or the script ran out while the loop still wanted
   * another system call (a run the model does not decide).
   */
  datatype Status = Returned(value: int) | Unfinished

  const EXIT_SUCCESS: int := 0
  const EXIT_FAILURE: int := 1

  function Min(a: int, b: int): int
  {
    if a <= b then a else b
  }

  /**
   * One scripted outcome of read(2) or recv(2): the bytes the kernel has
   * ready for the caller (none at all is the 0 of end of file or of a closed
   * peer), or -1 with errno. A call never delivers more than it asks for.
   */
  datatype ReadCall = Data(bytes: seq<Byte>) | ReadError(errno: Errno)

  /**
   * One scripted outcome of write(2) or send(2): how many bytes the kernel
   * would take (0 is a 0 return), or -1 with errno. A call never takes more
   * than it offers.
   */
  datatype WriteCall = Accepts(n: nat) | WriteError(errno: Errno)

  /** Everything a read script offers, in order. */
  function Payload(script: seq<ReadCall>): seq<Byte>
  {
    if script == [] then []
    else (if script[0].Data? then script[0].bytes else []) + Payload(script[1..])
  }

  /** Everything a write script would take, in total. */
  function Capacity(script: seq<WriteCall>): nat
  {
    if script == [] then 0
    else (if script[0].Accepts? then script[0].n else 0) + Capacity(script[1..])
  }

  /** What a read or recv leaves in the buffer: the kernel copies bytes to buffer[at..]. */
  method Deliver(buffer: array<Byte>, at: nat, bytes: seq<Byte>)
    requires at + |bytes| <= buffer.Length
    modifies buffer
    ensures buffer[..] == old(buffer[..at]) + bytes + old(buffer[at + |bytes|..])
  {
    for j := 0 to |bytes|
      invariant forall k :: 0 <= k < buffer.Length ==>
        buffer[k] == if at <= k < at + j then bytes[k - at] else old(buffer[k])
    {
      buffer[at + j] := bytes[j];
    }
    assert buffer[..] == old(buffer[..at]) + bytes + old(buffer[at + |bytes|..]);
  }

  /** A buffer holding got and then the rest of init, after bytes are delivered just past got. */
  lemma Spliced(init: seq<Byte>, got: seq<Byte>, bytes: seq<Byte>)
    requires |got| + |bytes| <= |init|
    ensures var before := got + init[|got|..];
      before[..|got|] + bytes + before[|got| + |bytes|..] == (got + bytes) + init[|got| + |bytes|..]
  {
    var before := got + init[|got|..];
    assert before[..|got|] == got;
    assert before[|got| + |bytes|..] == init[|got| + |bytes|..];
  }

  /**
   * A read or recv that lands just past the `got` bytes already in a buffer
   * whose remainder is still as it was (init): afterwards the buffer holds
   * got, the new bytes, and the rest of init.
   */
  method DeliverAfter(buffer: array<Byte>, ghost init: seq<Byte>, ghost got: seq<Byte>, at: nat, bytes: seq<Byte>)
    requires at == |got| && at + |bytes| <= |init|
    requires buffer[..] == got + init[|got|..]
    modifies buffer
    ensures buffer[..] == (got + bytes) + init[|got| + |bytes|..]
  {
    Spliced(init, got, bytes);
    Deliver(buffer, at, bytes);
  }

  /** The index of the first element satisfying p, if there is one. */
  function FirstWhere<T>(xs: seq<T>, p: T -> bool): (r: Option<nat>)
    ensures r.Some? ==> r.value < |xs| && p(xs[r.value]) && forall j :: 0 <= j < r.value ==> !p(xs[j])
    ensures r.None? ==> forall j :: 0 <= j < |xs| ==> !p(xs[j])
    decreases |xs|
  {
    if xs == [] then None
    else if p(xs[0]) then Some(0)
    else
      var r := FirstWhere(xs[1..], p);
      assert forall j :: 0 < j < |xs| ==> xs[j] == xs[1..][j - 1];
      if r.None? then None else Some(r.value + 1)
  }

  /** Applies step to each element in turn, from a starting state, and stops at the first failure. */
  function Fold<S, T, E>(s: S, xs: seq<T>, step: (S, T) -> Result<S, E>): Result<S, E>
    decreases |xs|
  {
    if xs == [] then Success(s)
    else match step(s, xs[0])
      case Failure(e) => Failure(e)
      case Success(s') => Fold(s', xs[1..], step)
  }

  /** Folding over one more element is folding over the rest and then taking one step, unless the fold already failed. */
  lemma {:induction false} FoldSnoc<S, T, E>(s: S, xs: seq<T>, x: T, step: (S, T) -> Result<S, E>)
    ensures Fold(s, xs + [x], step) ==
      match Fold(s, xs, step)
      case Failure(e) => Failure(e)
      case Success(p) => step(p, x)
    decreases |xs|
  {
    if xs == [] {
      assert [x][1..] == [];
    } else {
      assert (xs + [x])[1..] == xs[1..] + [x];
      match step(s, xs[0])
      case Failure(e) =>
      case Success(s') => FoldSnoc(s', xs[1..], x, step);
    }
  }

  /**
   * When whether a step fails depends on the element alone, and a failing
   * element always fails with the same error, the fold fails exactly when
   * some element fails, and with the error of the first one.
   */
  lemma {:induction false} FoldStopsAtFirst<S, T, E>(s: S, xs: seq<T>, step: (S, T) -> Result<S, E>,
                                                   fails: T -> bool, error: T -> E)
    requires forall s', x :: fails(x) ==> step(s', x) == Failure(error(x))
    requires forall s', x :: !fails(x) ==> step(s', x).Success?
    ensures Fold(s, xs, step).Failure? <==> FirstWhere(xs, fails).Some?
    ensures FirstWhere(xs, fails).Some? ==> Fold(s, xs, step) == Failure(error(xs[FirstWhere(xs, fails).value]))
    decreases |xs|
  {
    if xs != [] && !fails(xs[0]) {
      var s' := step(s, xs[0]).value;
      FoldStopsAtFirst(s', xs[1..], step, fails, error);
      var r := FirstWhere(xs[1..], fails);
      assert FirstWhere(xs, fails) == if r.None? then None else Some(r.value + 1);
      if r.Some? {
        assert xs[r.value + 1] == xs[1..][r.value];
      }
    }
  }
}
