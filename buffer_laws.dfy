/**
 * What a consumer of the buffer can rely on: the ordering laws of the reader's
 * lookahead, derived from the buffer's contracts alone.
 */
module BufferLaws {
  import opened Scalars
  import opened ReaderBuffer

  function Min(a: nat, b: nat): nat { if a <= b then a else b }

  /** Calls `Next` up to `n` times, stopping at the first `None`; returns the
      scalars produced, which are the first `n` buffered ones (or all of them). */
  method Drain(buffer: ScalarBuffer, n: nat) returns (taken: seq<Scalar>)
    requires buffer.Valid()
    modifies buffer
    ensures buffer.Valid()
    ensures taken == old(buffer.Contents)[..Min(n, |old(buffer.Contents)|)]
    ensures buffer.Contents == old(buffer.Contents)[Min(n, |old(buffer.Contents)|)..]
  {
    ghost var original := buffer.Contents;
    taken := [];
    var i := 0;
    while i < n
      invariant buffer.Valid()
      invariant i <= n && |taken| == i
      invariant taken + buffer.Contents == original
    {
      var r := buffer.Next();
      match r {
        case None => break;
        case Some(x) =>
          taken := taken + [x];
          i := i + 1;
      }
    }
    assert original == taken + buffer.Contents;
    assert |taken| == Min(n, |original|);
  }

  /** Reads up to `k` scalars ahead and gives them back: the buffer ends up as it
      started, and the scalars seen are its first `k` (or all of them). */
  method Lookahead(buffer: ScalarBuffer, k: nat) returns (ahead: seq<Scalar>)
    requires buffer.Valid()
    modifies buffer
    ensures buffer.Valid()
    ensures ahead == old(buffer.Contents)[..Min(k, |old(buffer.Contents)|)]
    ensures buffer.Contents == old(buffer.Contents)
  {
    ahead := Drain(buffer, k);
    buffer.PrependScalars(ahead);
  }

  /** A fresh buffer, whatever its capacity hint, produces nothing. */
  method FreshBufferIsEmpty(capacity: int) returns (first: Option<Scalar>)
    ensures first == None
  {
    var buffer := new ScalarBuffer(capacity);
    first := buffer.Next();
  }

  /** Scalars appended one at a time are produced in the order appended, then `None`. */
  method AppendedInOrder(scalars: seq<Scalar>) returns (produced: seq<Scalar>, after: Option<Scalar>)
    ensures produced == scalars
    ensures after == None
  {
    var buffer := new ScalarBuffer(|scalars|);
    var i := 0;
    while i < |scalars|
      invariant i <= |scalars|
      invariant buffer.Valid() && buffer.Contents == scalars[..i]
    {
      buffer.AppendScalar(scalars[i]);
      assert scalars[..i + 1] == scalars[..i] + [scalars[i]];
      i := i + 1;
    }
    assert scalars[..i] == scalars;
    produced := Drain(buffer, |scalars|);
    after := buffer.Next();
  }

  /** A batch pushed back into an empty buffer comes out in its own order, not reversed. */
  method PushbackKeepsOrder(x: Scalar, y: Scalar, z: Scalar) returns (a: Option<Scalar>, b: Option<Scalar>, c: Option<Scalar>)
    ensures a == Some(x) && b == Some(y) && c == Some(z)
  {
    var buffer := new ScalarBuffer(0);
    buffer.PrependScalars([x, y, z]);
    a := buffer.Next();
    b := buffer.Next();
    c := buffer.Next();
  }

  /** A scalar pushed back is produced before what was already buffered. */
  method PushbackGoesFirst(a: Scalar, b: Scalar, p: Scalar) returns (produced: seq<Scalar>, after: Option<Scalar>)
    ensures produced == [p, a, b]
    ensures after == None
  {
    var buffer := new ScalarBuffer(2);
    buffer.AppendScalar(a);
    buffer.AppendScalar(b);
    buffer.PrependScalar(p);
    produced := Drain(buffer, 3);
    after := buffer.Next();
  }

  /** After clearing, once or twice, nothing is produced. */
  method ClearedBufferIsEmpty(scalars: seq<Scalar>, pushedBack: seq<Scalar>) returns (once: Option<Scalar>, twice: Option<Scalar>)
    ensures once == None && twice == None
  {
    var buffer := new ScalarBuffer(0);
    buffer.AppendScalars(scalars);
    buffer.PrependScalars(pushedBack);
    buffer.RemoveAll();
    once := buffer.Next();
    buffer.RemoveAll();
    twice := buffer.Next();
  }

  /** Appending [1, 2] and then pushing back [9, 8] produces 9, 8, 1, 2. */
  method MixedBatches() returns (produced: seq<Scalar>, after: Option<Scalar>)
    ensures produced == [9, 8, 1, 2]
    ensures after == None
  {
    var buffer := new ScalarBuffer(4);
    buffer.AppendScalars([1, 2]);
    buffer.PrependScalars([9, 8]);
    produced := Drain(buffer, 4);
    after := buffer.Next();
  }

  /** Pushing back or appending an empty batch changes nothing that is produced. */
  method EmptyBatchesAreNoOps(scalars: seq<Scalar>) returns (produced: seq<Scalar>)
    ensures produced == scalars
  {
    var buffer := new ScalarBuffer(0);
    buffer.AppendScalars(scalars);
    buffer.PrependScalars([]);
    buffer.AppendScalars([]);
    produced := Drain(buffer, |scalars|);
  }

  /** Consuming `k` scalars, pushing them back as one batch and reading everything
      again replays the original input in its original order. */
  method ReplayAfterLookahead(scalars: seq<Scalar>, k: nat) returns (ahead: seq<Scalar>, replayed: seq<Scalar>)
    ensures ahead == scalars[..Min(k, |scalars|)]
    ensures replayed == scalars
  {
    var buffer := new ScalarBuffer(|scalars|);
    buffer.AppendScalars(scalars);
    ahead := Lookahead(buffer, k);
    replayed := Drain(buffer, |scalars|);
  }
}
