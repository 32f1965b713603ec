/** Machine integers and the result types shared by every part of the model. */
module Base {

  newtype int64 = x: int | -0x8000_0000_0000_0000 <= x < 0x8000_0000_0000_0000
  newtype int32 = x: int | -0x8000_0000 <= x < 0x8000_0000
  newtype byte = x: int | 0 <= x < 256

  datatype Option<+T> = None | Some(value: T) {
    function GetOr(default: T): T {
      match this
      case None => default
      case Some(v) => v
    }
  }

  datatype Result<+T> = Ok(value: T) | Err(error: Error) {
    predicate IsFailure() {
      Err?
    }

    function PropagateFailure<U>(): Result<U>
      requires Err?
    {
      Err(error)
    }

    function Extract(): T
      requires Ok?
    {
      value
    }
  }

  /** The gRPC status codes the sidecar produces or tests for. */
  datatype Code = Unknown | InvalidArgument | Unauthenticated | PermissionDenied | Unavailable | Internal | OtherCode(number: nat)

  /** A non-nil Go error.  io.EOF is not among them: the operations that can
      return it say so in their own result type. */
  datatype Error =
    | ErrFailedToSeek
    | ErrFailedToRead
    | ErrFailedToWrite
    | ErrContentsDoNotMatch
    | ErrReadingDevices
    | ErrInvalidArgs
    | Status(code: Code)
    | Opaque(id: nat)

  function Min(a: int, b: int): int {
    if a <= b then a else b
  }

  function Max(a: int, b: int): int {
    if a <= b then b else a
  }

  lemma InMiddle<T>(a: seq<T>, b: seq<T>, c: seq<T>, j: nat)
    requires j < |b|
    ensures |a| + j < |a + b + c| && (a + b + c)[..|a| + j] == a + b[..j] && (a + b + c)[|a| + j] == b[j]
  {
  }

  lemma AtEnd<T>(a: seq<T>, b: seq<T>, k: nat)
    requires k < |b|
    ensures (a + b)[|a| + k] == b[k]
  {
  }

  lemma PrefixAndRest<T>(prefix: seq<T>, whole: seq<T>, k: nat)
    requires prefix <= whole && k <= |prefix|
    ensures prefix[..k] + whole[k..] == whole && (0 < k ==> prefix[k - 1] == whole[k - 1])
  {
  }

  lemma Append2<T>(a: seq<T>, b: seq<T>, c: seq<T>)
    ensures a + (b + c) == a + b + c
  {
  }

  lemma Append3<T>(a: seq<T>, b: seq<T>, c: seq<T>, d: seq<T>)
    ensures a + (b + (c + d)) == a + (b + c) + d
  {
  }
}

/** The messages that travel from the CSI driver to the emitter. */
module Metadata {
  import opened Base

  datatype BlockMetadata = BlockMetadata(byteOffset: int64, sizeBytes: int64)

  /** One record as the emitter sees it.  A Go slice is nil (None) or holds
      elements; JSON prints the two differently. */
  datatype IteratorMetadata = IteratorMetadata(
    blockMetadataType: int32,
    volumeCapacityBytes: int64,
    blockMetadata: Option<seq<BlockMetadata>>)
  {
    function Blocks(): seq<BlockMetadata> {
      match blockMetadata
      case None => []
      case Some(blocks) => blocks
    }
  }

  /** All tuples of a stream of records, in order. */
  function Tuples(records: seq<IteratorMetadata>): seq<BlockMetadata> {
    if records == [] then []
    else Tuples(records[..|records| - 1]) + records[|records| - 1].Blocks()
  }

  lemma {:induction false} TuplesConcat(a: seq<IteratorMetadata>, b: seq<IteratorMetadata>)
    ensures Tuples(a + b) == Tuples(a) + Tuples(b)
  {
    if b == [] {
      assert a + b == a;
    } else {
      var c, init, last := a + b, b[..|b| - 1], b[|b| - 1].Blocks();
      assert c[..|c| - 1] == a + init && c[|c| - 1] == b[|b| - 1];
      calc {
        Tuples(c);
        Tuples(a + init) + last;
        { TuplesConcat(a, init); }
        (Tuples(a) + Tuples(init)) + last;
        Tuples(a) + (Tuples(init) + last);
        Tuples(a) + Tuples(b);
      }
    }
  }

  lemma TuplesSnoc(a: seq<IteratorMetadata>, m: IteratorMetadata)
    ensures Tuples(a + [m]) == Tuples(a) + m.Blocks()
  {
    assert (a + [m])[..|a|] == a;
  }

  lemma Around(records: seq<IteratorMetadata>, k: nat)
    requires k < |records|
    ensures records == records[..k] + [records[k]] + records[k + 1..]
  {
  }

  lemma TuplesAround(records: seq<IteratorMetadata>, k: nat)
    requires k < |records|
    ensures Tuples(records) == Tuples(records[..k]) + records[k].Blocks() + Tuples(records[k + 1..])
  {
    Around(records, k);
    TuplesSnoc(records[..k], records[k]);
    TuplesConcat(records[..k] + [records[k]], records[k + 1..]);
  }
}
