/** Continuing an interrupted enumeration from the end of the last tuple. */
module Resume {
  import opened Base
  import opened Metadata
  import opened CopyAlgebra

  function End(b: BlockMetadata): int {
    b.byteOffset as int + b.sizeBytes as int
  }

  /** The order the stream promises: positive sizes, increasing, disjoint. */
  ghost predicate Ordered(tuples: seq<BlockMetadata>) {
    && (forall i :: 0 <= i < |tuples| ==> 0 <= tuples[i].byteOffset && 0 < tuples[i].sizeBytes)
    && forall i, j :: 0 <= i < j < |tuples| ==> End(tuples[i]) <= tuples[j].byteOffset as int
  }

  /** What a driver returns for a starting offset: the tuples that end after it. */
  function EndingAfter(tuples: seq<BlockMetadata>, start: int): seq<BlockMetadata> {
    if tuples == [] then []
    else if start < End(tuples[0]) then [tuples[0]] + EndingAfter(tuples[1..], start)
    else EndingAfter(tuples[1..], start)
  }

  lemma {:induction false} EndingAfterTwice(tuples: seq<BlockMetadata>, start: int, later: int)
    requires start <= later
    ensures EndingAfter(EndingAfter(tuples, start), later) == EndingAfter(tuples, later)
  {
    if tuples != [] {
      EndingAfterTwice(tuples[1..], start, later);
      if start < End(tuples[0]) {
        assert ([tuples[0]] + EndingAfter(tuples[1..], start))[1..] == EndingAfter(tuples[1..], start);
      }
    }
  }

  lemma {:induction false} EndingAfterIn(tuples: seq<BlockMetadata>, start: int, b: BlockMetadata)
    ensures b in EndingAfter(tuples, start) <==> b in tuples && start < End(b)
  {
    if tuples != [] {
      EndingAfterIn(tuples[1..], start, b);
      assert b in tuples <==> b == tuples[0] || b in tuples[1..];
    }
  }

  lemma OrderedCons(first: BlockMetadata, rest: seq<BlockMetadata>)
    requires 0 <= first.byteOffset && 0 < first.sizeBytes && Ordered(rest)
    requires forall b :: b in rest ==> End(first) <= b.byteOffset as int
    ensures Ordered([first] + rest)
  {
    var tuples := [first] + rest;
    assert tuples[0] == first && forall i :: 0 < i < |tuples| ==> tuples[i] == rest[i - 1] && tuples[i] in rest;
  }

  /** What is left of a stream that keeps the order keeps it. */
  lemma {:induction false} EndingAfterOrdered(tuples: seq<BlockMetadata>, start: int)
    requires Ordered(tuples)
    ensures Ordered(EndingAfter(tuples, start))
  {
    if tuples != [] {
      var rest := EndingAfter(tuples[1..], start);
      EndingAfterOrdered(tuples[1..], start);
      forall b | b in rest ensures End(tuples[0]) <= b.byteOffset as int {
        EndingAfterIn(tuples[1..], start, b);
        var j :| 0 <= j < |tuples[1..]| && tuples[1..][j] == b;
        assert tuples[1 + j] == b;
      }
      OrderedCons(tuples[0], rest);
    }
  }

  lemma {:induction false} AllEndAfter(tuples: seq<BlockMetadata>, start: int)
    requires forall i :: 0 <= i < |tuples| ==> start < End(tuples[i])
    ensures EndingAfter(tuples, start) == tuples
  {
    if tuples != [] {
      AllEndAfter(tuples[1..], start);
    }
  }

  /** Resuming at the end of the k-th tuple yields exactly the rest. */
  lemma {:induction false} ResumeYieldsTheRest(tuples: seq<BlockMetadata>, k: nat)
    requires Ordered(tuples) && 0 < k <= |tuples|
    ensures EndingAfter(tuples, End(tuples[k - 1])) == tuples[k..]
  {
    var start := End(tuples[k - 1]);
    assert End(tuples[0]) <= start by {
      if k > 1 { assert End(tuples[0]) <= tuples[k - 1].byteOffset as int; }
    }
    if k == 1 {
      AllEndAfter(tuples[1..], start);
    } else {
      ResumeYieldsTheRest(tuples[1..], k - 1);
      assert tuples[1..][k - 2] == tuples[k - 1];
    }
  }

  lemma PartialExtentIsSubsumed(s: seq<byte>, partial: BlockMetadata, rest: seq<BlockMetadata>, i: int)
    requires rest != [] && partial.byteOffset == rest[0].byteOffset && partial.sizeBytes <= rest[0].sizeBytes
    ensures Covered(s, [partial], i) ==> Covered(s, rest, i)
  {
    if Covered(s, [partial], i) {
      assert Hits(s, [partial][0], i);
      assert Hits(s, rest[0], i);
    }
  }

  /** f is what an interruption after k whole tuples and a part of the next one, if
      there is one, leaves on the target. */
  ghost predicate StoppedAt(s: seq<byte>, t: seq<byte>, tuples: seq<BlockMetadata>, k: nat, f: seq<byte>)
    requires k <= |tuples|
  {
    var whole := Copied(s, t, tuples[..k]);
    if k < |tuples| then PartlyCopied(s, whole, tuples[k].byteOffset as int, tuples[k].sizeBytes as int, f) else f == whole
  }

  /** f is what some interruption of the copy leaves, possibly after its end. */
  ghost predicate CopyStopped(s: seq<byte>, t: seq<byte>, tuples: seq<BlockMetadata>, f: seq<byte>) {
    exists k: nat :: k <= |tuples| && StoppedAt(s, t, tuples, k, f)
  }

  lemma StoppedInsideAt(s: seq<byte>, t: seq<byte>, before: seq<BlockMetadata>, blocks: seq<BlockMetadata>, after: seq<BlockMetadata>, j: nat, f: seq<byte>)
    requires j < |blocks|
    requires PartlyCopied(s, Copied(s, Copied(s, t, before), blocks[..j]), blocks[j].byteOffset as int, blocks[j].sizeBytes as int, f)
    ensures |before| + j < |before + blocks + after| && StoppedAt(s, t, before + blocks + after, |before| + j, f)
  {
    InMiddle(before, blocks, after, j);
    CopiedConcat(s, t, before, blocks[..j]);
  }

  /** A failure inside a record, after all the tuples before, is an interruption. */
  lemma StoppedInside(s: seq<byte>, t: seq<byte>, before: seq<BlockMetadata>, blocks: seq<BlockMetadata>, after: seq<BlockMetadata>, f: seq<byte>)
    requires PartlyCopiedAll(s, Copied(s, t, before), blocks, f)
    ensures CopyStopped(s, t, before + blocks + after, f)
  {
    var j :| 0 <= j < |blocks| &&
      PartlyCopied(s, Copied(s, Copied(s, t, before), blocks[..j]), blocks[j].byteOffset as int, blocks[j].sizeBytes as int, f);
    StoppedInsideAt(s, t, before, blocks, after, j, f);
  }

  lemma CopyCompleted(s: seq<byte>, t: seq<byte>, tuples: seq<BlockMetadata>)
    ensures CopyStopped(s, t, tuples, Copied(s, t, tuples))
  {
    assert tuples[..|tuples|] == tuples;
    assert StoppedAt(s, t, tuples, |tuples|, Copied(s, t, tuples));
  }

  /** What an interruption leaves is itself a copy: of the whole tuples, and of no
      more than the rest covers. */
  lemma StoppedIsACopy(s: seq<byte>, t: seq<byte>, tuples: seq<BlockMetadata>, k: nat, f: seq<byte>) returns (extra: seq<BlockMetadata>)
    requires k <= |tuples| && StoppedAt(s, t, tuples, k, f)
    ensures f == Copied(s, t, tuples[..k] + extra)
    ensures forall i {:trigger Covered(s, extra, i)} :: Covered(s, extra, i) ==> Covered(s, tuples[k..], i)
  {
    var done, whole := tuples[..k], Copied(s, t, tuples[..k]);
    if f == whole {
      extra := [];
      assert done + extra == done;
    } else {
      var n :| 0 <= n <= tuples[k].sizeBytes as int && f == Overlay(s, whole, tuples[k].byteOffset as int, n);
      var partial := BlockMetadata(tuples[k].byteOffset, n as int64);
      extra := [partial];
      assert (done + extra)[..|done|] == done;
      forall i ensures Covered(s, extra, i) ==> Covered(s, tuples[k..], i) {
        PartialExtentIsSubsumed(s, partial, tuples[k..], i);
      }
    }
  }

  /** If only a prefix of the tuples was seen, it is an interruption all the same. */
  lemma StoppedInPrefix(s: seq<byte>, t: seq<byte>, seen: seq<BlockMetadata>, tuples: seq<BlockMetadata>, k: nat, f: seq<byte>)
    requires k <= |seen| && seen <= tuples && StoppedAt(s, t, seen, k, f)
    ensures StoppedAt(s, t, tuples, k, f)
  {
    assert seen[..k] == tuples[..k];
  }

  lemma StoppedThenRest(s: seq<byte>, t: seq<byte>, tuples: seq<BlockMetadata>, k: nat, f: seq<byte>)
    requires k <= |tuples| && StoppedAt(s, t, tuples, k, f)
    ensures Copied(s, f, tuples[k..]) == Copied(s, t, tuples)
  {
    var done, rest := tuples[..k], tuples[k..];
    var extra := StoppedIsACopy(s, t, tuples, k, f);
    assert done + rest == tuples;
    CopiedConcat(s, t, done + extra, rest);
    forall i ensures Covered(s, done + extra + rest, i) <==> Covered(s, tuples, i) {
      CoveredThree(s, done, extra, rest, i);
      CoveredConcat(s, done, rest, i);
    }
    SameCoverSameCopy(s, t, done + extra + rest, tuples);
  }

  /** A run interrupted after the k-th tuple and resumed at its end sees every
      tuple once and leaves the same target as a run never interrupted. */
  lemma InterruptedRunResumes(s: seq<byte>, t: seq<byte>, tuples: seq<BlockMetadata>, k: nat, f: seq<byte>)
    requires Ordered(tuples) && 0 < k <= |tuples| && StoppedAt(s, t, tuples, k, f)
    ensures
      var resumed := EndingAfter(tuples, End(tuples[k - 1]));
      && tuples[..k] + resumed == tuples
      && Copied(s, f, resumed) == Copied(s, t, tuples)
  {
    ResumeYieldsTheRest(tuples, k);
    StoppedThenRest(s, t, tuples, k, f);
  }

  /** Whatever interrupted a copy, doing it again from the start completes it. */
  lemma StoppedCopyCanBeRedone(s: seq<byte>, t: seq<byte>, tuples: seq<BlockMetadata>, f: seq<byte>)
    requires CopyStopped(s, t, tuples, f)
    ensures Copied(s, f, tuples) == Copied(s, t, tuples)
  {
    var k: nat :| k <= |tuples| && StoppedAt(s, t, tuples, k, f);
    var done, rest := tuples[..k], tuples[k..];
    var extra := StoppedIsACopy(s, t, tuples, k, f);
    assert done + rest == tuples;
    CopiedConcat(s, t, done + extra, tuples);
    forall i ensures Covered(s, done + extra + tuples, i) <==> Covered(s, tuples, i) {
      CoveredThree(s, done, extra, tuples, i);
      CoveredConcat(s, done, rest, i);
    }
    SameCoverSameCopy(s, t, done + extra + tuples, tuples);
  }
}
