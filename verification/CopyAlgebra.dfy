/** What copying a list of extents from one byte sequence onto another means,
    and which changes to the list leave the result alone. */
module CopyAlgebra {
  import opened Base
  import opened Metadata

  // ----- one extent

  /** t with byte x at position i, after a hole of zero bytes if i is past the end. */
  function PutByte(t: seq<byte>, i: nat, x: byte): seq<byte> {
    if i < |t| then t[i := x] else t + seq(i - |t|, j => 0) + [x]
  }

  /** t after copying the bytes [lo, lo + n) of s one by one, as far as s has
      them.  A negative position, which no device can seek to, copies nothing. */
  function Overlay(s: seq<byte>, t: seq<byte>, lo: int, n: int): seq<byte>
    decreases n
  {
    if lo < 0 || n <= 0 then t
    else
      var g := Overlay(s, t, lo, n - 1);
      if lo + n <= |s| then PutByte(g, lo + n - 1, s[lo + n - 1]) else g
  }

  ghost predicate Hits(s: seq<byte>, b: BlockMetadata, i: int) {
    && 0 <= b.byteOffset as int <= i < |s|
    && i < b.byteOffset as int + b.sizeBytes as int
  }

  lemma {:induction false} OverlayShape(s: seq<byte>, t: seq<byte>, lo: nat, n: int)
    ensures
      var f, hi := Overlay(s, t, lo, n), Min(lo + n, |s|);
      && |f| == (if lo < hi then Max(|t|, hi) else |t|)
      && forall i {:trigger f[i]} :: 0 <= i < |f| ==> f[i] == if lo <= i < hi then s[i] else if i < |t| then t[i] else 0
    decreases n
  {
    if 0 < n {
      OverlayShape(s, t, lo, n - 1);
    }
  }

  lemma {:induction false} OverlayPastEnd(s: seq<byte>, t: seq<byte>, lo: int, m: int, n: int)
    requires m <= n && |s| <= lo + m
    ensures Overlay(s, t, lo, n) == Overlay(s, t, lo, m)
    decreases n
  {
    if 0 < n && m < n {
      OverlayPastEnd(s, t, lo, m, n - 1);
    }
  }

  /** t after one write of the bytes b at position lo.  Writing past the end
      grows a file and leaves a hole of zero bytes; writing nothing changes
      nothing. */
  function Splice(t: seq<byte>, lo: nat, b: seq<byte>): (r: seq<byte>)
    ensures |r| == if b != [] then Max(|t|, lo + |b|) else |t|
    ensures forall i {:trigger r[i]} :: 0 <= i < |r| ==> r[i] == if lo <= i < lo + |b| then b[i - lo] else if i < |t| then t[i] else 0
  {
    seq(if b != [] then Max(|t|, lo + |b|) else |t|,
        i requires 0 <= i => if lo <= i < lo + |b| then b[i - lo] else if i < |t| then t[i] else 0)
  }

  /** Writing the next chunk is copying its bytes one by one. */
  lemma OverlayExtends(s: seq<byte>, t: seq<byte>, lo: nat, m: nat, chunk: seq<byte>)
    requires chunk != [] ==> lo + m + |chunk| <= |s| && chunk == s[lo + m..lo + m + |chunk|]
    ensures Splice(Overlay(s, t, lo, m), lo + m, chunk) == Overlay(s, t, lo, m + |chunk|)
  {
    OverlayShape(s, t, lo, m);
    OverlayShape(s, t, lo, m + |chunk|);
    var f, g := Splice(Overlay(s, t, lo, m), lo + m, chunk), Overlay(s, t, lo, m + |chunk|);
    assert |f| == |g|;
    forall i | 0 <= i < |f| ensures f[i] == g[i] {
      if lo + m <= i < lo + m + |chunk| { assert chunk[i - lo - m] == s[i]; }
    }
  }

  /** So is writing a part of it. */
  lemma OverlayExtendsPartly(s: seq<byte>, t: seq<byte>, lo: nat, m: nat, chunk: seq<byte>, n: nat)
    requires chunk != [] ==> lo + m + |chunk| <= |s| && chunk == s[lo + m..lo + m + |chunk|]
    requires n <= |chunk|
    ensures Splice(Overlay(s, t, lo, m), lo + m, chunk[..n]) == Overlay(s, t, lo, m + n)
  {
    if 0 < n { assert chunk[..n] == s[lo + m..lo + m + n]; }
    OverlayExtends(s, t, lo, m, chunk[..n]);
  }

  /** f is t after copying no more than a prefix of the extent. */
  ghost predicate PartlyCopied(s: seq<byte>, t: seq<byte>, lo: int, size: int, f: seq<byte>) {
    || f == t
    || exists n :: 0 <= n <= size && f == Overlay(s, t, lo, n)
  }

  /** Which of the two are regular files.  Such a file can be positioned past its
      end, and grows when it is written there; a block device refuses both. */
  datatype Growable = Growable(source: bool, target: bool)

  /** Both can be positioned at the extent, and those of its bytes that s has can
      be written: the target grows or is long enough. */
  ghost predicate Fits(s: seq<byte>, targetLength: nat, growable: Growable, b: BlockMetadata) {
    var lo := b.byteOffset as int;
    var hi := Min(lo + b.sizeBytes as int, |s|);
    && 0 <= lo
    && (growable.source || lo <= |s|)
    && (growable.target || (lo <= targetLength && hi <= targetLength))
  }

  // ----- a list of extents

  ghost predicate AllFit(s: seq<byte>, targetLength: nat, growable: Growable, extents: seq<BlockMetadata>) {
    forall k :: 0 <= k < |extents| ==> Fits(s, targetLength, growable, extents[k])
  }

  /** t after copying every extent, first to last. */
  function Copied(s: seq<byte>, t: seq<byte>, extents: seq<BlockMetadata>): seq<byte> {
    if extents == [] then t
    else
      var last := extents[|extents| - 1];
      Overlay(s, Copied(s, t, extents[..|extents| - 1]), last.byteOffset as int, last.sizeBytes as int)
  }

  /** f is what a list of extents leaves behind when it is abandoned inside one
      of them. */
  ghost predicate PartlyCopiedAll(s: seq<byte>, t: seq<byte>, extents: seq<BlockMetadata>, f: seq<byte>) {
    exists k :: 0 <= k < |extents| &&
      PartlyCopied(s, Copied(s, t, extents[..k]), extents[k].byteOffset as int, extents[k].sizeBytes as int, f)
  }

  ghost predicate Covered(s: seq<byte>, extents: seq<BlockMetadata>, i: int) {
    exists k :: 0 <= k < |extents| && Hits(s, extents[k], i)
  }

  /** f is s on the covered positions and t elsewhere, and no longer than the
      last covered position requires. */
  ghost predicate IsImage(s: seq<byte>, t: seq<byte>, extents: seq<BlockMetadata>, f: seq<byte>) {
    && |t| <= |f|
    && (forall i {:trigger Covered(s, extents, i)} :: Covered(s, extents, i) ==> i < |f|)
    && (|t| < |f| ==> Covered(s, extents, |f| - 1))
    && forall i {:trigger f[i]} :: 0 <= i < |f| ==>
         f[i] == if Covered(s, extents, i) then s[i] else if i < |t| then t[i] else 0
  }

  lemma CoveredSnoc(s: seq<byte>, extents: seq<BlockMetadata>, i: int)
    requires extents != []
    ensures Covered(s, extents, i) <==>
              Covered(s, extents[..|extents| - 1], i) || Hits(s, extents[|extents| - 1], i)
  {
    var init := extents[..|extents| - 1];
    if Covered(s, extents, i) {
      var k :| 0 <= k < |extents| && Hits(s, extents[k], i);
      if k < |init| { assert Hits(s, init[k], i); }
    }
    if Covered(s, init, i) {
      var k :| 0 <= k < |init| && Hits(s, init[k], i);
      assert Hits(s, extents[k], i);
    }
  }

  /** Exactness of the copy: every covered byte comes from s, every other byte
      is untouched. */
  lemma {:induction false} CopiedIsImage(s: seq<byte>, t: seq<byte>, extents: seq<BlockMetadata>)
    ensures IsImage(s, t, extents, Copied(s, t, extents))
  {
    if extents != [] {
      var init := extents[..|extents| - 1];
      var last := extents[|extents| - 1];
      CopiedIsImage(s, t, init);
      var g := Copied(s, t, init);
      var f := Copied(s, t, extents);
      var lo, n := last.byteOffset as int, last.sizeBytes as int;
      forall i ensures Covered(s, extents, i) <==> Covered(s, init, i) || Hits(s, last, i) {
        CoveredSnoc(s, extents, i);
      }
      assert f == Overlay(s, g, lo, n);
      if 0 <= lo {
        OverlayShape(s, g, lo, n);
      }
    }
  }

  /** The image depends only on which positions are covered. */
  lemma ImageIsUnique(s: seq<byte>, t: seq<byte>, a: seq<BlockMetadata>, f: seq<byte>, b: seq<BlockMetadata>, g: seq<byte>)
    requires forall i :: Covered(s, a, i) <==> Covered(s, b, i)
    requires IsImage(s, t, a, f) && IsImage(s, t, b, g)
    ensures f == g
  {
    assert |f| == |g|;
  }

  lemma SameCoverSameCopy(s: seq<byte>, t: seq<byte>, a: seq<BlockMetadata>, b: seq<BlockMetadata>)
    requires forall i :: Covered(s, a, i) <==> Covered(s, b, i)
    ensures Copied(s, t, a) == Copied(s, t, b)
  {
    CopiedIsImage(s, t, a);
    CopiedIsImage(s, t, b);
    ImageIsUnique(s, t, a, Copied(s, t, a), b, Copied(s, t, b));
  }

  lemma {:induction false} CopiedConcat(s: seq<byte>, t: seq<byte>, a: seq<BlockMetadata>, b: seq<BlockMetadata>)
    ensures Copied(s, t, a + b) == Copied(s, Copied(s, t, a), b)
  {
    if b == [] {
      assert a + b == a;
    } else {
      CopiedConcat(s, t, a, b[..|b| - 1]);
      assert (a + b)[..|a + b| - 1] == a + b[..|b| - 1];
    }
  }

  lemma FittingCopyKeepsLength(s: seq<byte>, t: seq<byte>, growable: Growable, extents: seq<BlockMetadata>)
    requires AllFit(s, |t|, growable, extents) && !growable.target
    ensures |Copied(s, t, extents)| == |t|
  {
    CopiedIsImage(s, t, extents);
  }

  // ----- rearrangements that leave the copy alone

  /** The order of the tuples is irrelevant. */
  lemma PermutationCopiesSame(s: seq<byte>, t: seq<byte>, a: seq<BlockMetadata>, b: seq<BlockMetadata>)
    requires multiset(a) == multiset(b)
    ensures Copied(s, t, a) == Copied(s, t, b)
  {
    forall i ensures Covered(s, a, i) <==> Covered(s, b, i) {
      CoveredByPermutation(s, a, b, i);
      CoveredByPermutation(s, b, a, i);
    }
    SameCoverSameCopy(s, t, a, b);
  }

  lemma CoveredByPermutation(s: seq<byte>, a: seq<BlockMetadata>, b: seq<BlockMetadata>, i: int)
    requires multiset(a) == multiset(b)
    ensures Covered(s, a, i) ==> Covered(s, b, i)
  {
    if Covered(s, a, i) {
      var k :| 0 <= k < |a| && Hits(s, a[k], i);
      assert a[k] in multiset(a);
      assert a[k] in b;
      var j :| 0 <= j < |b| && b[j] == a[k];
    }
  }

  /** Splitting one extent in two, anywhere in the list, is irrelevant. */
  lemma SplitCopiesSame(s: seq<byte>, t: seq<byte>, before: seq<BlockMetadata>, whole: BlockMetadata, left: int64, after: seq<BlockMetadata>)
    requires 0 <= whole.byteOffset && 0 <= left <= whole.sizeBytes
    requires whole.byteOffset as int + left as int < 0x8000_0000_0000_0000
    ensures
      var parts := [BlockMetadata(whole.byteOffset, left), BlockMetadata(whole.byteOffset + left, whole.sizeBytes - left)];
      Copied(s, t, before + [whole] + after) == Copied(s, t, before + parts + after)
  {
    var parts := [BlockMetadata(whole.byteOffset, left), BlockMetadata(whole.byteOffset + left, whole.sizeBytes - left)];
    forall i ensures Covered(s, before + [whole] + after, i) <==> Covered(s, before + parts + after, i) {
      CoveredThree(s, before, [whole], after, i);
      CoveredThree(s, before, parts, after, i);
      assert Covered(s, [whole], i) <==> Hits(s, [whole][0], i);
      assert Covered(s, parts, i) <==> Hits(s, parts[0], i) || Hits(s, parts[1], i);
    }
    SameCoverSameCopy(s, t, before + [whole] + after, before + parts + after);
  }

  lemma CoveredConcat(s: seq<byte>, a: seq<BlockMetadata>, b: seq<BlockMetadata>, i: int)
    ensures Covered(s, a + b, i) <==> Covered(s, a, i) || Covered(s, b, i)
  {
    if Covered(s, a, i) {
      var k :| 0 <= k < |a| && Hits(s, a[k], i);
      assert Hits(s, (a + b)[k], i);
    }
    if Covered(s, b, i) {
      var k :| 0 <= k < |b| && Hits(s, b[k], i);
      assert Hits(s, (a + b)[|a| + k], i);
    }
  }

  lemma CoveredThree(s: seq<byte>, a: seq<BlockMetadata>, b: seq<BlockMetadata>, c: seq<BlockMetadata>, i: int)
    ensures Covered(s, a + b + c, i) <==> Covered(s, a, i) || Covered(s, b, i) || Covered(s, c, i)
  {
    CoveredConcat(s, a + b, c, i);
    CoveredConcat(s, a, b, i);
  }

  /** Grouping the same tuples into other records, as another max_results
      would, is irrelevant; so is replaying records already seen. */
  lemma RegroupOrReplayCopiesSame(s: seq<byte>, t: seq<byte>, a: seq<IteratorMetadata>, b: seq<IteratorMetadata>, replayed: seq<IteratorMetadata>)
    requires Tuples(a) == Tuples(b)
    requires forall r :: r in replayed ==> r in a
    ensures Copied(s, t, Tuples(a + replayed)) == Copied(s, t, Tuples(b))
  {
    TuplesConcat(a, replayed);
    forall i ensures Covered(s, Tuples(a + replayed), i) <==> Covered(s, Tuples(b), i) {
      CoveredConcat(s, Tuples(a), Tuples(replayed), i);
      CoveredByReplay(s, a, replayed, i);
    }
    SameCoverSameCopy(s, t, Tuples(a + replayed), Tuples(b));
  }

  lemma {:induction false} CoveredByRecord(s: seq<byte>, a: seq<IteratorMetadata>, r: IteratorMetadata, i: int)
    requires r in a && Covered(s, r.Blocks(), i)
    ensures Covered(s, Tuples(a), i)
  {
    var init, last := a[..|a| - 1], a[|a| - 1];
    CoveredConcat(s, Tuples(init), last.Blocks(), i);
    if r != last {
      CoveredByRecord(s, init, r, i);
    }
  }

  lemma {:induction false} CoveredByReplay(s: seq<byte>, a: seq<IteratorMetadata>, replayed: seq<IteratorMetadata>, i: int)
    requires forall r :: r in replayed ==> r in a
    ensures Covered(s, Tuples(replayed), i) ==> Covered(s, Tuples(a), i)
  {
    if replayed != [] {
      var init, last := replayed[..|replayed| - 1], replayed[|replayed| - 1];
      CoveredByReplay(s, a, init, i);
      CoveredConcat(s, Tuples(init), last.Blocks(), i);
      if Covered(s, last.Blocks(), i) {
        CoveredByRecord(s, a, last, i);
      }
    }
  }

  // ----- what the verifier is for

  /** On devices of one length, the copy reproduces s exactly when every byte
      in which s and t differ is covered. */
  lemma CopyReproducesIffCovered(s: seq<byte>, t: seq<byte>, extents: seq<BlockMetadata>)
    requires |s| == |t|
    ensures Copied(s, t, extents) == s <==>
              forall i {:trigger Covered(s, extents, i)} :: 0 <= i < |s| && s[i] != t[i] ==> Covered(s, extents, i)
  {
    CopiedIsImage(s, t, extents);
    var f := Copied(s, t, extents);
    assert |f| == |s|;
    if f == s {
      forall i | 0 <= i < |s| && s[i] != t[i] ensures Covered(s, extents, i) {
        assert f[i] == s[i];
      }
    }
  }

  /** Without the assumption of equal length: t is not too long; if it is too
      short, the last byte of s is covered; and so is every byte in which t, with
      zeros in the place of what it lacks, differs from s. */
  ghost predicate CoversAnyLength(s: seq<byte>, t: seq<byte>, extents: seq<BlockMetadata>) {
    && |t| <= |s|
    && (|t| < |s| ==> Covered(s, extents, |s| - 1))
    && forall i {:trigger Covered(s, extents, i)} :: 0 <= i < |s| && s[i] != (if i < |t| then t[i] else 0) ==> Covered(s, extents, i)
  }

  lemma CopyReproducesAnyLength(s: seq<byte>, t: seq<byte>, extents: seq<BlockMetadata>)
    ensures Copied(s, t, extents) == s <==> CoversAnyLength(s, t, extents)
  {
    CopiedIsImage(s, t, extents);
    var f := Copied(s, t, extents);
    if f == s {
      forall i | 0 <= i < |s| && s[i] != (if i < |t| then t[i] else 0) ensures Covered(s, extents, i) {
        assert f[i] == s[i];
      }
    } else if |t| <= |s| && (|t| < |s| ==> Covered(s, extents, |s| - 1)) {
      assert |f| == |s| by {
        if |f| > |t| { assert Covered(s, extents, |f| - 1); }
      }
      var i :| 0 <= i < |s| && f[i] != s[i];
      assert !Covered(s, extents, i);
    }
  }
}
