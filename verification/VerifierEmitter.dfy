/** The emitter that checks changed-block metadata: it copies the extents from
    the source to the target device and then compares the two. */
module VerifierEmitters {
  import opened Base
  import opened Metadata
  import opened CopyAlgebra
  import opened Devices

  const CHUNK_SIZE: int64 := 1024 * 1024

  /** The sizes of the successive reads that take a device of length len from
      position pos to its end, or to a read that fails; call number k is the
      first of them. */
  function ReadSizes(plan: nat -> Outcome, k: nat, pos: nat, len: nat): seq<nat>
    decreases len - pos
  {
    if len <= pos || plan(k).Fault? then []
    else
      var n := ReadCount(plan(k), CHUNK_SIZE as int, len - pos);
      [n] + ReadSizes(plan, k + 1, pos + n, len)
  }

  /** The rounds of the loop of copyBlock, each a read and a write, that take a
      source of length len from position pos over left more bytes of an extent; call
      number k is the first of the reads. */
  function Rounds(plan: nat -> Outcome, k: nat, pos: nat, left: int, len: nat): nat
    decreases Max(left, 0)
  {
    if left <= 0 then 0
    else if len <= pos || plan(k).Fault? then 1
    else
      var n := ReadCount(plan(k), Min(CHUNK_SIZE as int, left), len - pos);
      1 + Rounds(plan, k + 1, pos + n, left - n, len)
  }

  /** The calls to each of the devices that copying an extent makes: a seek, and the
      rounds. */
  function BlockCalls(plan: nat -> Outcome, k: nat, b: BlockMetadata, len: nat): nat {
    1 + if b.byteOffset < 0 then 0 else Rounds(plan, k + 1, b.byteOffset as int, b.sizeBytes as int, len)
  }

  /** The calls that copying a list of extents makes. */
  function CopyCalls(plan: nat -> Outcome, k: nat, extents: seq<BlockMetadata>, len: nat): nat {
    if extents == [] then 0
    else
      var before := CopyCalls(plan, k, extents[..|extents| - 1], len);
      before + BlockCalls(plan, k + before, extents[|extents| - 1], len)
  }

  lemma {:induction false} CopyCallsConcat(plan: nat -> Outcome, k: nat, a: seq<BlockMetadata>, b: seq<BlockMetadata>, len: nat)
    ensures CopyCalls(plan, k, a + b, len) == CopyCalls(plan, k, a, len) + CopyCalls(plan, k + CopyCalls(plan, k, a, len), b, len)
  {
    if b == [] {
      assert a + b == a;
    } else {
      CopyCallsConcat(plan, k, a, b[..|b| - 1], len);
      assert (a + b)[..|a + b| - 1] == a + b[..|b| - 1];
    }
  }

  /** From position p on, s and t hold the same bytes and are read in step, the
      next calls being numbers j and k. */
  ghost predicate Agree(s: seq<byte>, sPlan: nat -> Outcome, j: nat, t: seq<byte>, tPlan: nat -> Outcome, k: nat, p: nat)
    requires p <= |s| && p <= |t|
  {
    s[p..] == t[p..] && ReadSizes(sPlan, j, p, |s|) == ReadSizes(tPlan, k, p, |t|)
  }

  lemma AgreeStep(s: seq<byte>, sPlan: nat -> Outcome, j: nat, t: seq<byte>, tPlan: nat -> Outcome, k: nat, p: nat)
    requires p < |s| && p < |t| && sPlan(j).Upto? && tPlan(k).Upto?
    ensures
      var m, n := ReadCount(sPlan(j), CHUNK_SIZE as int, |s| - p), ReadCount(tPlan(k), CHUNK_SIZE as int, |t| - p);
      Agree(s, sPlan, j, t, tPlan, k, p) <==>
        m == n && s[p..p + m] == t[p..p + n] && Agree(s, sPlan, j + 1, t, tPlan, k + 1, p + m)
  {
    var m, n := ReadCount(sPlan(j), CHUNK_SIZE as int, |s| - p), ReadCount(tPlan(k), CHUNK_SIZE as int, |t| - p);
    var a, b := ReadSizes(sPlan, j, p, |s|), ReadSizes(tPlan, k, p, |t|);
    assert a[0] == m && b[0] == n;
    assert a[1..] == ReadSizes(sPlan, j + 1, p + m, |s|) && b[1..] == ReadSizes(tPlan, k + 1, p + n, |t|);
    assert s[p..] == s[p..p + m] + s[p + m..] && t[p..] == t[p..p + n] + t[p + n..];
    if Agree(s, sPlan, j, t, tPlan, k, p) {
      assert s[p..][..m] == t[p..][..m] && s[p..][m..] == t[p..][m..];
    }
  }

  lemma AgreeAtEnd(s: seq<byte>, sPlan: nat -> Outcome, j: nat, t: seq<byte>, tPlan: nat -> Outcome, k: nat, p: nat)
    requires p <= |s| && p <= |t| && (p == |s| || p == |t|)
    ensures Agree(s, sPlan, j, t, tPlan, k, p) <==> p == |s| && p == |t|
  {
    assert |s[p..]| == |s| - p && |t[p..]| == |t| - p;
  }

  ghost predicate FillsReads(plan: nat -> Outcome) {
    forall k: nat :: plan(k).Upto? && plan(k).n >= CHUNK_SIZE as int
  }

  /** Reads that fill the buffer keep any two devices of one length in step. */
  lemma {:induction false} FillingReadsKeepStep(sPlan: nat -> Outcome, j: nat, tPlan: nat -> Outcome, k: nat, pos: nat, len: nat)
    requires FillsReads(sPlan) && FillsReads(tPlan)
    ensures ReadSizes(sPlan, j, pos, len) == ReadSizes(tPlan, k, pos, len)
    decreases len - pos
  {
    if pos < len {
      FillingReadsKeepStep(sPlan, j + 1, tPlan, k + 1, pos + ReadCount(sPlan(j), CHUNK_SIZE as int, len - pos), len);
    }
  }

  /** Such reads take a device a MiB at a time: all of that size but the last, and
      no more of them than it takes. */
  lemma {:induction false} FillingReadSizes(plan: nat -> Outcome, k: nat, pos: nat, len: nat)
    requires FillsReads(plan) && pos <= len
    ensures
      var sizes := ReadSizes(plan, k, pos, len);
      && 1_048_576 * |sizes| < len - pos + 1_048_576
      && (forall i :: 0 <= i < |sizes| - 1 ==> sizes[i] == 1_048_576)
      && (if pos == len then sizes == []
          else sizes != [] && 1_048_576 * (|sizes| - 1) + sizes[|sizes| - 1] == len - pos)
    decreases len - pos
  {
    if pos < len {
      var n := ReadCount(plan(k), CHUNK_SIZE as int, len - pos);
      FillingReadSizes(plan, k + 1, pos + n, len);
    }
  }

  /** The rounds of a copy are of that size too. */
  lemma {:induction false} FillingRounds(plan: nat -> Outcome, k: nat, pos: nat, left: nat, len: nat)
    requires FillsReads(plan) && pos + left <= len
    ensures left <= 1_048_576 * Rounds(plan, k, pos, left, len) < left + 1_048_576
    decreases left
  {
    if 0 < left {
      var n := ReadCount(plan(k), Min(CHUNK_SIZE as int, left), len - pos);
      FillingRounds(plan, k + 1, pos + n, left - n, len);
    }
  }

  lemma FillingReadsAgree(s: seq<byte>, sPlan: nat -> Outcome, j: nat, t: seq<byte>, tPlan: nat -> Outcome, k: nat)
    requires FillsReads(sPlan) && FillsReads(tPlan)
    ensures Agree(s, sPlan, j, t, tPlan, k, 0) <==> s == t
  {
    assert s[0..] == s && t[0..] == t;
    if s == t {
      FillingReadsKeepStep(sPlan, j, tPlan, k, 0, |s|);
    }
  }

  /** Short reads can break the step: two identical devices of two bytes, one
      read in two calls and the other in one, are told apart. */
  lemma ShortReadsRejectEqualDevices()
    ensures
      var device: seq<byte> := [7, 7];
      !Agree(device, i => Upto(1), 1, device, i => Upto(2), 1, 0)
  {
    var slow: nat -> Outcome, fast: nat -> Outcome := i => Upto(1), i => Upto(2);
    assert ReadSizes(slow, 1, 0, 2)[0] == 1;
    assert ReadSizes(fast, 1, 0, 2)[0] == 2;
  }

  lemma EqualSoFar(s: seq<byte>, t: seq<byte>, p: nat, q: nat)
    requires p <= q <= |s| && q <= |t| && s[..p] == t[..p] && s[p..q] == t[p..q]
    ensures s[..q] == t[..q]
  {
    assert s[..q] == s[..p] + s[p..q] && t[..q] == t[..p] + t[p..q];
  }

  /** What one read of up to a chunk of s from position pos yields. */
  ghost predicate IsChunk(s: seq<byte>, outcome: Outcome, pos: nat, chunk: seq<byte>, status: ReadStatus) {
    if outcome.Fault? then status == ReadFailed && chunk == []
    else if |s| <= pos then status == EndOfFile && chunk == []
    else status == ReadOk && var n := ReadCount(outcome, CHUNK_SIZE as int, |s| - pos); chunk == s[pos..pos + n]
  }

  /** After one round of reads: whether to go on, ... */
  predicate GoesOn(a: seq<byte>, sourceErr: ReadStatus, b: seq<byte>, targetErr: ReadStatus) {
    sourceErr == ReadOk && targetErr == ReadOk && |a| == |b| && a == b
  }

  /** ... and the verdict if not. */
  function Verdict(sourceErr: ReadStatus, targetErr: ReadStatus): Option<Error> {
    if sourceErr == ReadOk && targetErr == ReadOk then Some(ErrContentsDoNotMatch)
    else if sourceErr == EndOfFile && targetErr == EndOfFile then None
    else if sourceErr == EndOfFile || targetErr == EndOfFile then Some(ErrContentsDoNotMatch)
    else Some(ErrReadingDevices)
  }

  /** The verdict of a last round of reads, of which some may have failed and others
      found the end: acceptance if both found the end; that the reads failed, if one did
      and the other found no end; else that the contents do not match. */
  ghost predicate JudgedBy(sourceFault: bool, sourceEnd: bool, targetFault: bool, targetEnd: bool, err: Option<Error>) {
    && (err.None? <==> sourceEnd && targetEnd && !sourceFault && !targetFault)
    && (err == Some(ErrReadingDevices) <==> (sourceFault && (targetFault || !targetEnd)) || (targetFault && !sourceFault && !sourceEnd))
    && (err.Some? ==> err.value == ErrReadingDevices || err.value == ErrContentsDoNotMatch)
  }

  /** What the last reads say about the verdict, wherever they were made. */
  ghost predicate EndsWith(sourceFault: bool, targetFault: bool, err: Option<Error>) {
    && (sourceFault && targetFault ==> err == Some(ErrReadingDevices))
    && (err == Some(ErrReadingDevices) ==> sourceFault || targetFault)
    && (err.None? ==> !sourceFault && !targetFault)
    && (err.Some? ==> err.value == ErrReadingDevices || err.value == ErrContentsDoNotMatch)
  }

  /** The decision goes on over equal bytes only, accepts only at the end of both
      devices, and if no call fails it preserves whether the rest agrees. */
  lemma RoundMeans(s: seq<byte>, sPlan: nat -> Outcome, j: nat, t: seq<byte>, tPlan: nat -> Outcome, k: nat, p: nat,
                   a: seq<byte>, sourceErr: ReadStatus, b: seq<byte>, targetErr: ReadStatus)
    requires p <= |s| && p <= |t|
    requires IsChunk(s, sPlan(j), p, a, sourceErr) && IsChunk(t, tPlan(k), p, b, targetErr)
    ensures GoesOn(a, sourceErr, b, targetErr) ==> 0 < |a| == |b| && p + |a| <= |s| && p + |a| <= |t| && s[p..p + |a|] == t[p..p + |a|]
    ensures !GoesOn(a, sourceErr, b, targetErr) && Verdict(sourceErr, targetErr).None? ==> |s| == |t| == p
    ensures !GoesOn(a, sourceErr, b, targetErr) ==>
              && JudgedBy(sPlan(j).Fault?, p == |s|, tPlan(k).Fault?, p == |t|, Verdict(sourceErr, targetErr))
              && EndsWith(sPlan(j).Fault?, tPlan(k).Fault?, Verdict(sourceErr, targetErr))
    ensures sPlan(j).Upto? && tPlan(k).Upto? ==>
              && (Agree(s, sPlan, j, t, tPlan, k, p) <==>
                    if GoesOn(a, sourceErr, b, targetErr) then Agree(s, sPlan, j + 1, t, tPlan, k + 1, p + |a|)
                    else Verdict(sourceErr, targetErr).None?)
              && (Verdict(sourceErr, targetErr).Some? ==> Verdict(sourceErr, targetErr) == Some(ErrContentsDoNotMatch))
  {
    if sPlan(j).Upto? && tPlan(k).Upto? {
      if p < |s| && p < |t| {
        AgreeStep(s, sPlan, j, t, tPlan, k, p);
      } else {
        AgreeAtEnd(s, sPlan, j, t, tPlan, k, p);
      }
    }
  }

  class VerifierEmitter {
    const source: Device
    const target: Device

    constructor (source: Device, target: Device)
      ensures this.source == source && this.target == target
    {
      this.source, this.target := source, target;
    }

    /** The two devices are distinct and the source length is an int64, as file
        lengths are. */
    ghost predicate Valid()
      reads source
    {
      source != target && |source.content| < 0x8000_0000_0000_0000
    }

    ghost predicate FaultFree() {
      source.FaultFree() && target.FaultFree()
    }

    ghost function Kinds(): Growable {
      Growable(source.growable, target.growable)
    }

    /** No call fails, and every read fills the buffer as far as the device goes. */
    ghost predicate Prompt() {
      FillsReads(source.plan) && FillsReads(target.plan)
    }

    /** Reads one chunk at the common position of the devices and writes what was
        read; m bytes of the extent at lo have been copied before, and n more are
        copied now, even if the write then fails. */
    method CopyChunk(buffer: array<byte>, ghost t: seq<byte>, ghost lo: nat, ghost m: nat) returns (n: nat, status: ReadStatus, err: Option<Error>)
      requires Valid() && 0 < buffer.Length
      requires source.offset == target.offset == lo + m
      requires target.content == Overlay(source.content, t, lo, m)
      modifies source`offset, source`calls, target, buffer
      ensures n <= buffer.Length && (0 < n ==> lo + m + n <= |source.content|)
      ensures target.content == Overlay(source.content, t, lo, m + n)
      ensures !target.growable ==> |target.content| == old(|target.content|)
      ensures err.None? ==> status != ReadFailed && source.offset == target.offset == lo + m + n
      ensures err.None? ==> target.calls == old(target.calls) + 1
      ensures source.calls == old(source.calls) + 1 && Failed(source.plan(old(source.calls)).Fault?, err)
      ensures err.None? ==>
                if status == EndOfFile then |source.content| <= lo + m
                else
                  && lo + m < |source.content| && source.plan(old(source.calls)).Upto?
                  && n == ReadCount(source.plan(old(source.calls)), buffer.Length, |source.content| - (lo + m))
      ensures FaultFree() && err.None? && 0 < n ==> target.growable || lo + m + n <= |target.content|
      ensures FaultFree() && err.Some? ==> !target.growable && lo + m < |source.content| && |target.content| < Min(lo + m + buffer.Length, |source.content|)
    {
      var sourceBytes;
      err := None;
      sourceBytes, status := source.Read(buffer);
      if status == ReadFailed {
        return 0, status, Some(ErrFailedToRead);
      }
      var ok;
      var chunk := buffer[..sourceBytes];
      n, ok := target.Write(chunk);
      OverlayExtendsPartly(source.content, t, lo, m, chunk, n);
      if !ok {
        err := Some(ErrFailedToWrite);
      }
    }

    /** The error that ends a copy: of the last read if that failed, or else of the
        last write, which failed too or was one on a block device without room. */
    ghost predicate Failed(readFailed: bool, err: Option<Error>)
      reads target`calls
    {
      && (err == Some(ErrFailedToRead) <==> readFailed)
      && (err.None? || err == Some(ErrFailedToRead) || err == Some(ErrFailedToWrite))
      && (err == Some(ErrFailedToWrite) ==> 0 < target.calls && (target.plan(target.calls - 1).Fault? || !target.growable))
    }

    /** The state of the loop of copyBlock when so many bytes of the extent at lo have
        been copied onto t and rest rounds are left. */
    ghost predicate CopiedSoFar(t: seq<byte>, lo: nat, written: nat, rest: nat, total: nat, gap: int)
      reads source, target
    {
      && source.offset == target.offset == lo + written && (written == 0 || lo + written <= |source.content|)
      && target.content == Overlay(source.content, t, lo, written)
      && (!target.growable ==> |target.content| == |t|)
      && (FaultFree() && written > 0 ==> target.growable || lo + written <= |t|)
      && source.calls + rest == total && target.calls - source.calls == gap
    }

    ghost function RoundsLeft(lo: nat, left: int): nat
      reads source
    {
      Rounds(source.plan, source.calls, lo, left, |source.content|)
    }

    /** How copying an extent onto t ends. */
    ghost predicate CopyEnded(t: seq<byte>, bmd: BlockMetadata, total: nat, gap: int, err: Option<Error>)
      reads source, target
    {
      && 0 < source.calls && Failed(source.plan(source.calls - 1).Fault?, err)
      && (!target.growable ==> |target.content| == |t|)
      && (FaultFree() ==> (err.None? <==> Fits(source.content, |t|, Kinds(), bmd)))
      && if err.None? then
           && target.content == Overlay(source.content, t, bmd.byteOffset as int, bmd.sizeBytes as int)
           && source.calls == total && target.calls - source.calls == gap
         else PartlyCopied(source.content, t, bmd.byteOffset as int, bmd.sizeBytes as int, target.content)
    }

    /** One round; next tells how many bytes have been copied after it. */
    method CopyRound(buffer: array<byte>, ghost bmd: BlockMetadata, written: int64, ghost lo: nat, ghost t: seq<byte>, ghost total: nat, ghost gap: int)
      returns (next: int64, status: ReadStatus, err: Option<Error>)
      requires Valid() && lo == bmd.byteOffset as int && source.Seekable(lo) && (target.growable || lo <= |t|)
      requires 0 <= written < bmd.sizeBytes && buffer.Length == Min(CHUNK_SIZE as int, bmd.sizeBytes as int - written as int)
      requires CopiedSoFar(t, lo, written as int, RoundsLeft(lo + written as int, bmd.sizeBytes as int - written as int), total, gap)
      modifies source`offset, source`calls, target, buffer
      ensures written <= next <= bmd.sizeBytes
      ensures source.calls == old(source.calls) + 1 && Failed(source.plan(old(source.calls)).Fault?, err)
      ensures err.Some? || status == EndOfFile ==> CopyEnded(t, bmd, total, gap, err)
      ensures err.None? && status != EndOfFile ==>
                written < next && CopiedSoFar(t, lo, next as int, RoundsLeft(lo + next as int, bmd.sizeBytes as int - next as int), total, gap)
    {
      var n;
      n, status, err := CopyChunk(buffer, t, lo, written as int);
      if err.Some? {
        assert target.content == Overlay(source.content, t, lo, written as int + n);
      } else if status == EndOfFile {
        OverlayPastEnd(source.content, t, lo, written as int, bmd.sizeBytes as int);
      }
      next := written + n as int64;
    }

    /** The loop of copyBlock, from the position of the extent on. */
    method CopyChunks(bmd: BlockMetadata) returns (err: Option<Error>)
      requires Valid() && source.Seekable(bmd.byteOffset as int) && target.Seekable(bmd.byteOffset as int)
      requires source.offset == target.offset == bmd.byteOffset as int
      requires 0 < source.calls && source.plan(source.calls - 1).Upto?
      modifies source`offset, source`calls, target
      ensures CopyEnded(old(target.content), bmd, old(source.calls + RoundsLeft(bmd.byteOffset as int, bmd.sizeBytes as int)), old(target.calls - source.calls), err)
    {
      ghost var t := target.content;
      ghost var lo := bmd.byteOffset as int;
      ghost var total, gap := source.calls + RoundsLeft(lo, bmd.sizeBytes as int), target.calls - source.calls;
      err := None;
      var buffer := new byte[CHUNK_SIZE];
      var written: int64 := 0;
      while written < bmd.sizeBytes
        invariant fresh(buffer)
        invariant 0 <= written && (written == 0 || written <= bmd.sizeBytes)
        invariant 0 < source.calls && source.plan(source.calls - 1).Upto?
        invariant bmd.sizeBytes - written >= CHUNK_SIZE ==> buffer.Length == CHUNK_SIZE as int
        invariant err.None? && CopiedSoFar(t, lo, written as int, RoundsLeft(lo + written as int, bmd.sizeBytes as int - written as int), total, gap)
        decreases bmd.sizeBytes - written
      {
        var remaining := bmd.sizeBytes - written;
        if remaining < CHUNK_SIZE {
          buffer := new byte[remaining];
        }

        var status;
        written, status, err := CopyRound(buffer, bmd, written, lo, t, total, gap);
        if err.Some? || status == EndOfFile { return; }
      }
    }

    /** Whatever the lengths of the individual reads, the effect is that of one
        clipped slice copy, or of a prefix of it if a call fails. */
    method CopyBlock(bmd: BlockMetadata) returns (err: Option<Error>)
      requires Valid()
      modifies source`offset, source`calls, target
      ensures Valid()
      ensures err == Some(ErrFailedToSeek) <==>
                || source.plan(old(source.calls)).Fault? || target.plan(old(target.calls)).Fault?
                || bmd.byteOffset < 0
                || (!source.growable && |source.content| < bmd.byteOffset as int)
                || (!target.growable && |old(target.content)| < bmd.byteOffset as int)
      ensures err != Some(ErrFailedToSeek) ==> 0 < source.calls && Failed(source.plan(source.calls - 1).Fault?, err)
      ensures err.None? ==> target.content == Overlay(source.content, old(target.content), bmd.byteOffset as int, bmd.sizeBytes as int)
      ensures err.Some? ==> PartlyCopied(source.content, old(target.content), bmd.byteOffset as int, bmd.sizeBytes as int, target.content)
      ensures FaultFree() ==> (err.None? <==> Fits(source.content, old(|target.content|), Kinds(), bmd))
      ensures !target.growable ==> |target.content| == |old(target.content)|
      ensures
        var calls := BlockCalls(source.plan, old(source.calls), bmd, |source.content|);
        err.None? ==> source.calls == old(source.calls) + calls && target.calls == old(target.calls) + calls
    {
      var ok := source.Seek(bmd.byteOffset);
      if !ok { return Some(ErrFailedToSeek); }
      ok := target.Seek(bmd.byteOffset);
      if !ok { return Some(ErrFailedToSeek); }
      err := CopyChunks(bmd);
    }

    method SnapshotMetadataIteratorRecord(recordNumber: nat, metadata: IteratorMetadata) returns (err: Option<Error>)
      requires Valid()
      modifies source`offset, source`calls, target
      ensures Valid()
      ensures err.None? ==> target.content == Copied(source.content, old(target.content), metadata.Blocks())
      ensures err.Some? ==> PartlyCopiedAll(source.content, old(target.content), metadata.Blocks(), target.content)
      ensures err.Some? ==> err.value in {ErrFailedToSeek, ErrFailedToRead, ErrFailedToWrite} && (FaultFree() ==> err.value != ErrFailedToRead)
      ensures FaultFree() ==> (err.None? <==> AllFit(source.content, old(|target.content|), Kinds(), metadata.Blocks()))
      ensures !target.growable ==> |target.content| == |old(target.content)|
      ensures
        var calls := CopyCalls(source.plan, old(source.calls), metadata.Blocks(), |source.content|);
        err.None? ==> source.calls == old(source.calls) + calls && target.calls == old(target.calls) + calls
    {
      var blocks := metadata.Blocks();
      ghost var s, t := source.content, target.content;
      for k := 0 to |blocks|
        invariant target.content == Copied(s, t, blocks[..k])
        invariant !target.growable ==> |target.content| == |t|
        invariant FaultFree() ==> AllFit(s, |t|, Kinds(), blocks[..k])
        invariant source.calls == old(source.calls) + CopyCalls(source.plan, old(source.calls), blocks[..k], |s|)
        invariant target.calls == old(target.calls) + CopyCalls(source.plan, old(source.calls), blocks[..k], |s|)
      {
        assert blocks[..k + 1][..k] == blocks[..k];
        var failure := CopyBlock(blocks[k]);
        if failure.Some? {
          assert FaultFree() ==> !Fits(s, |t|, Kinds(), blocks[k]);
          return failure;
        }
      }
      assert blocks[..|blocks|] == blocks;
      return None;
    }

    /** Reads one chunk of each device. */
    method ReadChunks(sourceBuffer: array<byte>, targetBuffer: array<byte>)
      returns (a: seq<byte>, sourceErr: ReadStatus, b: seq<byte>, targetErr: ReadStatus)
      requires Valid() && sourceBuffer != targetBuffer && sourceBuffer.Length == targetBuffer.Length == CHUNK_SIZE as int
      modifies source`offset, source`calls, target`offset, target`calls, sourceBuffer, targetBuffer
      ensures source.calls == old(source.calls) + 1 && target.calls == old(target.calls) + 1
      ensures IsChunk(source.content, source.plan(old(source.calls)), old(source.offset), a, sourceErr)
      ensures IsChunk(target.content, target.plan(old(target.calls)), old(target.offset), b, targetErr)
      ensures source.offset == old(source.offset) + |a| && target.offset == old(target.offset) + |b|
    {
      var m, n;
      m, sourceErr := source.Read(sourceBuffer);
      a := sourceBuffer[..m];
      n, targetErr := target.Read(targetBuffer);
      b := targetBuffer[..n];
    }

    /** Reads and compares one chunk of each device; more tells that the comparison
        has to go on, and err is the verdict if not. */
    method CompareChunk(sourceBuffer: array<byte>, targetBuffer: array<byte>) returns (more: bool, err: Option<Error>)
      requires Valid() && sourceBuffer != targetBuffer && sourceBuffer.Length == targetBuffer.Length == CHUNK_SIZE as int
      requires source.offset == target.offset <= |source.content| && target.offset <= |target.content|
      modifies source`offset, source`calls, target`offset, target`calls, sourceBuffer, targetBuffer
      ensures source.calls == old(source.calls) + 1 && target.calls == old(target.calls) + 1
      ensures more ==> old(source.offset) < source.offset == target.offset <= |source.content| && target.offset <= |target.content|
      ensures more ==> source.content[old(source.offset)..source.offset] == target.content[old(source.offset)..source.offset]
      ensures !more && err.None? ==> |source.content| == |target.content| == old(source.offset)
      ensures !more ==> JudgedBy(source.plan(old(source.calls)).Fault?, old(source.offset) == |source.content|,
                                 target.plan(old(target.calls)).Fault?, old(target.offset) == |target.content|, err)
      ensures !more ==> EndsWith(source.plan(source.calls - 1).Fault?, target.plan(target.calls - 1).Fault?, err)
      ensures FaultFree() ==> (old(InStep()) <==> if more then InStep() else err.None?)
      ensures FaultFree() && err.Some? ==> err == Some(ErrContentsDoNotMatch)
    {
      var a, sourceErr, b, targetErr := ReadChunks(sourceBuffer, targetBuffer);
      more := GoesOn(a, sourceErr, b, targetErr);
      err := if more then None else Verdict(sourceErr, targetErr);
      RoundMeans(source.content, source.plan, old(source.calls), target.content, target.plan, old(target.calls), old(source.offset),
                 a, sourceErr, b, targetErr);
    }

    ghost predicate InStep()
      requires source.offset == target.offset <= |source.content| && target.offset <= |target.content|
      reads source, target
    {
      Agree(source.content, source.plan, source.calls, target.content, target.plan, target.calls, source.offset)
    }

    /** The loop of the comparison, from the start of both devices on. */
    method CompareDevices() returns (err: Option<Error>)
      requires Valid() && source.offset == target.offset == 0
      modifies source`offset, source`calls, target`offset, target`calls
      ensures err.None? ==> source.content == target.content
      ensures FaultFree() ==> (err.None? <==> old(InStep())) && (err.Some? ==> err == Some(ErrContentsDoNotMatch))
      ensures 0 < source.calls && 0 < target.calls && EndsWith(source.plan(source.calls - 1).Fault?, target.plan(target.calls - 1).Fault?, err)
    {
      ghost var s, t, accept := source.content, target.content, InStep();
      var sourceBuffer := new byte[CHUNK_SIZE];
      var targetBuffer := new byte[CHUNK_SIZE];
      while true
        invariant fresh(sourceBuffer) && fresh(targetBuffer)
        invariant source.offset == target.offset <= |s| && target.offset <= |t|
        invariant s[..source.offset] == t[..source.offset]
        invariant FaultFree() ==> (accept <==> InStep())
        decreases |s| - source.offset
      {
        ghost var p := source.offset;
        var more, verdict := CompareChunk(sourceBuffer, targetBuffer);
        if !more { return verdict; }
        EqualSoFar(s, t, p, source.offset);
      }
    }

    /** Devices that never fail are accepted exactly when they hold the same bytes
        and their reads keep in step; whatever the calls do, acceptance implies
        equality.  The error names the call that failed, or else says that the contents
        do not match. */
    method SnapshotMetadataIteratorDone(numberRecords: nat) returns (err: Option<Error>)
      requires Valid()
      modifies source`offset, source`calls, target`offset, target`calls
      ensures err.None? ==> source.content == target.content
      ensures FaultFree() ==> (err.None? <==> Agree(source.content, source.plan, old(source.calls) + 1, target.content, target.plan, old(target.calls) + 1, 0))
      ensures FaultFree() && err.Some? ==> err == Some(ErrContentsDoNotMatch)
      ensures err == Some(ErrFailedToSeek) <==> source.plan(old(source.calls)).Fault? || target.plan(old(target.calls)).Fault?
      ensures err != Some(ErrFailedToSeek) ==>
                && 0 < source.calls && 0 < target.calls
                && EndsWith(source.plan(source.calls - 1).Fault?, target.plan(target.calls - 1).Fault?, err)
    {
      var ok := source.Seek(0);
      if !ok { return Some(ErrFailedToSeek); }
      ok := target.Seek(0);
      if !ok { return Some(ErrFailedToSeek); }
      err := CompareDevices();
    }
  }
}
