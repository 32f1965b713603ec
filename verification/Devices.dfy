/** Open files and block devices, as the os.File calls of the verifier see them. */
module Devices {
  import opened Base
  import opened CopyAlgebra

  /** What the kernel does with one call: fail, after m bytes if it is a write,
      or transfer at most n bytes if it is a read. */
  datatype Outcome = Upto(n: nat) | Fault(m: nat)

  datatype ReadStatus = ReadOk | EndOfFile | ReadFailed

  /** Bytes returned by a read of want > 0 bytes with rem > 0 left: any count the
      kernel likes, but at least one. */
  function ReadCount(outcome: Outcome, want: nat, rem: nat): (count: nat)
    requires outcome.Upto? && 0 < want && 0 < rem
    ensures 1 <= count <= want && count <= rem
  {
    if outcome.n == 0 then 1 else Min(outcome.n, Min(want, rem))
  }

  class Device {
    var content: seq<byte>
    var offset: nat
    /** System calls made so far; call number k behaves as plan(k) says. */
    var calls: nat
    const plan: nat -> Outcome
    /** A regular file can be positioned and written past its end, and grows; a
        block device refuses both. */
    const growable: bool

    constructor (content: seq<byte>, plan: nat -> Outcome, growable: bool)
      ensures this.content == content && this.plan == plan && this.growable == growable
      ensures offset == 0 && calls == 0
    {
      this.content, this.plan, this.growable := content, plan, growable;
      offset, calls := 0, 0;
    }

    ghost predicate FaultFree() {
      forall k: nat :: plan(k).Upto?
    }

    /** Room for the bytes [lo, lo + n) to be written. */
    predicate Accommodates(lo: nat, n: nat)
      reads this`content
    {
      n == 0 || growable || lo + n <= |content|
    }

    /** A position to which the kernel can seek. */
    predicate Seekable(position: int)
      reads this`content
    {
      0 <= position && (growable || position <= |content|)
    }

    /** Seek(position, io.SeekStart). */
    method Seek(position: int64) returns (ok: bool)
      modifies this`offset, this`calls
      ensures calls == old(calls) + 1
      ensures ok <==> plan(old(calls)).Upto? && Seekable(position as int)
      ensures offset == if ok then position as int else old(offset)
    {
      ok := plan(calls).Upto? && Seekable(position as int);
      calls := calls + 1;
      if ok { offset := position as int; }
    }

    method Read(buffer: array<byte>) returns (n: nat, status: ReadStatus)
      modifies this`offset, this`calls, buffer
      ensures calls == old(calls) + 1
      ensures status == ReadFailed <==> plan(old(calls)).Fault?
      ensures status == EndOfFile <==> plan(old(calls)).Upto? && 0 < buffer.Length && |content| <= old(offset)
      ensures status == ReadOk && 0 < buffer.Length ==> n == ReadCount(plan(old(calls)), buffer.Length, |content| - old(offset))
      ensures status != ReadOk || buffer.Length == 0 ==> n == 0
      ensures offset == old(offset) + n
      ensures n <= buffer.Length && (0 < n ==> offset <= |content| && buffer[..n] == content[old(offset)..offset])
    {
      n, status := 0, ReadOk;
      if plan(calls).Fault? {
        status := ReadFailed;
      } else if 0 < buffer.Length {
        if |content| <= offset {
          status := EndOfFile;
        } else {
          n := ReadCount(plan(calls), buffer.Length, |content| - offset);
          forall i | 0 <= i < n { buffer[i] := content[offset + i]; }
        }
      }
      calls := calls + 1;
      offset := offset + n;
    }

    /** All of the chunk, or fewer bytes and an error. */
    method Write(chunk: seq<byte>) returns (m: nat, ok: bool)
      modifies this
      ensures calls == old(calls) + 1
      ensures ok <==> plan(old(calls)).Upto? && old(Accommodates(offset, |chunk|))
      ensures m <= |chunk| && (ok ==> m == |chunk|)
      ensures content == Splice(old(content), old(offset), chunk[..m]) && offset == old(offset) + m
      ensures !growable ==> |content| == |old(content)|
    {
      ok := plan(calls).Upto? && Accommodates(offset, |chunk|);
      m := |chunk|;
      if !ok {
        var room := if growable then m else if offset < |content| then Min(m, |content| - offset) else 0;
        m := if plan(calls).Fault? then Min(plan(calls).m, room) else room;
      }
      content := Splice(content, offset, chunk[..m]);
      offset := offset + m;
      calls := calls + 1;
    }
  }
}
