/** gRPC message streams: messages, then an end. */
module Streams {
  import opened Base

  datatype StreamEnd = EOF | Broken(error: Error)

  datatype Received<+T> = Message(m: T) | EndOfStream | RecvError(error: Error)

  class RecvStream<T> {
    const messages: seq<T>
    const end: StreamEnd
    var cursor: nat

    constructor (messages: seq<T>, end: StreamEnd)
      ensures this.messages == messages && this.end == end && cursor == 0
    {
      this.messages, this.end, cursor := messages, end, 0;
    }

    method Recv() returns (r: Received<T>)
      requires cursor <= |messages|
      modifies this
      ensures old(cursor) < |messages| ==> r == Message(messages[old(cursor)]) && cursor == old(cursor) + 1
      ensures old(cursor) == |messages| ==> cursor == old(cursor)
      ensures old(cursor) == |messages| ==> r == match end case EOF => EndOfStream case Broken(e) => RecvError(e)
    {
      if cursor < |messages| {
        r := Message(messages[cursor]);
        cursor := cursor + 1;
      } else {
        r := match end case EOF => EndOfStream case Broken(e) => RecvError(e);
      }
    }
  }

  class SendStream<T> {
    var sent: seq<T>
    /** What sending the next message yields when k have been sent. */
    const refusal: nat -> Option<Error>

    constructor (refusal: nat -> Option<Error>)
      ensures this.refusal == refusal && sent == []
    {
      this.refusal, sent := refusal, [];
    }

    method Send(m: T) returns (err: Option<Error>)
      modifies this
      ensures err == refusal(|old(sent)|)
      ensures sent == if err.None? then old(sent) + [m] else old(sent)
    {
      err := refusal(|sent|);
      if err.None? { sent := sent + [m]; }
    }
  }
}

/** The message types of the CSI and of the Kubernetes snapshot metadata API. */
module Api {
  import opened Base
  import opened Metadata

  datatype AllocatedRequest = AllocatedRequest(securityToken: string, namespace: string, snapshotName: string, startingOffset: int64, maxResults: int32)
  datatype DeltaRequest = DeltaRequest(securityToken: string, namespace: string, baseSnapshotId: string, targetSnapshotName: string, startingOffset: int64, maxResults: int32)

  datatype CsiBlockMetadata = CsiBlockMetadata(byteOffset: int64, sizeBytes: int64)
  datatype CsiAllocatedResponse = CsiAllocatedResponse(blockMetadataType: int32, volumeCapacityBytes: int64, blockMetadata: seq<CsiBlockMetadata>)
  datatype CsiDeltaResponse = CsiDeltaResponse(blockMetadataType: int32, volumeCapacityBytes: int64, blockMetadata: seq<CsiBlockMetadata>)
  datatype AllocatedResponse = AllocatedResponse(blockMetadataType: int32, volumeCapacityBytes: int64, blockMetadata: Option<seq<BlockMetadata>>)
  datatype DeltaResponse = DeltaResponse(blockMetadataType: int32, volumeCapacityBytes: int64, blockMetadata: Option<seq<BlockMetadata>>)

  function ApiBlocks(blocks: seq<CsiBlockMetadata>): (r: seq<BlockMetadata>)
    ensures |r| == |blocks|
  {
    seq(|blocks|, i requires 0 <= i < |blocks| => BlockMetadata(blocks[i].byteOffset, blocks[i].sizeBytes))
  }

  /** The record that a driver's response stands for; a list without elements is
      nil on the client's side. */
  function CsiRecord(kind: int32, capacity: int64, blocks: seq<CsiBlockMetadata>): IteratorMetadata {
    IteratorMetadata(kind, capacity, if blocks == [] then None else Some(ApiBlocks(blocks)))
  }

  /** A record holds the tuples of a driver's response, in order, each with its
      offset and its size, and has no list at all if there are none. */
  ghost predicate HoldsTuples(r: Option<seq<BlockMetadata>>, blocks: seq<CsiBlockMetadata>) {
    && (r.None? <==> |blocks| == 0)
    && (r.Some? ==> |r.value| == |blocks|)
    && forall i :: 0 <= i < |blocks| && r.Some? ==> r.value[i].byteOffset == blocks[i].byteOffset && r.value[i].sizeBytes == blocks[i].sizeBytes
  }

  lemma CsiRecordHolds(kind: int32, capacity: int64, blocks: seq<CsiBlockMetadata>)
    ensures
      var m := CsiRecord(kind, capacity, blocks);
      m.blockMetadataType == kind && m.volumeCapacityBytes == capacity && HoldsTuples(m.blockMetadata, blocks)
  {
  }

  function OfCsiAllocated(r: CsiAllocatedResponse): IteratorMetadata {
    CsiRecord(r.blockMetadataType, r.volumeCapacityBytes, r.blockMetadata)
  }

  function OfCsiDelta(r: CsiDeltaResponse): IteratorMetadata {
    CsiRecord(r.blockMetadataType, r.volumeCapacityBytes, r.blockMetadata)
  }

  function OfAllocated(r: AllocatedResponse): IteratorMetadata {
    IteratorMetadata(r.blockMetadataType, r.volumeCapacityBytes, r.blockMetadata)
  }

  function OfDelta(r: DeltaResponse): IteratorMetadata {
    IteratorMetadata(r.blockMetadataType, r.volumeCapacityBytes, r.blockMetadata)
  }

  function Map<A, B>(f: A -> B, s: seq<A>): (r: seq<B>)
    ensures |r| == |s|
    ensures forall i {:trigger r[i]} :: 0 <= i < |s| ==> r[i] == f(s[i])
  {
    seq(|s|, i requires 0 <= i < |s| => f(s[i]))
  }
}

/** The relay that both handlers of the sidecar implement. */
module RelaySpec {
  import opened Base
  import opened Metadata
  import opened CopyAlgebra
  import opened Resume
  import opened Streams

  /** What the stream loop keeps for its log entries. */
  datatype Progress = Progress(responseNum: nat, blockMetadataType: int32, volumeCapacityBytes: int64, lastByteOffset: int64, lastSize: int64)

  const NO_PROGRESS := Progress(0, 0, 0, 0, 0)

  /** The progress after one more response. */
  function Advance(p: Progress, m: IteratorMetadata): Progress {
    var blocks := m.Blocks();
    var q := p.(responseNum := p.responseNum + 1, blockMetadataType := m.blockMetadataType, volumeCapacityBytes := m.volumeCapacityBytes);
    if blocks == [] then q else q.(lastByteOffset := blocks[|blocks| - 1].byteOffset, lastSize := blocks[|blocks| - 1].sizeBytes)
  }

  function ProgressAfter(received: seq<IteratorMetadata>): Progress {
    if received == [] then NO_PROGRESS
    else Advance(ProgressAfter(received[..|received| - 1]), received[|received| - 1])
  }

  /** A status error with a code other than Unknown passes, everything else is
      wrapped as Internal. */
  function PassOrWrap(e: Error): Error {
    if e.Status? && e.code != Unknown then e else Status(Internal)
  }

  /** The number of messages, of n, that are sent before one is refused. */
  function Accepted(refusal: nat -> Option<Error>, from: nat, n: nat): (k: nat)
    ensures k <= n
    ensures forall i :: from <= i < from + k ==> refusal(i).None?
    ensures k < n ==> refusal(from + k).Some?
    decreases n
  {
    if n == 0 || refusal(from).Some? then 0 else 1 + Accepted(refusal, from + 1, n - 1)
  }

  /** The contract of the relay: what was sent, how the call ended and what was
      logged, for a stream of messages and its end. */
  ghost predicate IsRelay(messages: seq<IteratorMetadata>, end: StreamEnd, refusal: nat -> Option<Error>,
                          sent: seq<IteratorMetadata>, err: Option<Error>, progress: Progress)
  {
    var k := Accepted(refusal, 0, |messages|);
    && sent == messages[..k]
    && if k < |messages| then
         && err == Some(PassOrWrap(refusal(k).value))
         && progress == ProgressAfter(messages[..k + 1])
       else
         && progress == ProgressAfter(messages)
         && err == match end case EOF => None case Broken(e) => Some(PassOrWrap(e))
  }

  /** The loop has passed on the first n messages. */
  ghost predicate Relaying(messages: seq<IteratorMetadata>, refusal: nat -> Option<Error>, n: nat, sent: seq<IteratorMetadata>, progress: Progress) {
    && n <= |messages| && sent == messages[..n] && progress == ProgressAfter(sent)
    && forall i :: 0 <= i < n ==> refusal(i).None?
  }

  /** The next message is passed on, or the loop ends because it is refused. */
  lemma RelayStep(messages: seq<IteratorMetadata>, end: StreamEnd, refusal: nat -> Option<Error>, n: nat, sent: seq<IteratorMetadata>, progress: Progress)
    requires Relaying(messages, refusal, n, sent, progress) && n < |messages|
    ensures refusal(n).None? ==> Relaying(messages, refusal, n + 1, sent + [messages[n]], Advance(progress, messages[n]))
    ensures refusal(n).Some? ==> IsRelay(messages, end, refusal, sent, Some(PassOrWrap(refusal(n).value)), Advance(progress, messages[n]))
  {
    assert messages[..n + 1] == messages[..n] + [messages[n]];
  }

  /** The loop ends with the stream. */
  lemma RelayEnds(messages: seq<IteratorMetadata>, end: StreamEnd, refusal: nat -> Option<Error>, sent: seq<IteratorMetadata>, progress: Progress)
    requires Relaying(messages, refusal, |messages|, sent, progress)
    ensures IsRelay(messages, end, refusal, sent, match end case EOF => None case Broken(e) => Some(PassOrWrap(e)), progress)
  {
    assert messages[..|messages|] == messages;
  }

  /** A run without an error has passed on everything; a run in which the driver
      failed, everything received; a run in which the client failed, everything
      received but the last message. */
  lemma RelaySendsPrefix(messages: seq<IteratorMetadata>, end: StreamEnd, refusal: nat -> Option<Error>,
                         sent: seq<IteratorMetadata>, err: Option<Error>, progress: Progress)
    requires IsRelay(messages, end, refusal, sent, err, progress)
    ensures sent <= messages
    ensures err.None? <==> end.EOF? && sent == messages
    ensures progress.responseNum <= |messages| && (progress.responseNum == |sent| || progress.responseNum == |sent| + 1)
    ensures progress.responseNum == |sent| <==> sent == messages
  {
    var k := Accepted(refusal, 0, |messages|);
    ResponsesCounted(messages);
    if k < |messages| {
      ResponsesCounted(messages[..k + 1]);
    }
  }

  lemma {:induction false} ResponsesCounted(received: seq<IteratorMetadata>)
    ensures ProgressAfter(received).responseNum == |received|
  {
    if received != [] {
      ResponsesCounted(received[..|received| - 1]);
    }
  }

  /** The status of a call that failed because of e: that of e, if it has one that
      says something, or else Internal. */
  ghost predicate IsStatusOf(e: Error, err: Option<Error>) {
    exists code ::
      && err == Some(Status(code)) && code != Unknown
      && (e == Status(code) || (code == Internal && forall known :: known != Unknown ==> e != Status(known)))
  }

  /** The call fails with the status of what made it fail: of the first refusal by the
      client or else of the driver's end of the stream. */
  lemma RelayStatus(messages: seq<IteratorMetadata>, end: StreamEnd, refusal: nat -> Option<Error>,
                    sent: seq<IteratorMetadata>, err: Option<Error>, progress: Progress)
    requires IsRelay(messages, end, refusal, sent, err, progress)
    ensures
      if |sent| < |messages| then refusal(|sent|).Some? && IsStatusOf(refusal(|sent|).value, err)
      else if end.Broken? then IsStatusOf(end.error, err)
      else err.None?
  {
    var k := Accepted(refusal, 0, |messages|);
    var e := if k < |messages| then refusal(k).value else if end.Broken? then end.error else Status(Internal);
    assert IsStatusOf(e, Some(PassOrWrap(e))) by {
      assert PassOrWrap(e).Status? && PassOrWrap(e).code != Unknown;
    }
  }

  /** The logged position is that of the very last tuple of all those received,
      however many responses without tuples came after it; number, type and capacity
      are those of the last response. */
  lemma {:induction false} ProgressNamesLastTuple(received: seq<IteratorMetadata>)
    ensures
      var p, tuples := ProgressAfter(received), Tuples(received);
      && BlockMetadata(p.lastByteOffset, p.lastSize) == (if tuples == [] then BlockMetadata(0, 0) else tuples[|tuples| - 1])
      && p.responseNum == |received|
      && (received != [] ==>
            && p.blockMetadataType == received[|received| - 1].blockMetadataType
            && p.volumeCapacityBytes == received[|received| - 1].volumeCapacityBytes)
  {
    if received != [] {
      ProgressNamesLastTuple(received[..|received| - 1]);
    }
  }

  /** When the driver fails in midstream, the end of the logged tuple is the
      starting offset from which a second call yields exactly what is missing. */
  lemma ResumeFromLog(sent: seq<IteratorMetadata>, missing: seq<BlockMetadata>)
    requires Tuples(sent) != [] && Ordered(Tuples(sent) + missing)
    ensures
      var p := ProgressAfter(sent);
      EndingAfter(Tuples(sent) + missing, p.lastByteOffset as int + p.lastSize as int) == missing
  {
    var tuples, last := Tuples(sent), |Tuples(sent)| - 1;
    var all := tuples + missing;
    assert all[last] == tuples[last] && all[|tuples|..] == missing;
    ProgressNamesLastTuple(sent);
    ResumeYieldsTheRest(all, |tuples|);
  }
}

/** streamGetMetadataAllocatedResponse. */
module AllocatedRelay {
  import opened Base
  import opened Metadata
  import opened Streams
  import opened Api
  import opened RelaySpec

  method ConvertToGetMetadataAllocatedResponse(csiResp: CsiAllocatedResponse) returns (apiResp: AllocatedResponse)
    ensures OfAllocated(apiResp) == OfCsiAllocated(csiResp)
    ensures apiResp.blockMetadataType == csiResp.blockMetadataType && apiResp.volumeCapacityBytes == csiResp.volumeCapacityBytes
    ensures HoldsTuples(apiResp.blockMetadata, csiResp.blockMetadata)
  {
    var blocks: Option<seq<BlockMetadata>> := None;
    for i := 0 to |csiResp.blockMetadata|
      invariant blocks == if i == 0 then None else Some(ApiBlocks(csiResp.blockMetadata[..i]))
    {
      var b := csiResp.blockMetadata[i];
      var prefix := if blocks.None? then [] else blocks.value;
      blocks := Some(prefix + [BlockMetadata(b.byteOffset, b.sizeBytes)]);
      assert blocks.value == ApiBlocks(csiResp.blockMetadata[..i + 1]);
    }
    assert csiResp.blockMetadata[..|csiResp.blockMetadata|] == csiResp.blockMetadata;
    CsiRecordHolds(csiResp.blockMetadataType, csiResp.volumeCapacityBytes, csiResp.blockMetadata);
    return AllocatedResponse(csiResp.blockMetadataType, csiResp.volumeCapacityBytes, blocks);
  }

  /** The body of the loop for one response: convert it, note its last tuple,
      send it. */
  method Forward(csiResp: CsiAllocatedResponse, clientStream: SendStream<AllocatedResponse>, progress: Progress)
    returns (logged: Progress, failure: Option<Error>)
    modifies clientStream
    ensures logged == Advance(progress, OfCsiAllocated(csiResp))
    ensures failure == clientStream.refusal(|old(clientStream.sent)|)
    ensures Map(OfAllocated, clientStream.sent) ==
              if failure.None? then Map(OfAllocated, old(clientStream.sent)) + [OfCsiAllocated(csiResp)] else Map(OfAllocated, old(clientStream.sent))
  {
    var clientResp := ConvertToGetMetadataAllocatedResponse(csiResp);
    var blocks := OfAllocated(clientResp).Blocks();
    logged := progress.(
      responseNum := progress.responseNum + 1,
      blockMetadataType := clientResp.blockMetadataType,
      volumeCapacityBytes := clientResp.volumeCapacityBytes);
    if |blocks| - 1 >= 0 {
      logged := logged.(
        lastByteOffset := blocks[|blocks| - 1].byteOffset,
        lastSize := blocks[|blocks| - 1].sizeBytes);
    }
    failure := clientStream.Send(clientResp);
  }

  method StreamGetMetadataAllocatedResponse(clientStream: SendStream<AllocatedResponse>, csiStream: RecvStream<CsiAllocatedResponse>)
    returns (err: Option<Error>, logged: Progress)
    requires csiStream.cursor == 0 && clientStream.sent == []
    modifies clientStream, csiStream
    ensures IsRelay(Map(OfCsiAllocated, csiStream.messages), csiStream.end, clientStream.refusal,
                    Map(OfAllocated, clientStream.sent), err, logged)
  {
    ghost var records, refusal := Map(OfCsiAllocated, csiStream.messages), clientStream.refusal;
    ghost var n := 0;
    logged := NO_PROGRESS;
    while true
      invariant csiStream.cursor == n <= |records|
      invariant Relaying(records, refusal, n, Map(OfAllocated, clientStream.sent), logged)
      decreases |records| - n
    {
      var received := csiStream.Recv();
      if !received.Message? {
        RelayEnds(records, csiStream.end, refusal, Map(OfAllocated, clientStream.sent), logged);
        return if received.EndOfStream? then None else Some(PassOrWrap(received.error)), logged;
      }
      RelayStep(records, csiStream.end, refusal, n, Map(OfAllocated, clientStream.sent), logged);
      var failure;
      logged, failure := Forward(received.m, clientStream, logged);
      if failure.Some? {
        return Some(PassOrWrap(failure.value)), logged;
      }
      n := n + 1;
    }
  }
}

/** streamGetMetadataDeltaResponse. */
module DeltaRelay {
  import opened Base
  import opened Metadata
  import opened Streams
  import opened Api
  import opened RelaySpec

  method ConvertToGetMetadataDeltaResponse(csiResp: CsiDeltaResponse) returns (apiResp: DeltaResponse)
    ensures OfDelta(apiResp) == OfCsiDelta(csiResp)
    ensures apiResp.blockMetadataType == csiResp.blockMetadataType && apiResp.volumeCapacityBytes == csiResp.volumeCapacityBytes
    ensures HoldsTuples(apiResp.blockMetadata, csiResp.blockMetadata)
  {
    var blocks: Option<seq<BlockMetadata>> := None;
    for i := 0 to |csiResp.blockMetadata|
      invariant blocks == if i == 0 then None else Some(ApiBlocks(csiResp.blockMetadata[..i]))
    {
      var b := csiResp.blockMetadata[i];
      var prefix := if blocks.None? then [] else blocks.value;
      blocks := Some(prefix + [BlockMetadata(b.byteOffset, b.sizeBytes)]);
      assert blocks.value == ApiBlocks(csiResp.blockMetadata[..i + 1]);
    }
    assert csiResp.blockMetadata[..|csiResp.blockMetadata|] == csiResp.blockMetadata;
    CsiRecordHolds(csiResp.blockMetadataType, csiResp.volumeCapacityBytes, csiResp.blockMetadata);
    return DeltaResponse(csiResp.blockMetadataType, csiResp.volumeCapacityBytes, blocks);
  }

  /** The body of the loop for one response: convert it, note its last tuple,
      send it. */
  method Forward(csiResp: CsiDeltaResponse, clientStream: SendStream<DeltaResponse>, progress: Progress)
    returns (logged: Progress, failure: Option<Error>)
    modifies clientStream
    ensures logged == Advance(progress, OfCsiDelta(csiResp))
    ensures failure == clientStream.refusal(|old(clientStream.sent)|)
    ensures Map(OfDelta, clientStream.sent) ==
              if failure.None? then Map(OfDelta, old(clientStream.sent)) + [OfCsiDelta(csiResp)] else Map(OfDelta, old(clientStream.sent))
  {
    var clientResp := ConvertToGetMetadataDeltaResponse(csiResp);
    var blocks := OfDelta(clientResp).Blocks();
    logged := progress.(
      responseNum := progress.responseNum + 1,
      blockMetadataType := clientResp.blockMetadataType,
      volumeCapacityBytes := clientResp.volumeCapacityBytes);
    if |blocks| - 1 >= 0 {
      logged := logged.(
        lastByteOffset := blocks[|blocks| - 1].byteOffset,
        lastSize := blocks[|blocks| - 1].sizeBytes);
    }
    failure := clientStream.Send(clientResp);
  }

  method StreamGetMetadataDeltaResponse(clientStream: SendStream<DeltaResponse>, csiStream: RecvStream<CsiDeltaResponse>)
    returns (err: Option<Error>, logged: Progress)
    requires csiStream.cursor == 0 && clientStream.sent == []
    modifies clientStream, csiStream
    ensures IsRelay(Map(OfCsiDelta, csiStream.messages), csiStream.end, clientStream.refusal,
                    Map(OfDelta, clientStream.sent), err, logged)
  {
    ghost var records, refusal := Map(OfCsiDelta, csiStream.messages), clientStream.refusal;
    ghost var n := 0;
    logged := NO_PROGRESS;
    while true
      invariant csiStream.cursor == n <= |records|
      invariant Relaying(records, refusal, n, Map(OfDelta, clientStream.sent), logged)
      decreases |records| - n
    {
      var received := csiStream.Recv();
      if !received.Message? {
        RelayEnds(records, csiStream.end, refusal, Map(OfDelta, clientStream.sent), logged);
        return if received.EndOfStream? then None else Some(PassOrWrap(received.error)), logged;
      }
      RelayStep(records, csiStream.end, refusal, n, Map(OfDelta, clientStream.sent), logged);
      var failure;
      logged, failure := Forward(received.m, clientStream, logged);
      if failure.Some? {
        return Some(PassOrWrap(failure.value)), logged;
      }
      n := n + 1;
    }
  }
}
