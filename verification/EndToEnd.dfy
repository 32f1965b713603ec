/** From the CSI driver through the sidecar and the network to the emitter. */
module EndToEnd {
  import opened Base
  import opened Metadata
  import opened CopyAlgebra
  import opened Resume
  import opened VerifierEmitters
  import opened Streams
  import opened RelaySpec
  import opened Api
  import opened Emitters
  import opened Iterators
  import opened Writers
  import JsonEmitters
  import TableEmitters
  import RequestGate

  // ----- runs with the printers

  lemma {:induction false} ObligingAccepts(view: View, script: Script<IteratorMetadata>, n: nat, after: View, err: Option<Error>)
    requires RunOutcome(Obliging, view, script, n, after, err)
    ensures err == EndError(script.end)
    ensures err.None? ==> LeavesDone(AfterRecords(view, 0, script.messages), |script.messages|, after)
  {
  }

  /** The JSON emitter fails only if the stream does.  Otherwise it has printed the
      document, from which exactly the records of the stream are read, if and only if
      the writer had room for every piece of it. */
  lemma JSONOutcome(room: nat -> nat, script: Script<IteratorMetadata>, n: nat, after: View, err: Option<Error>)
    requires RunOutcome(Obliging, StartJSON(Sink("", 0, room)), script, n, after, err)
    ensures err == EndError(script.end)
    ensures err.None? ==>
              && after.JSONView?
              && (after.sink.text == JsonEmitters.Document(script.messages) <==> Takes(Sink("", 0, room), JsonEmitters.Pieces(script.messages)))
    ensures JsonEmitters.ReadRecords(JsonEmitters.Document(script.messages)) == Some(script.messages)
  {
    var sink, pieces := Sink("", 0, room), JsonEmitters.Pieces(script.messages);
    ObligingAccepts(StartJSON(sink), script, n, after, err);
    JSONRun(sink, script.messages);
    assert pieces[..|pieces| - 1] == JsonEmitters.RecordPieces(script.messages);
    PutAllText(sink, pieces);
    JsonEmitters.FlatPieces(script.messages);
    assert "" + Flat(pieces) == Flat(pieces);
    JsonEmitters.DocumentReads(script.messages);
  }

  lemma TableOutcome(room: nat -> nat, script: Script<IteratorMetadata>, n: nat, after: View, err: Option<Error>)
    requires RunOutcome(Obliging, StartTable(Sink("", 0, room)), script, n, after, err)
    ensures err == EndError(script.end)
    ensures err.None? ==>
              && after.TableView?
              && (after.sink.text == TableEmitters.Table(script.messages) <==> Takes(Sink("", 0, room), TableEmitters.Pieces(script.messages)))
    ensures TableEmitters.ReadTable(TableEmitters.Table(script.messages)) == Some(TableEmitters.AllRows(script.messages))
  {
    var sink, pieces := Sink("", 0, room), TableEmitters.Pieces(script.messages);
    ObligingAccepts(StartTable(sink), script, n, after, err);
    TableRun(sink, script.messages);
    PutAllText(sink, pieces);
    TableEmitters.FlatPieces(script.messages);
    assert "" + Flat(pieces) == Flat(pieces);
    TableEmitters.TableReads(script.messages);
  }

  lemma {:induction false} ObligingAcceptsAll(view: View, records: seq<IteratorMetadata>, k: nat)
    requires k <= |records|
    ensures Accepts(Obliging, view, 0, records, k)
  {
    if k > 0 { ObligingAcceptsAll(view, records, k - 1); }
  }

  lemma {:induction false} NoRoom(sink: Sink, pieces: seq<string>)
    requires sink.text == "" && forall k: nat :: sink.room(k) == 0
    ensures PutAll(sink, pieces).text == "" && PutAll(sink, pieces).room == sink.room
  {
    if pieces != [] { NoRoom(sink, pieces[..|pieces| - 1]); }
  }

  /** A writer that takes nothing goes unnoticed: the run ends without error, and
      nothing can be read. */
  lemma LostOutputGoesUnnoticed(script: Script<IteratorMetadata>) returns (after: View)
    requires script.end.EOF?
    ensures RunOutcome(Obliging, StartJSON(Sink("", 0, k => 0)), script, |script.messages|, after, None)
    ensures after.JSONView? && after.sink.text == "" && JsonEmitters.ReadRecords(after.sink.text) == None
  {
    var sink := Sink("", 0, k => 0);
    after := AfterDone(AfterRecords(StartJSON(sink), 0, script.messages), |script.messages|);
    ObligingAcceptsAll(StartJSON(sink), script.messages, |script.messages|);
    JSONRun(sink, script.messages);
    NoRoom(sink, JsonEmitters.RecordPieces(script.messages));
  }

  // ----- runs with the verifier

  lemma AllFitConcat(s: seq<byte>, len: nat, growable: Growable, a: seq<BlockMetadata>, b: seq<BlockMetadata>)
    ensures AllFit(s, len, growable, a + b) <==> AllFit(s, len, growable, a) && AllFit(s, len, growable, b)
  {
    assert forall i :: 0 <= i < |a| ==> (a + b)[i] == a[i];
    assert forall i :: 0 <= i < |b| ==> (a + b)[|a| + i] == b[i];
  }

  lemma FitsAnyLength(s: seq<byte>, m: nat, n: nat, growable: Growable, extents: seq<BlockMetadata>)
    requires growable.target && AllFit(s, m, growable, extents)
    ensures AllFit(s, n, growable, extents)
  {
    forall k | 0 <= k < |extents| ensures Fits(s, n, growable, extents[k]) {
      assert Fits(s, m, growable, extents[k]);
    }
  }

  lemma SameFit(s: seq<byte>, t: seq<byte>, growable: Growable, done: seq<BlockMetadata>, blocks: seq<BlockMetadata>)
    requires AllFit(s, |t|, growable, done)
    ensures AllFit(s, |Copied(s, t, done)|, growable, blocks) <==> AllFit(s, |t|, growable, blocks)
  {
    var g := Copied(s, t, done);
    if growable.target {
      if AllFit(s, |g|, growable, blocks) { FitsAnyLength(s, |g|, |t|, growable, blocks); }
      if AllFit(s, |t|, growable, blocks) { FitsAnyLength(s, |t|, |g|, growable, blocks); }
    } else {
      FittingCopyKeepsLength(s, t, growable, done);
    }
  }

  lemma {:induction false} OneRecordFits(p: Policy, s: seq<byte>, t: seq<byte>, c: Counters, records: seq<IteratorMetadata>, k: nat)
    requires p.Copying? && p.faultFree && k < |records| && AllFit(s, |t|, p.growable, Tuples(records[..k]))
    ensures Answers(p, ViewAt(VerifierView(s, t, c), 0, records, k), k + 1, records[k], None) <==> AllFit(s, |t|, p.growable, records[k].Blocks())
  {
    VerifierRun(s, t, c, 0, records[..k]);
    SameFit(s, t, p.growable, Tuples(records[..k]), records[k].Blocks());
  }

  /** Copying record by record meets a misfit exactly if there is one. */
  lemma {:induction false} CopyingAccepts(p: Policy, s: seq<byte>, t: seq<byte>, c: Counters, records: seq<IteratorMetadata>, k: nat)
    requires p.Copying? && p.faultFree && k <= |records|
    ensures Accepts(p, VerifierView(s, t, c), 0, records, k) <==> AllFit(s, |t|, p.growable, Tuples(records[..k]))
  {
    if k > 0 {
      CopyingAccepts(p, s, t, c, records, k - 1);
      assert records[..k][..k - 1] == records[..k - 1];
      AllFitConcat(s, |t|, p.growable, Tuples(records[..k - 1]), records[k - 1].Blocks());
      if AllFit(s, |t|, p.growable, Tuples(records[..k - 1])) {
        OneRecordFits(p, s, t, c, records, k - 1);
      }
    }
  }

  lemma AllAccepted(p: Policy, s: seq<byte>, t: seq<byte>, c: Counters, records: seq<IteratorMetadata>)
    requires p.Copying? && p.faultFree
    ensures Accepts(p, VerifierView(s, t, c), 0, records, |records|) <==> AllFit(s, |t|, p.growable, Tuples(records))
  {
    CopyingAccepts(p, s, t, c, records, |records|);
    assert records[..|records|] == records;
  }

  /** Without faults an emitter that refuses a record would not have accepted it. */
  lemma RefusedNotAccepted(p: Policy, view: View, records: seq<IteratorMetadata>, k: nat, err: Option<Error>)
    requires p.Copying? && p.faultFree && k < |records| && err.Some?
    requires Answers(p, ViewAt(view, 0, records, k), k + 1, records[k], err)
    ensures !Accepts(p, view, 0, records, |records|)
  {
    if Accepts(p, view, 0, records, |records|) {
      AcceptsEach(p, view, 0, records, k, |records|);
    }
  }

  /** The devices agree, and are read in step, after copying these tuples. */
  ghost predicate AgreeAfter(s: seq<byte>, t: seq<byte>, c: Counters, tuples: seq<BlockMetadata>) {
    AgreeFrom(s, Copied(s, t, tuples), c.After(tuples, |s|))
  }

  lemma DoneVerdict(p: Policy, s: seq<byte>, t: seq<byte>, c: Counters, records: seq<IteratorMetadata>, err: Option<Error>)
    requires p.Copying? && AnswersDone(p, AfterRecords(VerifierView(s, t, c), 0, records), |records|, err)
    ensures err.None? ==> Copied(s, t, Tuples(records)) == s
    ensures p.prompt && Copied(s, t, Tuples(records)) == s ==> err.None?
    ensures p.faultFree ==> (err.None? <==> AgreeAfter(s, t, c, Tuples(records)))
  {
    VerifierRun(s, t, c, 0, records);
  }

  /** The verdict of the verifier.  Acceptance always means that the stream was
      complete and that copying its extents reproduces the source.  With devices that
      do not fail it means that besides the comparison is read in step, and no more;
      and with devices that do not cut reads short either, that is no condition. */
  lemma VerifierOutcome(p: Policy, s: seq<byte>, t: seq<byte>, c: Counters, script: Script<IteratorMetadata>, n: nat, after: View, err: Option<Error>)
    requires p.Copying? && (p.prompt ==> p.faultFree)
    requires RunOutcome(p, VerifierView(s, t, c), script, n, after, err)
    ensures err.None? ==> script.end.EOF? && Copied(s, t, Tuples(script.messages)) == s
    ensures p.faultFree ==>
              (err.None? <==>
                && script.end.EOF?
                && AllFit(s, |t|, p.growable, Tuples(script.messages))
                && AgreeAfter(s, t, c, Tuples(script.messages)))
    ensures p.prompt ==>
              (err.None? <==>
                && script.end.EOF?
                && AllFit(s, |t|, p.growable, Tuples(script.messages))
                && Copied(s, t, Tuples(script.messages)) == s)
  {
    var view, records := VerifierView(s, t, c), script.messages;
    if p.faultFree { AllAccepted(p, s, t, c, records); }
    if Refused(p, view, 0, records, n, after, err) {
      if p.faultFree { RefusedNotAccepted(p, view, records, n - 1, err); }
    } else {
      NotRefused(p, view, script, n, after, err);
      if AnswersDone(p, AfterRecords(view, 0, records), |records|, err) {
        DoneVerdict(p, s, t, c, records, err);
      }
    }
  }

  lemma RefusedPartly(p: Policy, s: seq<byte>, t: seq<byte>, c: Counters, records: seq<IteratorMetadata>, k: nat, after: View, err: Option<Error>)
    requires p.Copying? && k < |records| && err.Some?
    requires Leaves(p, ViewAt(VerifierView(s, t, c), 0, records, k), k + 1, records[k], err, after)
    ensures after.VerifierView? && after.source == s
    ensures PartlyCopiedAll(s, Copied(s, t, Tuples(records[..k])), records[k].Blocks(), after.target)
  {
    VerifierRun(s, t, c, 0, records[..k]);
  }

  lemma RefusedLeaves(p: Policy, s: seq<byte>, t: seq<byte>, c: Counters, records: seq<IteratorMetadata>, n: nat, after: View, err: Option<Error>)
    requires p.Copying? && Refused(p, VerifierView(s, t, c), 0, records, n, after, err)
    ensures after.VerifierView? && after.source == s && CopyStopped(s, t, Tuples(records), after.target)
  {
    var k := n - 1;
    RefusedPartly(p, s, t, c, records, k, after, err);
    TuplesAround(records, k);
    StoppedInside(s, t, Tuples(records[..k]), records[k].Blocks(), Tuples(records[k + 1..]), after.target);
  }

  lemma CompletedLeaves(s: seq<byte>, t: seq<byte>, c: Counters, records: seq<IteratorMetadata>)
    ensures AfterRecords(VerifierView(s, t, c), 0, records) == VerifierView(s, Copied(s, t, Tuples(records)), c.After(Tuples(records), |s|))
    ensures CopyStopped(s, t, Tuples(records), Copied(s, t, Tuples(records)))
  {
    VerifierRun(s, t, c, 0, records);
    CopyCompleted(s, t, Tuples(records));
  }

  /** Whatever fails, in the stream or on the devices, the source is never changed
      and the target holds what an interruption of the copy leaves. */
  lemma VerifierLeaves(p: Policy, s: seq<byte>, t: seq<byte>, c: Counters, script: Script<IteratorMetadata>, n: nat, after: View, err: Option<Error>)
    requires p.Copying? && RunOutcome(p, VerifierView(s, t, c), script, n, after, err)
    ensures after.VerifierView? && after.source == s && CopyStopped(s, t, Tuples(script.messages), after.target)
  {
    if Refused(p, VerifierView(s, t, c), 0, script.messages, n, after, err) {
      RefusedLeaves(p, s, t, c, script.messages, n, after, err);
    } else {
      NotRefused(p, VerifierView(s, t, c), script, n, after, err);
      CompletedLeaves(s, t, c, script.messages);
    }
  }

  /** The verdict for devices of any two lengths that neither fail nor cut reads
      short, in terms of the tuples alone. */
  lemma VerifierVerdict(p: Policy, s: seq<byte>, t: seq<byte>, c: Counters, script: Script<IteratorMetadata>, n: nat, after: View, err: Option<Error>)
    requires p.Copying? && p.prompt && p.faultFree
    requires RunOutcome(p, VerifierView(s, t, c), script, n, after, err)
    ensures err.None? <==>
              && script.end.EOF?
              && AllFit(s, |t|, p.growable, Tuples(script.messages))
              && CoversAnyLength(s, t, Tuples(script.messages))
  {
    VerifierOutcome(p, s, t, c, script, n, after, err);
    CopyReproducesAnyLength(s, t, Tuples(script.messages));
  }

  /** A run that copies everything and compares equal accepts. */
  lemma AcceptingRun(p: Policy, s: seq<byte>, t: seq<byte>, c: Counters, records: seq<IteratorMetadata>)
    requires p.Copying? && Accepts(p, VerifierView(s, t, c), 0, records, |records|) && Copied(s, t, Tuples(records)) == s
    requires AgreeAfter(s, t, c, Tuples(records))
    ensures RunOutcome(p, VerifierView(s, t, c), Script(records, EOF), |records|, VerifierView(s, s, c.After(Tuples(records), |s|)), None)
  {
    CompletedLeaves(s, t, c, records);
    DoneRun(p, VerifierView(s, t, c), records, VerifierView(s, s, c.After(Tuples(records), |s|)), None);
  }

  /** A target file that is too short can be accepted although a byte of the source
      is in no extent, if it is zero: the file grows and the hole reads as zero. */
  lemma HoleIsAccepted(p: Policy, s: seq<byte>, t: seq<byte>, c: Counters, records: seq<IteratorMetadata>, b: BlockMetadata) returns (after: View)
    requires p == Copying(Growable(true, true), true, true) && s == [5, 0, 6] && t == [5]
    requires b == BlockMetadata(2, 1) && records == [IteratorMetadata(2, 3, Some([b]))]
    requires FillsReads(c.sourcePlan) && FillsReads(c.targetPlan)
    ensures |t| < |s| && !Covered(s, Tuples(records), 1)
    ensures RunOutcome(p, VerifierView(s, t, c), Script(records, EOF), 1, after, None)
  {
    TuplesSnoc([], records[0]);
    assert [] + records == records && Tuples(records) == [b];
    assert Covered(s, [b], 2) by { assert Hits(s, [b][0], 2); }
    CopyReproducesAnyLength(s, t, [b]);
    AllAccepted(p, s, t, c, records);
    var d := c.After(Tuples(records), |s|);
    FillingReadsAgree(s, d.sourcePlan, d.sourceCalls + 1, s, d.targetPlan, d.targetCalls + 1);
    AcceptingRun(p, s, t, c, records);
    after := VerifierView(s, s, d);
  }

  /** All offsets are positions to which devices of this length can seek. */
  ghost predicate Located(len: nat, growable: Growable, tuples: seq<BlockMetadata>) {
    forall k :: 0 <= k < |tuples| ==> 0 <= tuples[k].byteOffset && ((growable.source && growable.target) || tuples[k].byteOffset as int <= len)
  }

  /** Every byte in which the devices differ is covered by some tuple. */
  ghost predicate CoversDifferences(s: seq<byte>, t: seq<byte>, tuples: seq<BlockMetadata>)
    requires |s| == |t|
  {
    forall i {:trigger Covered(s, tuples, i)} :: 0 <= i < |s| && s[i] != t[i] ==> Covered(s, tuples, i)
  }

  lemma EqualLengthsFit(s: seq<byte>, t: seq<byte>, growable: Growable, tuples: seq<BlockMetadata>)
    requires |s| == |t|
    ensures AllFit(s, |t|, growable, tuples) <==> Located(|s|, growable, tuples)
  {
    if AllFit(s, |t|, growable, tuples) {
      forall k | 0 <= k < |tuples| ensures 0 <= tuples[k].byteOffset && ((growable.source && growable.target) || tuples[k].byteOffset as int <= |s|) {
        assert Fits(s, |t|, growable, tuples[k]);
      }
    }
  }

  /** The verifier is exact: on devices of one length that neither fail nor cut
      reads short, a complete stream of metadata is accepted if and only if it
      covers every byte in which the devices differ and names only positions to
      which they can seek. */
  lemma VerifierIsExact(p: Policy, s: seq<byte>, t: seq<byte>, c: Counters, script: Script<IteratorMetadata>, n: nat, after: View, err: Option<Error>)
    requires p.Copying? && p.prompt && p.faultFree && |s| == |t|
    requires RunOutcome(p, VerifierView(s, t, c), script, n, after, err)
    ensures err.None? <==>
              && script.end.EOF?
              && Located(|s|, p.growable, Tuples(script.messages))
              && CoversDifferences(s, t, Tuples(script.messages))
  {
    var tuples := Tuples(script.messages);
    VerifierOutcome(p, s, t, c, script, n, after, err);
    EqualLengthsFit(s, t, p.growable, tuples);
    CopyReproducesIffCovered(s, t, tuples);
  }

  // ----- the two hops

  /** What the client's end of the connection yields when the handler has sent
      these messages and returned this status: a prefix of them, and a normal end
      only after all of them and a normal return. */
  ghost predicate Transported(sent: seq<IteratorMetadata>, status: Option<Error>, script: Script<IteratorMetadata>) {
    && script.messages <= sent
    && (script.end.EOF? ==> status.None? && script.messages == sent)
  }

  /** A connection that loses nothing. */
  ghost predicate Faithful(sent: seq<IteratorMetadata>, status: Option<Error>, script: Script<IteratorMetadata>) {
    script == Script(sent, match status case None => EOF case Some(e) => Broken(e))
  }

  /** No step truncates the stream silently: what the client receives is a prefix
      of the driver's responses, and if its stream ends normally then it is all of
      them and the driver's stream ended normally. */
  lemma ClientReceivesPrefix(driver: Script<IteratorMetadata>, refusal: nat -> Option<Error>,
                             sent: seq<IteratorMetadata>, status: Option<Error>, progress: Progress, script: Script<IteratorMetadata>)
    requires IsRelay(driver.messages, driver.end, refusal, sent, status, progress)
    requires Transported(sent, status, script)
    ensures script.messages <= driver.messages
    ensures script.end.EOF? ==> driver.end.EOF? && script.messages == driver.messages
  {
    RelaySendsPrefix(driver.messages, driver.end, refusal, sent, status, progress);
  }

  /** No tuple ends before the offset the request asked to start from. */
  ghost predicate StartsAt(tuples: seq<BlockMetadata>, startingOffset: int64) {
    forall k :: 0 <= k < |tuples| ==> startingOffset as int < End(tuples[k])
  }

  const FIXED_LENGTH: int32 := 1

  /** Data ranges of fixed length have one size. */
  ghost predicate FixedSizes(records: seq<IteratorMetadata>) {
    records != [] && records[0].blockMetadataType == FIXED_LENGTH ==>
      forall j, k :: 0 <= j < k < |Tuples(records)| ==> Tuples(records)[j].sizeBytes == Tuples(records)[k].sizeBytes
  }

  /** The contract of the stream, as the driver owes it to the sidecar and the
      sidecar to the client: one type, one capacity, one size if the type is that of
      fixed length, bounded records, and tuples that increase and do not overlap,
      within and across records, from the starting offset on. */
  ghost predicate StreamContract(records: seq<IteratorMetadata>, startingOffset: int64, maxResults: int32) {
    && (forall i, j :: 0 <= i < j < |records| ==> records[i].blockMetadataType == records[j].blockMetadataType)
    && (forall i, j :: 0 <= i < j < |records| ==> records[i].volumeCapacityBytes == records[j].volumeCapacityBytes)
    && (0 < maxResults ==> forall i :: 0 <= i < |records| ==> |records[i].Blocks()| <= maxResults as int)
    && FixedSizes(records) && Ordered(Tuples(records)) && StartsAt(Tuples(records), startingOffset)
  }

  lemma OrderedPrefix(a: seq<BlockMetadata>, b: seq<BlockMetadata>, startingOffset: int64)
    requires Ordered(a + b) && StartsAt(a + b, startingOffset)
    ensures Ordered(a) && StartsAt(a, startingOffset)
  {
    assert forall i :: 0 <= i < |a| ==> (a + b)[i] == a[i];
  }

  lemma FixedPrefix(a: seq<IteratorMetadata>, b: seq<IteratorMetadata>)
    requires FixedSizes(a + b)
    ensures FixedSizes(a)
  {
    TuplesConcat(a, b);
    assert forall i :: 0 <= i < |Tuples(a)| ==> Tuples(a + b)[i] == Tuples(a)[i];
    assert a != [] ==> (a + b)[0] == a[0];
  }

  lemma ContractHoldsOfPrefix(records: seq<IteratorMetadata>, n: nat, startingOffset: int64, maxResults: int32)
    requires StreamContract(records, startingOffset, maxResults) && n <= |records|
    ensures StreamContract(records[..n], startingOffset, maxResults)
  {
    var prefix, rest := records[..n], records[n..];
    TuplesConcat(prefix, rest);
    assert prefix + rest == records;
    OrderedPrefix(Tuples(prefix), Tuples(rest), startingOffset);
    FixedPrefix(prefix, rest);
  }

  /** The sidecar enforces none of this: what the client is sent, however the call
      ends, keeps the contract if the driver's stream does, and a call that ends
      without error keeps it only then. */
  lemma RelayKeepsContract(driver: Script<IteratorMetadata>, refusal: nat -> Option<Error>,
                           sent: seq<IteratorMetadata>, status: Option<Error>, progress: Progress, startingOffset: int64, maxResults: int32)
    requires IsRelay(driver.messages, driver.end, refusal, sent, status, progress)
    ensures StreamContract(driver.messages, startingOffset, maxResults) ==> StreamContract(sent, startingOffset, maxResults)
    ensures status.None? && StreamContract(sent, startingOffset, maxResults) ==> StreamContract(driver.messages, startingOffset, maxResults)
  {
    RelaySendsPrefix(driver.messages, driver.end, refusal, sent, status, progress);
    if StreamContract(driver.messages, startingOffset, maxResults) {
      ContractHoldsOfPrefix(driver.messages, |sent|, startingOffset, maxResults);
    }
  }

  /** And since the driver is asked for the offset and the record size of the
      client's request, the contract it keeps for its request is the one the client
      may expect for its own. */
  lemma ClientGetsContract(c: RequestGate.Config, states: seq<RequestGate.State>, steps: seq<RequestGate.Step>, i: nat, h: nat, csiReq: RequestGate.CsiRequest,
                           driver: Script<IteratorMetadata>, refusal: nat -> Option<Error>,
                           sent: seq<IteratorMetadata>, status: Option<Error>, progress: Progress)
    requires RequestGate.IsRun(c, states, steps) && i < |states| && RequestGate.DriverCalled(h, csiReq) in states[i].history
    requires IsRelay(driver.messages, driver.end, refusal, sent, status, progress)
    requires StreamContract(driver.messages, csiReq.startingOffset, csiReq.maxResults)
    ensures h in states[i].handlers
    ensures
      match states[i].handlers[h].req
      case Allocated(r) => StreamContract(sent, r.startingOffset, r.maxResults)
      case Delta(r) => StreamContract(sent, r.startingOffset, r.maxResults)
  {
    RequestGate.DriverCalledOnlyThroughGate(c, states, steps, i, h, csiReq);
    RelayKeepsContract(driver, refusal, sent, status, progress, csiReq.startingOffset, csiReq.maxResults);
  }

  /** A tuple that ends before the starting offset is passed on, and no error
      reported. */
  lemma RelayDoesNotEnforceOffset()
    ensures
      var stray := [IteratorMetadata(2, 10, Some([BlockMetadata(0, 1)]))];
      IsRelay(stray, EOF, k => None, stray, None, ProgressAfter(stray)) && !StartsAt(Tuples(stray), 5)
  {
    var stray := [IteratorMetadata(2, 10, Some([BlockMetadata(0, 1)]))];
    assert stray[..0] == [] && stray[..1] == stray;
    assert Tuples(stray) == [BlockMetadata(0, 1)];
    assert End(Tuples(stray)[0]) == 1;
  }

  /** End to end, any emitter of a client's: the calls it sees are those of a
      prefix of the driver's responses, unchanged, in order and numbered from 1, and
      after them at most once the end, with their number, when the driver's stream is
      complete.  The prefix keeps the contract if the driver does; and if the run ends
      without error, the emitter has seen everything and then the end. */
  lemma ClientSeesDriver(driver: Script<IteratorMetadata>, startingOffset: int64, maxResults: int32, refusal: nat -> Option<Error>,
                         sent: seq<IteratorMetadata>, status: Option<Error>, progress: Progress, script: Script<IteratorMetadata>,
                         reply: seq<Call> -> Option<Error>, n: nat, after: View, err: Option<Error>)
    requires IsRelay(driver.messages, driver.end, refusal, sent, status, progress)
    requires Transported(sent, status, script)
    requires RunOutcome(Replying(reply), ClientView([]), script, n, after, err)
    ensures n <= |driver.messages| && after.ClientView?
    ensures
      var calls := RecordCalls(0, driver.messages[..n]);
      after.log == calls || (driver.end.EOF? && n == |driver.messages| && after.log == calls + [DoneCall(n)])
    ensures err.None? ==> driver.end.EOF? && after.log == RecordCalls(0, driver.messages) + [DoneCall(|driver.messages|)]
    ensures StreamContract(driver.messages, startingOffset, maxResults) ==> StreamContract(driver.messages[..n], startingOffset, maxResults)
  {
    ClientReceivesPrefix(driver, refusal, sent, status, progress, script);
    ClientRunOutcome(reply, script, n, after, err);
    assert script.messages[..n] == driver.messages[..n];
    assert driver.messages[..|driver.messages|] == driver.messages;
    if StreamContract(driver.messages, startingOffset, maxResults) {
      ContractHoldsOfPrefix(driver.messages, n, startingOffset, maxResults);
    }
  }

  /** The record numbers and contents of a client's calls, one by one. */
  lemma CallAt(records: seq<IteratorMetadata>, n: nat, i: nat)
    requires i < n <= |records|
    ensures RecordCalls(0, records[..n])[i].RecordCall?
    ensures RecordCalls(0, records[..n])[i].recordNumber == i + 1 && RecordCalls(0, records[..n])[i].metadata == records[i]
  {
  }

  /** Call i is that of the driver's message i, field by field. */
  ghost predicate IsCallOf(call: Call, i: nat, kind: int32, capacity: int64, blocks: seq<CsiBlockMetadata>) {
    && call.RecordCall? && call.recordNumber == i + 1
    && call.metadata.blockMetadataType == kind && call.metadata.volumeCapacityBytes == capacity
    && HoldsTuples(call.metadata.blockMetadata, blocks)
  }

  /** Through both hops, every record an emitter sees is the message of the same
      number that the driver sent, with its type, its capacity and its tuples. */
  lemma AllocatedCallIsMessage(messages: seq<CsiAllocatedResponse>, end: StreamEnd, refusal: nat -> Option<Error>,
                               sent: seq<IteratorMetadata>, status: Option<Error>, progress: Progress, script: Script<IteratorMetadata>,
                               reply: seq<Call> -> Option<Error>, n: nat, after: View, err: Option<Error>, i: nat)
    requires IsRelay(Map(OfCsiAllocated, messages), end, refusal, sent, status, progress)
    requires Transported(sent, status, script) && RunOutcome(Replying(reply), ClientView([]), script, n, after, err)
    ensures n <= |messages| && after.ClientView? && n <= |after.log| <= n + 1
    ensures i < n ==> IsCallOf(after.log[i], i, messages[i].blockMetadataType, messages[i].volumeCapacityBytes, messages[i].blockMetadata)
  {
    var driver := Script(Map(OfCsiAllocated, messages), end);
    ClientSeesDriver(driver, 0, 0, refusal, sent, status, progress, script, reply, n, after, err);
    if i < n {
      CallAt(driver.messages, n, i);
      CsiRecordHolds(messages[i].blockMetadataType, messages[i].volumeCapacityBytes, messages[i].blockMetadata);
    }
  }

  lemma DeltaCallIsMessage(messages: seq<CsiDeltaResponse>, end: StreamEnd, refusal: nat -> Option<Error>,
                           sent: seq<IteratorMetadata>, status: Option<Error>, progress: Progress, script: Script<IteratorMetadata>,
                           reply: seq<Call> -> Option<Error>, n: nat, after: View, err: Option<Error>, i: nat)
    requires IsRelay(Map(OfCsiDelta, messages), end, refusal, sent, status, progress)
    requires Transported(sent, status, script) && RunOutcome(Replying(reply), ClientView([]), script, n, after, err)
    ensures n <= |messages| && after.ClientView? && n <= |after.log| <= n + 1
    ensures i < n ==> IsCallOf(after.log[i], i, messages[i].blockMetadataType, messages[i].volumeCapacityBytes, messages[i].blockMetadata)
  {
    var driver := Script(Map(OfCsiDelta, messages), end);
    ClientSeesDriver(driver, 0, 0, refusal, sent, status, progress, script, reply, n, after, err);
    if i < n {
      CallAt(driver.messages, n, i);
      CsiRecordHolds(messages[i].blockMetadataType, messages[i].volumeCapacityBytes, messages[i].blockMetadata);
    }
  }

  /** If nothing fails on the way, the emitter is told the end exactly if the driver's
      stream is complete and it has refused none of the records, and the run then ends
      with its own answer to that. */
  lemma ClientIsToldTheEndIff(driver: Script<IteratorMetadata>, refusal: nat -> Option<Error>,
                              sent: seq<IteratorMetadata>, status: Option<Error>, progress: Progress, script: Script<IteratorMetadata>,
                              reply: seq<Call> -> Option<Error>, n: nat, after: View, err: Option<Error>)
    requires IsRelay(driver.messages, driver.end, refusal, sent, status, progress)
    requires (forall k: nat :: refusal(k).None?) && Faithful(sent, status, script)
    requires RunOutcome(Replying(reply), ClientView([]), script, n, after, err)
    ensures after.ClientView?
    ensures
      var calls, done := RecordCalls(0, driver.messages), DoneCall(|driver.messages|);
      && (after.log == calls + [done] <==> driver.end.EOF? && forall i :: 0 < i <= |calls| ==> reply(calls[..i]).None?)
      && (after.log == calls + [done] ==> err == reply(after.log))
      && (done in after.log <==> after.log == calls + [done])
  {
    RelaySendsPrefix(driver.messages, driver.end, refusal, sent, status, progress);
    ClientRunOutcome(reply, script, n, after, err);
    TranscriptEnds(reply, script, n, after.log, err);
  }

  lemma TranscriptEnds(reply: seq<Call> -> Option<Error>, script: Script<IteratorMetadata>, n: nat, log: seq<Call>, err: Option<Error>)
    requires Transcript(reply, script, n, log, err)
    ensures
      var calls, done := RecordCalls(0, script.messages), DoneCall(|script.messages|);
      && (log == calls + [done] <==> script.end.EOF? && forall i :: 0 < i <= |calls| ==> reply(calls[..i]).None?)
      && (log == calls + [done] ==> err == reply(log))
      && (done in log <==> log == calls + [done])
  {
    var records, calls, seen := script.messages, RecordCalls(0, script.messages), RecordCalls(0, script.messages[..n]);
    CallsPrefix(records, n, |records|);
    assert records[..|records|] == records;
    assert seen == calls[..n];
    forall i | 0 < i <= n ensures seen[..i] == calls[..i] {
      CallsPrefix(records, i, n);
      CallsPrefix(records, i, |records|);
    }
    assert seen[..n] == seen;
    if 0 < n && reply(seen).Some? {
      assert calls[..n] == seen;
    }
  }

  /** End to end, the verifier.  Whatever fails on the way, acceptance means that
      the driver's metadata is complete and covers every difference; if nothing
      fails on the way, it means exactly that. */
  lemma VerifierJudgesDriver(driver: Script<IteratorMetadata>, refusal: nat -> Option<Error>,
                             sent: seq<IteratorMetadata>, status: Option<Error>, progress: Progress, script: Script<IteratorMetadata>,
                             p: Policy, s: seq<byte>, t: seq<byte>, c: Counters, n: nat, after: View, err: Option<Error>)
    requires IsRelay(driver.messages, driver.end, refusal, sent, status, progress)
    requires Transported(sent, status, script)
    requires p.Copying? && (p.prompt ==> p.faultFree) && |s| == |t|
    requires RunOutcome(p, VerifierView(s, t, c), script, n, after, err)
    ensures err.None? ==> driver.end.EOF? && CoversDifferences(s, t, Tuples(driver.messages))
    ensures p.prompt && (forall k: nat :: refusal(k).None?) && Faithful(sent, status, script) ==>
              (err.None? <==>
                && driver.end.EOF?
                && Located(|s|, p.growable, Tuples(driver.messages))
                && CoversDifferences(s, t, Tuples(driver.messages)))
  {
    ClientReceivesPrefix(driver, refusal, sent, status, progress, script);
    VerifierOutcome(p, s, t, c, script, n, after, err);
    CopyReproducesIffCovered(s, t, Tuples(driver.messages));
    if p.prompt {
      VerifierIsExact(p, s, t, c, script, n, after, err);
      RelaySendsPrefix(driver.messages, driver.end, refusal, sent, status, progress);
    }
  }

  /** Some tuple of the driver's messages reaches from at or below position i to above
      it. */
  ghost predicate Reported(lists: seq<seq<CsiBlockMetadata>>, i: int) {
    exists m, k ::
      && 0 <= m < |lists| && 0 <= k < |lists[m]|
      && 0 <= lists[m][k].byteOffset as int <= i < lists[m][k].byteOffset as int + lists[m][k].sizeBytes as int
  }

  /** The records hold the tuples of these lists. */
  ghost predicate RecordsHold(records: seq<IteratorMetadata>, lists: seq<seq<CsiBlockMetadata>>) {
    |records| == |lists| && forall m :: 0 <= m < |lists| ==> HoldsTuples(records[m].blockMetadata, lists[m])
  }

  lemma ReportedSnoc(lists: seq<seq<CsiBlockMetadata>>, i: int)
    requires lists != []
    ensures Reported(lists, i) <==> Reported(lists[..|lists| - 1], i) || Reported([lists[|lists| - 1]], i)
  {
    var init, last := lists[..|lists| - 1], lists[|lists| - 1];
    if Reported(lists, i) {
      var m, k :| 0 <= m < |lists| && 0 <= k < |lists[m]| && 0 <= lists[m][k].byteOffset as int <= i < lists[m][k].byteOffset as int + lists[m][k].sizeBytes as int;
      if m < |init| { assert init[m] == lists[m]; } else { assert [last][0] == lists[m]; }
    }
    if Reported([last], i) {
      var k :| 0 <= k < |[last][0]| && 0 <= [last][0][k].byteOffset as int <= i < [last][0][k].byteOffset as int + [last][0][k].sizeBytes as int;
      assert lists[|lists| - 1][k] == [last][0][k];
    }
  }

  lemma BlocksReported(s: seq<byte>, m: IteratorMetadata, blocks: seq<CsiBlockMetadata>, i: nat)
    requires i < |s| && HoldsTuples(m.blockMetadata, blocks)
    ensures Covered(s, m.Blocks(), i) <==> Reported([blocks], i)
  {
    if Covered(s, m.Blocks(), i) {
      var k :| 0 <= k < |m.Blocks()| && Hits(s, m.Blocks()[k], i);
      assert [blocks][0][k].byteOffset == m.Blocks()[k].byteOffset;
    }
    if Reported([blocks], i) {
      var k :| 0 <= k < |[blocks][0]| && 0 <= [blocks][0][k].byteOffset as int <= i < [blocks][0][k].byteOffset as int + [blocks][0][k].sizeBytes as int;
      assert Hits(s, m.Blocks()[k], i);
    }
  }

  lemma {:induction false} CoveredIsReported(s: seq<byte>, records: seq<IteratorMetadata>, lists: seq<seq<CsiBlockMetadata>>, i: nat)
    requires i < |s| && RecordsHold(records, lists)
    ensures Covered(s, Tuples(records), i) <==> Reported(lists, i)
  {
    if records != [] {
      var n := |records| - 1;
      CoveredIsReported(s, records[..n], lists[..n], i);
      BlocksReported(s, records[n], lists[n], i);
      CoveredConcat(s, Tuples(records[..n]), records[n].Blocks(), i);
      ReportedSnoc(lists, i);
    }
  }

  /** The tuples of the driver's messages report every byte in which the devices
      differ. */
  ghost predicate ReportsDifferences(s: seq<byte>, t: seq<byte>, lists: seq<seq<CsiBlockMetadata>>)
    requires |s| == |t|
  {
    forall i {:trigger Reported(lists, i)} :: 0 <= i < |s| && s[i] != t[i] ==> Reported(lists, i)
  }

  /** All positions in the driver's messages can be sought. */
  ghost predicate Seekable(len: nat, growable: Growable, lists: seq<seq<CsiBlockMetadata>>) {
    forall m, k :: 0 <= m < |lists| && 0 <= k < |lists[m]| ==>
      0 <= lists[m][k].byteOffset && ((growable.source && growable.target) || lists[m][k].byteOffset as int <= len)
  }

  lemma LocatedConcat(len: nat, growable: Growable, a: seq<BlockMetadata>, b: seq<BlockMetadata>)
    ensures Located(len, growable, a + b) <==> Located(len, growable, a) && Located(len, growable, b)
  {
    var both := a + b;
    assert forall k :: 0 <= k < |a| ==> both[k] == a[k];
    assert forall k :: 0 <= k < |b| ==> both[|a| + k] == b[k];
  }

  lemma SeekableSnoc(len: nat, growable: Growable, init: seq<seq<CsiBlockMetadata>>, last: seq<CsiBlockMetadata>)
    ensures Seekable(len, growable, init + [last]) <==> Seekable(len, growable, init) && Seekable(len, growable, [last])
  {
    var lists := init + [last];
    assert forall m :: 0 <= m < |init| ==> lists[m] == init[m];
    assert lists[|init|] == [last][0];
  }

  lemma BlocksSeekable(len: nat, growable: Growable, m: IteratorMetadata, blocks: seq<CsiBlockMetadata>)
    requires HoldsTuples(m.blockMetadata, blocks)
    ensures Located(len, growable, m.Blocks()) <==> Seekable(len, growable, [blocks])
  {
    assert [blocks][0] == blocks;
    assert forall k :: 0 <= k < |blocks| ==> m.Blocks()[k].byteOffset == blocks[k].byteOffset;
  }

  lemma {:induction false} LocatedIsSeekable(len: nat, growable: Growable, records: seq<IteratorMetadata>, lists: seq<seq<CsiBlockMetadata>>)
    requires RecordsHold(records, lists)
    ensures Located(len, growable, Tuples(records)) <==> Seekable(len, growable, lists)
  {
    if records != [] {
      var n := |records| - 1;
      LocatedIsSeekable(len, growable, records[..n], lists[..n]);
      BlocksSeekable(len, growable, records[n], lists[n]);
      LocatedConcat(len, growable, Tuples(records[..n]), records[n].Blocks());
      SeekableSnoc(len, growable, lists[..n], lists[n]);
      assert lists == lists[..n] + [lists[n]];
    }
  }

  /** The records that the sidecar makes of the driver's messages hold their tuples. */
  lemma AllocatedHold(messages: seq<CsiAllocatedResponse>, lists: seq<seq<CsiBlockMetadata>>)
    requires |lists| == |messages| && forall i :: 0 <= i < |lists| ==> lists[i] == messages[i].blockMetadata
    ensures RecordsHold(Map(OfCsiAllocated, messages), lists)
  {
    forall i | 0 <= i < |lists| ensures HoldsTuples(Map(OfCsiAllocated, messages)[i].blockMetadata, lists[i]) {
      CsiRecordHolds(messages[i].blockMetadataType, messages[i].volumeCapacityBytes, messages[i].blockMetadata);
    }
  }

  lemma DeltaHold(messages: seq<CsiDeltaResponse>, lists: seq<seq<CsiBlockMetadata>>)
    requires |lists| == |messages| && forall i :: 0 <= i < |lists| ==> lists[i] == messages[i].blockMetadata
    ensures RecordsHold(Map(OfCsiDelta, messages), lists)
  {
    forall i | 0 <= i < |lists| ensures HoldsTuples(Map(OfCsiDelta, messages)[i].blockMetadata, lists[i]) {
      CsiRecordHolds(messages[i].blockMetadataType, messages[i].volumeCapacityBytes, messages[i].blockMetadata);
    }
  }

  /** The driver has sent messages, of either kind, with these tuples. */
  ghost predicate SentWith(records: seq<IteratorMetadata>, lists: seq<seq<CsiBlockMetadata>>) {
    || (exists messages: seq<CsiAllocatedResponse> ::
          records == Map(OfCsiAllocated, messages) && |lists| == |messages| && forall i :: 0 <= i < |lists| ==> lists[i] == messages[i].blockMetadata)
    || (exists messages: seq<CsiDeltaResponse> ::
          records == Map(OfCsiDelta, messages) && |lists| == |messages| && forall i :: 0 <= i < |lists| ==> lists[i] == messages[i].blockMetadata)
  }

  lemma SentHold(records: seq<IteratorMetadata>, lists: seq<seq<CsiBlockMetadata>>)
    requires SentWith(records, lists)
    ensures RecordsHold(records, lists)
  {
    if messages: seq<CsiAllocatedResponse> :|
      records == Map(OfCsiAllocated, messages) && |lists| == |messages| && forall i :: 0 <= i < |lists| ==> lists[i] == messages[i].blockMetadata
    {
      AllocatedHold(messages, lists);
    } else {
      var messages: seq<CsiDeltaResponse> :|
        records == Map(OfCsiDelta, messages) && |lists| == |messages| && forall i :: 0 <= i < |lists| ==> lists[i] == messages[i].blockMetadata;
      DeltaHold(messages, lists);
    }
  }

  /** The verdict in terms of the messages the driver sent, of either kind: accepting
      them means that their tuples report every difference, and if nothing fails on
      the way it means just that of a complete stream whose positions can be sought. */
  lemma VerifierJudgesMessages(driver: Script<IteratorMetadata>, lists: seq<seq<CsiBlockMetadata>>, refusal: nat -> Option<Error>,
                               sent: seq<IteratorMetadata>, status: Option<Error>, progress: Progress, script: Script<IteratorMetadata>,
                               p: Policy, s: seq<byte>, t: seq<byte>, c: Counters, n: nat, after: View, err: Option<Error>)
    requires SentWith(driver.messages, lists)
    requires IsRelay(driver.messages, driver.end, refusal, sent, status, progress)
    requires Transported(sent, status, script)
    requires p.Copying? && (p.prompt ==> p.faultFree) && |s| == |t|
    requires RunOutcome(p, VerifierView(s, t, c), script, n, after, err)
    ensures err.None? ==> driver.end.EOF? && ReportsDifferences(s, t, lists)
    ensures p.prompt && (forall k: nat :: refusal(k).None?) && Faithful(sent, status, script) ==>
              (err.None? <==> driver.end.EOF? && Seekable(|s|, p.growable, lists) && ReportsDifferences(s, t, lists))
  {
    SentHold(driver.messages, lists);
    VerifierJudgesDriver(driver, refusal, sent, status, progress, script, p, s, t, c, n, after, err);
    LocatedIsSeekable(|s|, p.growable, driver.messages, lists);
    forall i | 0 <= i < |s| ensures Covered(s, Tuples(driver.messages), i) <==> Reported(lists, i) {
      CoveredIsReported(s, driver.messages, lists, i);
    }
  }
}
