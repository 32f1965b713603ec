/** The emitter interface: the three emitters of the repository, and a client's
    own, behind one call for each operation. */
module Emitters {
  import opened Base
  import opened Metadata
  import opened CopyAlgebra
  import opened Devices
  import opened VerifierEmitters
  import opened Writers
  import JsonEmitters
  import TableEmitters

  datatype Call = RecordCall(recordNumber: nat, metadata: IteratorMetadata) | DoneCall(numberRecords: nat)

  /** Any emitter a client may write: it sees the calls and answers each of them,
      as it likes, in the light of all of them. */
  class ClientEmitter {
    var log: seq<Call>
    const reply: seq<Call> -> Option<Error>

    constructor (reply: seq<Call> -> Option<Error>)
      ensures this.reply == reply && log == []
    {
      this.reply, log := reply, [];
    }

    method Handle(call: Call) returns (err: Option<Error>)
      modifies this
      ensures log == old(log) + [call] && err == reply(log)
    {
      log := log + [call];
      err := reply(log);
    }
  }

  /** How two devices behave, and the calls that have been made to them. */
  datatype Counters = Counters(sourcePlan: nat -> Outcome, targetPlan: nat -> Outcome, sourceCalls: nat, targetCalls: nat) {
    /** After copying a list of extents of a source of this length. */
    function After(extents: seq<BlockMetadata>, len: nat): Counters {
      var calls := CopyCalls(sourcePlan, sourceCalls, extents, len);
      this.(sourceCalls := sourceCalls + calls, targetCalls := targetCalls + calls)
    }
  }

  /** What an emitter has produced so far, a printer with the functions that say
      what it writes: for a record, the first or another, and at the end. */
  datatype View =
    | JSONView(piece: (bool, IteratorMetadata) -> string, closing: bool -> string, sink: Sink, listNotEmpty: bool)
    | TableView(pieces: (int, IteratorMetadata) -> seq<string>, sink: Sink)
    | VerifierView(source: seq<byte>, target: seq<byte>, counters: Counters)
    | ClientView(log: seq<Call>)

  /** The effect of accepting a record. */
  function AfterRecord(v: View, recordNumber: nat, m: IteratorMetadata): View {
    match v
    case JSONView(piece, closing, sink, listNotEmpty) =>
      JSONView(piece, closing, sink.Put(piece(recordNumber == 1, m)), listNotEmpty || recordNumber == 1)
    case TableView(pieces, sink) => TableView(pieces, PutAll(sink, pieces(recordNumber, m)))
    case VerifierView(source, target, counters) =>
      VerifierView(source, Copied(source, target, m.Blocks()), counters.After(m.Blocks(), |source|))
    case ClientView(log) => ClientView(log + [RecordCall(recordNumber, m)])
  }

  /** The effect of accepting records numbered from first + 1 on. */
  function AfterRecords(v: View, first: nat, records: seq<IteratorMetadata>): View {
    if records == [] then v
    else AfterRecord(AfterRecords(v, first, records[..|records| - 1]), first + |records|, records[|records| - 1])
  }

  function AfterDone(v: View, numberRecords: nat): View {
    match v
    case JSONView(piece, closing, sink, listNotEmpty) => JSONView(piece, closing, sink.Put(closing(listNotEmpty)), listNotEmpty)
    case TableView(_, _) => v
    case VerifierView(_, _, _) => v
    case ClientView(log) => ClientView(log + [DoneCall(numberRecords)])
  }

  /** How an emitter decides whether to go on: it always does, a client's own
      code decides, or the copy has to succeed. */
  datatype Policy =
    | Obliging
    | Replying(reply: seq<Call> -> Option<Error>)
    | Copying(growable: Growable, faultFree: bool, prompt: bool)

  /** The answers an emitter in state v can give to a record. */
  ghost predicate Answers(p: Policy, v: View, recordNumber: nat, m: IteratorMetadata, err: Option<Error>) {
    match p
    case Obliging => err.None?
    case Replying(reply) => v.ClientView? && err == reply(v.log + [RecordCall(recordNumber, m)])
    case Copying(growable, faultFree, _) =>
      v.VerifierView? && (faultFree ==> (err.None? <==> AllFit(v.source, |v.target|, growable, m.Blocks())))
  }

  /** What a record leaves behind: its effect if it is accepted or the emitter is a
      client's; of a copy that failed, a part of that effect, and on the target
      only. */
  ghost predicate Leaves(p: Policy, v: View, recordNumber: nat, m: IteratorMetadata, err: Option<Error>, after: View) {
    if err.None? || !p.Copying? then after == AfterRecord(v, recordNumber, m)
    else
      && v.VerifierView? && after.VerifierView? && after.source == v.source
      && PartlyCopiedAll(v.source, v.target, m.Blocks(), after.target)
  }

  /** The answers an emitter in state v can give to the end of the enumeration. */
  ghost predicate AnswersDone(p: Policy, v: View, numberRecords: nat, err: Option<Error>) {
    match p
    case Obliging => err.None?
    case Replying(reply) => v.ClientView? && err == reply(v.log + [DoneCall(numberRecords)])
    case Copying(_, faultFree, prompt) =>
      && v.VerifierView? && (err.None? ==> v.source == v.target) && (prompt && v.source == v.target ==> err.None?)
      && (faultFree ==> (err.None? <==> AgreeFrom(v.source, v.target, v.counters)))
  }

  /** Two devices hold the same bytes, and the reads that compare them, which follow
      the calls made so far and a seek, keep in step. */
  ghost predicate AgreeFrom(source: seq<byte>, target: seq<byte>, c: Counters) {
    Agree(source, c.sourcePlan, c.sourceCalls + 1, target, c.targetPlan, c.targetCalls + 1, 0)
  }

  /** What the end of the enumeration leaves behind; the verifier has only read. */
  ghost predicate LeavesDone(v: View, numberRecords: nat, after: View) {
    if v.VerifierView? then after.VerifierView? && after.source == v.source && after.target == v.target
    else after == AfterDone(v, numberRecords)
  }

  function StartJSON(sink: Sink): View {
    JSONView(JsonEmitters.Piece, JsonEmitters.Closing, sink, false)
  }

  function StartTable(sink: Sink): View {
    TableView(TableEmitters.RecordPieces, sink)
  }

  ghost function VerifierState(e: VerifierEmitter): View
    reads e.source, e.target
  {
    VerifierView(e.source.content, e.target.content, Counters(e.source.plan, e.target.plan, e.source.calls, e.target.calls))
  }

  ghost function VerifierPolicy(e: VerifierEmitter): Policy {
    Copying(e.Kinds(), e.FaultFree(), e.Prompt())
  }

  ghost function JSONState(e: JsonEmitters.JSONEmitter): View
    reads e, e.writer
  {
    JSONView(JsonEmitters.Piece, JsonEmitters.Closing, e.writer.State(), e.listNotEmpty)
  }

  ghost function TableState(e: TableEmitters.TableEmitter): View
    reads e.writer
  {
    StartTable(e.writer.State())
  }

  /** A record for a printer. */
  method RecordForJSON(e: JsonEmitters.JSONEmitter, recordNumber: nat, metadata: IteratorMetadata) returns (err: Option<Error>)
    modifies e, e.writer
    ensures err.None? && JSONState(e) == AfterRecord(old(JSONState(e)), recordNumber, metadata)
  {
    err := e.SnapshotMetadataIteratorRecord(recordNumber, metadata);
  }

  method RecordForTable(e: TableEmitters.TableEmitter, recordNumber: nat, metadata: IteratorMetadata) returns (err: Option<Error>)
    modifies e.writer
    ensures err.None? && TableState(e) == AfterRecord(old(TableState(e)), recordNumber, metadata)
  {
    err := e.SnapshotMetadataIteratorRecord(recordNumber, metadata);
  }

  /** A record for the verifier. */
  method RecordForVerifier(e: VerifierEmitter, recordNumber: nat, metadata: IteratorMetadata) returns (err: Option<Error>)
    requires e.Valid()
    modifies e.source, e.target
    ensures e.Valid()
    ensures Leaves(VerifierPolicy(e), old(VerifierState(e)), recordNumber, metadata, err, VerifierState(e))
    ensures Answers(VerifierPolicy(e), old(VerifierState(e)), recordNumber, metadata, err)
  {
    err := e.SnapshotMetadataIteratorRecord(recordNumber, metadata);
  }

  /** The end for the verifier. */
  method DoneForVerifier(e: VerifierEmitter, numberRecords: nat) returns (err: Option<Error>)
    requires e.Valid()
    modifies e.source, e.target
    ensures e.Valid()
    ensures LeavesDone(old(VerifierState(e)), numberRecords, VerifierState(e))
    ensures AnswersDone(VerifierPolicy(e), old(VerifierState(e)), numberRecords, err)
  {
    if e.Prompt() {
      FillingReadsAgree(e.source.content, e.source.plan, e.source.calls + 1, e.target.content, e.target.plan, e.target.calls + 1);
    }
    err := e.SnapshotMetadataIteratorDone(numberRecords);
  }

  datatype Emitter =
    | JSON(json: JsonEmitters.JSONEmitter)
    | Table(table: TableEmitters.TableEmitter)
    | Verifier(verifier: VerifierEmitter)
    | Client(client: ClientEmitter)
  {
    ghost function Footprint(): set<object> {
      match this
      case JSON(e) => {e, e.writer}
      case Table(e) => {e.writer}
      case Verifier(e) => {e.source, e.target}
      case Client(e) => {e}
    }

    ghost predicate Valid()
      reads Footprint()
    {
      Verifier? ==> verifier.Valid()
    }

    ghost function View(): View
      reads Footprint()
    {
      match this
      case JSON(e) => JSONState(e)
      case Table(e) => TableState(e)
      case Verifier(e) => VerifierState(e)
      case Client(e) => ClientView(e.log)
    }

    ghost function Policy(): Policy {
      match this
      case JSON(_) => Obliging
      case Table(_) => Obliging
      case Verifier(e) => VerifierPolicy(e)
      case Client(e) => Replying(e.reply)
    }

    method SnapshotMetadataIteratorRecord(recordNumber: nat, metadata: IteratorMetadata) returns (err: Option<Error>)
      requires Valid()
      modifies Footprint()
      ensures Valid()
      ensures Leaves(Policy(), old(View()), recordNumber, metadata, err, View())
      ensures Answers(Policy(), old(View()), recordNumber, metadata, err)
    {
      match this
      case JSON(e) => err := RecordForJSON(e, recordNumber, metadata);
      case Table(e) => err := RecordForTable(e, recordNumber, metadata);
      case Verifier(e) => err := RecordForVerifier(e, recordNumber, metadata);
      case Client(e) => err := e.Handle(RecordCall(recordNumber, metadata));
    }

    method SnapshotMetadataIteratorDone(numberRecords: nat) returns (err: Option<Error>)
      requires Valid()
      modifies Footprint()
      ensures Valid()
      ensures LeavesDone(old(View()), numberRecords, View())
      ensures AnswersDone(Policy(), old(View()), numberRecords, err)
    {
      match this
      case JSON(e) => err := e.SnapshotMetadataIteratorDone(numberRecords);
      case Table(e) => err := e.SnapshotMetadataIteratorDone(numberRecords);
      case Verifier(e) => err := DoneForVerifier(e, numberRecords);
      case Client(e) => err := e.Handle(DoneCall(numberRecords));
    }
  }

  // ----- what complete runs produce

  lemma {:induction false} JSONRun(sink: Sink, records: seq<IteratorMetadata>)
    ensures AfterRecords(StartJSON(sink), 0, records) ==
              StartJSON(sink).(sink := PutAll(sink, JsonEmitters.RecordPieces(records)), listNotEmpty := records != [])
  {
    if records != [] {
      var init := records[..|records| - 1];
      JSONRun(sink, init);
      assert JsonEmitters.RecordPieces(records)[..|records| - 1] == JsonEmitters.RecordPieces(init);
    }
  }

  lemma {:induction false} TableRun(sink: Sink, records: seq<IteratorMetadata>)
    ensures AfterRecords(StartTable(sink), 0, records) == StartTable(PutAll(sink, TableEmitters.Pieces(records)))
  {
    if records != [] {
      var init, last := records[..|records| - 1], records[|records| - 1];
      TableRun(sink, init);
      PutAllConcat(sink, TableEmitters.Pieces(init), TableEmitters.RecordPieces(|records|, last));
    }
  }

  lemma AfterConcat(c: Counters, a: seq<BlockMetadata>, b: seq<BlockMetadata>, len: nat)
    ensures c.After(a + b, len) == c.After(a, len).After(b, len)
  {
    CopyCallsConcat(c.sourcePlan, c.sourceCalls, a, b, len);
  }

  lemma VerifierSteps(source: seq<byte>, target: seq<byte>, c: Counters, done: seq<BlockMetadata>, recordNumber: nat, m: IteratorMetadata)
    ensures AfterRecord(VerifierView(source, Copied(source, target, done), c.After(done, |source|)), recordNumber, m) ==
              VerifierView(source, Copied(source, target, done + m.Blocks()), c.After(done + m.Blocks(), |source|))
  {
    CopiedConcat(source, target, done, m.Blocks());
    AfterConcat(c, done, m.Blocks(), |source|);
  }

  lemma {:induction false} VerifierRun(source: seq<byte>, target: seq<byte>, c: Counters, first: nat, records: seq<IteratorMetadata>)
    ensures AfterRecords(VerifierView(source, target, c), first, records) ==
              VerifierView(source, Copied(source, target, Tuples(records)), c.After(Tuples(records), |source|))
  {
    if records != [] {
      var init, last := records[..|records| - 1], records[|records| - 1];
      VerifierRun(source, target, c, first, init);
      VerifierSteps(source, target, c, Tuples(init), first + |records|, last);
    }
  }

  function RecordCalls(first: nat, records: seq<IteratorMetadata>): (calls: seq<Call>)
    ensures |calls| == |records|
  {
    seq(|records|, i requires 0 <= i < |records| => RecordCall(first + i + 1, records[i]))
  }

  lemma {:induction false} ClientRun(log: seq<Call>, first: nat, records: seq<IteratorMetadata>)
    ensures AfterRecords(ClientView(log), first, records) == ClientView(log + RecordCalls(first, records))
  {
    if records != [] {
      var init, last := records[..|records| - 1], records[|records| - 1];
      ClientRun(log, first, init);
      assert RecordCalls(first, records) == RecordCalls(first, init) + [RecordCall(first + |records|, last)];
    } else {
      assert RecordCalls(first, []) == [];
    }
  }
}
