/** The two command line tools built on the iterator. */
module Tools {
  import opened Base
  import opened Metadata
  import opened CopyAlgebra
  import opened Resume
  import opened Devices
  import opened VerifierEmitters
  import opened Writers
  import opened Emitters
  import opened Iterators
  import opened EndToEnd
  import JsonEmitters
  import TableEmitters

  // ----- snapshot-metadata-verifier

  /** How the tool can end, on a source s and a target that goes from t to t'. */
  ghost predicate Verified(args: Args, cluster: Cluster, p: Policy, c: Counters, s: seq<byte>, t: seq<byte>, t': seq<byte>, err: Option<Error>) {
    if !ValidArgs(args) then err == Some(ErrInvalidArgs) && t' == t
    else
      match Enumeration(args, cluster)
      case Err(e) => err == Some(e) && t' == t
      case Ok(script) => exists n, d :: RunOutcome(p, VerifierView(s, t, c), script, n, VerifierView(s, t', d), err)
  }

  /** The tuples of the stream the tool is given; none if it gets no stream. */
  function Received(args: Args, cluster: Cluster): seq<BlockMetadata> {
    if Enumeration(args, cluster).Ok? then Tuples(Enumeration(args, cluster).value.messages) else []
  }

  /** The arguments are valid and the stream is complete. */
  ghost predicate Complete(args: Args, cluster: Cluster) {
    ValidArgs(args) && Enumeration(args, cluster).Ok? && Enumeration(args, cluster).value.end.EOF?
  }

  /** Success means that the stream was complete and that the target is now the
      source, by copying; for devices that neither fail nor cut reads short it means
      no more than that. */
  lemma VerifiedMeans(args: Args, cluster: Cluster, p: Policy, c: Counters, s: seq<byte>, t: seq<byte>, t': seq<byte>, err: Option<Error>)
    requires p.Copying? && (p.prompt ==> p.faultFree) && Verified(args, cluster, p, c, s, t, t', err)
    ensures err.None? ==> Complete(args, cluster) && t' == s && Copied(s, t, Received(args, cluster)) == s
    ensures p.faultFree ==>
              (err.None? <==>
                && Complete(args, cluster)
                && AllFit(s, |t|, p.growable, Received(args, cluster))
                && AgreeAfter(s, t, c, Received(args, cluster)))
    ensures p.prompt ==>
              (err.None? <==>
                && Complete(args, cluster)
                && AllFit(s, |t|, p.growable, Received(args, cluster))
                && CoversAnyLength(s, t, Received(args, cluster)))
    ensures p.prompt && |s| == |t| ==>
              (err.None? <==>
                && Complete(args, cluster)
                && Located(|s|, p.growable, Received(args, cluster))
                && CoversDifferences(s, t, Received(args, cluster)))
  {
    if ValidArgs(args) && Enumeration(args, cluster).Ok? {
      var script := Enumeration(args, cluster).value;
      var n, d :| RunOutcome(p, VerifierView(s, t, c), script, n, VerifierView(s, t', d), err);
      var after := VerifierView(s, t', d);
      VerifierOutcome(p, s, t, c, script, n, after, err);
      if err.None? { AcceptedTarget(p, s, t, c, script, n, after); }
      if p.prompt { VerifierVerdict(p, s, t, c, script, n, after, err); }
      if p.prompt && |s| == |t| { VerifierIsExact(p, s, t, c, script, n, after, err); }
    }
  }

  lemma AcceptedTarget(p: Policy, s: seq<byte>, t: seq<byte>, c: Counters, script: Script<IteratorMetadata>, n: nat, after: View)
    requires p.Copying? && RunOutcome(p, VerifierView(s, t, c), script, n, after, None)
    ensures after.VerifierView? && after.target == Copied(s, t, Tuples(script.messages))
  {
    NotRefused(p, VerifierView(s, t, c), script, n, after, None);
    VerifierRun(s, t, c, 0, script.messages);
  }

  /** Whatever fails, the target holds what an interruption of the copy leaves. */
  lemma VerifiedLeaves(args: Args, cluster: Cluster, p: Policy, c: Counters, s: seq<byte>, t: seq<byte>, t': seq<byte>, err: Option<Error>)
    requires p.Copying? && Verified(args, cluster, p, c, s, t, t', err)
    ensures CopyStopped(s, t, Received(args, cluster), t')
  {
    if ValidArgs(args) && Enumeration(args, cluster).Ok? {
      var script := Enumeration(args, cluster).value;
      var n, d :| RunOutcome(p, VerifierView(s, t, c), script, n, VerifierView(s, t', d), err);
      VerifierLeaves(p, s, t, c, script, n, VerifierView(s, t', d), err);
    } else {
      NothingCopied(s, t, Received(args, cluster));
    }
  }

  lemma NothingCopied(s: seq<byte>, t: seq<byte>, tuples: seq<BlockMetadata>)
    ensures CopyStopped(s, t, tuples, t)
  {
    assert Copied(s, t, tuples[..0]) == t;
    assert StoppedAt(s, t, tuples, 0, t);
  }

  /** How the verifier behaves on two devices. */
  ghost function PolicyOn(source: Device, target: Device): Policy {
    Copying(Growable(source.growable, target.growable), source.FaultFree() && target.FaultFree(), FillsReads(source.plan) && FillsReads(target.plan))
  }

  /** Where they stand. */
  ghost function CountersOf(source: Device, target: Device): Counters
    reads source, target
  {
    Counters(source.plan, target.plan, source.calls, target.calls)
  }

  /** The tool, on the opened devices.  It never changes the source, and the target
      only by copying extents in order.  It succeeds only if the stream was complete
      and the target is now the source; on devices that do not fail, exactly if in
      addition every extent can be copied and the comparison is read in step; on
      devices that do not cut reads short either, it succeeds if and only if the stream is complete, every extent can be
      copied, and the metadata covers what it has to for two such lengths; and if they
      are of one length that is every byte in which they differed. */
  method Verify(args: Args, cluster: Cluster, source: Device, target: Device) returns (err: Option<Error>)
    requires source != target && |source.content| < 0x8000_0000_0000_0000
    modifies source, target
    ensures source.content == old(source.content)
    ensures Verified(args, cluster, PolicyOn(source, target), old(CountersOf(source, target)), source.content, old(target.content), target.content, err)
    ensures CopyStopped(source.content, old(target.content), Received(args, cluster), target.content)
    ensures err.None? ==>
              Complete(args, cluster) && target.content == source.content && Copied(source.content, old(target.content), Received(args, cluster)) == source.content
    ensures PolicyOn(source, target).faultFree ==>
              (err.None? <==>
                && Complete(args, cluster)
                && AllFit(source.content, |old(target.content)|, PolicyOn(source, target).growable, Received(args, cluster))
                && AgreeAfter(source.content, old(target.content), old(CountersOf(source, target)), Received(args, cluster)))
    ensures PolicyOn(source, target).prompt ==>
              (err.None? <==>
                && Complete(args, cluster)
                && AllFit(source.content, |old(target.content)|, PolicyOn(source, target).growable, Received(args, cluster))
                && CoversAnyLength(source.content, old(target.content), Received(args, cluster)))
    ensures PolicyOn(source, target).prompt && |source.content| == |old(target.content)| ==>
              (err.None? <==>
                && Complete(args, cluster)
                && Located(|source.content|, PolicyOn(source, target).growable, Received(args, cluster))
                && CoversDifferences(source.content, old(target.content), Received(args, cluster)))
  {
    ghost var s, t, p, c := source.content, target.content, PolicyOn(source, target), CountersOf(source, target);
    err := RunVerifier(args, cluster, source, target);
    VerifiedMeans(args, cluster, p, c, s, t, target.content, err);
    VerifiedLeaves(args, cluster, p, c, s, t, target.content, err);
  }

  method RunVerifier(args: Args, cluster: Cluster, source: Device, target: Device) returns (err: Option<Error>)
    requires source != target && |source.content| < 0x8000_0000_0000_0000
    modifies source, target
    ensures source.content == old(source.content)
    ensures Verified(args, cluster, PolicyOn(source, target), old(CountersOf(source, target)), source.content, old(target.content), target.content, err)
  {
    ghost var s, t, p, c := source.content, target.content, PolicyOn(source, target), CountersOf(source, target);
    var verifier := new VerifierEmitter(source, target);
    var emitter := Verifier(verifier);
    ghost var n;
    err, n := GetSnapshotMetadata(args, Some(emitter), cluster);
    if ValidArgs(args) && Enumeration(args, cluster).Ok? {
      ghost var script := Enumeration(args, cluster).value;
      VerifierLeaves(p, s, t, c, script, n, emitter.View(), err);
      assert RunOutcome(p, VerifierView(s, t, c), script, n, VerifierView(s, target.content, CountersOf(source, target)), err);
    }
  }

  // ----- running it again

  /** A driver whose complete list of tuples is all: asked for a starting offset, it
      returns those that end after it, in order, up to where the stream breaks. */
  ghost predicate Serves(args: Args, cluster: Cluster, all: seq<BlockMetadata>) {
    forall start: int64 {:trigger Enumeration(args.(startingOffset := start), cluster)} ::
      match Enumeration(args.(startingOffset := start), cluster)
      case Err(_) => true
      case Ok(script) =>
        && Tuples(script.messages) <= EndingAfter(all, start as int)
        && (script.end.EOF? ==> Tuples(script.messages) == EndingAfter(all, start as int))
  }

  /** What is left for the second run, ... */
  lemma RestAfterStop(all: seq<BlockMetadata>, start: int, seen: seq<BlockMetadata>, k: nat)
    requires Ordered(all) && seen <= EndingAfter(all, start) && 0 < k <= |seen|
    ensures EndingAfter(all, End(seen[k - 1])) == EndingAfter(all, start)[k..]
    ensures seen[..k] + EndingAfter(all, End(seen[k - 1])) == EndingAfter(all, start)
  {
    var whole := EndingAfter(all, start);
    PrefixAndRest(seen, whole, k);
    EndingAfterIn(all, start, whole[k - 1]);
    EndingAfterTwice(all, start, End(whole[k - 1]));
    EndingAfterOrdered(all, start);
    ResumeYieldsTheRest(whole, k);
  }

  lemma ServedTuples(args: Args, cluster: Cluster, all: seq<BlockMetadata>)
    requires Serves(args, cluster, all)
    ensures Received(args, cluster) <= EndingAfter(all, args.startingOffset as int)
    ensures Complete(args, cluster) ==> Received(args, cluster) == EndingAfter(all, args.startingOffset as int)
  {
    assert args.(startingOffset := args.startingOffset) == args;
    assert Enumeration(args.(startingOffset := args.startingOffset), cluster) == Enumeration(args, cluster);
  }

  lemma ServesAgain(args: Args, cluster: Cluster, all: seq<BlockMetadata>, again: Args)
    requires Serves(args, cluster, all) && again == args.(startingOffset := again.startingOffset)
    ensures Serves(again, cluster, all)
  {
    forall start: int64
      ensures again.(startingOffset := start) == args.(startingOffset := start)
    {
    }
  }

  /** ... and what it makes of the target. */
  lemma TargetAfterRest(s: seq<byte>, t: seq<byte>, all: seq<BlockMetadata>, start: int, seen: seq<BlockMetadata>, k: nat, f: seq<byte>)
    requires Ordered(all) && seen <= EndingAfter(all, start)
    requires 0 < k <= |seen| && StoppedAt(s, t, seen, k, f)
    ensures Copied(s, f, EndingAfter(all, End(seen[k - 1]))) == Copied(s, t, EndingAfter(all, start))
  {
    RestAfterStop(all, start, seen, k);
    StoppedInPrefix(s, t, seen, EndingAfter(all, start), k, f);
    StoppedThenRest(s, t, EndingAfter(all, start), k, f);
  }

  /** The tool run twice: the first run, whatever interrupted it, left t1 after k
      whole tuples, and the second starts at the end of the last of these.  Between
      them they see every tuple once, and the verdict of the second, if it gets a
      complete stream, is the one an uninterrupted run would have given on the
      original target. */
  lemma ResumedVerification(args: Args, first: Cluster, second: Cluster, all: seq<BlockMetadata>, p: Policy, c: Counters, again: Args,
                            s: seq<byte>, t: seq<byte>, k: nat, t1: seq<byte>, t2: seq<byte>, err: Option<Error>)
    requires p.Copying? && (p.prompt ==> p.faultFree)
    requires Ordered(all) && Serves(args, first, all) && Serves(args, second, all)
    requires 0 < k <= |Received(args, first)| && StoppedAt(s, t, Received(args, first), k, t1)
    requires again == args.(startingOffset := again.startingOffset) && again.startingOffset as int == End(Received(args, first)[k - 1])
    requires Verified(again, second, p, c, s, t1, t2, err)
    ensures Complete(again, second) ==> Received(args, first)[..k] + Received(again, second) == EndingAfter(all, args.startingOffset as int)
    ensures err.None? ==> t2 == s && Copied(s, t, EndingAfter(all, args.startingOffset as int)) == s
    ensures p.prompt && Complete(again, second) && AllFit(s, |t1|, p.growable, Received(again, second)) ==>
              (err.None? <==> Copied(s, t, EndingAfter(all, args.startingOffset as int)) == s)
  {
    ServedTuples(args, first, all);
    ServesAgain(args, second, all, again);
    ServedTuples(again, second, all);
    RestAfterStop(all, args.startingOffset as int, Received(args, first), k);
    TargetAfterRest(s, t, all, args.startingOffset as int, Received(args, first), k, t1);
    VerifiedMeans(again, second, p, c, s, t1, t2, err);
    if Complete(again, second) {
      CopyReproducesAnyLength(s, t1, Received(again, second));
    }
  }

  // ----- snapshot-metadata-lister

  /** The output is the whole document, from which exactly the records can be read, if
      and only if there was room for each piece of it. */
  ghost predicate JSONOutput(records: seq<IteratorMetadata>, room: nat -> nat, out: string) {
    && (out == JsonEmitters.Document(records) <==> Takes(Sink("", 0, room), JsonEmitters.Pieces(records)))
    && JsonEmitters.ReadRecords(JsonEmitters.Document(records)) == Some(records)
  }

  ghost predicate TableOutput(records: seq<IteratorMetadata>, room: nat -> nat, out: string) {
    && (out == TableEmitters.Table(records) <==> Takes(Sink("", 0, room), TableEmitters.Pieces(records)))
    && TableEmitters.ReadTable(TableEmitters.Table(records)) == Some(TableEmitters.AllRows(records))
  }

  method ListJSON(args: Args, cluster: Cluster, room: nat -> nat) returns (err: Option<Error>, out: string)
    ensures err.None? <==> Complete(args, cluster)
    ensures err.None? ==> JSONOutput(Enumeration(args, cluster).value.messages, room, out)
  {
    var writer := new Writer(room);
    var printer := new JsonEmitters.JSONEmitter(writer);
    var emitter := JSON(printer);
    ghost var n;
    err, n := GetSnapshotMetadata(args, Some(emitter), cluster);
    if ValidArgs(args) && Enumeration(args, cluster).Ok? {
      JSONOutcome(room, Enumeration(args, cluster).value, n, emitter.View(), err);
    }
    out := writer.text;
  }

  method ListTable(args: Args, cluster: Cluster, room: nat -> nat) returns (err: Option<Error>, out: string)
    ensures err.None? <==> Complete(args, cluster)
    ensures err.None? ==> TableOutput(Enumeration(args, cluster).value.messages, room, out)
  {
    var writer := new Writer(room);
    var printer := new TableEmitters.TableEmitter(writer);
    var emitter := Table(printer);
    ghost var n;
    err, n := GetSnapshotMetadata(args, Some(emitter), cluster);
    if ValidArgs(args) && Enumeration(args, cluster).Ok? {
      TableOutcome(room, Enumeration(args, cluster).value, n, emitter.View(), err);
    }
    out := writer.text;
  }

  /** json selects the format of the output, room says what standard output takes.
      The tool fails only if the arguments or a step before the end of the stream do;
      in particular it does not when its output is cut short. */
  method List(args: Args, cluster: Cluster, json: bool, room: nat -> nat) returns (err: Option<Error>, out: string)
    ensures err.None? <==> Complete(args, cluster)
    ensures err.None? ==>
              var records := Enumeration(args, cluster).value.messages;
              if json then JSONOutput(records, room, out) else TableOutput(records, room, out)
  {
    if json {
      err, out := ListJSON(args, cluster, room);
    } else {
      err, out := ListTable(args, cluster, room);
    }
  }
}
