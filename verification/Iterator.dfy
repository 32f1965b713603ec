/** The enumeration of snapshot metadata by a backup application. */
module Iterators {
  import opened Base
  import opened Metadata
  import opened CopyAlgebra
  import opened Streams
  import opened Api
  import opened Emitters

  /** Which of the clients are set. */
  datatype Clients = Clients(kube: bool, snapshot: bool, smsCR: bool)

  datatype Args = Args(
    clients: Clients,
    namespace: string,
    snapshotName: string,
    prevSnapshotID: string,
    prevSnapshotName: string,
    startingOffset: int64,
    maxResults: int32,
    csiDriver: string,
    saNamespace: string,
    saName: string,
    tokenExpirySecs: int64)

  /** What is required of the arguments of an enumeration. */
  ghost predicate ValidArgs(a: Args) {
    && a.namespace != "" && a.snapshotName != ""
    && 0 <= a.tokenExpirySecs && 0 <= a.maxResults
    && (a.saNamespace == "" <==> a.saName == "")
    && a.clients == Clients(true, true, true)
  }

  /** Clients.Validate. */
  function ValidateClients(c: Clients): Option<Error> {
    if !c.kube then Some(ErrInvalidArgs)
    else if !c.snapshot then Some(ErrInvalidArgs)
    else if !c.smsCR then Some(ErrInvalidArgs)
    else None
  }

  /** Args.Validate, with an emitter or without. */
  function Validate(a: Args, hasEmitter: bool): (err: Option<Error>)
    ensures err.None? <==> hasEmitter && ValidArgs(a)
    ensures err.Some? ==> err.value == ErrInvalidArgs
  {
    if !hasEmitter then Some(ErrInvalidArgs)
    else if a.namespace == "" then Some(ErrInvalidArgs)
    else if a.snapshotName == "" then Some(ErrInvalidArgs)
    else if a.tokenExpirySecs < 0 then Some(ErrInvalidArgs)
    else if a.maxResults < 0 then Some(ErrInvalidArgs)
    else if a.saNamespace == "" && a.saName != "" then Some(ErrInvalidArgs)
    else if a.saNamespace != "" && a.saName == "" then Some(ErrInvalidArgs)
    else ValidateClients(a.clients)
  }

  datatype Service = Service(audience: string, caCert: string, address: string)

  /** The messages a call will yield and how they will end. */
  datatype Script<+T> = Script(messages: seq<T>, end: StreamEnd)

  /** The answers of the Kubernetes API and of the sidecar. */
  datatype Cluster = Cluster(
    defaultServiceAccount: Result<(string, string)>,
    csiDriverOf: (string, string) -> Result<string>,
    metadataService: string -> Result<Service>,
    createToken: (string, string, string, int64) -> Result<string>,
    connect: (string, string) -> Result<()>,
    prevSnapshotIDOf: (string, string) -> Result<string>,
    getMetadataAllocated: AllocatedRequest -> Result<Script<AllocatedResponse>>,
    getMetadataDelta: DeltaRequest -> Result<Script<DeltaResponse>>)

  const DEFAULT_TOKEN_EXPIRY_SECONDS: int64 := 600

  /** The token for the session: of the account given or else the default one,
      for the audience of the service of the driver given or else looked up. */
  function Session(args: Args, cluster: Cluster): Result<string> {
    var account :- if args.saName == "" then cluster.defaultServiceAccount else Ok((args.saNamespace, args.saName));
    var driver :- if args.csiDriver == "" then cluster.csiDriverOf(args.namespace, args.snapshotName) else Ok(args.csiDriver);
    var service :- cluster.metadataService(driver);
    var token :- cluster.createToken(account.0, account.1, service.audience, Expiry(args));
    var _ :- cluster.connect(service.caCert, service.address);
    Ok(token)
  }

  /** The records the arguments ask for: the call is the delta call exactly when a
      previous snapshot is named, its identifier taking precedence over its name. */
  function Enumeration(args: Args, cluster: Cluster): Result<Script<IteratorMetadata>> {
    var token :- Session(args, cluster);
    if args.prevSnapshotID == "" && args.prevSnapshotName == "" then
      var script :- cluster.getMetadataAllocated(AllocatedRequest(token, args.namespace, args.snapshotName, args.startingOffset, args.maxResults));
      Ok(Script(Map(OfAllocated, script.messages), script.end))
    else
      var base :- if args.prevSnapshotID == "" then cluster.prevSnapshotIDOf(args.namespace, args.prevSnapshotName) else Ok(args.prevSnapshotID);
      var script :- cluster.getMetadataDelta(DeltaRequest(token, args.namespace, base, args.snapshotName, args.startingOffset, args.maxResults));
      Ok(Script(Map(OfDelta, script.messages), script.end))
  }

  // ----- what the arguments decide

  function Expiry(args: Args): int64 {
    if args.tokenExpirySecs == 0 then DEFAULT_TOKEN_EXPIRY_SECONDS else args.tokenExpirySecs
  }

  /** The account given, or the default one. */
  ghost predicate IsAccount(args: Args, cluster: Cluster, account: (string, string)) {
    if args.saName == "" then cluster.defaultServiceAccount == Ok(account) else account == (args.saNamespace, args.saName)
  }

  /** The driver given, or the one of the snapshot. */
  ghost predicate IsDriver(args: Args, cluster: Cluster, driver: string) {
    if args.csiDriver == "" then cluster.csiDriverOf(args.namespace, args.snapshotName) == Ok(driver) else driver == args.csiDriver
  }

  /** The token of a session was created for the account, and for the audience that
      the service of the driver demands, and that service can be reached; a session
      that fails lacks one of these. */
  lemma SessionToken(args: Args, cluster: Cluster, token: string)
    ensures Session(args, cluster) == Ok(token) <==>
              exists account, driver, service ::
                && IsAccount(args, cluster, account) && IsDriver(args, cluster, driver)
                && cluster.metadataService(driver) == Ok(service)
                && cluster.createToken(account.0, account.1, service.audience, if args.tokenExpirySecs == 0 then 600 else args.tokenExpirySecs) == Ok(token)
                && cluster.connect(service.caCert, service.address).Ok?
  {
    if Session(args, cluster) == Ok(token) {
      var account := if args.saName == "" then cluster.defaultServiceAccount.value else (args.saNamespace, args.saName);
      var driver := if args.csiDriver == "" then cluster.csiDriverOf(args.namespace, args.snapshotName).value else args.csiDriver;
      assert IsAccount(args, cluster, account) && IsDriver(args, cluster, driver);
      assert cluster.metadataService(driver) == Ok(cluster.metadataService(driver).value);
    }
  }

  /** The error of a session is that of the first step that fails: the look-up of the
      account, if none is given, of the driver, if none is given, of its service, the
      creation of the token, or the connection. */
  lemma SessionError(args: Args, cluster: Cluster, e: Error)
    ensures Session(args, cluster) == Err(e) <==>
              || (args.saName == "" && cluster.defaultServiceAccount == Err(e))
              || exists account :: IsAccount(args, cluster, account) &&
                   ( || (args.csiDriver == "" && cluster.csiDriverOf(args.namespace, args.snapshotName) == Err(e))
                     || exists driver :: IsDriver(args, cluster, driver) && ServiceFails(args, cluster, account, driver, e))
  {
    if !(args.saName == "" && cluster.defaultServiceAccount.Err?) {
      var account := if args.saName == "" then cluster.defaultServiceAccount.value else (args.saNamespace, args.saName);
      assert IsAccount(args, cluster, account);
      if !(args.csiDriver == "" && cluster.csiDriverOf(args.namespace, args.snapshotName).Err?) {
        var driver := if args.csiDriver == "" then cluster.csiDriverOf(args.namespace, args.snapshotName).value else args.csiDriver;
        assert IsDriver(args, cluster, driver);
      }
    }
  }

  /** What fails once account and driver are known. */
  ghost predicate ServiceFails(args: Args, cluster: Cluster, account: (string, string), driver: string, e: Error) {
    match cluster.metadataService(driver)
    case Err(f) => e == f
    case Ok(service) =>
      match cluster.createToken(account.0, account.1, service.audience, if args.tokenExpirySecs == 0 then 600 else args.tokenExpirySecs)
      case Err(f) => e == f
      case Ok(_) => cluster.connect(service.caCert, service.address) == Err(e)
  }

  /** The base of a delta call: the identifier given or else that of the snapshot of
      the name given. */
  ghost predicate IsBase(args: Args, cluster: Cluster, base: string) {
    if args.prevSnapshotID != "" then base == args.prevSnapshotID
    else cluster.prevSnapshotIDOf(args.namespace, args.prevSnapshotName) == Ok(base)
  }

  /** The cluster's answer to the call that the arguments ask for: to that for the
      allocated blocks if they name no previous snapshot, and else to that for the
      changes from the base to the snapshot. */
  ghost predicate IsAnswer(args: Args, cluster: Cluster, token: string, answer: Result<Script<IteratorMetadata>>) {
    if args.prevSnapshotID == "" && args.prevSnapshotName == "" then
      Converted(OfAllocated,
        cluster.getMetadataAllocated(AllocatedRequest(
          securityToken := token, namespace := args.namespace, snapshotName := args.snapshotName,
          startingOffset := args.startingOffset, maxResults := args.maxResults)),
        answer)
    else
      exists base :: IsBase(args, cluster, base) &&
        Converted(OfDelta,
          cluster.getMetadataDelta(DeltaRequest(
            securityToken := token, namespace := args.namespace, baseSnapshotId := base, targetSnapshotName := args.snapshotName,
            startingOffset := args.startingOffset, maxResults := args.maxResults)),
          answer)
  }

  /** The same answer, its messages as records. */
  ghost predicate Converted<T(!new)>(record: T -> IteratorMetadata, opening: Result<Script<T>>, answer: Result<Script<IteratorMetadata>>) {
    match opening
    case Err(e) => answer == Err(e)
    case Ok(script) =>
      && answer.Ok? && answer.value.end == script.end && |answer.value.messages| == |script.messages|
      && forall i :: 0 <= i < |script.messages| ==> answer.value.messages[i] == record(script.messages[i])
  }

  /** What is enumerated is the cluster's answer to that call, made with the token of
      the session; and there is none, but the error of the step that failed, if the
      session or the look-up of the base fails. */
  lemma EnumerationIsAnswer(args: Args, cluster: Cluster, answer: Result<Script<IteratorMetadata>>)
    ensures Enumeration(args, cluster) == answer <==>
              || (Session(args, cluster).Err? && answer == Err(Session(args, cluster).error))
              || exists token :: Session(args, cluster) == Ok(token) &&
                   (IsAnswer(args, cluster, token, answer) || BaseFails(args, cluster, answer))
  {
    if Session(args, cluster).Ok? {
      var token := Session(args, cluster).value;
      EnumerationInSession(args, cluster, token, answer);
    }
  }

  /** The base has to be looked up, and cannot be. */
  ghost predicate BaseFails(args: Args, cluster: Cluster, answer: Result<Script<IteratorMetadata>>) {
    && args.prevSnapshotID == "" && args.prevSnapshotName != ""
    && cluster.prevSnapshotIDOf(args.namespace, args.prevSnapshotName).Err?
    && answer == Err(cluster.prevSnapshotIDOf(args.namespace, args.prevSnapshotName).error)
  }

  lemma EnumerationInSession(args: Args, cluster: Cluster, token: string, answer: Result<Script<IteratorMetadata>>)
    requires Session(args, cluster) == Ok(token)
    ensures Enumeration(args, cluster) == answer <==> IsAnswer(args, cluster, token, answer) || BaseFails(args, cluster, answer)
  {
    if args.prevSnapshotID == "" && args.prevSnapshotName == "" {
      ConvertedBy(OfAllocated, cluster.getMetadataAllocated(AllocatedRequest(token, args.namespace, args.snapshotName, args.startingOffset, args.maxResults)), answer);
    } else if args.prevSnapshotID != "" || cluster.prevSnapshotIDOf(args.namespace, args.prevSnapshotName).Ok? {
      var base := if args.prevSnapshotID != "" then args.prevSnapshotID else cluster.prevSnapshotIDOf(args.namespace, args.prevSnapshotName).value;
      assert IsBase(args, cluster, base) && forall b :: IsBase(args, cluster, b) ==> b == base;
      ConvertedBy(OfDelta, cluster.getMetadataDelta(DeltaRequest(token, args.namespace, base, args.snapshotName, args.startingOffset, args.maxResults)), answer);
    }
  }

  lemma ConvertedBy<T(!new)>(record: T -> IteratorMetadata, opening: Result<Script<T>>, answer: Result<Script<IteratorMetadata>>)
    ensures Converted(record, opening, answer) <==>
              answer == match opening case Err(e) => Err(e) case Ok(script) => Ok(Script(Map(record, script.messages), script.end))
  {
    if opening.Ok? && Converted(record, opening, answer) {
      assert answer.value.messages == Map(record, opening.value.messages);
    }
  }

  /** What is given is not looked up: the default account, the driver of the
      snapshot and the previous snapshot's name matter only where the arguments
      leave account, driver and previous identifier open. */
  lemma GivenIsNotLookedUp(args: Args, c: Cluster, d: Cluster, name: string)
    requires d == c.(defaultServiceAccount := d.defaultServiceAccount, csiDriverOf := d.csiDriverOf)
    requires args.saName != "" || d.defaultServiceAccount == c.defaultServiceAccount
    requires args.csiDriver != "" || d.csiDriverOf == c.csiDriverOf
    requires args.prevSnapshotID != "" || name == args.prevSnapshotName
    ensures Enumeration(args.(prevSnapshotName := name), d) == Enumeration(args, c)
  {
    assert Session(args.(prevSnapshotName := name), d) == Session(args, c);
  }

  function EndError(end: StreamEnd): Option<Error> {
    match end
    case EOF => None
    case Broken(e) => Some(e)
  }

  /** The state of an emitter when the first k records have been accepted. */
  function ViewAt(view: View, first: nat, records: seq<IteratorMetadata>, k: nat): View
    requires k <= |records|
  {
    AfterRecords(view, first, records[..k])
  }

  /** An emitter with policy p accepts the first k records in turn. */
  ghost predicate Accepts(p: Policy, view: View, first: nat, records: seq<IteratorMetadata>, k: nat)
    requires k <= |records|
  {
    k == 0 || (Accepts(p, view, first, records, k - 1) && Answers(p, ViewAt(view, first, records, k - 1), first + k, records[k - 1], None))
  }

  lemma {:induction false} AcceptsEach(p: Policy, view: View, first: nat, records: seq<IteratorMetadata>, i: nat, k: nat)
    requires i < k <= |records| && Accepts(p, view, first, records, k)
    ensures Answers(p, ViewAt(view, first, records, i), first + i + 1, records[i], None)
  {
    if i < k - 1 {
      AcceptsEach(p, view, first, records, i, k - 1);
    }
  }

  /** The k-th record, counting from zero, is the first one refused. */
  ghost predicate RefusedAt(p: Policy, view: View, first: nat, records: seq<IteratorMetadata>, k: nat, after: View, err: Option<Error>)
    requires k < |records|
  {
    && Accepts(p, view, first, records, k)
    && Answers(p, ViewAt(view, first, records, k), first + k + 1, records[k], err)
    && Leaves(p, ViewAt(view, first, records, k), first + k + 1, records[k], err, after)
  }

  /** A receive loop ended because its last record was refused. */
  ghost predicate Refused(p: Policy, view: View, first: nat, records: seq<IteratorMetadata>, recordNum: nat, after: View, err: Option<Error>) {
    err.Some? && first < recordNum <= first + |records| && RefusedAt(p, view, first, records, recordNum - first - 1, after, err)
  }

  /** How a receive loop can end: with the stream, after all its records have been
      accepted, or at the first record that is refused. */
  ghost predicate Enumerated(p: Policy, view: View, first: nat, script: Script<IteratorMetadata>, recordNum: nat, after: View, err: Option<Error>) {
    var records := script.messages;
    || ( && recordNum == first + |records|
         && Accepts(p, view, first, records, |records|)
         && after == AfterRecords(view, first, records)
         && err == EndError(script.end))
    || Refused(p, view, first, records, recordNum, after, err)
  }

  /** How a whole run over a script can end: a receive loop that failed, and then
      the emitter is not told that the enumeration is done; or a complete one,
      and then it is, once, with the number of records. */
  ghost predicate RunOutcome(p: Policy, view: View, script: Script<IteratorMetadata>, recordNum: nat, after: View, err: Option<Error>) {
    var records := script.messages;
    || (err.Some? && Enumerated(p, view, 0, script, recordNum, after, err))
    || ( && script.end.EOF? && recordNum == |records|
         && Accepts(p, view, 0, records, |records|)
         && LeavesDone(AfterRecords(view, 0, records), |records|, after)
         && AnswersDone(p, AfterRecords(view, 0, records), |records|, err))
  }

  /** A run in which no record is refused is one in which all are accepted. */
  lemma NotRefused(p: Policy, view: View, script: Script<IteratorMetadata>, recordNum: nat, after: View, err: Option<Error>)
    requires RunOutcome(p, view, script, recordNum, after, err) && !Refused(p, view, 0, script.messages, recordNum, after, err)
    ensures recordNum == |script.messages| && Accepts(p, view, 0, script.messages, |script.messages|)
    ensures
      var complete := AfterRecords(view, 0, script.messages);
      || (err.Some? && err == EndError(script.end) && after == complete)
      || (script.end.EOF? && LeavesDone(complete, |script.messages|, after) && AnswersDone(p, complete, |script.messages|, err))
  {
  }

  lemma DoneRun(p: Policy, view: View, records: seq<IteratorMetadata>, after: View, err: Option<Error>)
    requires Accepts(p, view, 0, records, |records|) && AnswersDone(p, AfterRecords(view, 0, records), |records|, err)
    requires LeavesDone(AfterRecords(view, 0, records), |records|, after)
    ensures RunOutcome(p, view, Script(records, EOF), |records|, after, err)
  {
  }

  lemma EndOfEnumeration(p: Policy, view: View, first: nat, script: Script<IteratorMetadata>, k: nat, after: View)
    requires k == |script.messages| && Accepts(p, view, first, script.messages, k)
    requires after == ViewAt(view, first, script.messages, k)
    ensures Enumerated(p, view, first, script, first + k, after, EndError(script.end))
  {
    assert script.messages[..k] == script.messages;
  }

  lemma AfterLast(view: View, first: nat, records: seq<IteratorMetadata>)
    requires records != []
    ensures AfterRecords(view, first, records) ==
              AfterRecord(AfterRecords(view, first, records[..|records| - 1]), first + |records|, records[|records| - 1])
  {
  }

  /** One more record, the k-th counting from zero, has been accepted. */
  lemma RecordAccepted(p: Policy, view: View, first: nat, records: seq<IteratorMetadata>, k: nat, after: View)
    requires k < |records| && Accepts(p, view, first, records, k)
    requires Answers(p, ViewAt(view, first, records, k), first + k + 1, records[k], None)
    requires after == AfterRecord(ViewAt(view, first, records, k), first + k + 1, records[k])
    ensures after == ViewAt(view, first, records, k + 1) && Accepts(p, view, first, records, k + 1)
  {
    var longer := records[..k + 1];
    assert |longer| == k + 1 && longer[..k] == records[..k] && longer[k] == records[k];
    AfterLast(view, first, longer);
  }

  /** The k-th record, handed on with its number, has been answered. */
  lemma RecordAnswered(p: Policy, view: View, first: nat, records: seq<IteratorMetadata>, k: nat,
                       before: View, recordNum: nat, metadata: IteratorMetadata, after: View, err: Option<Error>)
    requires k < |records| && Accepts(p, view, first, records, k)
    requires before == ViewAt(view, first, records, k) && recordNum == first + k + 1 && metadata == records[k]
    requires Answers(p, before, recordNum, metadata, err) && Leaves(p, before, recordNum, metadata, err, after)
    ensures err.None? ==> after == ViewAt(view, first, records, k + 1) && Accepts(p, view, first, records, k + 1)
    ensures err.Some? ==> RefusedAt(p, view, first, records, k, after, err)
  {
    if err.None? {
      RecordAccepted(p, view, first, records, k, after);
    }
  }

  class Iterator {
    const args: Args
    const emitter: Emitter
    var prevSnapshotID: string
    var tokenExpirySecs: int64
    var recordNum: nat

    constructor (args: Args, emitter: Emitter)
      ensures this.args == args && this.emitter == emitter && New()
    {
      this.args, this.emitter := args, emitter;
      prevSnapshotID, recordNum := args.prevSnapshotID, 0;
      tokenExpirySecs := if args.tokenExpirySecs == 0 then DEFAULT_TOKEN_EXPIRY_SECONDS else args.tokenExpirySecs;
    }

    /** As newIterator leaves it. */
    ghost predicate New()
      reads this
    {
      && prevSnapshotID == args.prevSnapshotID && recordNum == 0
      && tokenExpirySecs == Expiry(args)
    }

    ghost predicate Valid()
      reads emitter.Footprint()
    {
      this !in emitter.Footprint() && emitter.Valid()
    }

    /** Numbers one record and hands it to the emitter. */
    method PassOn(metadata: IteratorMetadata) returns (err: Option<Error>)
      requires Valid()
      modifies this`recordNum, emitter.Footprint()
      ensures Valid() && recordNum == old(recordNum) + 1
      ensures Leaves(emitter.Policy(), old(emitter.View()), recordNum, metadata, err, emitter.View())
      ensures Answers(emitter.Policy(), old(emitter.View()), recordNum, metadata, err)
    {
      recordNum := recordNum + 1;
      err := emitter.SnapshotMetadataIteratorRecord(recordNum, metadata);
    }

    /** Passes on the k-th record of a script, counting from zero. */
    method Deliver(metadata: IteratorMetadata, ghost p: Policy, ghost view: View, ghost first: nat, ghost script: Script<IteratorMetadata>, ghost k: nat)
      returns (err: Option<Error>)
      requires Valid() && p == emitter.Policy() && k < |script.messages| && metadata == script.messages[k]
      requires recordNum == first + k && emitter.View() == ViewAt(view, first, script.messages, k)
      requires Accepts(p, view, first, script.messages, k)
      modifies this`recordNum, emitter.Footprint()
      ensures Valid() && recordNum == first + k + 1
      ensures err.None? ==> emitter.View() == ViewAt(view, first, script.messages, k + 1) && Accepts(p, view, first, script.messages, k + 1)
      ensures err.Some? ==> Enumerated(p, view, first, script, recordNum, emitter.View(), err)
    {
      ghost var before := emitter.View();
      err := PassOn(metadata);
      RecordAnswered(p, view, first, script.messages, k, before, recordNum, metadata, emitter.View(), err);
    }

    /** The receive loop of getAllocatedBlocks. */
    method ReceiveAllocated(stream: RecvStream<AllocatedResponse>) returns (err: Option<Error>)
      requires Valid() && stream !in emitter.Footprint() && stream.cursor == 0
      modifies this`recordNum, emitter.Footprint(), stream
      ensures Valid()
      ensures Enumerated(emitter.Policy(), old(emitter.View()), old(recordNum), Script(Map(OfAllocated, stream.messages), stream.end), recordNum, emitter.View(), err)
    {
      ghost var p, view, first, k := emitter.Policy(), emitter.View(), recordNum, 0;
      ghost var script := Script(Map(OfAllocated, stream.messages), stream.end);
      while true
        invariant Valid() && stream.cursor == k <= |script.messages|
        invariant recordNum == first + k && emitter.View() == ViewAt(view, first, script.messages, k)
        invariant Accepts(p, view, first, script.messages, k)
        decreases |script.messages| - k
      {
        var received := stream.Recv();
        if !received.Message? {
          EndOfEnumeration(p, view, first, script, k, emitter.View());
          return if received.EndOfStream? then None else Some(received.error);
        }
        var resp := received.m;
        var failure := Deliver(IteratorMetadata(resp.blockMetadataType, resp.volumeCapacityBytes, resp.blockMetadata), p, view, first, script, k);
        if failure.Some? { return failure; }
        k := k + 1;
      }
    }

    /** The receive loop of getChangedBlocks. */
    method ReceiveDelta(stream: RecvStream<DeltaResponse>) returns (err: Option<Error>)
      requires Valid() && stream !in emitter.Footprint() && stream.cursor == 0
      modifies this`recordNum, emitter.Footprint(), stream
      ensures Valid()
      ensures Enumerated(emitter.Policy(), old(emitter.View()), old(recordNum), Script(Map(OfDelta, stream.messages), stream.end), recordNum, emitter.View(), err)
    {
      ghost var p, view, first, k := emitter.Policy(), emitter.View(), recordNum, 0;
      ghost var script := Script(Map(OfDelta, stream.messages), stream.end);
      while true
        invariant Valid() && stream.cursor == k <= |script.messages|
        invariant recordNum == first + k && emitter.View() == ViewAt(view, first, script.messages, k)
        invariant Accepts(p, view, first, script.messages, k)
        decreases |script.messages| - k
      {
        var received := stream.Recv();
        if !received.Message? {
          EndOfEnumeration(p, view, first, script, k, emitter.View());
          return if received.EndOfStream? then None else Some(received.error);
        }
        var resp := received.m;
        var failure := Deliver(IteratorMetadata(resp.blockMetadataType, resp.volumeCapacityBytes, resp.blockMetadata), p, view, first, script, k);
        if failure.Some? { return failure; }
        k := k + 1;
      }
    }

    method GetAllocatedBlocks(cluster: Cluster, securityToken: string) returns (err: Option<Error>)
      requires Valid()
      modifies this`recordNum, emitter.Footprint()
      ensures Valid()
      ensures
        match cluster.getMetadataAllocated(AllocatedRequest(securityToken, args.namespace, args.snapshotName, args.startingOffset, args.maxResults))
        case Err(e) => err == Some(e) && recordNum == old(recordNum) && emitter.View() == old(emitter.View())
        case Ok(script) =>
          Enumerated(emitter.Policy(), old(emitter.View()), old(recordNum), Script(Map(OfAllocated, script.messages), script.end), recordNum, emitter.View(), err)
    {
      var opening := cluster.getMetadataAllocated(AllocatedRequest(securityToken, args.namespace, args.snapshotName, args.startingOffset, args.maxResults));
      if opening.Err? { return Some(opening.error); }
      var stream := new RecvStream(opening.value.messages, opening.value.end);
      err := ReceiveAllocated(stream);
    }

    method GetChangedBlocks(cluster: Cluster, securityToken: string) returns (err: Option<Error>)
      requires Valid()
      modifies this`recordNum, emitter.Footprint()
      ensures Valid()
      ensures
        match cluster.getMetadataDelta(DeltaRequest(securityToken, args.namespace, prevSnapshotID, args.snapshotName, args.startingOffset, args.maxResults))
        case Err(e) => err == Some(e) && recordNum == old(recordNum) && emitter.View() == old(emitter.View())
        case Ok(script) =>
          Enumerated(emitter.Policy(), old(emitter.View()), old(recordNum), Script(Map(OfDelta, script.messages), script.end), recordNum, emitter.View(), err)
    {
      var opening := cluster.getMetadataDelta(DeltaRequest(securityToken, args.namespace, prevSnapshotID, args.snapshotName, args.startingOffset, args.maxResults));
      if opening.Err? { return Some(opening.error); }
      var stream := new RecvStream(opening.value.messages, opening.value.end);
      err := ReceiveDelta(stream);
    }

    /** The part of run that obtains the token. */
    method Connect(cluster: Cluster) returns (token: Result<string>)
      requires New()
      ensures token == Session(args, cluster)
    {
      var saName, saNamespace := args.saName, args.saNamespace;
      if saName == "" {
        var account := cluster.defaultServiceAccount;
        if account.Err? { return Err(account.error); }
        saNamespace, saName := account.value.0, account.value.1;
      }
      var csiDriver := args.csiDriver;
      if csiDriver == "" {
        var driver := cluster.csiDriverOf(args.namespace, args.snapshotName);
        if driver.Err? { return Err(driver.error); }
        csiDriver := driver.value;
      }
      var service := cluster.metadataService(csiDriver);
      if service.Err? { return Err(service.error); }
      token := cluster.createToken(saNamespace, saName, service.value.audience, tokenExpirySecs);
      if token.Err? { return; }
      var connection := cluster.connect(service.value.caCert, service.value.address);
      if connection.Err? { return Err(connection.error); }
    }

    /** The part of run that obtains the stream and receives from it. */
    method Enumerate(cluster: Cluster) returns (err: Option<Error>)
      requires Valid() && New()
      modifies this, emitter.Footprint()
      ensures Valid()
      ensures
        match Enumeration(args, cluster)
        case Err(e) => err == Some(e) && emitter.View() == old(emitter.View())
        case Ok(script) => Enumerated(emitter.Policy(), old(emitter.View()), 0, script, recordNum, emitter.View(), err)
      ensures Enumeration(args, cluster).Ok? ==>
                exists token :: Session(args, cluster) == Ok(token) && IsAnswer(args, cluster, token, Enumeration(args, cluster))
    {
      EnumerationIsAnswer(args, cluster, Enumeration(args, cluster));
      var token := Connect(cluster);
      if token.Err? { return Some(token.error); }
      if prevSnapshotID == "" && args.prevSnapshotName == "" {
        err := GetAllocatedBlocks(cluster, token.value);
      } else {
        if prevSnapshotID == "" {
          var id := cluster.prevSnapshotIDOf(args.namespace, args.prevSnapshotName);
          if id.Err? { return Some(id.error); }
          prevSnapshotID := id.value;
        }
        err := GetChangedBlocks(cluster, token.value);
      }
    }

    method Run(cluster: Cluster) returns (err: Option<Error>)
      requires Valid() && New()
      modifies this, emitter.Footprint()
      ensures Valid()
      ensures
        match Enumeration(args, cluster)
        case Err(e) => err == Some(e) && emitter.View() == old(emitter.View())
        case Ok(script) => RunOutcome(emitter.Policy(), old(emitter.View()), script, recordNum, emitter.View(), err)
    {
      err := Enumerate(cluster);
      if err.Some? { return; }
      err := emitter.SnapshotMetadataIteratorDone(recordNum);
    }
  }

  /** A new iterator, run once; n is the number of records it counted. */
  method GetSnapshotMetadata(args: Args, emitter: Option<Emitter>, cluster: Cluster) returns (err: Option<Error>, ghost n: nat)
    requires emitter.Some? ==> emitter.value.Valid()
    modifies if emitter.Some? then emitter.value.Footprint() else {}
    ensures emitter.Some? ==> emitter.value.Valid()
    ensures emitter.None? || !ValidArgs(args) ==> err == Some(ErrInvalidArgs) && (emitter.Some? ==> emitter.value.View() == old(emitter.value.View()))
    ensures emitter.Some? && ValidArgs(args) ==>
              match Enumeration(args, cluster)
              case Err(e) => err == Some(e) && emitter.value.View() == old(emitter.value.View())
              case Ok(script) => RunOutcome(emitter.value.Policy(), old(emitter.value.View()), script, n, emitter.value.View(), err)
  {
    n := 0;
    err := Validate(args, emitter.Some?);
    if err.Some? { return; }
    var iter := new Iterator(args, emitter.value);
    err := iter.Run(cluster);
    n := iter.recordNum;
  }

  // ----- what a run means for each emitter

  /** The log of a client's emitter that was given n records, and the outcome. */
  ghost predicate Transcript(reply: seq<Call> -> Option<Error>, script: Script<IteratorMetadata>, n: nat, log: seq<Call>, err: Option<Error>) {
    && n <= |script.messages|
    && var calls := RecordCalls(0, script.messages[..n]);
    && (forall i :: 0 < i < n ==> reply(calls[..i]).None?)
    && if 0 < n && reply(calls).Some? then
         log == calls && err == reply(calls)
       else
         && n == |script.messages|
         && match script.end
            case Broken(e) => log == calls && err == Some(e)
            case EOF => log == calls + [DoneCall(n)] && err == reply(log)
  }

  lemma CallsPrefix(records: seq<IteratorMetadata>, i: nat, k: nat)
    requires i <= k <= |records|
    ensures RecordCalls(0, records[..k])[..i] == RecordCalls(0, records[..i])
  {
  }

  lemma AcceptedView(records: seq<IteratorMetadata>, k: nat)
    requires k <= |records|
    ensures ViewAt(ClientView([]), 0, records, k) == ClientView(RecordCalls(0, records[..k]))
  {
    ClientRun([], 0, records[..k]);
    assert [] + RecordCalls(0, records[..k]) == RecordCalls(0, records[..k]);
  }

  lemma AnsweredCall(reply: seq<Call> -> Option<Error>, records: seq<IteratorMetadata>, i: nat, err: Option<Error>)
    requires i < |records| && Answers(Replying(reply), ViewAt(ClientView([]), 0, records, i), i + 1, records[i], err)
    ensures err == reply(RecordCalls(0, records[..i + 1]))
    ensures AfterRecord(ViewAt(ClientView([]), 0, records, i), i + 1, records[i]) == ClientView(RecordCalls(0, records[..i + 1]))
  {
    AcceptedView(records, i);
    assert RecordCalls(0, records[..i + 1]) == RecordCalls(0, records[..i]) + [RecordCall(i + 1, records[i])];
  }

  lemma AcceptedCalls(reply: seq<Call> -> Option<Error>, records: seq<IteratorMetadata>, k: nat, n: nat)
    requires k <= n <= |records| && Accepts(Replying(reply), ClientView([]), 0, records, k)
    ensures forall i :: 0 < i <= k ==> reply(RecordCalls(0, records[..n])[..i]).None?
  {
    forall i | 0 < i <= k ensures reply(RecordCalls(0, records[..n])[..i]).None? {
      CallsPrefix(records, i, n);
      AcceptsEach(Replying(reply), ClientView([]), 0, records, i - 1, k);
      AnsweredCall(reply, records, i - 1, None);
    }
  }

  /** A client's emitter sees the records unchanged, in order and numbered
      1, 2, ..., up to the first it refuses.  It is told that the enumeration is
      done exactly when no step before has failed, once, last, and with their
      number. */
  lemma ClientRunOutcome(reply: seq<Call> -> Option<Error>, script: Script<IteratorMetadata>, n: nat, after: View, err: Option<Error>)
    requires RunOutcome(Replying(reply), ClientView([]), script, n, after, err)
    ensures after.ClientView? && Transcript(reply, script, n, after.log, err)
  {
    var records := script.messages;
    if Refused(Replying(reply), ClientView([]), 0, records, n, after, err) {
      RefusedClient(reply, script, n, after, err);
    } else {
      NotRefused(Replying(reply), ClientView([]), script, n, after, err);
      AcceptedCalls(reply, records, n, n);
      AcceptedView(records, n);
      assert records[..n] == records && RecordCalls(0, records)[..n] == RecordCalls(0, records);
    }
  }

  lemma RefusedClient(reply: seq<Call> -> Option<Error>, script: Script<IteratorMetadata>, n: nat, after: View, err: Option<Error>)
    requires Refused(Replying(reply), ClientView([]), 0, script.messages, n, after, err)
    ensures after.ClientView? && Transcript(reply, script, n, after.log, err)
  {
    AcceptedCalls(reply, script.messages, n - 1, n);
    AnsweredCall(reply, script.messages, n - 1, err);
  }

  /** The transcript is determined by the emitter and the stream. */
  lemma TranscriptIsUnique(reply: seq<Call> -> Option<Error>, script: Script<IteratorMetadata>, m: nat, a: seq<Call>, e: Option<Error>, n: nat, b: seq<Call>, f: Option<Error>)
    requires m <= n && Transcript(reply, script, m, a, e) && Transcript(reply, script, n, b, f)
    ensures m == n && a == b && e == f
  {
    CallsPrefix(script.messages, m, n);
  }
}
