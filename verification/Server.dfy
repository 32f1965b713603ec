/** The identifiers of operations. */
module OperationIds {
  import opened Base
  import opened Decimal

  /** The value atomic.AddInt64 leaves behind: it wraps around. */
  function Incremented(n: int64): int64 {
    if n == 0x7FFF_FFFF_FFFF_FFFF then -0x8000_0000_0000_0000 else n + 1
  }

  function OperationID(op: string, number: int64): string {
    op + "-" + Numeral(number as int)
  }

  lemma LastDash(a: string, b: string, c: string, d: string)
    requires a + "-" + b == c + "-" + d
    requires forall i :: 0 <= i < |b| ==> b[i] != '-'
    requires forall i :: 0 <= i < |d| ==> d[i] != '-'
    ensures a == c && b == d
  {
    var s := a + "-" + b;
    assert s[|a|] == '-' && s[|c|] == '-';
    assert forall i :: |a| < i < |s| ==> s[i] == b[i - |a| - 1];
    assert forall i :: |c| < i < |s| ==> s[i] == d[i - |c| - 1];
    assert |a| == |c|;
    assert s[..|a|] == a && s[..|c|] == c && s[|a| + 1..] == b && s[|c| + 1..] == d;
  }

  /** The counter after k increments from zero. */
  function Wrapped(k: nat): int64 {
    var r := k % 0x1_0000_0000_0000_0000;
    if r < 0x8000_0000_0000_0000 then r as int64 else (r - 0x1_0000_0000_0000_0000) as int64
  }

  lemma WrappedStep(k: nat)
    ensures Incremented(Wrapped(k)) == Wrapped(k + 1)
  {
    var m := 0x1_0000_0000_0000_0000;
    assert (k + 1) % m == if k % m == m - 1 then 0 else k % m + 1;
  }

  lemma WrappedEqual(j: nat, k: nat)
    ensures Wrapped(j) == Wrapped(k) <==> j % 0x1_0000_0000_0000_0000 == k % 0x1_0000_0000_0000_0000
  {
  }

  /** The sign of a negative number reads as part of the operation's name. */
  function Marked(op: string, number: int64): string {
    if number < 0 then op + "-" else op
  }

  function Magnitude(number: int64): nat {
    if number < 0 then -(number as int) else number as int
  }

  lemma OperationIDParts(op: string, n: int64)
    ensures OperationID(op, n) == Marked(op, n) + "-" + Digits(Magnitude(n))
  {
    if n < 0 {
      assert op + "-" + ("-" + Digits(Magnitude(n))) == op + "-" + "-" + Digits(Magnitude(n));
    }
  }

  lemma DigitsInjective(m: nat, n: nat)
    requires Digits(m) == Digits(n)
    ensures m == n
  {
    DigitsValue(m);
    DigitsValue(n);
  }

  lemma DigitsHaveNoDash(n: nat)
    ensures forall i :: 0 <= i < |Digits(n)| ==> Digits(n)[i] != '-'
  {
    forall i | 0 <= i < |Digits(n)| ensures Digits(n)[i] != '-' {
      assert IsDigit(Digits(n)[i]);
    }
  }

  /** When two identifiers are equal, for all names and numbers. */
  lemma OperationIDsEqual(op1: string, m: int64, op2: string, n: int64)
    ensures OperationID(op1, m) == OperationID(op2, n) <==> Marked(op1, m) == Marked(op2, n) && Magnitude(m) == Magnitude(n)
  {
    OperationIDParts(op1, m);
    OperationIDParts(op2, n);
    if OperationID(op1, m) == OperationID(op2, n) {
      DigitsHaveNoDash(Magnitude(m));
      DigitsHaveNoDash(Magnitude(n));
      LastDash(Marked(op1, m), Digits(Magnitude(m)), Marked(op2, n), Digits(Magnitude(n)));
      DigitsInjective(Magnitude(m), Magnitude(n));
    }
  }

  predicate EndsInDash(op: string) {
    op != "" && op[|op| - 1] == '-'
  }

  /** For names that do not end in a dash, an identifier determines the operation
      and the number. */
  lemma DashlessOperationIDs(op1: string, m: int64, op2: string, n: int64)
    requires !EndsInDash(op1) && !EndsInDash(op2)
    ensures OperationID(op1, m) == OperationID(op2, n) <==> op1 == op2 && m == n
  {
    OperationIDsEqual(op1, m, op2, n);
    if Marked(op1, m) == Marked(op2, n) {
      assert EndsInDash(Marked(op1, m)) <==> m < 0;
      assert EndsInDash(Marked(op2, n)) <==> n < 0;
      assert Marked(op1, m)[..|op1|] == op1 && Marked(op2, n)[..|op2|] == op2;
    }
  }

  /** For others, it does not: two operations that share an identifier. */
  lemma DashedOperationIDs()
    ensures OperationID("Get-", 1) == OperationID("Get", -1)
  {
    OperationIDsEqual("Get-", 1, "Get", -1);
  }
}

/** The serving status, as the gRPC health server keeps it. */
module Health {
  datatype Status = Status(serving: bool, frozen: bool) {
    /** SetServingStatus: ignored after Shutdown. */
    function Set(serving: bool): Status {
      if frozen then this else Status(serving, false)
    }

    /** Shutdown: not serving, and no more changes. */
    function Shutdown(): Status {
      Status(false, true)
    }
  }

  /** As newHealthServer leaves it. */
  function Initial(): Status {
    Status(false, false)
  }
}

/** The server as the handlers and the main thread use it: each of its methods is
    one step of the gate, or the sequence of steps of one handler. */
module Server {
  import opened Base
  import opened Decimal
  import opened OperationIds
  import opened RequestGate
  import Health

  /** The answers of the Kubernetes API and of the driver. */
  datatype Answers = Answers(
    audience: Result<string>,
    review: (string, string) -> Result<TokenReview>,    // of a token, for an audience
    access: (string, string) -> Result<AccessReview>,   // of a user, to a namespace
    lookUp: (string, string) -> Result<SnapshotInfo>,   // by namespace and name
    secrets: SnapshotInfo -> Result<Option<map<string, string>>>,
    stream: CsiRequest -> Option<Code>)

  /** The audience is the one configured or else the one looked up. */
  ghost predicate IsAudience(c: Config, answers: Answers, audience: string) {
    if c.audience != "" then audience == c.audience else answers.audience == Ok(audience)
  }

  /** The review of the token says that it is authentic, for the audience, and names
      the user. */
  ghost predicate IsUser(c: Config, answers: Answers, token: string, user: string) {
    exists audience, review: TokenReview ::
      && IsAudience(c, answers, audience) && answers.review(token, audience) == Ok(review)
      && review.authenticated && audience in review.audiences && user == review.user
  }

  /** ... or it says that it is not. */
  ghost predicate NotAuthentic(c: Config, answers: Answers, token: string) {
    exists audience, review: TokenReview ::
      && IsAudience(c, answers, audience) && answers.review(token, audience) == Ok(review)
      && (!review.authenticated || audience !in review.audiences)
  }

  /** The user of the token may read the snapshots of the namespace: the access is
      allowed, and not denied. */
  ghost predicate Permitted(c: Config, answers: Answers, token: string, namespace: string) {
    exists user, access: AccessReview ::
      IsUser(c, answers, token, user) && answers.access(user, namespace) == Ok(access) && access.allowed && !access.denied
  }

  /** ... or may not. */
  ghost predicate NotPermitted(c: Config, answers: Answers, token: string, namespace: string) {
    exists user, access: AccessReview ::
      IsUser(c, answers, token, user) && answers.access(user, namespace) == Ok(access) && (!access.allowed || access.denied)
  }

  /** The snapshot of a name is one of this driver, and its secrets are found. */
  ghost predicate Resolves(c: Config, answers: Answers, namespace: string, name: string, handle: string, secrets: Option<map<string, string>>) {
    exists info: SnapshotInfo ::
      && answers.lookUp(namespace, name) == Ok(info) && info.driverName == c.driverName && handle == info.snapshotHandle
      && answers.secrets(info) == Ok(secrets)
  }

  /** The snapshot that a request names is resolved, and this is the call that then
      asks the driver for what the request asks for. */
  ghost predicate IsCallFor(c: Config, answers: Answers, req: Request, csiReq: CsiRequest) {
    match req
    case Allocated(r) =>
      && csiReq.CsiAllocatedRequest? && Resolves(c, answers, r.namespace, r.snapshotName, csiReq.snapshotId, csiReq.secrets)
      && csiReq.startingOffset == r.startingOffset && csiReq.maxResults == r.maxResults
    case Delta(r) =>
      && csiReq.CsiDeltaRequest? && Resolves(c, answers, r.namespace, r.targetSnapshotName, csiReq.targetSnapshotId, csiReq.secrets)
      && csiReq.baseSnapshotId == r.baseSnapshotId
      && csiReq.startingOffset == r.startingOffset && csiReq.maxResults == r.maxResults
  }

  /** The snapshot that a request names is found, but is not one of this driver. */
  ghost predicate IsOfOtherDriver(c: Config, answers: Answers, req: Request) {
    var found := match req
                 case Allocated(r) => answers.lookUp(r.namespace, r.snapshotName)
                 case Delta(r) => answers.lookUp(r.namespace, r.targetSnapshotName);
    found.Ok? && found.value.driverName != c.driverName
  }

  /** No field of the request that is required is empty. */
  ghost predicate IsFilled(req: Request) {
    match req
    case Allocated(r) => r.securityToken != "" && r.namespace != "" && r.snapshotName != ""
    case Delta(r) => r.securityToken != "" && r.namespace != "" && r.baseSnapshotId != "" && r.targetSnapshotName != ""
  }

  /** The token and the namespace of a request are such that access is permitted. */
  ghost predicate Admits(c: Config, answers: Answers, req: Request) {
    match req
    case Allocated(r) => Permitted(c, answers, r.securityToken, r.namespace)
    case Delta(r) => Permitted(c, answers, r.securityToken, r.namespace)
  }

  class Server {
    const config: Config
    var status: Health.Status
    var opNumber: int64
    /** The state of the gate, all handlers included. */
    ghost var gate: State

    constructor (config: Config)
      ensures Valid() && this.config == config && gate == Initial() && !status.serving
    {
      this.config, status, opNumber, gate := config, Health.Initial(), 0, Initial();
      new;
      InitialReachable(config);
    }

    ghost predicate Valid()
      reads this
    {
      status == gate.status && opNumber == gate.opNumber && Reachable(config, gate)
    }

    /** Handler h is at a program point. */
    ghost predicate At(h: nat, req: Request, pc: Pc)
      reads this
    {
      h in gate.handlers && gate.handlers[h].req == req && gate.handlers[h].pc == pc
    }

    /** The gate takes a step. */
    ghost method Advance(step: Step)
      requires Reachable(config, gate) && Next(config, gate, step).Some?
      modifies this`gate
      ensures Reachable(config, gate) && Next(config, old(gate), step) == Some(gate)
    {
      var next := Next(config, gate, step).value;
      StepReachable(config, gate, step, next);
      gate := next;
    }

    method SetReady()
      requires Valid()
      modifies this`status, this`gate
      ensures Valid() && Next(config, old(gate), RequestGate.SetReady) == Some(gate)
      ensures status.serving <==> ShutDown !in gate.history
    {
      status := status.Set(true);
      Advance(RequestGate.SetReady);
      ReachableStatus(config, gate);
    }

    method SetNotReady()
      requires Valid()
      modifies this`status, this`gate
      ensures Valid() && Next(config, old(gate), RequestGate.SetNotReady) == Some(gate)
      ensures !status.serving
    {
      status := status.Set(false);
      Advance(RequestGate.SetNotReady);
      ReachableStatus(config, gate);
    }

    method ShuttingDown()
      requires Valid()
      modifies this`status, this`gate
      ensures Valid() && Next(config, old(gate), StartShutdown) == Some(gate)
      ensures ShutDown in gate.history && !status.serving
    {
      status := status.Shutdown();
      Advance(StartShutdown);
    }

    /** Handler h moves on. */
    ghost method Take(h: nat, input: Input)
      requires status == gate.status && opNumber == gate.opNumber && Reachable(config, gate) && h in gate.handlers
      requires RequestGate.Advance(config, status, gate.handlers[h].req, gate.handlers[h].pc, input, h).Some?
      modifies this`gate
      ensures Valid() && MovedOn(old(gate), gate, h)
      ensures gate.handlers[h].pc == RequestGate.Advance(config, status, old(gate).handlers[h].req, old(gate).handlers[h].pc, input, h).value.pc
    {
      Advance(Handle(h, input));
    }

    /** A handler arrives and gets its identifier. */
    method NewOperationID(ghost h: nat, req: Request) returns (id: string)
      requires Valid() && h !in gate.handlers
      modifies this`opNumber, this`gate
      ensures Valid() && Next(config, old(gate), Arrive(h, req)) == Some(gate)
      ensures forall g :: g in gate.handlers ==> (gate.handlers[g].opID == id <==> SharesID(gate, g, h))
      ensures At(h, req, Validating) && id == gate.handlers[h].opID && gate.handlers == old(gate).handlers[h := gate.handlers[h]]
      ensures id == (match req case Allocated(_) => "GetMetadataAllocated" case Delta(_) => "GetMetadataDelta") + "-" + Numeral(opNumber as int)
    {
      opNumber := Incremented(opNumber);
      id := OperationID(OpName(req), opNumber);
      Advance(Arrive(h, req));
      ReachableIDs(config, gate, h);
    }

    method IsCSIDriverReady(ghost h: nat) returns (failure: Option<Code>)
      requires Valid() && h in gate.handlers && gate.handlers[h].pc.CheckingReady?
      modifies this`gate
      ensures Valid() && Next(config, old(gate), Handle(h, CheckReady)) == Some(gate) && MovedOn(old(gate), gate, h)
      ensures Stopped(h, failure) || (failure.None? && gate.handlers[h].pc.LookingUp?)
      ensures failure == if status.serving then None else Some(Unavailable)
      ensures ShutDown in gate.history ==> failure.Some?
    {
      Advance(Handle(h, CheckReady));
      ReachableStatus(config, gate);
      if status.serving { return None; }
      return Some(Unavailable);
    }

    /** Handler h has stopped before the driver was called. */
    ghost predicate Stopped(h: nat, failure: Option<Code>)
      reads this
    {
      && failure.Some? && h in gate.handlers && gate.handlers[h].pc.Finished?
      && gate.handlers[h].pc.code == failure && !gate.handlers[h].pc.passed.Streaming?
    }

    /** Finds the user of a token that is authentic, and tells one that is not from
        answers that failed. */
    method AuthenticateRequest(ghost h: nat, ghost req: Request, token: string, answers: Answers) returns (failure: Option<Code>, user: string)
      requires Valid() && At(h, req, FindingAudience) && token == req.SecurityToken()
      modifies this`gate
      ensures Valid() && MovedOn(old(gate), gate, h)
      ensures Stopped(h, failure) || (failure.None? && gate.handlers[h].pc.Authorizing? && gate.handlers[h].pc.user == user)
      ensures failure.None? ==> IsUser(config, answers, token, user)
      ensures failure.Some? ==> forall other :: !IsUser(config, answers, token, other)
      ensures failure == Some(Unauthenticated) <==> NotAuthentic(config, answers, token)
      ensures failure.Some? ==> failure.value == Unauthenticated || failure.value == Internal
    {
      user := "";
      var audience := config.audience;
      Take(h, FindAudience(answers.audience));
      if audience == "" {
        if answers.audience.Err? { return Some(Internal), user; }
        audience := answers.audience.value;
      }
      assert IsAudience(config, answers, audience);
      var review := answers.review(token, audience);
      Take(h, Authenticate(review));
      if review.Err? { return Some(Internal), user; }
      if !(review.value.authenticated && audience in review.value.audiences) { return Some(Unauthenticated), user; }
      return None, review.value.user;
    }

    /** Passes a handler whose user is permitted to read the snapshots of the
        namespace, and no other; tells a token that is not authentic and an access
        that is not permitted from answers that failed. */
    method AuthenticateAndAuthorize(ghost h: nat, ghost req: Request, token: string, namespace: string, answers: Answers) returns (failure: Option<Code>)
      requires Valid() && At(h, req, FindingAudience) && token == req.SecurityToken() && namespace == req.Namespace()
      modifies this`gate
      ensures Valid() && MovedOn(old(gate), gate, h)
      ensures Stopped(h, failure) || (failure.None? && gate.handlers[h].pc.CheckingReady?)
      ensures failure.None? <==> Permitted(config, answers, token, namespace)
      ensures failure == Some(Unauthenticated) <==> NotAuthentic(config, answers, token)
      ensures failure == Some(PermissionDenied) <==> NotPermitted(config, answers, token, namespace)
      ensures failure.Some? ==> failure.value == Unauthenticated || failure.value == PermissionDenied || failure.value == Internal
    {
      var user;
      failure, user := AuthenticateRequest(h, req, token, answers);
      if failure.Some? { return; }
      OneUser(config, answers, token, user);
      var access := answers.access(user, namespace);
      Take(h, Authorize(access));
      if access.Err? { return Some(Internal); }
      if !Allows(access.value) { return Some(PermissionDenied); }
      return None;
    }

    /** From a server found ready to the end of the stream. */
    method CallDriver(ghost h: nat, req: Request, answers: Answers) returns (code: Option<Code>)
      requires Valid() && h in gate.handlers && gate.handlers[h].req == req && gate.handlers[h].pc.LookingUp?
      modifies this`gate
      ensures Valid() && MovedOn(old(gate), gate, h)
      ensures gate.handlers[h].pc.Finished? && gate.handlers[h].pc.code == code
      ensures gate.handlers[h].pc.passed.Streaming? ==>
                IsCallFor(config, answers, req, gate.handlers[h].pc.passed.csiReq) && answers.stream(gate.handlers[h].pc.passed.csiReq) == code
      ensures !gate.handlers[h].pc.passed.Streaming? ==>
                && (forall csiReq :: !IsCallFor(config, answers, req, csiReq))
                && code == Some(if IsOfOtherDriver(config, answers, req) then InvalidArgument else Unavailable)
    {
      var info := answers.lookUp(req.Namespace(), req.SnapshotName());
      Take(h, LookUp(info));
      if info.Err? { return Some(Unavailable); }
      if info.value.driverName != config.driverName { return Some(InvalidArgument); }
      var secrets := answers.secrets(info.value);
      Take(h, RequestGate.CallDriver(secrets));
      if secrets.Err? { return Some(Unavailable); }
      var csiReq := ToCsi(req, info.value, secrets.value);
      code := answers.stream(csiReq);
      Take(h, EndStream(code));
    }

    /** The part of a handler that needs nothing from outside. */
    method Admit(ghost h: nat, req: Request) returns (failure: Option<Code>, id: string)
      requires Valid() && h !in gate.handlers
      modifies this`opNumber, this`gate
      ensures Valid() && h in gate.handlers && gate.handlers == old(gate).handlers[h := gate.handlers[h]]
      ensures gate.handlers[h].req == req && gate.handlers[h].opID == id
      ensures Stopped(h, failure) || (failure.None? && gate.handlers[h].pc.FindingAudience?)
      ensures failure.None? <==> IsFilled(req)
      ensures failure.Some? ==> failure.value == InvalidArgument
    {
      id := NewOperationID(h, req);
      failure := if IsValid(req) then None else Some(InvalidArgument);
      ghost var arrived := gate.handlers[h];
      Take(h, Validate);
      UpdateTwice(old(gate).handlers, h, arrived, gate.handlers[h]);
    }

    /** The gate in front of the driver. */
    method PassGate(ghost h: nat, req: Request, answers: Answers) returns (failure: Option<Code>)
      requires Valid() && At(h, req, FindingAudience)
      modifies this`gate
      ensures Valid() && MovedOn(old(gate), gate, h)
      ensures Stopped(h, failure) || (failure.None? && gate.handlers[h].pc.LookingUp?)
      ensures failure.None? <==> Admits(config, answers, req) && status.serving
      ensures Admits(config, answers, req) && !status.serving ==> failure == Some(Unavailable)
      ensures NotAuthentic(config, answers, req.SecurityToken()) ==> failure == Some(Unauthenticated)
      ensures NotPermitted(config, answers, req.SecurityToken(), req.Namespace()) ==> failure == Some(PermissionDenied)
    {
      failure := AuthenticateAndAuthorize(h, req, req.SecurityToken(), req.Namespace(), answers);
      if failure.None? {
        failure := IsCSIDriverReady(h);
      }
    }

    /** A whole handler, when no other runs meanwhile: it takes the steps of the
        gate, ends with the code it stopped with, and succeeds exactly if the request
        is complete, its user is permitted, the server is serving, the snapshot is
        resolved, and the driver succeeds on the call for it. */
    method Serve(ghost h: nat, req: Request, answers: Answers) returns (code: Option<Code>, id: string)
      requires Valid() && h !in gate.handlers
      modifies this`opNumber, this`gate
      ensures Valid() && h in gate.handlers && gate.handlers == old(gate).handlers[h := gate.handlers[h]]
      ensures gate.handlers[h].req == req && gate.handlers[h].opID == id
      ensures gate.handlers[h].pc.Finished? && gate.handlers[h].pc.code == code
      ensures code.None? ==> Succeeded(config, gate, h)
      ensures code.None? <==>
                && IsFilled(req) && Admits(config, answers, req) && status.serving
                && exists csiReq :: IsCallFor(config, answers, req, csiReq) && answers.stream(csiReq).None?
      ensures !IsFilled(req) || !Admits(config, answers, req) || !status.serving ==> code.Some? && !gate.handlers[h].pc.passed.Streaming?
      ensures !IsFilled(req) ==> code == Some(InvalidArgument)
      ensures IsFilled(req) && NotAuthentic(config, answers, req.SecurityToken()) ==> code == Some(Unauthenticated)
      ensures IsFilled(req) && NotPermitted(config, answers, req.SecurityToken(), req.Namespace()) ==> code == Some(PermissionDenied)
      ensures IsFilled(req) && Admits(config, answers, req) && !status.serving ==> code == Some(Unavailable)
    {
      code, id := Admit(h, req);
      if code.Some? { return; }
      code := PassGate(h, req, answers);
      if code.Some? { return; }
      code := CallDriver(h, req, answers);
      if code.None? {
        SuccessPassedGate(config, gate, h);
      }
    }
  }

  /** The answers name one user at most, and then the token is authentic. */
  lemma OneUser(c: Config, answers: Answers, token: string, user: string)
    requires IsUser(c, answers, token, user)
    ensures !NotAuthentic(c, answers, token) && forall other :: IsUser(c, answers, token, other) ==> other == user
  {
  }

  lemma UpdateTwice(handlers: map<nat, Handler>, h: nat, a: Handler, b: Handler)
    ensures handlers[h := a][h := b] == handlers[h := b]
  {
  }

  /** Handler h has called the driver, after the gate. */
  ghost predicate Succeeded(c: Config, s: State, h: nat) {
    && h in s.handlers && s.handlers[h].pc.Finished? && s.handlers[h].pc.passed.Streaming?
    && PassedGate(c, h, s.handlers[h].req, s.handlers[h].pc.passed.csiReq, Trail(s.history, h))
  }

  lemma SuccessPassedGate(c: Config, s: State, h: nat)
    requires Reachable(c, s) && h in s.handlers && s.handlers[h].pc.Finished? && s.handlers[h].pc.code.None?
    ensures Succeeded(c, s, h)
  {
    ReachableInv(c, s);
    SuccessCallsDriver(c, h, s.handlers[h].req, s.handlers[h].pc);
    CalledPc(c, s.handlers[h].req, s.handlers[h].pc, h, s.handlers[h].pc.passed.csiReq);
  }

  /** Nothing but the program point of handler h has changed, and history is added
      to. */
  ghost predicate MovedOn(s: State, s': State, h: nat) {
    && h in s.handlers && h in s'.handlers
    && s'.handlers == s.handlers[h := s.handlers[h].(pc := s'.handlers[h].pc)]
    && s'.status == s.status && s'.opNumber == s.opNumber && s.history <= s'.history
  }
}
