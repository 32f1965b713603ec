/** Handlers of both calls, interleaved with each other and with the transitions
    of the serving status.  Every answer of the Kubernetes API and of the driver
    is part of a step, so a run fixes them all. */
module RequestGate {
  import opened Base
  import opened Api
  import opened OperationIds
  import Health

  /** A request of either kind. */
  datatype Request = Allocated(forAllocated: AllocatedRequest) | Delta(forDelta: DeltaRequest) {
    function SecurityToken(): string { if Allocated? then forAllocated.securityToken else forDelta.securityToken }
    function Namespace(): string { if Allocated? then forAllocated.namespace else forDelta.namespace }
    /** The snapshot that is looked up by name. */
    function SnapshotName(): string { if Allocated? then forAllocated.snapshotName else forDelta.targetSnapshotName }
  }

  datatype CsiRequest =
    | CsiAllocatedRequest(snapshotId: string, startingOffset: int64, maxResults: int32, secrets: Option<map<string, string>>)
    | CsiDeltaRequest(baseSnapshotId: string, targetSnapshotId: string, startingOffset: int64, maxResults: int32, secrets: Option<map<string, string>>)

  datatype Config = Config(driverName: string, audience: string)

  datatype TokenReview = TokenReview(authenticated: bool, audiences: seq<string>, user: string)
  datatype AccessReview = AccessReview(allowed: bool, denied: bool)
  datatype SnapshotInfo = SnapshotInfo(driverName: string, snapshotHandle: string)

  function OpName(req: Request): string {
    match req
    case Allocated(_) => "GetMetadataAllocated"
    case Delta(_) => "GetMetadataDelta"
  }

  /** Every required field is present. */
  predicate IsValid(req: Request) {
    && req.SecurityToken() != "" && req.Namespace() != ""
    && match req
       case Allocated(r) => r.snapshotName != ""
       case Delta(r) => r.baseSnapshotId != "" && r.targetSnapshotName != ""
  }

  predicate Allows(review: AccessReview) {
    review.allowed && !review.denied
  }

  function ToCsi(req: Request, info: SnapshotInfo, secrets: Option<map<string, string>>): CsiRequest {
    match req
    case Allocated(r) => CsiAllocatedRequest(info.snapshotHandle, r.startingOffset, r.maxResults, secrets)
    case Delta(r) => CsiDeltaRequest(r.baseSnapshotId, info.snapshotHandle, r.startingOffset, r.maxResults, secrets)
  }

  /** Where a handler is, with what it has learnt. */
  datatype Pc =
    | Validating
    | FindingAudience
    | Authenticating(audience: string)
    | Authorizing(audience: string, user: string)
    | CheckingReady(audience: string, user: string)
    | LookingUp(audience: string, user: string)
    | GettingSecrets(audience: string, user: string, info: SnapshotInfo)
    | Streaming(audience: string, user: string, info: SnapshotInfo, csiReq: CsiRequest)
    | Finished(passed: Pc, code: Option<Code>)   // the point at which it stopped

  /** A handler is the arrival-th to arrive; number is what the counter made of that. */
  datatype Handler = Handler(req: Request, arrival: nat, number: int64, opID: string, pc: Pc)

  /** What has happened, in order. */
  datatype Event =
    | Validated(h: nat)
    | AudienceFound(h: nat, audience: string)   // looked up, none being configured
    | Authenticated(h: nat, token: string, audience: string, user: string)
    | Authorized(h: nat, user: string, namespace: string)
    | FoundReady(h: nat)
    | LookedUp(h: nat, namespace: string, name: string, info: SnapshotInfo)
    | DriverCalled(h: nat, csiReq: CsiRequest)
    | StatusSet(serving: bool)
    | ShutDown

  datatype State = State(status: Health.Status, opNumber: int64, handlers: map<nat, Handler>, history: seq<Event>)

  /** What a handler acts on next: nothing but the request and the status, or an
      answer from outside. */
  datatype Input =
    | Validate
    | FindAudience(answer: Result<string>)
    | Authenticate(review: Result<TokenReview>)
    | Authorize(access: Result<AccessReview>)
    | CheckReady
    | LookUp(info: Result<SnapshotInfo>)
    | CallDriver(secrets: Result<Option<map<string, string>>>)
    | EndStream(code: Option<Code>)

  datatype Step =
    | Arrive(h: nat, req: Request)
    | Handle(h: nat, input: Input)
    | SetReady
    | SetNotReady
    | StartShutdown

  function Initial(): State {
    State(Health.Initial(), 0, map[], [])
  }

  /** Where a handler goes, and what happens: authenticateAndAuthorize and the
      checks around it, branch by branch. */
  datatype Outcome = Outcome(pc: Pc, event: Option<Event>)

  function Pass(pc: Pc, event: Event): Option<Outcome> {
    Some(Outcome(pc, Some(event)))
  }

  function Fail(pc: Pc, code: Code): Option<Outcome> {
    Some(Outcome(Finished(pc, Some(code)), None))
  }

  function Advance(c: Config, status: Health.Status, req: Request, pc: Pc, input: Input, h: nat): Option<Outcome> {
    match (input, pc)
    case (Validate, Validating) =>
      if IsValid(req) then Pass(FindingAudience, Validated(h)) else Fail(pc, InvalidArgument)
    case (FindAudience(answer), FindingAudience) =>
      if c.audience != "" then Some(Outcome(Authenticating(c.audience), None))
      else if answer.Ok? then Pass(Authenticating(answer.value), AudienceFound(h, answer.value))
      else Fail(pc, Internal)
    case (Authenticate(review), Authenticating(audience)) =>
      if review.Err? then Fail(pc, Internal)
      else if review.value.authenticated && audience in review.value.audiences then
        Pass(Authorizing(audience, review.value.user), Authenticated(h, req.SecurityToken(), audience, review.value.user))
      else Fail(pc, Unauthenticated)
    case (Authorize(access), Authorizing(audience, user)) =>
      if access.Err? then Fail(pc, Internal)
      else if Allows(access.value) then Pass(CheckingReady(audience, user), Authorized(h, user, req.Namespace()))
      else Fail(pc, PermissionDenied)
    case (CheckReady, CheckingReady(audience, user)) =>
      if status.serving then Pass(LookingUp(audience, user), FoundReady(h)) else Fail(pc, Unavailable)
    case (LookUp(info), LookingUp(audience, user)) =>
      if info.Err? then Fail(pc, Unavailable)
      else if info.value.driverName != c.driverName then Fail(pc, InvalidArgument)
      else Pass(GettingSecrets(audience, user, info.value), LookedUp(h, req.Namespace(), req.SnapshotName(), info.value))
    case (CallDriver(secrets), GettingSecrets(audience, user, info)) =>
      if secrets.Err? then Fail(pc, Unavailable)
      else
        var csiReq := ToCsi(req, info, secrets.value);
        Pass(Streaming(audience, user, info, csiReq), DriverCalled(h, csiReq))
    case (EndStream(code), Streaming(_, _, _, _)) => Some(Outcome(Finished(pc, code), None))
    case _ => None
  }

  function Log(history: seq<Event>, event: Option<Event>): seq<Event> {
    if event.None? then history else history + [event.value]
  }

  function Next(c: Config, s: State, step: Step): Option<State> {
    match step
    case Arrive(h, req) =>
      if h in s.handlers then None
      else
        var n := Incremented(s.opNumber);
        Some(s.(opNumber := n, handlers := s.handlers[h := Handler(req, |s.handlers| + 1, n, OperationID(OpName(req), n), Validating)]))
    case SetReady => Some(s.(status := s.status.Set(true), history := s.history + [StatusSet(true)]))
    case SetNotReady => Some(s.(status := s.status.Set(false), history := s.history + [StatusSet(false)]))
    case StartShutdown => Some(s.(status := s.status.Shutdown(), history := s.history + [ShutDown]))
    case Handle(h, input) =>
      if h !in s.handlers then None
      else
        var handler := s.handlers[h];
        match Advance(c, s.status, handler.req, handler.pc, input, h)
        case None => None
        case Some(Outcome(pc, event)) =>
          Some(s.(handlers := s.handlers[h := handler.(pc := pc)], history := Log(s.history, event)))
  }

  // ----- the trail of one handler

  predicate IsOf(e: Event, h: nat) {
    !e.StatusSet? && !e.ShutDown? && e.h == h
  }

  /** The events of handler h, in order. */
  function Trail(history: seq<Event>, h: nat): seq<Event> {
    if history == [] then []
    else
      var last := history[|history| - 1];
      Trail(history[..|history| - 1], h) + if IsOf(last, h) then [last] else []
  }

  /** The trail that leads to a program point. */
  function TrailTo(c: Config, h: nat, req: Request, pc: Pc): seq<Event> {
    match pc
    case Validating => []
    case FindingAudience => [Validated(h)]
    case Authenticating(audience) => AudienceTrail(c, h, audience)
    case Authorizing(audience, user) => AudienceTrail(c, h, audience) + [Authenticated(h, req.SecurityToken(), audience, user)]
    case CheckingReady(audience, user) => AuthorizedTrail(c, h, req, audience, user)
    case LookingUp(audience, user) => AuthorizedTrail(c, h, req, audience, user) + [FoundReady(h)]
    case GettingSecrets(audience, user, info) => AuthorizedTrail(c, h, req, audience, user) + [FoundReady(h), LookedUp(h, req.Namespace(), req.SnapshotName(), info)]
    case Streaming(audience, user, info, csiReq) =>
      AuthorizedTrail(c, h, req, audience, user) + [FoundReady(h), LookedUp(h, req.Namespace(), req.SnapshotName(), info), DriverCalled(h, csiReq)]
    case Finished(passed, _) => TrailTo(c, h, req, passed)
  }

  /** The audience is the one configured or else the one found. */
  function AudienceTrail(c: Config, h: nat, audience: string): seq<Event> {
    if c.audience != "" then [Validated(h)] else [Validated(h), AudienceFound(h, audience)]
  }

  function AuthorizedTrail(c: Config, h: nat, req: Request, audience: string, user: string): seq<Event> {
    AudienceTrail(c, h, audience) + [Authenticated(h, req.SecurityToken(), audience, user), Authorized(h, user, req.Namespace())]
  }

  // ----- the invariant

  /** The codes with which a handler can fail at a program point. */
  ghost predicate Explains(pc: Pc, code: Code) {
    match pc
    case Validating => code == InvalidArgument
    case FindingAudience => code == Internal
    case Authenticating(_) => code == Internal || code == Unauthenticated
    case Authorizing(_, _) => code == Internal || code == PermissionDenied
    case CheckingReady(_, _) => code == Unavailable
    case LookingUp(_, _) => code == Unavailable || code == InvalidArgument
    case GettingSecrets(_, _, _) => code == Unavailable
    case Streaming(_, _, _, _) => true
    case Finished(_, _) => false
  }

  /** What a handler has learnt agrees with the request and the configuration. */
  ghost predicate Sound(c: Config, req: Request, pc: Pc) {
    match pc
    case Validating => true
    case FindingAudience => IsValid(req)
    case Authenticating(audience) => IsValid(req) && (c.audience != "" ==> audience == c.audience)
    case Authorizing(audience, _) => IsValid(req) && (c.audience != "" ==> audience == c.audience)
    case CheckingReady(audience, _) => IsValid(req) && (c.audience != "" ==> audience == c.audience)
    case LookingUp(audience, _) => IsValid(req) && (c.audience != "" ==> audience == c.audience)
    case GettingSecrets(audience, _, info) => IsValid(req) && (c.audience != "" ==> audience == c.audience) && info.driverName == c.driverName
    case Streaming(audience, _, info, csiReq) =>
      IsValid(req) && (c.audience != "" ==> audience == c.audience) && info.driverName == c.driverName && csiReq == ToCsi(req, info, csiReq.secrets)
    case Finished(passed, code) => !passed.Finished? && Sound(c, req, passed) && (if code.Some? then Explains(passed, code.value) else passed.Streaming?)
  }

  ghost predicate OnTrail(c: Config, s: State) {
    && (forall h :: h in s.handlers ==>
          Sound(c, s.handlers[h].req, s.handlers[h].pc) && Trail(s.history, h) == TrailTo(c, h, s.handlers[h].req, s.handlers[h].pc))
    && forall h: nat :: h !in s.handlers ==> Trail(s.history, h) == []
  }

  /** The serving status after one more event. */
  function StatusAfter(status: Health.Status, e: Event): Health.Status {
    match e
    case StatusSet(serving) => status.Set(serving)
    case ShutDown => status.Shutdown()
    case _ => status
  }

  /** The serving status after a history. */
  function Replay(history: seq<Event>): Health.Status {
    if history == [] then Health.Initial()
    else StatusAfter(Replay(history[..|history| - 1]), history[|history| - 1])
  }

  ghost predicate ReadyWhenFound(s: State) {
    && s.status == Replay(s.history)
    && forall e :: 0 <= e < |s.history| && s.history[e].FoundReady? ==> Replay(s.history[..e]).serving
  }

  /** The number and the identifier of a handler are those of its arrival. */
  ghost predicate NumberedHandler(handler: Handler) {
    && handler.number == Wrapped(handler.arrival)
    && handler.opID == OperationID(OpName(handler.req), handler.number)
  }

  ghost predicate NumberedHandlers(handlers: map<nat, Handler>) {
    && (forall h :: h in handlers ==> NumberedHandler(handlers[h]) && 0 < handlers[h].arrival <= |handlers|)
    && forall g, h :: g in handlers && h in handlers && g != h ==> handlers[g].arrival != handlers[h].arrival
  }

  /** The counter counts the handlers, as far as an int64 can. */
  ghost predicate Numbered(s: State) {
    s.opNumber == Wrapped(|s.handlers|) && NumberedHandlers(s.handlers)
  }

  ghost predicate Inv(c: Config, s: State) {
    OnTrail(c, s) && ReadyWhenFound(s) && Numbered(s)
  }

  lemma TrailLog(history: seq<Event>, event: Option<Event>, h: nat)
    ensures Trail(Log(history, event), h) == Log(Trail(history, h), if event.Some? && IsOf(event.value, h) then event else None)
  {
    if event.Some? {
      assert (history + [event.value])[..|history|] == history;
    }
  }

  lemma ReplaySnoc(history: seq<Event>, e: Event)
    ensures Replay(history + [e]) == StatusAfter(Replay(history), e)
  {
    assert (history + [e])[..|history|] == history;
  }

  lemma AdvanceIsSound(c: Config, status: Health.Status, req: Request, pc: Pc, input: Input, h: nat)
    requires Sound(c, req, pc) && Advance(c, status, req, pc, input, h).Some?
    ensures Sound(c, req, Advance(c, status, req, pc, input, h).value.pc)
  {
  }

  lemma AdvanceLogs(c: Config, status: Health.Status, req: Request, pc: Pc, input: Input, h: nat)
    requires Advance(c, status, req, pc, input, h).Some?
    ensures
      var event := Advance(c, status, req, pc, input, h).value.event;
      event.Some? ==> IsOf(event.value, h) && (event.value.FoundReady? ==> status.serving)
  {
  }

  /** The steps up to the readiness check. */
  lemma EarlyTrail(c: Config, status: Health.Status, req: Request, pc: Pc, input: Input, h: nat)
    requires Sound(c, req, pc) && Advance(c, status, req, pc, input, h).Some?
    requires pc.Validating? || pc.FindingAudience? || pc.Authenticating? || pc.Authorizing?
    ensures
      var out := Advance(c, status, req, pc, input, h).value;
      TrailTo(c, h, req, out.pc) == Log(TrailTo(c, h, req, pc), out.event)
  {
  }

  /** The others. */
  lemma LateTrail(c: Config, status: Health.Status, req: Request, pc: Pc, input: Input, h: nat)
    requires Sound(c, req, pc) && Advance(c, status, req, pc, input, h).Some?
    requires pc.CheckingReady? || pc.LookingUp? || pc.GettingSecrets? || pc.Streaming?
    ensures
      var out := Advance(c, status, req, pc, input, h).value;
      TrailTo(c, h, req, out.pc) == Log(TrailTo(c, h, req, pc), out.event)
  {
  }

  /** One handler's step extends its own trail, keeps what it has learnt, and
      passes the readiness check only while the server is serving. */
  lemma AdvanceExtendsTrail(c: Config, status: Health.Status, req: Request, pc: Pc, input: Input, h: nat)
    requires Sound(c, req, pc) && Advance(c, status, req, pc, input, h).Some?
    ensures
      var out := Advance(c, status, req, pc, input, h).value;
      && Sound(c, req, out.pc)
      && TrailTo(c, h, req, out.pc) == Log(TrailTo(c, h, req, pc), out.event)
      && (out.event.Some? ==> IsOf(out.event.value, h))
      && (out.event.Some? && out.event.value.FoundReady? ==> status.serving)
  {
    AdvanceIsSound(c, status, req, pc, input, h);
    AdvanceLogs(c, status, req, pc, input, h);
    if pc.Validating? || pc.FindingAudience? || pc.Authenticating? || pc.Authorizing? {
      EarlyTrail(c, status, req, pc, input, h);
    } else {
      LateTrail(c, status, req, pc, input, h);
    }
  }

  lemma HandleKeepsOnTrail(c: Config, s: State, h: nat, input: Input)
    requires OnTrail(c, s) && Next(c, s, Handle(h, input)).Some?
    ensures OnTrail(c, Next(c, s, Handle(h, input)).value)
  {
    var s', handler := Next(c, s, Handle(h, input)).value, s.handlers[h];
    var out := Advance(c, s.status, handler.req, handler.pc, input, h).value;
    AdvanceExtendsTrail(c, s.status, handler.req, handler.pc, input, h);
    forall g: nat ensures Trail(s'.history, g) == if g == h then TrailTo(c, h, handler.req, out.pc) else Trail(s.history, g) {
      TrailLog(s.history, out.event, g);
    }
  }

  lemma StatusKeepsOnTrail(c: Config, s: State, e: Event, s': State)
    requires OnTrail(c, s) && (e.StatusSet? || e.ShutDown?)
    requires s'.handlers == s.handlers && s'.history == s.history + [e]
    ensures OnTrail(c, s')
  {
    forall h: nat ensures Trail(s'.history, h) == Trail(s.history, h) {
      TrailLog(s.history, Some(e), h);
    }
  }

  lemma NextOnTrail(c: Config, s: State, step: Step)
    requires OnTrail(c, s) && Next(c, s, step).Some?
    ensures OnTrail(c, Next(c, s, step).value)
  {
    match step
    case Arrive(_, _) =>
    case Handle(h, input) => HandleKeepsOnTrail(c, s, h, input);
    case SetReady => StatusKeepsOnTrail(c, s, StatusSet(true), Next(c, s, step).value);
    case SetNotReady => StatusKeepsOnTrail(c, s, StatusSet(false), Next(c, s, step).value);
    case StartShutdown => StatusKeepsOnTrail(c, s, ShutDown, Next(c, s, step).value);
  }

  lemma EventKeepsReady(history: seq<Event>, e: Event)
    requires forall i :: 0 <= i < |history| && history[i].FoundReady? ==> Replay(history[..i]).serving
    requires e.FoundReady? ==> Replay(history).serving
    ensures forall i :: 0 <= i < |history + [e]| && (history + [e])[i].FoundReady? ==> Replay((history + [e])[..i]).serving
  {
    forall i | 0 <= i < |history + [e]| && (history + [e])[i].FoundReady? ensures Replay((history + [e])[..i]).serving {
      assert (history + [e])[..i] == history[..i];
      assert history[..|history|] == history;
    }
  }

  lemma NextReadyWhenFound(c: Config, s: State, step: Step)
    requires OnTrail(c, s) && ReadyWhenFound(s) && Next(c, s, step).Some?
    ensures ReadyWhenFound(Next(c, s, step).value)
  {
    match step
    case Arrive(_, _) =>
    case SetReady => ReplaySnoc(s.history, StatusSet(true)); EventKeepsReady(s.history, StatusSet(true));
    case SetNotReady => ReplaySnoc(s.history, StatusSet(false)); EventKeepsReady(s.history, StatusSet(false));
    case StartShutdown => ReplaySnoc(s.history, ShutDown); EventKeepsReady(s.history, ShutDown);
    case Handle(h, input) =>
      var handler := s.handlers[h];
      AdvanceExtendsTrail(c, s.status, handler.req, handler.pc, input, h);
      var event := Advance(c, s.status, handler.req, handler.pc, input, h).value.event;
      if event.Some? {
        ReplaySnoc(s.history, event.value);
        EventKeepsReady(s.history, event.value);
      }
  }

  lemma AddHandler(handlers: map<nat, Handler>, h: nat, added: Handler)
    requires NumberedHandlers(handlers) && h !in handlers
    requires NumberedHandler(added) && added.arrival == |handlers| + 1
    ensures |handlers[h := added]| == |handlers| + 1 && NumberedHandlers(handlers[h := added])
  {
  }

  lemma ArriveKeepsNumbered(c: Config, s: State, h: nat, req: Request)
    requires Numbered(s) && h !in s.handlers
    ensures Numbered(Next(c, s, Arrive(h, req)).value)
  {
    WrappedStep(|s.handlers|);
    AddHandler(s.handlers, h, Next(c, s, Arrive(h, req)).value.handlers[h]);
  }

  lemma UpdateKeepsSize(handlers: map<nat, Handler>, h: nat, handler: Handler)
    requires h in handlers
    ensures |handlers[h := handler]| == |handlers|
  {
    assert handlers[h := handler].Keys == handlers.Keys;
    assert |handlers[h := handler].Keys| == |handlers[h := handler]|;
  }

  lemma MoveHandler(handlers: map<nat, Handler>, h: nat, pc: Pc)
    requires NumberedHandlers(handlers) && h in handlers
    ensures |handlers[h := handlers[h].(pc := pc)]| == |handlers| && NumberedHandlers(handlers[h := handlers[h].(pc := pc)])
  {
    var moved := handlers[h := handlers[h].(pc := pc)];
    UpdateKeepsSize(handlers, h, moved[h]);
    forall g | g in moved ensures NumberedHandler(moved[g]) && moved[g].arrival == handlers[g].arrival {
      assert NumberedHandler(handlers[g]);
    }
  }

  lemma HandleKeepsNumbered(c: Config, s: State, h: nat, input: Input)
    requires Numbered(s) && Next(c, s, Handle(h, input)).Some?
    ensures Numbered(Next(c, s, Handle(h, input)).value)
  {
    var out := Advance(c, s.status, s.handlers[h].req, s.handlers[h].pc, input, h).value;
    MoveHandler(s.handlers, h, out.pc);
  }

  lemma NextNumbered(c: Config, s: State, step: Step)
    requires Numbered(s) && Next(c, s, step).Some?
    ensures Numbered(Next(c, s, step).value)
  {
    match step
    case Arrive(h, req) => ArriveKeepsNumbered(c, s, h, req);
    case Handle(h, input) => HandleKeepsNumbered(c, s, h, input);
    case SetReady =>
    case SetNotReady =>
    case StartShutdown =>
  }

  lemma NextInv(c: Config, s: State, step: Step)
    requires Inv(c, s) && Next(c, s, step).Some?
    ensures Inv(c, Next(c, s, step).value)
  {
    NextOnTrail(c, s, step);
    NextReadyWhenFound(c, s, step);
    NextNumbered(c, s, step);
  }

  lemma InitialInv(c: Config)
    ensures Inv(c, Initial())
  {
  }

  // ----- runs

  ghost predicate IsRun(c: Config, states: seq<State>, steps: seq<Step>) {
    && |states| == |steps| + 1 && states[0] == Initial()
    && forall i :: 0 <= i < |steps| ==> Next(c, states[i], steps[i]) == Some(states[i + 1])
  }

  lemma RunStartInv(c: Config, states: seq<State>, steps: seq<Step>, i: nat)
    requires IsRun(c, states, steps) && i == 0
    ensures Inv(c, states[i])
  {
    assert states[i] == Initial();
    InitialInv(c);
  }

  lemma RunStepInv(c: Config, states: seq<State>, steps: seq<Step>, k: nat, i: nat)
    requires IsRun(c, states, steps) && i == k + 1 && i < |states| && Inv(c, states[k])
    ensures Inv(c, states[i])
  {
    assert Next(c, states[k], steps[k]) == Some(states[i]);
    NextInv(c, states[k], steps[k]);
  }

  lemma {:induction false} RunInv(c: Config, states: seq<State>, steps: seq<Step>, i: nat)
    requires IsRun(c, states, steps) && i < |states|
    ensures Inv(c, states[i])
  {
    if i == 0 {
      RunStartInv(c, states, steps, i);
    } else {
      var k := i - 1;
      RunInv(c, states, steps, k);
      RunStepInv(c, states, steps, k, i);
    }
  }

  lemma {:induction false} RunExtends(c: Config, states: seq<State>, steps: seq<Step>, i: nat, j: nat)
    requires IsRun(c, states, steps) && i <= j < |states|
    ensures states[i].history <= states[j].history
    ensures states[i].handlers.Keys <= states[j].handlers.Keys
  {
    if i < j {
      RunExtends(c, states, steps, i, j - 1);
      assert Next(c, states[j - 1], steps[j - 1]) == Some(states[j]);
    }
  }

  ghost predicate EndsIn(c: Config, states: seq<State>, steps: seq<Step>, s: State) {
    IsRun(c, states, steps) && states[|steps|] == s
  }

  /** Some run leads to this state. */
  ghost predicate Reachable(c: Config, s: State) {
    exists states, steps :: EndsIn(c, states, steps, s)
  }

  lemma InitialReachable(c: Config)
    ensures Reachable(c, Initial())
  {
    assert EndsIn(c, [Initial()], [], Initial());
  }

  lemma RunSnoc(c: Config, states: seq<State>, steps: seq<Step>, step: Step, s': State)
    requires IsRun(c, states, steps) && Next(c, states[|steps|], step) == Some(s')
    ensures EndsIn(c, states + [s'], steps + [step], s')
  {
    var states', steps' := states + [s'], steps + [step];
    forall i | 0 <= i < |steps'| ensures Next(c, states'[i], steps'[i]) == Some(states'[i + 1]) {
      if i < |steps| {
        assert Next(c, states[i], steps[i]) == Some(states[i + 1]);
        assert states'[i] == states[i] && states'[i + 1] == states[i + 1] && steps'[i] == steps[i];
      } else {
        assert states'[i] == states[i] && states'[i + 1] == s' && steps'[i] == step;
      }
    }
  }

  lemma StepReachable(c: Config, s: State, step: Step, s': State)
    requires Reachable(c, s) && Next(c, s, step) == Some(s')
    ensures Reachable(c, s')
  {
    var states, steps :| EndsIn(c, states, steps, s);
    RunSnoc(c, states, steps, step, s');
  }

  lemma ReachableInv(c: Config, s: State)
    requires Reachable(c, s)
    ensures Inv(c, s)
  {
    var states, steps :| EndsIn(c, states, steps, s);
    RunInv(c, states, steps, |steps|);
  }

  // ----- safety over all interleavings

  lemma {:induction false} InTrail(history: seq<Event>, h: nat, e: Event)
    requires IsOf(e, h)
    ensures e in Trail(history, h) <==> e in history
  {
    if history != [] {
      InTrail(history[..|history| - 1], h, e);
    }
  }

  /** This has happened, in this order and nothing else, for a handler with these
      answers whose driver call is csiReq. */
  ghost predicate Passed(c: Config, h: nat, token: string, namespace: string, name: string,
                         audience: string, user: string, info: SnapshotInfo, csiReq: CsiRequest, trail: seq<Event>) {
    && token != "" && namespace != "" && name != ""
    && trail ==
         [Validated(h)] + (if c.audience == "" then [AudienceFound(h, audience)] else [])
         + [Authenticated(h, token, audience, user), Authorized(h, user, namespace),
            FoundReady(h), LookedUp(h, namespace, name, info), DriverCalled(h, csiReq)]
    && (c.audience != "" ==> audience == c.audience)
    && info.driverName == c.driverName
  }

  /** What has happened for a handler whose driver call is this one: the gates for
      what its request names, and a call of the same kind for the snapshot found. */
  ghost predicate PassedGate(c: Config, h: nat, req: Request, csiReq: CsiRequest, trail: seq<Event>) {
    match req
    case Allocated(r) =>
      && csiReq.CsiAllocatedRequest? && csiReq.startingOffset == r.startingOffset && csiReq.maxResults == r.maxResults
      && exists audience, user, info: SnapshotInfo ::
           csiReq.snapshotId == info.snapshotHandle && Passed(c, h, r.securityToken, r.namespace, r.snapshotName, audience, user, info, csiReq, trail)
    case Delta(r) =>
      && csiReq.CsiDeltaRequest? && csiReq.startingOffset == r.startingOffset && csiReq.maxResults == r.maxResults
      && csiReq.baseSnapshotId == r.baseSnapshotId && r.baseSnapshotId != ""
      && exists audience, user, info: SnapshotInfo ::
           csiReq.targetSnapshotId == info.snapshotHandle && Passed(c, h, r.securityToken, r.namespace, r.targetSnapshotName, audience, user, info, csiReq, trail)
  }

  /** The driver is called for a handler only after, in this order and once each,
      its request was found valid, the audience was found if none is configured,
      its token was authenticated for that audience, the user of that token was
      authorized for the namespace of that request, and the server was found
      serving; and it is called with what the request asks for, on a snapshot of
      its own. */
  lemma DriverCalledOnlyThroughGate(c: Config, states: seq<State>, steps: seq<Step>, i: nat, h: nat, csiReq: CsiRequest)
    requires IsRun(c, states, steps) && i < |states| && DriverCalled(h, csiReq) in states[i].history
    ensures h in states[i].handlers && PassedGate(c, h, states[i].handlers[h].req, csiReq, Trail(states[i].history, h))
  {
    var s := states[i];
    RunInv(c, states, steps, i);
    InTrail(s.history, h, DriverCalled(h, csiReq));
    assert h in s.handlers;
    CalledPc(c, s.handlers[h].req, s.handlers[h].pc, h, csiReq);
  }

  /** A code other than success is one of those of the gate at which the handler
      stopped; without a call of the driver there is no success. */
  lemma CodeNamesGate(c: Config, states: seq<State>, steps: seq<Step>, i: nat, h: nat)
    requires IsRun(c, states, steps) && i < |states| && h in states[i].handlers && states[i].handlers[h].pc.Finished?
    ensures
      var passed, code := states[i].handlers[h].pc.passed, states[i].handlers[h].pc.code;
      && (code.Some? ==> Explains(passed, code.value))
      && (code.None? ==> exists csiReq :: DriverCalled(h, csiReq) in states[i].history)
  {
    RunInv(c, states, steps, i);
    var handler := states[i].handlers[h];
    if handler.pc.code.None? {
      SuccessCallsDriver(c, h, handler.req, handler.pc);
      InTrail(states[i].history, h, DriverCalled(h, handler.pc.passed.csiReq));
    }
  }

  lemma SuccessCallsDriver(c: Config, h: nat, req: Request, pc: Pc)
    requires Sound(c, req, pc) && pc.Finished? && pc.code.None?
    ensures pc.passed.Streaming? && DriverCalled(h, pc.passed.csiReq) in TrailTo(c, h, req, pc)
  {
    var trail := TrailTo(c, h, req, pc.passed);
    assert trail[|trail| - 1] == DriverCalled(h, pc.passed.csiReq);
  }

  lemma {:induction false} CalledPc(c: Config, req: Request, pc: Pc, h: nat, csiReq: CsiRequest)
    requires Sound(c, req, pc) && DriverCalled(h, csiReq) in TrailTo(c, h, req, pc)
    ensures PassedGate(c, h, req, csiReq, TrailTo(c, h, req, pc))
  {
    if pc.Finished? {
      CalledPc(c, req, pc.passed, h, csiReq);
    } else {
      assert pc.Streaming?;
      assert Passed(c, h, req.SecurityToken(), req.Namespace(), req.SnapshotName(), pc.audience, pc.user, pc.info, csiReq, TrailTo(c, h, req, pc));
    }
  }

  // ----- the answers behind the events and the codes of a run

  /** Every event was added by some step. */
  lemma {:induction false} EventHasStep(c: Config, states: seq<State>, steps: seq<Step>, i: nat, e: Event) returns (j: nat)
    requires IsRun(c, states, steps) && i < |states| && e in states[i].history
    ensures j < i && states[j + 1].history == states[j].history + [e]
  {
    j := i - 1;
    assert Next(c, states[j], steps[j]) == Some(states[i]);
    if e in states[j].history {
      j := EventHasStep(c, states, steps, j, e);
    }
  }

  lemma {:induction false} RequestsStay(c: Config, states: seq<State>, steps: seq<Step>, i: nat, j: nat, h: nat)
    requires IsRun(c, states, steps) && i <= j < |states| && h in states[i].handlers
    ensures h in states[j].handlers && states[j].handlers[h].req == states[i].handlers[h].req
  {
    if i < j {
      RequestsStay(c, states, steps, i, j - 1, h);
      assert Next(c, states[j - 1], steps[j - 1]) == Some(states[j]);
    }
  }

  /** What an event says of the step that added it and of the request. */
  ghost predicate Grants(c: Config, serving: bool, req: Request, e: Event, input: Input) {
    match e
    case Validated(_) =>
      input.Validate? &&
        (match req
         case Allocated(r) => r.securityToken != "" && r.namespace != "" && r.snapshotName != ""
         case Delta(r) => r.securityToken != "" && r.namespace != "" && r.baseSnapshotId != "" && r.targetSnapshotName != "")
    case AudienceFound(_, audience) => input == FindAudience(Ok(audience)) && c.audience == ""
    case Authenticated(_, token, audience, user) =>
      && input.Authenticate? && input.review.Ok?
      && input.review.value.authenticated && audience in input.review.value.audiences && user == input.review.value.user
      && token == (match req case Allocated(r) => r.securityToken case Delta(r) => r.securityToken)
    case Authorized(_, _, namespace) =>
      && input.Authorize? && input.access.Ok? && input.access.value.allowed && !input.access.value.denied
      && namespace == (match req case Allocated(r) => r.namespace case Delta(r) => r.namespace)
    case FoundReady(_) => input.CheckReady? && serving
    case LookedUp(_, namespace, name, info) =>
      && input == LookUp(Ok(info)) && info.driverName == c.driverName
      && namespace == (match req case Allocated(r) => r.namespace case Delta(r) => r.namespace)
      && name == (match req case Allocated(r) => r.snapshotName case Delta(r) => r.targetSnapshotName)
    case DriverCalled(_, csiReq) => input == CallDriver(Ok(csiReq.secrets))
    case _ => false
  }

  lemma AdvanceGrants(c: Config, status: Health.Status, req: Request, pc: Pc, input: Input, h: nat)
    requires Advance(c, status, req, pc, input, h).Some? && Advance(c, status, req, pc, input, h).value.event.Some?
    ensures Grants(c, status.serving, req, Advance(c, status, req, pc, input, h).value.event.value, input)
  {
  }

  /** Every event of a handler was added by a step of that handler whose answer
      grants it. */
  lemma EventIsGranted(c: Config, states: seq<State>, steps: seq<Step>, i: nat, h: nat, e: Event) returns (j: nat, input: Input)
    requires IsRun(c, states, steps) && i < |states| && e in states[i].history && IsOf(e, h)
    ensures j < i && steps[j] == Handle(h, input) && states[j + 1].history == states[j].history + [e]
    ensures h in states[i].handlers && Grants(c, states[j].status.serving, states[i].handlers[h].req, e, input)
  {
    j := EventHasStep(c, states, steps, i, e);
    var s, step := states[j], steps[j];
    assert Next(c, s, step) == Some(states[j + 1]);
    assert states[j + 1].history[|s.history|] == e;
    var g := step.h;
    input := step.input;
    AdvanceGrants(c, s.status, s.handlers[g].req, s.handlers[g].pc, input, g);
    AdvanceLogs(c, s.status, s.handlers[g].req, s.handlers[g].pc, input, g);
    RequestsStay(c, states, steps, j, i, h);
  }

  /** The token of a handler counts as authenticated only by a review that says so
      and names the audience. */
  lemma AuthenticatedByReview(c: Config, states: seq<State>, steps: seq<Step>, i: nat, h: nat, token: string, audience: string, user: string)
    returns (j: nat, review: TokenReview)
    requires IsRun(c, states, steps) && i < |states| && Authenticated(h, token, audience, user) in states[i].history
    ensures j < i && steps[j] == Handle(h, Authenticate(Ok(review)))
    ensures states[j + 1].history == states[j].history + [Authenticated(h, token, audience, user)]
    ensures review.authenticated && audience in review.audiences && review.user == user
  {
    var input;
    j, input := EventIsGranted(c, states, steps, i, h, Authenticated(h, token, audience, user));
    review := input.review.value;
  }

  /** A user counts as authorized only by a review that allows the access and does
      not deny it. */
  lemma AuthorizedByReview(c: Config, states: seq<State>, steps: seq<Step>, i: nat, h: nat, user: string, namespace: string)
    returns (j: nat, access: AccessReview)
    requires IsRun(c, states, steps) && i < |states| && Authorized(h, user, namespace) in states[i].history
    ensures j < i && steps[j] == Handle(h, Authorize(Ok(access)))
    ensures states[j + 1].history == states[j].history + [Authorized(h, user, namespace)]
    ensures access.allowed && !access.denied
  {
    var input;
    j, input := EventIsGranted(c, states, steps, i, h, Authorized(h, user, namespace));
    access := input.access.value;
  }

  /** Each of these events is in the history of a handler that has called the
      driver. */
  lemma PassedEvents(c: Config, s: State, h: nat, token: string, namespace: string, name: string,
                     audience: string, user: string, info: SnapshotInfo, csiReq: CsiRequest)
    requires Passed(c, h, token, namespace, name, audience, user, info, csiReq, Trail(s.history, h))
    ensures Authenticated(h, token, audience, user) in s.history && Authorized(h, user, namespace) in s.history
    ensures LookedUp(h, namespace, name, info) in s.history
  {
    var trail := Trail(s.history, h);
    var n := |trail|;
    assert trail[n - 5] == Authenticated(h, token, audience, user) && trail[n - 4] == Authorized(h, user, namespace);
    assert trail[n - 2] == LookedUp(h, namespace, name, info);
    InTrail(s.history, h, Authenticated(h, token, audience, user));
    InTrail(s.history, h, Authorized(h, user, namespace));
    InTrail(s.history, h, LookedUp(h, namespace, name, info));
  }

  /** The answers behind a call of the driver: the token of the request is
      authentic for the audience, the access of its user to the namespace of the
      request is allowed and not denied, the snapshot found is one of this driver, and
      the call is for what the request asks: of one kind with it, for the handle of the
      snapshot found, from the base to it if it is for changes, with the secrets
      that were found. */
  lemma DriverCallIsAnswered(c: Config, states: seq<State>, steps: seq<Step>, i: nat, h: nat, csiReq: CsiRequest)
    returns (audience: string, review: TokenReview, access: AccessReview, info: SnapshotInfo, secrets: Option<map<string, string>>)
    requires IsRun(c, states, steps) && i < |states| && DriverCalled(h, csiReq) in states[i].history
    ensures Handle(h, Authenticate(Ok(review))) in steps[..i] && review.authenticated && audience in review.audiences
    ensures c.audience != "" ==> audience == c.audience
    ensures Handle(h, Authorize(Ok(access))) in steps[..i] && access.allowed && !access.denied
    ensures Handle(h, LookUp(Ok(info))) in steps[..i] && info.driverName == c.driverName
    ensures Handle(h, CallDriver(Ok(secrets))) in steps[..i]
    ensures h in states[i].handlers
    ensures
      match states[i].handlers[h].req
      case Allocated(r) =>
        && Authenticated(h, r.securityToken, audience, review.user) in states[i].history && Authorized(h, review.user, r.namespace) in states[i].history
        && LookedUp(h, r.namespace, r.snapshotName, info) in states[i].history
        && csiReq == CsiAllocatedRequest(
             snapshotId := info.snapshotHandle, startingOffset := r.startingOffset, maxResults := r.maxResults, secrets := secrets)
      case Delta(r) =>
        && Authenticated(h, r.securityToken, audience, review.user) in states[i].history && Authorized(h, review.user, r.namespace) in states[i].history
        && LookedUp(h, r.namespace, r.targetSnapshotName, info) in states[i].history
        && csiReq == CsiDeltaRequest(
             baseSnapshotId := r.baseSnapshotId, targetSnapshotId := info.snapshotHandle,
             startingOffset := r.startingOffset, maxResults := r.maxResults, secrets := secrets)
  {
    DriverCalledOnlyThroughGate(c, states, steps, i, h, csiReq);
    var s, req, user := states[i], states[i].handlers[h].req, "";
    var token, namespace, name := req.SecurityToken(), req.Namespace(), req.SnapshotName();
    var trail := Trail(s.history, h);
    match req {
      case Allocated(_) =>
        audience, user, info :| csiReq.snapshotId == info.snapshotHandle && Passed(c, h, token, namespace, name, audience, user, info, csiReq, trail);
      case Delta(_) =>
        audience, user, info :| csiReq.targetSnapshotId == info.snapshotHandle && Passed(c, h, token, namespace, name, audience, user, info, csiReq, trail);
    }
    PassedEvents(c, s, h, token, namespace, name, audience, user, info, csiReq);
    var j, input;
    j, review := AuthenticatedByReview(c, states, steps, i, h, token, audience, user);
    j, access := AuthorizedByReview(c, states, steps, i, h, user, namespace);
    j, input := EventIsGranted(c, states, steps, i, h, LookedUp(h, namespace, name, info));
    j, input := EventIsGranted(c, states, steps, i, h, DriverCalled(h, csiReq));
    secrets := csiReq.secrets;
  }

  /** Why a handler that has got so far ends with a code. */
  ghost predicate Causes(c: Config, serving: bool, req: Request, passed: Pc, input: Input, code: Code) {
    match passed
    case Validating =>
      code == InvalidArgument &&
        (match req
         case Allocated(r) => r.securityToken == "" || r.namespace == "" || r.snapshotName == ""
         case Delta(r) => r.securityToken == "" || r.namespace == "" || r.baseSnapshotId == "" || r.targetSnapshotName == "")
    case FindingAudience => code == Internal && input.FindAudience? && input.answer.Err? && c.audience == ""
    case Authenticating(audience) =>
      input.Authenticate? &&
        (match input.review
         case Err(_) => code == Internal
         case Ok(review) => code == Unauthenticated && (!review.authenticated || audience !in review.audiences))
    case Authorizing(_, _) =>
      input.Authorize? &&
        (match input.access
         case Err(_) => code == Internal
         case Ok(access) => code == PermissionDenied && (!access.allowed || access.denied))
    case CheckingReady(_, _) => code == Unavailable && !serving
    case LookingUp(_, _) =>
      input.LookUp? &&
        (match input.info
         case Err(_) => code == Unavailable
         case Ok(info) => code == InvalidArgument && info.driverName != c.driverName)
    case GettingSecrets(_, _, _) => code == Unavailable && input.CallDriver? && input.secrets.Err?
    case Streaming(_, _, _, _) => input == EndStream(Some(code))
    case Finished(_, _) => false
  }

  lemma AdvanceHasCause(c: Config, status: Health.Status, req: Request, pc: Pc, input: Input, h: nat)
    requires Advance(c, status, req, pc, input, h).Some? && Advance(c, status, req, pc, input, h).value.pc.Finished?
    ensures Advance(c, status, req, pc, input, h).value.pc.passed == pc
    ensures
      var code := Advance(c, status, req, pc, input, h).value.pc.code;
      code.Some? ==> Causes(c, status.serving, req, pc, input, code.value)
  {
  }

  /** A step leaves a handler that has ended with a code as it was, or is the one that
      ends it. */
  lemma StepHasCause(c: Config, s: State, step: Step, s': State, h: nat)
    requires Next(c, s, step) == Some(s') && h in s'.handlers && s'.handlers[h].pc.Finished? && s'.handlers[h].pc.code.Some?
    ensures h in s.handlers && s'.handlers[h].req == s.handlers[h].req
    ensures
      var pc := s'.handlers[h].pc;
      || s'.handlers[h] == s.handlers[h]
      || (step.Handle? && step.h == h && pc.passed == s.handlers[h].pc && Causes(c, s.status.serving, s.handlers[h].req, pc.passed, step.input, pc.code.value))
  {
    if step.Handle? && step.h == h {
      AdvanceHasCause(c, s.status, s.handlers[h].req, s.handlers[h].pc, step.input, h);
    }
  }

  /** A handler that has ended with a code was ended by a step of its own, whose
      answer is the cause of just that code. */
  lemma {:induction false} CodeHasCause(c: Config, states: seq<State>, steps: seq<Step>, i: nat, h: nat) returns (j: nat, input: Input)
    requires IsRun(c, states, steps) && i < |states| && h in states[i].handlers
    requires states[i].handlers[h].pc.Finished? && states[i].handlers[h].pc.code.Some?
    ensures j < i && steps[j] == Handle(h, input) && h in states[j].handlers
    ensures
      var pc := states[i].handlers[h].pc;
      states[j].handlers[h].pc == pc.passed && Causes(c, states[j].status.serving, states[i].handlers[h].req, pc.passed, input, pc.code.value)
  {
    j := i - 1;
    var s, step := states[j], steps[j];
    assert Next(c, s, step) == Some(states[i]);
    StepHasCause(c, s, step, states[i], h);
    if s.handlers[h] == states[i].handlers[h] {
      j, input := CodeHasCause(c, states, steps, j, h);
    } else {
      input := step.input;
    }
  }

  lemma {:induction false} FrozenForGood(history: seq<Event>)
    ensures ShutDown in history <==> Replay(history).frozen
    ensures ShutDown in history ==> !Replay(history).serving
  {
    if history != [] {
      FrozenForGood(history[..|history| - 1]);
    }
  }

  lemma ReadyWasFound(c: Config, s: State, h: nat, req: Request, csiReq: CsiRequest)
    requires PassedGate(c, h, req, csiReq, Trail(s.history, h))
    ensures FoundReady(h) in s.history
  {
    var trail := Trail(s.history, h);
    assert trail[|trail| - 3] == FoundReady(h);
    InTrail(s.history, h, FoundReady(h));
  }

  /** Once the server is shutting down, a handler that has not yet been found
      ready never reaches the driver, whatever becomes of the status. */
  lemma NoDriverCallAfterShutdown(c: Config, states: seq<State>, steps: seq<Step>, i: nat, j: nat, h: nat, csiReq: CsiRequest)
    requires IsRun(c, states, steps) && i <= j < |states|
    requires ShutDown in states[i].history && FoundReady(h) !in states[i].history
    ensures DriverCalled(h, csiReq) !in states[j].history
    ensures !states[j].status.serving
  {
    RunInv(c, states, steps, j);
    RunExtends(c, states, steps, i, j);
    FrozenForGood(states[j].history);
    if DriverCalled(h, csiReq) in states[j].history {
      DriverCalledOnlyThroughGate(c, states, steps, j, h, csiReq);
      ReadyWasFound(c, states[j], h, states[j].handlers[h].req, csiReq);
      var e :| 0 <= e < |states[j].history| && states[j].history[e] == FoundReady(h);
      assert |states[i].history| <= e;
      assert states[i].history <= states[j].history[..e];
      FrozenForGood(states[j].history[..e]);
      assert false;
    }
  }

  lemma OpNamesHaveNoDash(req: Request)
    ensures !EndsInDash(OpName(req))
  {
  }

  /** Two handlers of a run, however many have arrived, have one operation
      identifier exactly if they are calls of one kind and their arrivals are
      2^64, or a multiple of it, apart. */
  lemma OperationIDsCollide(c: Config, states: seq<State>, steps: seq<Step>, i: nat, g: nat, h: nat)
    requires IsRun(c, states, steps) && i < |states|
    requires g in states[i].handlers && h in states[i].handlers
    ensures
      var a, b := states[i].handlers[g], states[i].handlers[h];
      && (a.opID == b.opID <==> OpName(a.req) == OpName(b.req) && a.arrival % 0x1_0000_0000_0000_0000 == b.arrival % 0x1_0000_0000_0000_0000)
      && (g != h ==> a.arrival != b.arrival)
      && 0 < a.arrival <= |states[i].handlers| && 0 < b.arrival <= |states[i].handlers|
  {
    var s := states[i];
    RunInv(c, states, steps, i);
    var a, b := s.handlers[g], s.handlers[h];
    assert NumberedHandler(a) && NumberedHandler(b);
    OpNamesHaveNoDash(a.req);
    OpNamesHaveNoDash(b.req);
    DashlessOperationIDs(OpName(a.req), a.number, OpName(b.req), b.number);
    WrappedEqual(a.arrival, b.arrival);
  }

  /** The handlers that share the identifier of h. */
  ghost predicate SharesID(s: State, g: nat, h: nat)
    requires g in s.handlers && h in s.handlers
  {
    && OpName(s.handlers[g].req) == OpName(s.handlers[h].req)
    && s.handlers[g].arrival % 0x1_0000_0000_0000_0000 == s.handlers[h].arrival % 0x1_0000_0000_0000_0000
  }

  lemma ReachableIDs(c: Config, s: State, h: nat)
    requires Reachable(c, s) && h in s.handlers
    ensures forall g :: g in s.handlers ==> (s.handlers[g].opID == s.handlers[h].opID <==> SharesID(s, g, h))
  {
    var states, steps :| EndsIn(c, states, steps, s);
    forall g | g in s.handlers ensures s.handlers[g].opID == s.handlers[h].opID <==> SharesID(s, g, h) {
      OperationIDsCollide(c, states, steps, |steps|, g, h);
    }
  }

  /** The status of a server is frozen once it has been shut down, and then it is not
      serving. */
  lemma ReachableStatus(c: Config, s: State)
    requires Reachable(c, s)
    ensures ShutDown in s.history <==> s.status.frozen
    ensures s.status.frozen ==> !s.status.serving
  {
    ReachableInv(c, s);
    FrozenForGood(s.history);
  }

  lemma SmallAndCongruent(a: nat, b: nat)
    requires 0 < a <= 0x1_0000_0000_0000_0000 && 0 < b <= 0x1_0000_0000_0000_0000
    requires a % 0x1_0000_0000_0000_0000 == b % 0x1_0000_0000_0000_0000
    ensures a == b
  {
  }

  /** In particular they are all different while no more than 2^64 have arrived. */
  lemma OperationIDsAreDistinct(c: Config, states: seq<State>, steps: seq<Step>, i: nat, g: nat, h: nat)
    requires IsRun(c, states, steps) && i < |states| && |states[i].handlers| <= 0x1_0000_0000_0000_0000
    requires g in states[i].handlers && h in states[i].handlers && g != h
    ensures states[i].handlers[g].opID != states[i].handlers[h].opID
  {
    OperationIDsCollide(c, states, steps, i, g, h);
    var a, b := states[i].handlers[g].arrival, states[i].handlers[h].arrival;
    if a % 0x1_0000_0000_0000_0000 == b % 0x1_0000_0000_0000_0000 {
      SmallAndCongruent(a, b);
    }
  }
}
