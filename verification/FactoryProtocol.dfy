/** Any number of threads calling one informer factory, and the goroutines it
    launches, as a state machine whose steps are the atomic actions of the code:
    every interleaving of them is a run. */
module FactoryProtocol {
  import opened Base
  import opened InformerFactory

  /** Where a calling thread is. */
  datatype Pc =
    | Idle
    | EnterInformerFor(kind: Kind) | InInformerFor(kind: Kind)
    | EnterStart(stopCh: Channel) | InStart(stopCh: Channel) | Ranging(todo: set<Kind>, stopCh: Channel)
    | Added(todo: set<Kind>, kind: Kind, stopCh: Channel)       // wg.Add(1) done
    | Launched(todo: set<Kind>, kind: Kind, stopCh: Channel)    // go statement done
    | EnterShutdown | InShutdown | Flagged | Waiting
    | EnterSync(stopCh: Channel) | InSync(stopCh: Channel)
    | Syncing(snapshot: map<Kind, Informer>, result: map<Kind, bool>, stopCh: Channel)
    | Polling(snapshot: map<Kind, Informer>, result: map<Kind, bool>, kind: Kind, stopCh: Channel)

  /** What a call of InformerFor has returned. */
  datatype Registration = Registration(kind: Kind, informer: Informer)

  datatype State = State(
    f: Factory,
    lock: Option<nat>,            // the thread that holds the mutex
    pcs: map<nat, Pc>,
    closed: set<Channel>,
    synced: set<Kind>,            // kinds whose informer has synced
    ended: set<nat>,              // launches whose Run has returned
    done: set<nat>,               // launches that have called wg.Done
    returned: seq<Registration>,  // what InformerFor has returned
    shutdowns: nat)               // calls of Shutdown that have returned

  datatype Step =
    | Call(t: nat, entry: Pc)
    | Lock(t: nat)
    | Act(t: nat)
    | Pick(t: nat, kind: Kind)
    | Await(t: nat, kind: Kind)
    | Poll(t: nat, synced: bool)
    | RunEnds(k: nat)
    | Done(k: nat)
    | HasSynced(k: nat)
    | Close(stopCh: Channel)

  /** The steps that the factory and its goroutines cannot take by themselves:
      calls of the application, closing a channel, and the watch of an informer. */
  predicate External(step: Step) {
    step.Call? || step.Close? || step.HasSynced?
  }

  function Initial(): State {
    State(Empty(), None, map[], {}, {}, {}, {}, [], 0)
  }

  function PcOf(s: State, t: nat): Pc {
    if t in s.pcs then s.pcs[t] else Idle
  }

  function At(s: State, t: nat, pc: Pc): State {
    s.(pcs := s.pcs[t := pc])
  }

  predicate Entry(pc: Pc) {
    pc.EnterInformerFor? || pc.EnterStart? || pc.EnterShutdown? || pc.EnterSync?
  }

  /** The program points between Lock and Unlock. */
  predicate Locked(pc: Pc) {
    pc.InInformerFor? || pc.InStart? || pc.Ranging? || pc.Added? || pc.Launched? || pc.InShutdown? || pc.Flagged? || pc.InSync?
  }

  function AfterLock(pc: Pc): Pc
    requires Entry(pc)
  {
    match pc
    case EnterInformerFor(kind) => InInformerFor(kind)
    case EnterStart(stopCh) => InStart(stopCh)
    case EnterShutdown => InShutdown
    case EnterSync(stopCh) => InSync(stopCh)
  }

  /** The next action of a thread that is not waiting to enter. */
  function Action(s: State, t: nat): Option<State> {
    var f := s.f;
    match PcOf(s, t)
    case InInformerFor(kind) =>
      var g := Registered(f, kind);
      Some(At(s, t, Idle).(f := g, returned := s.returned + [Registration(kind, g.informers[kind])], lock := None))
    case InStart(stopCh) =>
      if f.shuttingDown then Some(At(s, t, Idle).(lock := None)) else Some(At(s, t, Ranging(f.informers.Keys, stopCh)))
    case Ranging(todo, _) =>
      if todo == {} then Some(At(s, t, Idle).(lock := None)) else None
    case Added(todo, kind, stopCh) =>
      if kind in f.informers then
        Some(At(s, t, Launched(todo, kind, stopCh)).(f := f.(launched := f.launched + [Launch(kind, f.informers[kind], stopCh)])))
      else None
    case Launched(todo, kind, stopCh) =>
      Some(At(s, t, Ranging(todo - {kind}, stopCh)).(f := f.(started := f.started + {kind})))
    case InShutdown => Some(At(s, t, Flagged).(f := f.(shuttingDown := true)))
    case Flagged => Some(At(s, t, Waiting).(lock := None))
    case Waiting => if f.wg == 0 then Some(At(s, t, Idle).(shutdowns := s.shutdowns + 1)) else None
    case InSync(stopCh) => Some(At(s, t, Syncing(Snapshot(f), map[], stopCh)).(lock := None))
    case Syncing(snapshot, result, _) => if result.Keys == snapshot.Keys then Some(At(s, t, Idle)) else None
    case _ => None
  }

  /** The informers started. */
  function Snapshot(f: Factory): map<Kind, Informer> {
    map kind | kind in f.informers && kind in f.started :: f.informers[kind]
  }

  /** The steps of WaitForCacheSync outside the lock: it takes the informers one by
      one, in any order, and waits for each to be synced or the channel to be
      closed. */
  function Sync(s: State, step: Step): Option<State>
    requires step.Await? || step.Poll?
  {
    match (step, PcOf(s, step.t))
    case (Await(t, kind), Syncing(snapshot, result, stopCh)) =>
      if kind in snapshot && kind !in result then Some(At(s, t, Polling(snapshot, result, kind, stopCh))) else None
    case (Poll(t, synced), Polling(snapshot, result, kind, stopCh)) =>
      if (if synced then kind in s.synced else stopCh in s.closed) then Some(At(s, t, Syncing(snapshot, result[kind := synced], stopCh))) else None
    case _ => None
  }

  /** The state after a step, if the step is possible. */
  function Next(s: State, step: Step): Option<State> {
    match step
    case Call(t, entry) => if PcOf(s, t).Idle? && Entry(entry) then Some(At(s, t, entry)) else None
    case Lock(t) => if s.lock.None? && Entry(PcOf(s, t)) then Some(At(s, t, AfterLock(PcOf(s, t))).(lock := Some(t))) else None
    case Act(t) => Action(s, t)
    case Pick(t, kind) =>
      (match PcOf(s, t)
       case Ranging(todo, stopCh) =>
         if kind !in todo then None
         else if kind in s.f.started then Some(At(s, t, Ranging(todo - {kind}, stopCh)))
         else Some(At(s, t, Added(todo, kind, stopCh)).(f := s.f.(wg := s.f.wg + 1)))
       case _ => None)
    case Await(_, _) => Sync(s, step)
    case Poll(_, _) => Sync(s, step)
    case RunEnds(k) =>
      if k < |s.f.launched| && k !in s.ended && s.f.launched[k].stopCh in s.closed then Some(s.(ended := s.ended + {k})) else None
    case Done(k) =>
      if k in s.ended && k !in s.done && s.f.wg > 0 then Some(s.(done := s.done + {k}, f := s.f.(wg := s.f.wg - 1))) else None
    case HasSynced(k) =>
      if k < |s.f.launched| && k !in s.ended then Some(s.(synced := s.synced + {s.f.launched[k].kind})) else None
    case Close(stopCh) => Some(s.(closed := s.closed + {stopCh}))
  }

  // ----- the invariant

  /** The program point of the thread that holds the mutex, if any. */
  function Owner(s: State): Pc {
    if s.lock.Some? then PcOf(s, s.lock.value) else Idle
  }

  ghost predicate MutexHeld(s: State) {
    forall t: nat :: Locked(PcOf(s, t)) <==> s.lock == Some(t)
  }

  /** A thread inside Start that has passed the check of the flag. */
  predicate Starting(pc: Pc) {
    pc.Ranging? || pc.Added? || pc.Launched?
  }

  /** Every launch is of a kind that is started or, while a thread is between the
      go statement and the update of the map, of the kind in its hands; pc is the
      program point of the owner of the mutex. */
  ghost predicate OnceEach(f: Factory, pc: Pc) {
    && Consistent(f)
    && (forall k :: 0 <= k < |f.launched| ==>
          f.launched[k].kind in f.started || (pc.Launched? && pc.kind == f.launched[k].kind))
    && (forall kind :: kind in f.started ==> exists k :: 0 <= k < |f.launched| && f.launched[k].kind == kind)
    && (Starting(pc) ==> f.informers.Keys == f.started + pc.todo)
    && (pc.Added? || pc.Launched? ==> pc.kind in pc.todo && pc.kind !in f.started)
    && (pc.Launched? ==> exists k :: 0 <= k < |f.launched| && f.launched[k].kind == pc.kind)
  }

  ghost predicate LaunchedOnce(s: State) {
    OnceEach(s.f, Owner(s))
  }

  /** The wait group counts the goroutines launched and not done, and one that is
      about to be launched. */
  ghost predicate Counted(s: State) {
    && s.f.wg + |s.done| == |s.f.launched| + (if Owner(s).Added? then 1 else 0)
    && s.done <= s.ended
    && forall k :: k in s.ended ==> k < |s.f.launched|
  }

  /** The flag keeps threads out of the loop of Start, and a call of Shutdown has
      returned only after the count fell to zero for good. */
  ghost predicate Stopped(s: State) {
    && (Starting(Owner(s)) ==> !s.f.shuttingDown)
    && (forall t: nat :: PcOf(s, t).Flagged? || PcOf(s, t).Waiting? ==> s.f.shuttingDown)
    && (s.shutdowns > 0 ==> s.f.shuttingDown && s.f.wg == 0)
  }

  /** Everything returned for a kind is the informer registered for it. */
  ghost predicate Stable(s: State) {
    forall k :: 0 <= k < |s.returned| ==>
      s.returned[k].kind in s.f.informers && s.f.informers[s.returned[k].kind] == s.returned[k].informer
  }

  /** A waiting call of WaitForCacheSync has the informers that were started, and
      every result so far is true for one that has synced and false only if the
      channel is closed. */
  ghost predicate SyncSound(s: State, pc: Pc) {
    pc.Syncing? || pc.Polling? ==>
      && pc.result.Keys <= pc.snapshot.Keys <= s.f.started
      && (forall kind :: kind in pc.snapshot ==> kind in s.f.informers && pc.snapshot[kind] == s.f.informers[kind])
      && (forall kind :: kind in pc.result ==> if pc.result[kind] then kind in s.synced else pc.stopCh in s.closed)
      && (pc.Polling? ==> pc.kind in pc.snapshot && pc.kind !in pc.result)
  }

  ghost predicate Synced(s: State) {
    forall t: nat :: SyncSound(s, PcOf(s, t))
  }

  ghost predicate Inv(s: State) {
    MutexHeld(s) && LaunchedOnce(s) && Counted(s) && Stopped(s) && Stable(s) && Synced(s)
  }

  lemma InitialInv()
    ensures Inv(Initial())
  {
  }

  lemma Others(s: State, step: Step, t: nat)
    requires Next(s, step).Some?
    requires (step.Call? || step.Lock? || step.Act? || step.Pick? || step.Await? || step.Poll?) ==> t != step.t
    ensures PcOf(Next(s, step).value, t) == PcOf(s, t)
  {
    if step.Act? { ActOthers(s, step.t, t); }
  }

  lemma ActOthers(s: State, actor: nat, t: nat)
    requires Action(s, actor).Some? && t != actor
    ensures PcOf(Action(s, actor).value, t) == PcOf(s, t)
  {
  }

  lemma CallOrLockKeepsMutex(s: State, step: Step)
    requires MutexHeld(s) && Next(s, step).Some? && (step.Call? || step.Lock?)
    ensures MutexHeld(Next(s, step).value)
  {
  }

  lemma ActionKeepsMutex(s: State, step: Step)
    requires MutexHeld(s) && Next(s, step).Some? && (step.Act? || step.Pick?)
    ensures MutexHeld(Next(s, step).value)
  {
    var s' := Next(s, step).value;
    forall t: nat ensures Locked(PcOf(s', t)) <==> s'.lock == Some(t) {
      if t != step.t {
        Others(s, step, t);
        assert Locked(PcOf(s, t)) <==> s.lock == Some(t);
      }
      assert Locked(PcOf(s, step.t)) <==> s.lock == Some(step.t);
    }
  }

  lemma SyncKeepsMutex(s: State, step: Step)
    requires MutexHeld(s) && Next(s, step).Some? && (step.Await? || step.Poll?)
    ensures MutexHeld(Next(s, step).value)
  {
    var s' := Next(s, step).value;
    forall t: nat ensures Locked(PcOf(s', t)) <==> s'.lock == Some(t) {
      assert Locked(PcOf(s, t)) <==> s.lock == Some(t);
      if t != step.t { Others(s, step, t); }
    }
  }

  lemma NextMutex(s: State, step: Step)
    requires MutexHeld(s) && Next(s, step).Some?
    ensures MutexHeld(Next(s, step).value)
  {
    if step.Call? || step.Lock? {
      CallOrLockKeepsMutex(s, step);
    } else if step.Act? || step.Pick? {
      ActionKeepsMutex(s, step);
    } else if step.Await? || step.Poll? {
      SyncKeepsMutex(s, step);
    }
  }

  /** Only the thread that holds the mutex changes what the mutex protects. */
  lemma ActorOwns(s: State, step: Step)
    requires MutexHeld(s) && Next(s, step).Some?
    requires step.Act? || step.Pick?
    ensures Locked(PcOf(s, step.t)) ==> PcOf(s, step.t) == Owner(s)
    ensures step.Pick? ==> Owner(s).Ranging?
  {
  }

  lemma RegisterKeepsLaunchedOnce(s: State, t: nat)
    requires Inv(s) && PcOf(s, t).InInformerFor?
    ensures LaunchedOnce(Next(s, Act(t)).value)
  {
    ActorOwns(s, Act(t));
  }

  lemma GoKeepsLaunchedOnce(s: State, t: nat)
    requires Inv(s) && PcOf(s, t).Added?
    ensures Next(s, Act(t)).Some? && LaunchedOnce(Next(s, Act(t)).value)
  {
    var s', kind := Next(s, Act(t)).value, PcOf(s, t).kind;
    ActorOwns(s, Act(t));
    assert s'.f.launched[|s.f.launched|].kind == kind;
    assert forall k :: 0 <= k < |s.f.launched| ==> s'.f.launched[k] == s.f.launched[k];
  }

  lemma MarkKeepsLaunchedOnce(s: State, t: nat)
    requires Inv(s) && PcOf(s, t).Launched?
    ensures LaunchedOnce(Next(s, Act(t)).value)
  {
    ActorOwns(s, Act(t));
  }

  lemma NextLaunchedOnce(s: State, step: Step)
    requires Inv(s) && Next(s, step).Some?
    ensures LaunchedOnce(Next(s, step).value)
  {
    if step.Act? && PcOf(s, step.t).InInformerFor? {
      RegisterKeepsLaunchedOnce(s, step.t);
    } else if step.Act? && PcOf(s, step.t).Added? {
      GoKeepsLaunchedOnce(s, step.t);
    } else if step.Act? && PcOf(s, step.t).Launched? {
      MarkKeepsLaunchedOnce(s, step.t);
    } else {
      OtherStepKeepsLaunchedOnce(s, step);
    }
  }

  /** The counter and the flag do not matter, and outside the loop of Start
      neither does the program point. */
  lemma OnceEachElsewhere(f: Factory, pc: Pc, g: Factory, pc': Pc)
    requires OnceEach(f, pc) && g.(wg := f.wg, shuttingDown := f.shuttingDown) == f
    requires pc' == pc || (!Starting(pc') && !pc.Launched?)
    ensures OnceEach(g, pc')
  {
    assert g.informers == f.informers && g.started == f.started && g.launched == f.launched && g.created == f.created;
    assert Consistent(g);
  }

  lemma OnceEachRanging(f: Factory, pc: Pc, g: Factory, pc': Pc)
    requires OnceEach(f, pc) && g.(wg := f.wg) == f && !pc.Launched? && !pc'.Launched?
    requires Starting(pc') && f.informers.Keys == f.started + pc'.todo && (pc'.Added? ==> pc'.kind in pc'.todo && pc'.kind !in f.started)
    ensures OnceEach(g, pc')
  {
    assert g.informers == f.informers && g.started == f.started && g.launched == f.launched && g.created == f.created;
    assert Consistent(g);
  }

  lemma PickKeepsLaunchedOnce(s: State, t: nat, kind: Kind)
    requires Inv(s) && Next(s, Pick(t, kind)).Some?
    ensures LaunchedOnce(Next(s, Pick(t, kind)).value)
  {
    var s' := Next(s, Pick(t, kind)).value;
    ActorOwns(s, Pick(t, kind));
    assert Owner(s') == PcOf(s', t);
    OnceEachRanging(s.f, Owner(s), s'.f, Owner(s'));
  }

  lemma OtherActKeepsLaunchedOnce(s: State, t: nat)
    requires Inv(s) && Next(s, Act(t)).Some?
    requires !PcOf(s, t).InInformerFor? && !PcOf(s, t).Added? && !PcOf(s, t).Launched?
    ensures LaunchedOnce(Next(s, Act(t)).value)
  {
    var s' := Next(s, Act(t)).value;
    ActorOwns(s, Act(t));
    if Starting(PcOf(s', t)) {
      OnceEachRanging(s.f, Owner(s), s'.f, Owner(s'));
    } else {
      OnceEachElsewhere(s.f, Owner(s), s'.f, Owner(s'));
    }
  }

  lemma OtherStepKeepsLaunchedOnce(s: State, step: Step)
    requires Inv(s) && Next(s, step).Some?
    requires step.Act? ==> !PcOf(s, step.t).InInformerFor? && !PcOf(s, step.t).Added? && !PcOf(s, step.t).Launched?
    ensures LaunchedOnce(Next(s, step).value)
  {
    if step.Act? {
      OtherActKeepsLaunchedOnce(s, step.t);
    } else if step.Pick? {
      PickKeepsLaunchedOnce(s, step.t, step.kind);
    } else {
      var s' := Next(s, step).value;
      OnceEachElsewhere(s.f, Owner(s), s'.f, Owner(s'));
    }
  }

  lemma DoneKeepsCounted(s: State, k: nat)
    requires Inv(s) && Next(s, Done(k)).Some?
    ensures Counted(Next(s, Done(k)).value)
  {
    var s' := Next(s, Done(k)).value;
    assert |s'.done| == |s.done| + 1;
  }

  lemma ActionKeepsCounted(s: State, step: Step)
    requires Inv(s) && Next(s, step).Some? && (step.Act? || step.Pick?)
    ensures Counted(Next(s, step).value)
  {
    ActorOwns(s, step);
    ActionKeepsMutex(s, step);
  }

  lemma NextCounted(s: State, step: Step)
    requires Inv(s) && Next(s, step).Some?
    ensures Counted(Next(s, step).value)
  {
    if step.Done? {
      DoneKeepsCounted(s, step.k);
    } else if step.Act? || step.Pick? {
      ActionKeepsCounted(s, step);
    } else {
      NextMutex(s, step);
    }
  }

  lemma NextStopped(s: State, step: Step)
    requires MutexHeld(s) && Stopped(s) && Next(s, step).Some?
    ensures Stopped(Next(s, step).value)
  {
    var s' := Next(s, step).value;
    NextMutex(s, step);
    if step.Act? || step.Pick? {
      ActorOwns(s, step);
    }
    forall t: nat | PcOf(s', t).Flagged? || PcOf(s', t).Waiting? ensures s'.f.shuttingDown {
      if PcOf(s, t) == PcOf(s', t) {
        assert s.f.shuttingDown;
      }
    }
  }

  lemma NextStable(s: State, step: Step)
    requires Inv(s) && Next(s, step).Some?
    ensures Stable(Next(s, step).value)
  {
  }

  /** What a waiting call has learnt stays true. */
  lemma SyncSoundKept(s: State, s': State, pc: Pc)
    requires SyncSound(s, pc)
    requires s.f.started <= s'.f.started && s.synced <= s'.synced && s.closed <= s'.closed
    requires forall kind :: kind in s.f.informers ==> kind in s'.f.informers && s'.f.informers[kind] == s.f.informers[kind]
    ensures SyncSound(s', pc)
  {
  }

  lemma ActorSynced(s: State, step: Step)
    requires Inv(s) && Next(s, step).Some? && (step.Call? || step.Lock? || step.Act? || step.Pick? || step.Await? || step.Poll?)
    ensures SyncSound(Next(s, step).value, PcOf(Next(s, step).value, step.t))
  {
    assert SyncSound(s, PcOf(s, step.t));
  }

  lemma NextSynced(s: State, step: Step)
    requires Inv(s) && Next(s, step).Some?
    ensures Synced(Next(s, step).value)
  {
    var s' := Next(s, step).value;
    forall t: nat ensures SyncSound(s', PcOf(s', t)) {
      if (step.Call? || step.Lock? || step.Act? || step.Pick? || step.Await? || step.Poll?) && t == step.t {
        ActorSynced(s, step);
      } else {
        Others(s, step, t);
        SyncSoundKept(s, s', PcOf(s, t));
      }
    }
  }

  lemma NextInv(s: State, step: Step)
    requires Inv(s) && Next(s, step).Some?
    ensures Inv(Next(s, step).value)
  {
    NextMutex(s, step);
    NextLaunchedOnce(s, step);
    NextCounted(s, step);
    NextStopped(s, step);
    NextStable(s, step);
    NextSynced(s, step);
  }

  // ----- runs

  ghost predicate IsRun(states: seq<State>, steps: seq<Step>) {
    && |states| == |steps| + 1 && states[0] == Initial()
    && forall i :: 0 <= i < |steps| ==> Next(states[i], steps[i]) == Some(states[i + 1])
  }

  lemma {:induction false} RunInv(states: seq<State>, steps: seq<Step>, i: nat)
    requires IsRun(states, steps) && i < |states|
    ensures Inv(states[i])
  {
    if i == 0 {
      InitialInv();
    } else {
      RunInv(states, steps, i - 1);
      assert Next(states[i - 1], steps[i - 1]) == Some(states[i]);
      NextInv(states[i - 1], steps[i - 1]);
    }
  }

  lemma NextEachItsOwn(s: State, step: Step)
    requires EachItsOwn(s.f) && Next(s, step).Some?
    ensures EachItsOwn(Next(s, step).value.f)
  {
    var g := Next(s, step).value.f;
    if step.Act? && PcOf(s, step.t).InInformerFor? {
      RegisteredEachItsOwn(s.f, PcOf(s, step.t).kind);
    } else {
      assert g.informers == s.f.informers && g.created == s.f.created;
    }
  }

  lemma {:induction false} RunEachItsOwn(states: seq<State>, steps: seq<Step>, i: nat)
    requires IsRun(states, steps) && i < |states|
    ensures EachItsOwn(states[i].f)
  {
    if i > 0 {
      RunEachItsOwn(states, steps, i - 1);
      assert Next(states[i - 1], steps[i - 1]) == Some(states[i]);
      NextEachItsOwn(states[i - 1], steps[i - 1]);
    }
  }

  ghost predicate EndsIn(states: seq<State>, steps: seq<Step>, s: State) {
    IsRun(states, steps) && states[|steps|] == s
  }

  lemma Extend(states: seq<State>, steps: seq<Step>, s: State, step: Step, s': State)
    requires EndsIn(states, steps, s) && Next(s, step) == Some(s')
    ensures EndsIn(states + [s'], steps + [step], s')
  {
    var states', steps' := states + [s'], steps + [step];
    forall i | 0 <= i < |steps'| ensures Next(states'[i], steps'[i]) == Some(states'[i + 1]) {
      if i < |steps| {
        assert Next(states[i], steps[i]) == Some(states[i + 1]);
        assert states'[i] == states[i] && states'[i + 1] == states[i + 1] && steps'[i] == steps[i];
      } else {
        assert states'[i] == states[i] && states'[i + 1] == s' && steps'[i] == step;
      }
    }
  }

  /** Some run leads to this state. */
  ghost predicate Reachable(s: State) {
    exists states, steps :: EndsIn(states, steps, s)
  }

  lemma InitialReachable()
    ensures Reachable(Initial())
  {
    assert EndsIn([Initial()], [], Initial());
  }

  lemma StepReachable(s: State, step: Step, s': State)
    requires Reachable(s) && Next(s, step) == Some(s')
    ensures Reachable(s')
  {
    var states, steps :| EndsIn(states, steps, s);
    Extend(states, steps, s, step, s');
  }

  lemma ReachableEachItsOwn(s: State)
    requires Reachable(s)
    ensures EachItsOwn(s.f)
  {
    var states, steps :| EndsIn(states, steps, s);
    RunEachItsOwn(states, steps, |steps|);
  }

  lemma ReachableInv(s: State)
    requires Reachable(s)
    ensures Inv(s)
  {
    var states, steps :| EndsIn(states, steps, s);
    RunInv(states, steps, |steps|);
  }

  /** What no step takes back. */
  ghost predicate Extends(s: State, s': State) {
    && s.f.launched <= s'.f.launched && s.returned <= s'.returned
    && s.f.started <= s'.f.started && s.ended <= s'.ended && s.done <= s'.done
    && s.closed <= s'.closed && s.synced <= s'.synced
    && s.shutdowns <= s'.shutdowns && (s.f.shuttingDown ==> s'.f.shuttingDown)
    && (forall kind :: kind in s.f.informers ==> kind in s'.f.informers && s'.f.informers[kind] == s.f.informers[kind])
    && (s.shutdowns > 0 ==> s'.f.launched == s.f.launched)
  }

  lemma NextLaunchesNoMore(s: State, step: Step)
    requires Inv(s) && Next(s, step).Some? && s.shutdowns > 0
    ensures Next(s, step).value.f.launched == s.f.launched
  {
    if step.Act? || step.Pick? { ActorOwns(s, step); }
  }

  lemma ActExtends(s: State, t: nat)
    requires Action(s, t).Some? && (s.shutdowns > 0 ==> Action(s, t).value.f.launched == s.f.launched)
    ensures Extends(s, Action(s, t).value)
  {
  }

  lemma OtherStepExtends(s: State, step: Step)
    requires Next(s, step).Some? && !step.Act?
    ensures Extends(s, Next(s, step).value)
  {
  }

  lemma NextExtends(s: State, step: Step)
    requires Inv(s) && Next(s, step).Some?
    ensures Extends(s, Next(s, step).value)
  {
    if step.Act? {
      if s.shutdowns > 0 { NextLaunchesNoMore(s, step); }
      ActExtends(s, step.t);
    } else {
      OtherStepExtends(s, step);
    }
  }

  lemma ExtendsTransitive(a: State, b: State, c: State)
    requires Extends(a, b) && Extends(b, c)
    ensures Extends(a, c)
  {
  }

  lemma RunStepExtends(states: seq<State>, steps: seq<Step>, i: nat)
    requires IsRun(states, steps) && i < |steps|
    ensures Extends(states[i], states[i + 1])
  {
    RunInv(states, steps, i);
    assert Next(states[i], steps[i]) == Some(states[i + 1]);
    NextExtends(states[i], steps[i]);
  }

  lemma {:induction false} ChainExtends(states: seq<State>, i: nat, j: nat)
    requires i <= j < |states|
    requires forall k :: 0 <= k < |states| - 1 ==> Extends(states[k], states[k + 1])
    ensures Extends(states[i], states[j])
  {
    if i < j {
      ChainExtends(states, i, j - 1);
      ExtendsTransitive(states[i], states[j - 1], states[j]);
    }
  }

  lemma RunExtends(states: seq<State>, steps: seq<Step>, i: nat, j: nat)
    requires IsRun(states, steps) && i <= j < |states|
    ensures Extends(states[i], states[j])
  {
    forall k | 0 <= k < |states| - 1 ensures Extends(states[k], states[k + 1]) {
      RunStepExtends(states, steps, k);
    }
    ChainExtends(states, i, j);
  }

  // ----- safety over all interleavings

  /** In every state of every run, no kind has been launched twice, everything
      started is registered, and the wait group counts exactly the goroutines
      launched and not done, apart from one about to be launched. */
  lemma LaunchedAtMostOnce(states: seq<State>, steps: seq<Step>, i: nat, j: nat, k: nat)
    requires IsRun(states, steps) && i < |states|
    ensures
      var s := states[i];
      && (j < k < |s.f.launched| ==> s.f.launched[j].kind != s.f.launched[k].kind)
      && s.f.started <= s.f.informers.Keys
      && s.f.wg == |s.f.launched| - |s.done| + if Owner(s).Added? then 1 else 0
  {
    RunInv(states, steps, i);
  }

  /** Two calls of InformerFor for one kind, in any threads and at any times,
      return one informer, and it is the one that is run. */
  lemma InformerIsStable(states: seq<State>, steps: seq<Step>, i: nat, a: nat, j: nat, b: nat, k: nat)
    requires IsRun(states, steps) && i <= j < |states|
    requires a < |states[i].returned| && b < |states[j].returned|
    requires states[i].returned[a].kind == states[j].returned[b].kind
    ensures states[i].returned[a] == states[j].returned[b]
    ensures k < |states[j].f.launched| && states[j].f.launched[k].kind == states[i].returned[a].kind ==>
              states[j].f.launched[k].informer == states[i].returned[a].informer
  {
    RunInv(states, steps, i);
    RunInv(states, steps, j);
    RunExtends(states, steps, i, j);
  }

  /** Calls for different kinds, in any threads and at any times, return different
      informers, one is created for each kind, and no informer is run by two
      launches. */
  lemma InformersDiffer(states: seq<State>, steps: seq<Step>, i: nat, a: nat, j: nat, b: nat, m: nat, n: nat)
    requires IsRun(states, steps) && i <= j < |states|
    ensures a < |states[i].returned| && b < |states[j].returned| && states[i].returned[a].kind != states[j].returned[b].kind ==>
              states[i].returned[a].informer != states[j].returned[b].informer
    ensures states[j].f.created == |states[j].f.informers|
    ensures m < n < |states[j].f.launched| ==> states[j].f.launched[m].informer != states[j].f.launched[n].informer
  {
    RunInv(states, steps, i);
    RunInv(states, steps, j);
    RunExtends(states, steps, i, j);
    RunEachItsOwn(states, steps, j);
    var f := states[j].f;
    if a < |states[i].returned| {
      assert states[i].returned[a] == states[j].returned[a];
    }
    if m < n < |f.launched| {
      assert f.launched[m].kind != f.launched[n].kind;
    }
  }

  /** A call of Start ends with everything registered started, unless the factory
      is shutting down. */
  lemma StartStartsAll(states: seq<State>, steps: seq<Step>, i: nat)
    requires IsRun(states, steps) && i < |steps|
    requires steps[i].Act? && (PcOf(states[i], steps[i].t).InStart? || PcOf(states[i], steps[i].t).Ranging?)
    requires PcOf(states[i + 1], steps[i].t).Idle?
    ensures states[i + 1].f.shuttingDown || states[i + 1].f.started == states[i + 1].f.informers.Keys
  {
    RunInv(states, steps, i);
    assert Next(states[i], steps[i]) == Some(states[i + 1]);
    ActorOwns(states[i], steps[i]);
  }

  /** WaitForCacheSync waits for exactly the informers started when it looks, and
      each of them has been launched. */
  lemma SyncWaitsForStarted(states: seq<State>, steps: seq<Step>, i: nat, kind: Kind)
    requires IsRun(states, steps) && i < |steps|
    requires steps[i].Act? && PcOf(states[i], steps[i].t).InSync?
    ensures
      var pc := PcOf(states[i + 1], steps[i].t);
      && pc.Syncing? && pc.snapshot.Keys == states[i].f.started
      && (kind in pc.snapshot ==>
            exists k :: 0 <= k < |states[i].f.launched| && states[i].f.launched[k].kind == kind && states[i].f.launched[k].informer == pc.snapshot[kind])
  {
    RunInv(states, steps, i);
    assert Next(states[i], steps[i]) == Some(states[i + 1]);
  }

  /** When it returns, it has a result for each of them: true if the informer has
      synced, and false only if the channel of the call has been closed. */
  lemma SyncResult(states: seq<State>, steps: seq<Step>, i: nat, kind: Kind)
    requires IsRun(states, steps) && i < |steps|
    requires steps[i].Act? && PcOf(states[i], steps[i].t).Syncing?
    ensures
      var pc := PcOf(states[i], steps[i].t);
      && pc.result.Keys == pc.snapshot.Keys
      && (kind in pc.result ==> if pc.result[kind] then kind in states[i].synced else pc.stopCh in states[i].closed)
  {
    RunInv(states, steps, i);
    assert Next(states[i], steps[i]) == Some(states[i + 1]);
    assert SyncSound(states[i], PcOf(states[i], steps[i].t));
  }

  lemma {:induction false} Missing(n: nat, s: set<nat>)
    requires (forall k :: k in s ==> k < n) && |s| < n
    ensures exists k: nat :: k < n && k !in s
  {
    if n - 1 in s {
      Missing(n - 1, s - {n - 1});
      var k: nat :| k < n - 1 && k !in s - {n - 1};
      assert k !in s;
    }
  }

  lemma {:induction false} AtMostRange(n: nat, s: set<nat>)
    requires forall k :: k in s ==> k < n
    ensures |s| <= n
  {
    if n == 0 {
      assert s == {};
    } else {
      AtMostRange(n - 1, s - {n - 1});
    }
  }

  lemma FullRange(n: nat, s: set<nat>, k: nat)
    requires (forall k :: k in s ==> k < n) && |s| == n && k < n
    ensures k in s
  {
    if k !in s {
      AtMostRange(n, s + {k});
    }
  }

  /** Once some call of Shutdown has returned, no informer is running, and none
      ever starts again, whatever is called afterwards. */
  lemma NothingRunsAfterShutdown(states: seq<State>, steps: seq<Step>, i: nat, j: nat, k: nat)
    requires IsRun(states, steps) && i <= j < |states| && states[i].shutdowns > 0
    ensures states[j].f.launched == states[i].f.launched
    ensures k < |states[j].f.launched| ==> k in states[i].ended && k in states[j].ended
  {
    RunInv(states, steps, i);
    RunExtends(states, steps, i, j);
    if k < |states[i].f.launched| {
      FullRange(|states[i].f.launched|, states[i].done, k);
    }
  }

  // ----- when nothing moves

  /** A call that cannot move: Shutdown while goroutines are left, or
      WaitForCacheSync for an informer that has not synced, its channel open. */
  ghost predicate BlockedCall(s: State, pc: Pc) {
    || (pc.Waiting? && s.f.wg > 0)
    || (pc.Polling? && pc.kind !in s.synced && pc.stopCh !in s.closed)
  }

  /** A goroutine that cannot move: its informer runs until its channel is closed. */
  ghost predicate BlockedGoroutine(s: State, k: nat)
    requires k < |s.f.launched|
  {
    k !in s.ended && s.f.launched[k].stopCh !in s.closed
  }

  ghost predicate AllBlocked(s: State) {
    && (forall t: nat :: PcOf(s, t).Idle? || BlockedCall(s, PcOf(s, t)))
    && (forall k: nat :: k < |s.f.launched| && k !in s.done ==> BlockedGoroutine(s, k))
  }

  ghost predicate Moves(s: State, step: Step) {
    !External(step) && Next(s, step).Some?
  }

  lemma BlockedDoNotMove(s: State, step: Step)
    requires Inv(s) && AllBlocked(s)
    ensures !Moves(s, step)
  {
    if step.Lock? || step.Act? || step.Pick? || step.Await? || step.Poll? {
      assert PcOf(s, step.t).Idle? || BlockedCall(s, PcOf(s, step.t));
    } else if (step.RunEnds? || step.Done?) && step.k < |s.f.launched| && step.k !in s.done {
      assert BlockedGoroutine(s, step.k);
    }
  }

  lemma OwnerCanMove(s: State, t: nat)
    requires Locked(PcOf(s, t)) && (PcOf(s, t).Added? ==> PcOf(s, t).kind in s.f.informers)
    ensures exists step :: Moves(s, step)
  {
    if PcOf(s, t).Ranging? && PcOf(s, t).todo != {} {
      var kind :| kind in PcOf(s, t).todo;
      assert Moves(s, Pick(t, kind));
    } else {
      assert Moves(s, Act(t));
    }
  }

  lemma CallCanMove(s: State, t: nat)
    requires s.lock.None? && !Locked(PcOf(s, t)) && SyncSound(s, PcOf(s, t))
    requires !PcOf(s, t).Idle? && !BlockedCall(s, PcOf(s, t))
    ensures exists step :: Moves(s, step)
  {
    var pc := PcOf(s, t);
    if Entry(pc) {
      assert Moves(s, Lock(t));
    } else if pc.Polling? {
      assert Moves(s, Poll(t, pc.kind in s.synced));
    } else if pc.Syncing? && pc.result.Keys != pc.snapshot.Keys {
      var kind :| kind in pc.snapshot.Keys && kind !in pc.result.Keys;
      assert Moves(s, Await(t, kind));
    } else {
      assert Moves(s, Act(t));
    }
  }

  lemma GoroutineCanMove(s: State, k: nat)
    requires Counted(s) && k < |s.f.launched| && k !in s.done && !BlockedGoroutine(s, k)
    ensures exists step :: Moves(s, step)
  {
    if k in s.ended {
      assert |s.done + {k}| == |s.done| + 1;
      AtMostRange(|s.f.launched|, s.done + {k});
      assert Moves(s, Done(k));
    } else {
      assert Moves(s, RunEnds(k));
    }
  }

  /** The factory comes to a standstill exactly when every call in progress waits
      for goroutines or for informers to sync, and nobody has closed the channel
      that would let them go on: no other deadlock is possible. */
  lemma StandstillIff(states: seq<State>, steps: seq<Step>, i: nat)
    requires IsRun(states, steps) && i < |states|
    ensures (forall step :: !Moves(states[i], step)) <==> AllBlocked(states[i])
  {
    RunInv(states, steps, i);
    var s := states[i];
    if AllBlocked(s) {
      forall step ensures !Moves(s, step) { BlockedDoNotMove(s, step); }
    } else if s.lock.Some? {
      OwnerCanMove(s, s.lock.value);
    } else if t: nat :| !PcOf(s, t).Idle? && !BlockedCall(s, PcOf(s, t)) {
      assert SyncSound(s, PcOf(s, t));
      CallCanMove(s, t);
    } else {
      var k: nat :| k < |s.f.launched| && k !in s.done && !BlockedGoroutine(s, k);
      GoroutineCanMove(s, k);
    }
  }

  // ----- a run that comes to a standstill

  /** Thread 0 alone, no channel closed. */
  function Solo(pc: Pc, f: Factory, lock: Option<nat>, returned: seq<Registration>): State {
    State(f, lock, map[0 := pc], {}, {}, {}, {}, returned, 0)
  }

  lemma SoloAt(pc: Pc, f: Factory, lock: Option<nat>, returned: seq<Registration>, pc': Pc)
    ensures PcOf(Solo(pc, f, lock, returned), 0) == pc
    ensures At(Solo(pc, f, lock, returned), 0, pc') == Solo(pc', f, lock, returned)
  {
    assert map[0 := pc][0 := pc'] == map[0 := pc'];
  }

  lemma SoloStep(states: seq<State>, steps: seq<Step>, pc: Pc, f: Factory, lock: Option<nat>, returned: seq<Registration>,
                 step: Step, pc': Pc, f': Factory, lock': Option<nat>, returned': seq<Registration>)
    returns (states': seq<State>, steps': seq<Step>)
    requires EndsIn(states, steps, Solo(pc, f, lock, returned))
    requires Next(Solo(pc, f, lock, returned), step) == Some(At(Solo(pc, f, lock, returned), 0, pc').(f := f', lock := lock', returned := returned'))
    ensures EndsIn(states', steps', Solo(pc', f', lock', returned'))
    ensures steps' == steps + [step]
  {
    SoloAt(pc, f, lock, returned, pc');
    states', steps' := states + [Solo(pc', f', lock', returned')], steps + [step];
    Extend(states, steps, Solo(pc, f, lock, returned), step, Solo(pc', f', lock', returned'));
  }

  lemma SoloRegisters(kind: Kind) returns (states: seq<State>, steps: seq<Step>)
    ensures EndsIn(states, steps, Solo(Idle, Registered(Empty(), kind), None, [Registration(kind, 0)]))
  {
    var f, g, r := Empty(), Registered(Empty(), kind), [Registration(kind, 0)];
    states, steps := [Initial(), Solo(EnterInformerFor(kind), f, None, [])], [Call(0, EnterInformerFor(kind))];
    assert map[][0 := EnterInformerFor(kind)] == map[0 := EnterInformerFor(kind)];
    states, steps := SoloStep(states, steps, EnterInformerFor(kind), f, None, [], Lock(0), InInformerFor(kind), f, Some(0), []);
    assert [] + r == r;
    states, steps := SoloStep(states, steps, InInformerFor(kind), f, Some(0), [], Act(0), Idle, g, None, r);
  }

  function AfterStart(kind: Kind, stopCh: Channel): Factory {
    Registered(Empty(), kind).(started := {kind}, wg := 1, launched := [Launch(kind, 0, stopCh)])
  }

  lemma SoloStarts(kind: Kind, stopCh: Channel) returns (states: seq<State>, steps: seq<Step>)
    ensures EndsIn(states, steps, Solo(Idle, AfterStart(kind, stopCh), None, [Registration(kind, 0)]))
  {
    var f, r := Registered(Empty(), kind), [Registration(kind, 0)];
    var g := f.(wg := 1);
    var h := g.(launched := [Launch(kind, 0, stopCh)]);
    assert g.launched + [Launch(kind, 0, stopCh)] == h.launched;
    assert f.informers.Keys == {kind} && {kind} - {kind} == {} && {} + {kind} == {kind};
    states, steps := SoloRegisters(kind);
    states, steps := SoloStep(states, steps, Idle, f, None, r, Call(0, EnterStart(stopCh)), EnterStart(stopCh), f, None, r);
    states, steps := SoloStep(states, steps, EnterStart(stopCh), f, None, r, Lock(0), InStart(stopCh), f, Some(0), r);
    states, steps := SoloStep(states, steps, InStart(stopCh), f, Some(0), r, Act(0), Ranging({kind}, stopCh), f, Some(0), r);
    states, steps := SoloStep(states, steps, Ranging({kind}, stopCh), f, Some(0), r, Pick(0, kind), Added({kind}, kind, stopCh), g, Some(0), r);
    states, steps := SoloStep(states, steps, Added({kind}, kind, stopCh), g, Some(0), r, Act(0), Launched({kind}, kind, stopCh), h, Some(0), r);
    states, steps := SoloStep(states, steps, Launched({kind}, kind, stopCh), h, Some(0), r, Act(0), Ranging({}, stopCh), AfterStart(kind, stopCh), Some(0), r);
    states, steps := SoloStep(states, steps, Ranging({}, stopCh), AfterStart(kind, stopCh), Some(0), r, Act(0), Idle, AfterStart(kind, stopCh), None, r);
  }

  /** The application has to close the channels: if it starts an informer and calls
      Shutdown with the channel open, Shutdown never returns by itself. */
  lemma OpenChannelBlocksShutdown(kind: Kind, stopCh: Channel) returns (states: seq<State>, steps: seq<Step>)
    ensures IsRun(states, steps) && PcOf(states[|steps|], 0).Waiting?
    ensures forall step :: !Moves(states[|steps|], step)
  {
    var f, r := AfterStart(kind, stopCh), [Registration(kind, 0)];
    var g := f.(shuttingDown := true);
    states, steps := SoloStarts(kind, stopCh);
    states, steps := SoloStep(states, steps, Idle, f, None, r, Call(0, EnterShutdown), EnterShutdown, f, None, r);
    states, steps := SoloStep(states, steps, EnterShutdown, f, None, r, Lock(0), InShutdown, f, Some(0), r);
    states, steps := SoloStep(states, steps, InShutdown, f, Some(0), r, Act(0), Flagged, g, Some(0), r);
    states, steps := SoloStep(states, steps, Flagged, g, Some(0), r, Act(0), Waiting, g, None, r);
    StandstillIff(states, steps, |steps|);
  }
}
