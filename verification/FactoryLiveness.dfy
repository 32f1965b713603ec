/** What becomes of the calls in progress if the application does nothing more: they
    all go on until they have returned or wait for a channel to be closed. */
module FactoryLiveness {
  import opened Base
  import opened InformerFactory
  import opened FactoryProtocol

  // ----- informers that have ended

  /** An informer has ended only because its channel was closed. */
  ghost predicate EndedClosed(s: State) {
    forall k :: k in s.ended && k < |s.f.launched| ==> s.f.launched[k].stopCh in s.closed
  }

  lemma NextEndedClosed(s: State, step: Step)
    requires Counted(s) && EndedClosed(s) && Next(s, step).Some?
    ensures EndedClosed(Next(s, step).value)
  {
    var s' := Next(s, step).value;
    forall k | k in s'.ended && k < |s'.f.launched| ensures s'.f.launched[k].stopCh in s'.closed {
      if k in s.ended { assert k < |s.f.launched| && s'.f.launched[k] == s.f.launched[k]; }
    }
  }

  lemma {:induction false} RunEndedClosed(states: seq<State>, steps: seq<Step>, i: nat)
    requires IsRun(states, steps) && i < |states|
    ensures EndedClosed(states[i])
  {
    if i > 0 {
      var k := i - 1;
      RunEndedClosed(states, steps, k);
      RunInv(states, steps, k);
      assert Next(states[k], steps[k]) == Some(states[k + 1]);
      NextEndedClosed(states[k], steps[k]);
    }
  }

  /** Shutdown returns only when the channels of all informers have been closed. */
  lemma ReturnedShutdownMeansClosed(states: seq<State>, steps: seq<Step>, i: nat, k: nat)
    requires IsRun(states, steps) && i < |states| && states[i].shutdowns > 0 && k < |states[i].f.launched|
    ensures states[i].f.launched[k].stopCh in states[i].closed
  {
    NothingRunsAfterShutdown(states, steps, i, i, k);
    RunEndedClosed(states, steps, i);
  }

  // ----- a measure of the work left

  /** The kinds a thread may still register: one. */
  function Registers(pc: Pc): nat {
    if pc.EnterInformerFor? || pc.InInformerFor? then 1 else 0
  }

  /** The work of one thread when at most n kinds will be registered. */
  function Work(pc: Pc, n: nat): nat {
    match pc
    case Idle => 0
    case EnterInformerFor(_) => 2
    case InInformerFor(_) => 1
    case EnterStart(_) => 6 * n + 3
    case InStart(_) => 6 * n + 2
    case Ranging(todo, _) => 6 * |todo| + 1
    case Added(todo, _, _) => 6 * |todo|
    case Launched(todo, _, _) => if |todo| == 0 then 0 else 6 * |todo| - 3
    case EnterShutdown => 4
    case InShutdown => 3
    case Flagged => 2
    case Waiting => 1
    case EnterSync(_) => 2 * n + 3
    case InSync(_) => 2 * n + 2
    case Syncing(snapshot, result, _) => 2 * Unresolved(snapshot, result) + 1
    case Polling(snapshot, result, _, _) => 2 * Unresolved(snapshot, result)
  }

  /** The informers for which there is no result yet. */
  function Unresolved(snapshot: map<Kind, Informer>, result: map<Kind, bool>): nat {
    |snapshot.Keys - result.Keys|
  }

  /** Only the threads below n take part. */
  ghost predicate Quiet(s: State, n: nat) {
    forall t: nat :: n <= t ==> PcOf(s, t).Idle?
  }

  /** Sums over the threads below n. */
  function AllRegister(s: State, n: nat): nat {
    if n == 0 then 0 else AllRegister(s, n - 1) + Registers(PcOf(s, n - 1))
  }

  function AllWork(s: State, n: nat, kinds: nat): nat {
    if n == 0 then 0 else AllWork(s, n - 1, kinds) + Work(PcOf(s, n - 1), kinds)
  }

  function Kinds(s: State, n: nat): nat {
    |s.f.informers| + AllRegister(s, n)
  }

  /** Every goroutine has to end and to report it. */
  function Goroutines(s: State): int {
    2 * |s.f.launched| - |s.ended| - |s.done|
  }

  function Measure(s: State, n: nat): int {
    AllWork(s, n, Kinds(s, n)) + Goroutines(s)
  }

  lemma GoroutinesLeft(s: State)
    requires Counted(s)
    ensures 0 <= Goroutines(s)
  {
    AtMostRange(|s.f.launched|, s.ended);
    AtMostRange(|s.f.launched|, s.done);
  }

  lemma {:induction false} SameThreads(s: State, s': State, n: nat, kinds: nat)
    requires forall t: nat :: t < n ==> PcOf(s', t) == PcOf(s, t)
    ensures AllRegister(s', n) == AllRegister(s, n) && AllWork(s', n, kinds) == AllWork(s, n, kinds)
  {
    if n > 0 { SameThreads(s, s', n - 1, kinds); }
  }

  /** One thread moves. */
  lemma {:induction false} OneThread(s: State, s': State, n: nat, t: nat, kinds: nat)
    requires t < n && forall u: nat :: u != t ==> PcOf(s', u) == PcOf(s, u)
    ensures AllRegister(s', n) == AllRegister(s, n) - Registers(PcOf(s, t)) + Registers(PcOf(s', t))
    ensures AllWork(s', n, kinds) == AllWork(s, n, kinds) - Work(PcOf(s, t), kinds) + Work(PcOf(s', t), kinds)
  {
    if t == n - 1 {
      SameThreads(s, s', n - 1, kinds);
    } else {
      OneThread(s, s', n - 1, t, kinds);
    }
  }

  lemma {:induction false} FewerKinds(s: State, n: nat, kinds: nat, fewer: nat)
    requires fewer <= kinds
    ensures AllWork(s, n, fewer) <= AllWork(s, n, kinds)
  {
    if n > 0 { FewerKinds(s, n - 1, kinds, fewer); }
  }

  /** The step is one of a thread, not of a goroutine. */
  predicate OfThread(step: Step) {
    step.Lock? || step.Act? || step.Pick? || step.Await? || step.Poll?
  }

  // ----- one step of a thread

  lemma RemoveOne<T>(a: set<T>, x: T)
    requires x in a
    ensures |a - {x}| == |a| - 1
  {
  }

  lemma Subset<T>(a: set<T>, b: set<T>)
    requires a <= b
    ensures |a| <= |b|
  {
    assert b == a + (b - a);
  }

  /** The program point after a step of thread t. */
  function PcAfter(s: State, step: Step): Pc
    requires OfThread(step) && Next(s, step).Some?
  {
    PcOf(Next(s, step).value, step.t)
  }

  lemma LockWorks(s: State, t: nat, kinds: nat)
    requires Next(s, Lock(t)).Some?
    ensures Work(PcAfter(s, Lock(t)), kinds) < Work(PcOf(s, t), kinds)
    ensures Registers(PcAfter(s, Lock(t))) == Registers(PcOf(s, t))
    ensures Next(s, Lock(t)).value.f == s.f
  {
  }

  lemma PickWorks(s: State, t: nat, kind: Kind, kinds: nat)
    requires Next(s, Pick(t, kind)).Some?
    ensures Work(PcAfter(s, Pick(t, kind)), kinds) < Work(PcOf(s, t), kinds)
    ensures Registers(PcAfter(s, Pick(t, kind))) == Registers(PcOf(s, t))
    ensures Next(s, Pick(t, kind)).value.f == s.f.(wg := Next(s, Pick(t, kind)).value.f.wg)
  {
    RemoveOne(PcOf(s, t).todo, kind);
  }

  lemma OneResolved(snapshot: map<Kind, Informer>, result: map<Kind, bool>, kind: Kind, synced: bool)
    requires kind in snapshot && kind !in result
    ensures Unresolved(snapshot, result[kind := synced]) == Unresolved(snapshot, result) - 1
  {
    var left := snapshot.Keys - result.Keys;
    assert snapshot.Keys - result[kind := synced].Keys == left - {kind};
    RemoveOne(left, kind);
  }

  lemma AwaitAfter(s: State, t: nat, kind: Kind)
    requires Next(s, Await(t, kind)).Some?
    ensures PcOf(s, t).Syncing? && Next(s, Await(t, kind)).value.f == s.f
    ensures
      var pc := PcOf(s, t);
      PcAfter(s, Await(t, kind)) == Polling(pc.snapshot, pc.result, kind, pc.stopCh)
  {
  }

  lemma AwaitWorks(s: State, t: nat, kind: Kind, kinds: nat)
    requires Next(s, Await(t, kind)).Some?
    ensures Work(PcAfter(s, Await(t, kind)), kinds) < Work(PcOf(s, t), kinds)
    ensures Registers(PcAfter(s, Await(t, kind))) == Registers(PcOf(s, t))
    ensures Next(s, Await(t, kind)).value.f == s.f
  {
    AwaitAfter(s, t, kind);
  }

  lemma PollAfter(s: State, t: nat, synced: bool)
    requires Next(s, Poll(t, synced)).Some?
    ensures PcOf(s, t).Polling? && Next(s, Poll(t, synced)).value.f == s.f
    ensures
      var pc := PcOf(s, t);
      PcAfter(s, Poll(t, synced)) == Syncing(pc.snapshot, pc.result[pc.kind := synced], pc.stopCh)
  {
  }

  lemma PollWorks(s: State, t: nat, synced: bool, kinds: nat)
    requires Next(s, Poll(t, synced)).Some? && SyncSound(s, PcOf(s, t))
    ensures Work(PcAfter(s, Poll(t, synced)), kinds) < Work(PcOf(s, t), kinds)
    ensures Registers(PcAfter(s, Poll(t, synced))) == Registers(PcOf(s, t))
    ensures Next(s, Poll(t, synced)).value.f == s.f
  {
    PollAfter(s, t, synced);
    OneResolved(PcOf(s, t).snapshot, PcOf(s, t).result, PcOf(s, t).kind, synced);
  }

  /** What one action of a thread can do to the rest: register a kind, and launch a
      goroutine. */
  ghost predicate Acts(s: State, s': State, t: nat) {
    && |s'.f.informers| + Registers(PcOf(s', t)) <= |s.f.informers| + Registers(PcOf(s, t))
    && s'.ended == s.ended && s'.done == s.done
    && (s'.f.launched == s.f.launched || (PcOf(s, t).Added? && |s'.f.launched| == |s.f.launched| + 1))
  }

  lemma RegisterActs(s: State, t: nat)
    requires PcOf(s, t).InInformerFor?
    ensures Acts(s, Next(s, Act(t)).value, t) && PcOf(Next(s, Act(t)).value, t).Idle?
  {
    var f, kind := s.f, PcOf(s, t).kind;
    if kind !in f.informers {
      assert Registered(f, kind).informers.Keys == f.informers.Keys + {kind};
      assert |f.informers.Keys + {kind}| == |f.informers.Keys| + 1;
      assert |f.informers| == |f.informers.Keys| && |Registered(f, kind).informers| == |Registered(f, kind).informers.Keys|;
    }
  }

  /** The inside of Start: before the loop and at its end, ... */
  lemma LoopWorks(s: State, t: nat, kinds: nat)
    requires Next(s, Act(t)).Some? && |s.f.informers| <= kinds && (PcOf(s, t).InStart? || PcOf(s, t).Ranging?)
    ensures Acts(s, Next(s, Act(t)).value, t) && Next(s, Act(t)).value.f == s.f
    ensures Work(PcAfter(s, Act(t)), kinds) < Work(PcOf(s, t), kinds)
  {
    assert |s.f.informers.Keys| == |s.f.informers|;
  }

  /** ... the go statement, ... */
  lemma GoWorks(s: State, t: nat, kinds: nat)
    requires Next(s, Act(t)).Some? && PcOf(s, t).Added? && PcOf(s, t).kind in PcOf(s, t).todo
    ensures Acts(s, Next(s, Act(t)).value, t)
    ensures Work(PcAfter(s, Act(t)), kinds) + 2 * |Next(s, Act(t)).value.f.launched| < Work(PcOf(s, t), kinds) + 2 * |s.f.launched|
  {
    RemoveOne(PcOf(s, t).todo, PcOf(s, t).kind);
  }

  /** ... and the update of the map. */
  lemma MarkWorks(s: State, t: nat, kinds: nat)
    requires Next(s, Act(t)).Some? && PcOf(s, t).Launched? && PcOf(s, t).kind in PcOf(s, t).todo
    ensures Acts(s, Next(s, Act(t)).value, t) && Next(s, Act(t)).value.f.launched == s.f.launched
    ensures Work(PcAfter(s, Act(t)), kinds) < Work(PcOf(s, t), kinds)
  {
    RemoveOne(PcOf(s, t).todo, PcOf(s, t).kind);
  }

  lemma SnapshotSize(f: Factory)
    ensures Unresolved(Snapshot(f), map[]) <= |f.informers|
  {
    var nothing: map<Kind, bool> := map[];
    Subset(Snapshot(f).Keys - nothing.Keys, f.informers.Keys);
    assert |f.informers.Keys| == |f.informers|;
  }

  lemma LookWorks(s: State, t: nat, kinds: nat)
    requires PcOf(s, t).InSync? && |s.f.informers| <= kinds
    ensures Acts(s, Next(s, Act(t)).value, t) && Next(s, Act(t)).value.f == s.f
    ensures Work(PcAfter(s, Act(t)), kinds) < Work(PcOf(s, t), kinds)
  {
    SnapshotSize(s.f);
    assert PcAfter(s, Act(t)) == Syncing(Snapshot(s.f), map[], PcOf(s, t).stopCh);
  }

  lemma ReturnWorks(s: State, t: nat, kinds: nat)
    requires Next(s, Act(t)).Some? && (PcOf(s, t).InShutdown? || PcOf(s, t).Flagged? || PcOf(s, t).Waiting? || PcOf(s, t).Syncing?)
    ensures Acts(s, Next(s, Act(t)).value, t) && Next(s, Act(t)).value.f.launched == s.f.launched
    ensures Work(PcAfter(s, Act(t)), kinds) < Work(PcOf(s, t), kinds)
  {
  }

  lemma ActWorks(s: State, t: nat, kinds: nat)
    requires Inv(s) && Next(s, Act(t)).Some? && |s.f.informers| <= kinds
    ensures Acts(s, Next(s, Act(t)).value, t)
    ensures Work(PcAfter(s, Act(t)), kinds) + 2 * |Next(s, Act(t)).value.f.launched| < Work(PcOf(s, t), kinds) + 2 * |s.f.launched|
  {
    var pc := PcOf(s, t);
    if pc.InInformerFor? {
      RegisterActs(s, t);
    } else if pc.InStart? || pc.Ranging? {
      LoopWorks(s, t, kinds);
    } else if pc.Added? {
      ActorOwns(s, Act(t));
      GoWorks(s, t, kinds);
    } else if pc.Launched? {
      ActorOwns(s, Act(t));
      MarkWorks(s, t, kinds);
    } else if pc.InSync? {
      LookWorks(s, t, kinds);
    } else {
      ReturnWorks(s, t, kinds);
    }
  }

  lemma ThreadStepWorks(s: State, step: Step, kinds: nat)
    requires Inv(s) && OfThread(step) && Next(s, step).Some? && |s.f.informers| <= kinds
    ensures Acts(s, Next(s, step).value, step.t)
    ensures Work(PcAfter(s, step), kinds) + 2 * |Next(s, step).value.f.launched| < Work(PcOf(s, step.t), kinds) + 2 * |s.f.launched|
  {
    match step
    case Lock(t) => LockWorks(s, t, kinds);
    case Act(t) => ActWorks(s, t, kinds);
    case Pick(t, kind) => PickWorks(s, t, kind, kinds);
    case Await(t, kind) => AwaitWorks(s, t, kind, kinds);
    case Poll(t, synced) => assert SyncSound(s, PcOf(s, t)); PollWorks(s, t, synced, kinds);
  }

  // ----- every internal step lowers the measure

  lemma MovingThread(s: State, step: Step, n: nat)
    requires Quiet(s, n) && OfThread(step) && Next(s, step).Some?
    ensures step.t < n && Quiet(Next(s, step).value, n)
    ensures forall u: nat :: u != step.t ==> PcOf(Next(s, step).value, u) == PcOf(s, u)
  {
    assert !PcOf(s, step.t).Idle?;
    forall u: nat | u != step.t ensures PcOf(Next(s, step).value, u) == PcOf(s, u) { Others(s, step, u); }
  }

  lemma ThreadStepLowers(s: State, step: Step, n: nat)
    requires Inv(s) && Quiet(s, n) && OfThread(step) && Next(s, step).Some?
    ensures Quiet(Next(s, step).value, n) && Measure(Next(s, step).value, n) < Measure(s, n)
  {
    var s', kinds := Next(s, step).value, Kinds(s, n);
    MovingThread(s, step, n);
    OneThread(s, s', n, step.t, kinds);
    ThreadStepWorks(s, step, kinds);
    FewerKinds(s', n, kinds, Kinds(s', n));
  }

  lemma GoroutineStepLowers(s: State, step: Step, n: nat)
    requires Quiet(s, n) && (step.RunEnds? || step.Done?) && Next(s, step).Some?
    ensures Quiet(Next(s, step).value, n) && Measure(Next(s, step).value, n) < Measure(s, n)
  {
    var s' := Next(s, step).value;
    forall u: nat ensures PcOf(s', u) == PcOf(s, u) { Others(s, step, u); }
    SameThreads(s, s', n, Kinds(s, n));
    if step.RunEnds? {
      assert |s'.ended| == |s.ended| + 1;
    } else {
      assert |s'.done| == |s.done| + 1;
    }
  }

  /** Every step that is not the application's or the API server's uses up some of
      the work. */
  lemma MoveLowers(s: State, step: Step, n: nat)
    requires Inv(s) && Quiet(s, n) && Moves(s, step)
    ensures Quiet(Next(s, step).value, n) && Measure(Next(s, step).value, n) < Measure(s, n)
  {
    if OfThread(step) {
      ThreadStepLowers(s, step, n);
    } else {
      GoroutineStepLowers(s, step, n);
    }
  }

  // ----- stretches of a run in which the application does nothing

  /** From state i to state j, only the factory's threads and goroutines move. */
  ghost predicate Undisturbed(states: seq<State>, steps: seq<Step>, i: nat, j: nat) {
    && IsRun(states, steps) && i <= j < |states|
    && forall k :: i <= k < j ==> !External(steps[k])
  }

  /** Such a stretch is no longer than the work at its beginning. */
  lemma {:induction false} UndisturbedIsShort(states: seq<State>, steps: seq<Step>, i: nat, j: nat, n: nat)
    requires Undisturbed(states, steps, i, j) && Quiet(states[i], n)
    ensures Quiet(states[j], n) && j - i <= Measure(states[i], n) - Measure(states[j], n) && 0 <= Measure(states[j], n)
  {
    RunInv(states, steps, j);
    GoroutinesLeft(states[j]);
    if i < j {
      var k := j - 1;
      UndisturbedIsShort(states, steps, i, k, n);
      RunInv(states, steps, k);
      assert Next(states[k], steps[k]) == Some(states[k + 1]);
      MoveLowers(states[k], steps[k], n);
    }
  }

  lemma {:induction false} SomeBound(keys: set<nat>) returns (n: nat)
    ensures forall t :: t in keys ==> t < n
  {
    if keys == {} {
      n := 0;
    } else {
      var t :| t in keys;
      var m := SomeBound(keys - {t});
      n := if m <= t then t + 1 else m;
      forall u | u in keys ensures u < n {
        if u != t { assert u in keys - {t}; }
      }
    }
  }

  /** Left alone, the factory comes to a standstill from every state of every run. */
  lemma ComesToStandstill(states: seq<State>, steps: seq<Step>) returns (states': seq<State>, steps': seq<Step>)
    requires IsRun(states, steps)
    ensures states <= states' && steps <= steps' && Undisturbed(states', steps', |steps|, |steps'|)
    ensures forall step :: !Moves(states'[|steps'|], step)
  {
    var n := SomeBound(states[|steps|].pcs.Keys);
    states', steps' := MovesOn(states, steps, n);
  }

  lemma {:induction false} MovesOn(states: seq<State>, steps: seq<Step>, n: nat) returns (states': seq<State>, steps': seq<Step>)
    requires IsRun(states, steps) && Quiet(states[|steps|], n)
    ensures states <= states' && steps <= steps' && Undisturbed(states', steps', |steps|, |steps'|)
    ensures forall step :: !Moves(states'[|steps'|], step)
    decreases Measure(states[|steps|], n)
  {
    var s := states[|steps|];
    RunInv(states, steps, |steps|);
    GoroutinesLeft(s);
    if step :| Moves(s, step) {
      var s' := Next(s, step).value;
      MoveLowers(s, step, n);
      Extend(states, steps, s, step, s');
      RunInv(states + [s'], steps + [step], |steps| + 1);
      GoroutinesLeft(s');
      states', steps' := MovesOn(states + [s'], steps + [step], n);
    } else {
      states', steps' := states, steps;
    }
  }

  // ----- which calls have then returned

  /** A call of Shutdown in progress. */
  predicate ShuttingDown(pc: Pc) {
    pc.EnterShutdown? || pc.InShutdown? || pc.Flagged? || pc.Waiting?
  }

  lemma ShutdownStep(s: State, step: Step, t: nat)
    requires Next(s, step).Some? && !External(step)
    requires ShuttingDown(PcOf(s, t)) || (PcOf(s, t).Idle? && s.shutdowns > 0)
    ensures ShuttingDown(PcOf(Next(s, step).value, t)) || (PcOf(Next(s, step).value, t).Idle? && Next(s, step).value.shutdowns > 0)
  {
    if !(OfThread(step) && step.t == t) { Others(s, step, t); }
  }

  lemma {:induction false} ShutdownGoesOn(states: seq<State>, steps: seq<Step>, i: nat, j: nat, t: nat)
    requires Undisturbed(states, steps, i, j) && ShuttingDown(PcOf(states[i], t))
    ensures ShuttingDown(PcOf(states[j], t)) || (PcOf(states[j], t).Idle? && states[j].shutdowns > 0)
  {
    if i < j {
      var k := j - 1;
      ShutdownGoesOn(states, steps, i, k, t);
      assert Next(states[k], steps[k]) == Some(states[k + 1]);
      ShutdownStep(states[k], steps[k], t);
    }
  }

  lemma GoroutineLeft(s: State, t: nat)
    requires Counted(s) && AllBlocked(s) && PcOf(s, t).Waiting?
    ensures exists k :: 0 <= k < |s.f.launched| && s.f.launched[k].stopCh !in s.closed
  {
    assert s.lock.Some? ==> PcOf(s, s.lock.value).Idle? || BlockedCall(s, PcOf(s, s.lock.value));
    assert BlockedCall(s, PcOf(s, t));
    FactoryProtocol.Missing(|s.f.launched|, s.done);
    var k: nat :| k < |s.f.launched| && k !in s.done;
    assert BlockedGoroutine(s, k);
  }

  lemma {:induction false} UndisturbedKeeps(states: seq<State>, steps: seq<Step>, i: nat, j: nat)
    requires Undisturbed(states, steps, i, j)
    ensures states[j].closed == states[i].closed && states[j].synced == states[i].synced
  {
    if i < j {
      var k := j - 1;
      UndisturbedKeeps(states, steps, i, k);
      assert Next(states[k], steps[k]) == Some(states[k + 1]);
    }
  }

  /** Once the factory is shutting down, nothing is launched any more, whatever is
      called. */
  lemma {:induction false} ShuttingDownLaunchesNoMore(states: seq<State>, steps: seq<Step>, i: nat, j: nat)
    requires IsRun(states, steps) && i <= j < |states| && states[i].f.shuttingDown
    ensures states[j].f.shuttingDown && states[j].f.launched == states[i].f.launched
  {
    if i < j {
      var k := j - 1;
      ShuttingDownLaunchesNoMore(states, steps, i, k);
      RunInv(states, steps, k);
      assert Next(states[k], steps[k]) == Some(states[k + 1]);
      NoMoreLaunches(states[k], steps[k]);
    }
  }

  lemma NoMoreLaunches(s: State, step: Step)
    requires MutexHeld(s) && Stopped(s) && Next(s, step).Some? && s.f.shuttingDown
    ensures Next(s, step).value.f.shuttingDown && Next(s, step).value.f.launched == s.f.launched
  {
    if step.Act? || step.Pick? { ActorOwns(s, step); }
  }

  /** A call of Shutdown, left alone, has returned when nothing moves any more exactly
      if the channels of all informers are closed; nothing is launched meanwhile once
      the flag is set, so whoever calls it can tell beforehand. */
  lemma ShutdownReturnsIff(states: seq<State>, steps: seq<Step>, i: nat, j: nat, t: nat)
    requires Undisturbed(states, steps, i, j) && ShuttingDown(PcOf(states[i], t))
    requires forall step :: !Moves(states[j], step)
    ensures PcOf(states[j], t).Idle? <==>
              forall k :: 0 <= k < |states[j].f.launched| ==> states[j].f.launched[k].stopCh in states[i].closed
    ensures states[i].f.shuttingDown ==> states[j].f.launched == states[i].f.launched
  {
    var s := states[j];
    RunInv(states, steps, j);
    StandstillIff(states, steps, j);
    UndisturbedKeeps(states, steps, i, j);
    ShutdownGoesOn(states, steps, i, j, t);
    if states[i].f.shuttingDown { ShuttingDownLaunchesNoMore(states, steps, i, j); }
    if PcOf(s, t).Idle? {
      forall k | 0 <= k < |s.f.launched| ensures s.f.launched[k].stopCh in s.closed {
        ReturnedShutdownMeansClosed(states, steps, j, k);
      }
    } else {
      assert BlockedCall(s, PcOf(s, t));
      GoroutineLeft(s, t);
    }
  }

  // ----- WaitForCacheSync

  /** The informers for which a call of WaitForCacheSync still has to wait. */
  function Unanswered(pc: Pc): set<Kind>
    requires pc.Syncing? || pc.Polling?
  {
    pc.snapshot.Keys - pc.result.Keys
  }

  /** What has become of a call that was at first: it is still at it, or has returned,
      and every informer it is done with has synced or its channel is closed. */
  ghost predicate SyncProgress(s: State, first: Pc, pc: Pc)
    requires first.Syncing? || first.Polling?
  {
    if pc.Idle? then forall kind :: kind in Unanswered(first) ==> kind in s.synced || first.stopCh in s.closed
    else
      && (pc.Syncing? || pc.Polling?) && pc.snapshot == first.snapshot && pc.stopCh == first.stopCh && Unanswered(pc) <= Unanswered(first)
      && forall kind :: kind in Unanswered(first) && kind !in Unanswered(pc) ==> kind in s.synced || first.stopCh in s.closed
  }

  lemma SyncStep(s: State, step: Step, t: nat, first: Pc)
    requires Next(s, step).Some? && !External(step) && SyncSound(s, PcOf(s, t))
    requires (first.Syncing? || first.Polling?) && SyncProgress(s, first, PcOf(s, t))
    ensures SyncProgress(Next(s, step).value, first, PcOf(Next(s, step).value, t))
  {
    if !(OfThread(step) && step.t == t) { Others(s, step, t); }
  }

  lemma {:induction false} SyncGoesOn(states: seq<State>, steps: seq<Step>, i: nat, j: nat, t: nat)
    requires Undisturbed(states, steps, i, j) && (PcOf(states[i], t).Syncing? || PcOf(states[i], t).Polling?)
    ensures SyncProgress(states[j], PcOf(states[i], t), PcOf(states[j], t))
  {
    if i < j {
      var k := j - 1;
      SyncGoesOn(states, steps, i, k, t);
      RunInv(states, steps, k);
      assert Next(states[k], steps[k]) == Some(states[k + 1]);
      assert SyncSound(states[k], PcOf(states[k], t));
      SyncStep(states[k], steps[k], t, PcOf(states[i], t));
    }
  }

  /** A call of WaitForCacheSync, left alone, has returned when nothing moves any more
      exactly if its channel is closed or all informers it waits for have synced. */
  lemma SyncReturnsIff(states: seq<State>, steps: seq<Step>, i: nat, j: nat, t: nat)
    requires Undisturbed(states, steps, i, j) && (PcOf(states[i], t).Syncing? || PcOf(states[i], t).Polling?)
    requires forall step :: !Moves(states[j], step)
    ensures PcOf(states[j], t).Idle? <==>
              PcOf(states[i], t).stopCh in states[i].closed || Unanswered(PcOf(states[i], t)) <= states[i].synced
  {
    var pc := PcOf(states[j], t);
    RunInv(states, steps, j);
    StandstillIff(states, steps, j);
    UndisturbedKeeps(states, steps, i, j);
    SyncGoesOn(states, steps, i, j, t);
    assert SyncSound(states[j], pc);
    assert pc.Idle? || BlockedCall(states[j], pc);
    if pc.Polling? {
      assert pc.kind in Unanswered(pc);
    }
  }

  /** If every channel in use is closed, every call has returned when nothing moves
      any more. */
  lemma ClosedChannelsLetGo(states: seq<State>, steps: seq<Step>, j: nat, t: nat)
    requires IsRun(states, steps) && j < |states|
    requires forall step :: !Moves(states[j], step)
    requires forall k :: 0 <= k < |states[j].f.launched| ==> states[j].f.launched[k].stopCh in states[j].closed
    requires PcOf(states[j], t).Polling? ==> PcOf(states[j], t).stopCh in states[j].closed
    ensures PcOf(states[j], t).Idle?
  {
    RunInv(states, steps, j);
    StandstillIff(states, steps, j);
    var s := states[j];
    if !PcOf(s, t).Idle? {
      assert BlockedCall(s, PcOf(s, t));
      GoroutineLeft(s, t);
    }
  }
}
