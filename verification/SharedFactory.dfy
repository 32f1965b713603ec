/** The shared informer factory as a class.  A method runs in one thread, which takes
    the steps of the protocol; other threads get their turn between methods. */
module SharedFactory {
  import opened Base
  import opened InformerFactory
  import opened FactoryProtocol
  import opened FactoryLiveness

  /** A run leads from s to s'. */
  ghost predicate LeadsTo(s: State, s': State) {
    exists states, steps, i, j :: PassesThrough(states, steps, i, s, j, s')
  }

  ghost predicate PassesThrough(states: seq<State>, steps: seq<Step>, i: nat, s: State, j: nat, s': State) {
    IsRun(states, steps) && i <= j < |states| && states[i] == s && states[j] == s'
  }

  lemma NoLaunchAhead(s: State, s': State)
    requires s.f.shuttingDown && LeadsTo(s, s')
    ensures s'.f.launched == s.f.launched
  {
    var states, steps, i, j :| PassesThrough(states, steps, i, s, j, s');
    ShuttingDownLaunchesNoMore(states, steps, i, j);
  }

  /** Nothing but the program point of thread t, the mutex, and what it protects has
      changed. */
  ghost predicate OnlyThread(s: State, s': State, t: nat) {
    && (forall u: nat :: u != t ==> PcOf(s', u) == PcOf(s, u))
    && s'.closed == s.closed && s'.synced == s.synced && s'.ended == s.ended && s'.done == s.done
  }

  class SharedInformerFactory {
    var informers: map<Kind, Informer>
    var startedInformers: set<Kind>
    var wg: nat
    var shuttingDown: bool
    var launched: seq<Launch>
    var created: nat
    /** The state of the protocol, all threads and goroutines included. */
    ghost var state: State

    ghost function Abs(): Factory
      reads this
    {
      Factory(informers, startedInformers, wg, shuttingDown, launched, created)
    }

    ghost predicate Valid()
      reads this
    {
      Abs() == state.f && Reachable(state) && state.lock.None?
    }

    constructor ()
      ensures Valid() && state == Initial()
    {
      informers, startedInformers, wg, shuttingDown := map[], {}, 0, false;
      launched, created := [], 0;
      state := Initial();
      new;
      InitialReachable();
    }

    /** The protocol takes a step. */
    ghost method Take(step: Step)
      requires Reachable(state) && Next(state, step).Some?
      modifies this`state
      ensures Reachable(state) && Next(old(state), step) == Some(state)
    {
      var next := Next(state, step).value;
      StepReachable(state, step, next);
      state := next;
    }

    /** A step of thread t. */
    ghost method Move(t: nat, step: Step)
      requires Reachable(state) && Next(state, step).Some?
      requires (step.Call? || step.Lock? || step.Act? || step.Pick?) && step.t == t
      modifies this`state
      ensures Reachable(state) && Next(old(state), step) == Some(state) && OnlyThread(old(state), state, t)
    {
      ghost var before := state;
      forall u: nat | u != t ensures PcOf(Next(before, step).value, u) == PcOf(before, u) { Others(before, step, u); }
      Take(step);
    }

    /** Thread t calls a method and gets the mutex. */
    ghost method Enter(t: nat, entry: Pc)
      requires Valid() && PcOf(state, t).Idle? && Entry(entry)
      modifies this`state
      ensures Reachable(state) && OnlyThread(old(state), state, t)
      ensures state.f == old(state).f && state.lock == Some(t) && PcOf(state, t) == AfterLock(entry)
      ensures state.returned == old(state).returned && state.shutdowns == old(state).shutdowns
    {
      Move(t, Call(t, entry));
      Move(t, Lock(t));
    }

    /** An informer that is asked for again is returned again; one that is asked for
        for the first time is none of those returned before. */
    method InformerFor(ghost t: nat, kind: Kind) returns (informer: Informer)
      requires Valid() && PcOf(state, t).Idle?
      modifies this
      ensures Valid() && PcOf(state, t).Idle? && OnlyThread(old(state), state, t)
      ensures Abs() == Registered(old(Abs()), kind)
      ensures state.returned == old(state).returned + [Registration(kind, informer)]
      ensures forall k :: 0 <= k < |state.returned| ==> (state.returned[k].informer == informer <==> state.returned[k].kind == kind)
    {
      Enter(t, EnterInformerFor(kind));
      if kind in informers {
        informer := informers[kind];
      } else {
        informer := created;
        created := created + 1;
        informers := informers[kind := informer];
      }
      Move(t, Act(t));
      ReturnedInformers(state);
      assert state.returned[|state.returned| - 1] == Registration(kind, informer);
    }

    method Start(ghost t: nat, stopCh: Channel)
      requires Valid() && PcOf(state, t).Idle?
      modifies this
      ensures Valid() && PcOf(state, t).Idle? && OnlyThread(old(state), state, t)
      ensures StartEffect(old(Abs()), Abs(), stopCh)
    {
      Enter(t, EnterStart(stopCh));
      if shuttingDown {
        Move(t, Act(t));
        return;
      }
      var todo := informers.Keys;
      ghost var f := Abs();
      StartedAreRegistered(state);
      Move(t, Act(t));
      while todo != {}
        invariant Reachable(state) && Abs() == state.f && state.lock == Some(t)
        invariant PcOf(state, t) == Ranging(todo, stopCh) && OnlyThread(old(state), state, t)
        invariant Progress(f, Abs(), todo, stopCh)
        decreases todo
      {
        var kind :| kind in todo;
        StartOne(t, kind, todo, stopCh, f);
        todo := todo - {kind};
      }
      Move(t, Act(t));
    }

    /** The body of the loop of Start. */
    method StartOne(ghost t: nat, kind: Kind, ghost todo: set<Kind>, stopCh: Channel, ghost f: Factory)
      requires Reachable(state) && Abs() == state.f && state.lock == Some(t)
      requires PcOf(state, t) == Ranging(todo, stopCh) && kind in todo && Progress(f, Abs(), todo, stopCh)
      modifies this
      ensures Reachable(state) && Abs() == state.f && state.lock == Some(t) && OnlyThread(old(state), state, t)
      ensures PcOf(state, t) == Ranging(todo - {kind}, stopCh) && Progress(f, Abs(), todo - {kind}, stopCh)
    {
      Move(t, Pick(t, kind));
      if kind !in startedInformers {
        wg := wg + 1;
        Run(t, kind, todo, stopCh);
      }
      ProgressStep(f, old(Abs()), Abs(), todo, kind, stopCh);
    }

    /** The go statement, and the note that the informer is started. */
    method Run(ghost t: nat, kind: Kind, ghost todo: set<Kind>, stopCh: Channel)
      requires Reachable(state) && Abs() == state.f && state.lock == Some(t)
      requires PcOf(state, t) == Added(todo, kind, stopCh) && kind in informers
      modifies this
      ensures Reachable(state) && Abs() == state.f && state.lock == Some(t) && OnlyThread(old(state), state, t)
      ensures PcOf(state, t) == Ranging(todo - {kind}, stopCh)
      ensures Abs() == old(Abs()).(launched := old(launched) + [Launch(kind, old(informers[kind]), stopCh)], started := old(startedInformers) + {kind})
    {
      launched := launched + [Launch(kind, informers[kind], stopCh)];
      Move(t, Act(t));
      startedInformers := startedInformers + {kind};
      Move(t, Act(t));
    }

    /** The locked part of Shutdown.  From now on, whatever is called, nothing is
        launched any more. */
    method BeginShutdown(ghost t: nat)
      requires Valid() && PcOf(state, t).Idle?
      modifies this
      ensures Valid() && PcOf(state, t).Waiting? && OnlyThread(old(state), state, t)
      ensures Abs() == old(Abs()).(shuttingDown := true)
      ensures forall later :: LeadsTo(state, later) ==> later.f.launched == launched
    {
      Enter(t, EnterShutdown);
      shuttingDown := true;
      Move(t, Act(t));
      Move(t, Act(t));
      forall later | LeadsTo(state, later) ensures later.f.launched == launched { NoLaunchAhead(state, later); }
    }

    /** The return from the wait of Shutdown, when the count is zero: every informer
        has ended, and its channel is closed. */
    method FinishShutdown(ghost t: nat)
      requires Valid() && PcOf(state, t).Waiting? && wg == 0
      modifies this`state
      ensures Valid() && PcOf(state, t).Idle? && OnlyThread(old(state), state, t)
      ensures forall k: nat :: k < |launched| ==> k in state.ended && launched[k].stopCh in state.closed
    {
      Move(t, Act(t));
      AllEnded(state);
    }

    /** The locked part of WaitForCacheSync: the informers to wait for, each of which
        has been launched. */
    method StartedInformers(ghost t: nat, stopCh: Channel) returns (snapshot: map<Kind, Informer>)
      requires Valid() && PcOf(state, t).Idle?
      modifies this`state
      ensures Valid() && OnlyThread(old(state), state, t)
      ensures PcOf(state, t) == Syncing(snapshot, map[], stopCh) && snapshot == Snapshot(Abs())
      ensures forall kind :: kind in snapshot ==> exists k :: 0 <= k < |launched| && launched[k].kind == kind && launched[k].informer == snapshot[kind]
    {
      Enter(t, EnterSync(stopCh));
      snapshot := map[];
      var todo := informers.Keys;
      while todo != {}
        invariant todo <= informers.Keys
        invariant snapshot == map kind | kind in informers && kind in startedInformers && kind !in todo :: informers[kind]
        decreases todo
      {
        var kind :| kind in todo;
        if kind in startedInformers {
          snapshot := snapshot[kind := informers[kind]];
        }
        todo := todo - {kind};
      }
      Move(t, Act(t));
      ReachableInv(state);
    }

    /** What the factory does not do itself: the application closes a channel, an
        informer syncs, or ends because its channel is closed. */
    ghost method Outside(step: Step)
      requires Valid() && (step.Close? || step.HasSynced? || step.RunEnds?) && Next(state, step).Some?
      modifies this`state
      ensures Valid() && Next(old(state), step) == Some(state)
    {
      Take(step);
    }

    /** The deferred wg.Done of the goroutine of launch k. */
    method GoroutineDone(ghost k: nat)
      requires Valid() && k in state.ended && k !in state.done
      modifies this`wg, this`state
      ensures Valid() && wg == old(wg) - 1 && state == old(state).(done := old(state).done + {k}, f := state.f)
    {
      OneNotDone(state, k);
      wg := wg - 1;
      Take(Done(k));
    }
  }

  /** How far the loop of Start has come: f is the factory at its beginning. */
  ghost predicate Progress(f: Factory, g: Factory, todo: set<Kind>, stopCh: Channel) {
    && g.informers == f.informers && g.created == f.created && g.shuttingDown == f.shuttingDown && !g.shuttingDown
    && todo <= f.informers.Keys && g.started + todo == f.informers.Keys && f.started <= g.started
    && f.launched <= g.launched && g.wg == f.wg + (|g.launched| - |f.launched|)
    && (forall k :: |f.launched| <= k < |g.launched| ==>
          g.launched[k].kind in g.started && g.launched[k].kind !in f.started && g.launched[k].stopCh == stopCh)
    && (forall kind :: kind in g.started && kind !in f.started ==>
          exists k :: |f.launched| <= k < |g.launched| && g.launched[k].kind == kind)
  }

  lemma ProgressStep(f: Factory, g: Factory, h: Factory, todo: set<Kind>, kind: Kind, stopCh: Channel)
    requires Progress(f, g, todo, stopCh) && kind in todo
    requires h == if kind in g.started then g
                  else g.(wg := g.wg + 1, launched := g.launched + [Launch(kind, g.informers[kind], stopCh)], started := g.started + {kind})
    ensures Progress(f, h, todo - {kind}, stopCh)
  {
    if kind !in g.started {
      assert h.launched[|g.launched|].kind == kind;
      assert forall k :: 0 <= k < |g.launched| ==> h.launched[k] == g.launched[k];
    }
  }

  lemma ReturnedInformers(s: State)
    requires Reachable(s)
    ensures forall j, k :: 0 <= j < |s.returned| && 0 <= k < |s.returned| ==>
              (s.returned[j].informer == s.returned[k].informer <==> s.returned[j].kind == s.returned[k].kind)
  {
    ReachableInv(s);
    ReachableEachItsOwn(s);
    assert forall j :: 0 <= j < |s.returned| ==> s.returned[j].kind in s.f.informers && s.f.informers[s.returned[j].kind] == s.returned[j].informer;
  }

  lemma AllEnded(s: State)
    requires Reachable(s) && s.shutdowns > 0
    ensures forall k: nat :: k < |s.f.launched| ==> k in s.ended && s.f.launched[k].stopCh in s.closed
  {
    var states, steps :| EndsIn(states, steps, s);
    forall k: nat | k < |s.f.launched| ensures k in s.ended && s.f.launched[k].stopCh in s.closed {
      NothingRunsAfterShutdown(states, steps, |steps|, |steps|, k);
      ReturnedShutdownMeansClosed(states, steps, |steps|, k);
    }
  }

  lemma StartedAreRegistered(s: State)
    requires Reachable(s)
    ensures s.f.started + s.f.informers.Keys == s.f.informers.Keys
  {
    ReachableInv(s);
  }

  lemma OneNotDone(s: State, k: nat)
    requires Reachable(s) && k in s.ended && k !in s.done
    ensures s.f.wg > 0
  {
    ReachableInv(s);
    assert |s.done + {k}| == |s.done| + 1;
    AtMostRange(|s.f.launched|, s.done + {k});
  }
}
