/**
 * The handlers themselves, as the plugin runs them: each is a sequence of
 * critical sections, and between any two of them the other handlers, the
 * runner and the clock may take any steps of theirs.
 */
module Handlers {
  import opened Bytes
  import opened Environments

  /** What a handler cannot choose: others' steps between its own, and how the backend and the select behave. */
  datatype World = World(
    others: nat -> seq<Step>, budget: nat, prefersCancel: bool,
    made: bool, created: bool, booted: bool, answered: bool, deleted: bool, ours: bool)

  datatype Waited = Got | Interrupted | Blocked

  /**
   * `Pending` is a handler still waiting for the lock when the observation
   * ended, `Unanswered` one that succeeded but could not send its answer.
   */
  datatype Outcome =
    | Succeeded
    | Unanswered
    | NotFound
    | WrongState
    | Cancelled
    | Failed
    | NotOurs
    | Pending

  predicate By(a: Step, t: Tid) {
    Actor(a) == Some(t) && !a.Cancel?
  }

  /** The same handler, at most cancelled in the meantime. */
  predicate Undisturbed(before: Thread, after: Thread) {
    after == before.(cancelled := after.cancelled) && (before.cancelled ==> after.cancelled)
  }

  /** The environment is there, and its pod as it was. */
  predicate SamePod(id: Id, before: map<Id, Env>, after: map<Id, Env>) {
    id in before && id in after && after[id].pod == before[id].pod
  }

  /** What becomes of a boot is up to the backend, the runner and the stream the answer goes to. */
  predicate BootOutcome(r: Outcome, w: World, cancelled: bool) {
    && (r.Succeeded? ==> w.made && w.created && w.booted && w.answered)
    && (r.Unanswered? ==> w.made && w.created && w.booted && !w.answered)
    && (r.Failed? ==> cancelled || !w.made || !w.created || !w.booted)
  }

  predicate HasPod(id: Id, envs: map<Id, Env>) {
    id in envs && envs[id].pod
  }

  predicate Forgotten(id: Id, registry: set<Id>, envs: map<Id, Env>) {
    id in envs && id !in registry
  }

  /** A pod stays, and so does having been forgotten. */
  predicate Steady(id: Id, registry: set<Id>, envs: map<Id, Env>, registry': set<Id>, envs': map<Id, Env>) {
    && (HasPod(id, envs) ==> HasPod(id, envs'))
    && (Forgotten(id, registry, envs) ==> Forgotten(id, registry', envs'))
  }

  class Plugin {
    var registry: set<Id>
    var envs: map<Id, Env>
    var jobs: set<Id>
    var threads: map<Tid, Thread>
    var removed: set<Id>
    var shutdown: bool
    var expired: bool

    function State(): Server
      reads this
    {
      Server(registry, envs, jobs, threads, removed, shutdown, expired)
    }

    ghost predicate Valid(d: bool)
      reads this
    {
      Reachable(State(), d)
    }

    predicate Runs(t: Tid, kind: Kind, pc: Pc)
      reads this
    {
      t in threads && threads[t].kind == kind && threads[t].pc == pc
    }

    constructor (d: bool)
      ensures Valid(d) && State() == EMPTY
    {
      registry, envs, jobs, threads, removed, shutdown, expired := {}, map[], {}, map[], {}, false, false;
      new;
      assert Play(EMPTY, [], d) == Some(EMPTY);
    }

    /** One step of another handler, of the runner or of the clock. */
    method Other(t: Tid, d: bool, a: Step)
      requires Valid(d) && CanStep(State(), a, d) && t in threads && !By(a, t)
      modifies this
      ensures Valid(d) && State() == After(old(State()), a, d)
      ensures t in threads && Undisturbed(old(threads[t]), threads[t])
      ensures Holding(threads[t].pc) ==> SamePod(threads[t].id, old(envs), envs)
      ensures Holding(threads[t].pc) && threads[t].id in jobs ==> threads[t].id in old(jobs)
      ensures Steady(threads[t].id, old(registry), old(envs), registry, envs)
      ensures old(removed) <= removed && (old(expired) ==> expired)
    {
      OthersStep(State(), a, d, t);
      var s := After(State(), a, d);
      registry, envs, jobs, threads, removed, shutdown, expired :=
        s.registry, s.envs, s.jobs, s.threads, s.removed, s.shutdown, s.expired;
    }

    /** Any steps of the others, and the runner's cancellation of this handler. */
    method Interfere(t: Tid, d: bool, steps: seq<Step>)
      requires Valid(d) && t in threads
      modifies this
      ensures Valid(d) && t in threads && Undisturbed(old(threads[t]), threads[t])
      ensures Holding(threads[t].pc) ==> SamePod(threads[t].id, old(envs), envs)
      ensures Holding(threads[t].pc) && threads[t].id in jobs ==> threads[t].id in old(jobs)
      ensures Steady(threads[t].id, old(registry), old(envs), registry, envs)
      ensures old(removed) <= removed && (old(expired) ==> expired)
    {
      HeldEnvExists(State(), d, t);
      for i := 0 to |steps|
        invariant Valid(d) && t in threads && Undisturbed(old(threads[t]), threads[t])
        invariant Holding(threads[t].pc) ==> SamePod(threads[t].id, old(envs), envs)
        invariant Holding(threads[t].pc) && threads[t].id in jobs ==> threads[t].id in old(jobs)
        invariant Steady(threads[t].id, old(registry), old(envs), registry, envs)
        invariant old(removed) <= removed && (old(expired) ==> expired)
      {
        if CanStep(State(), steps[i], d) && !By(steps[i], t) {
          Other(t, d, steps[i]);
        }
      }
    }

    /** s.mu.Lock(); e := s.envs[id]; s.mu.Unlock() */
    method LookUp(t: Tid, d: bool, ours: bool) returns (found: bool)
      requires Valid(d) && t in threads && threads[t].pc == LookingUp
      modifies this`threads
      ensures Valid(d)
      ensures t in threads && found == (threads[t].id in registry)
      ensures var th := old(threads[t]);
              threads == old(threads)[t := th.(pc := if found then Waiting else if !th.kind.RemoveRpc? then Done(false)
                                                     else if ours then DeletingUnlocked else Done(true))]
    {
      var th := threads[t];
      found := th.id in registry;
      var next := Waiting;
      if !found {
        next := if !th.kind.RemoveRpc? then Done(false) else if ours then DeletingUnlocked else Done(true);
      }
      ReachableStep(State(), Step.LookUp(t, ours), d);
      threads := threads[t := th.(pc := next)];
    }

    predicate Interrupted(t: Tid)
      requires t in threads
      reads this
    {
      if t.Client? then threads[t].cancelled else expired
    }

    /** Blocked, while the lock is taken and the context goes on. */
    method Block(t: Tid, d: bool, w: World)
      requires Valid(d) && t in threads && threads[t].pc == Waiting
      modifies this
      ensures Valid(d) && t in threads && Undisturbed(old(threads[t]), threads[t])
      ensures threads[t].id in envs && old(removed) <= removed
      ensures Steady(threads[t].id, old(registry), old(envs), registry, envs)
    {
      var k := 0;
      WaiterEnvExists(State(), d, t);
      while k < w.budget && envs[threads[t].id].slot && !Interrupted(t)
        invariant Valid(d) && t in threads && Undisturbed(old(threads[t]), threads[t])
        invariant threads[t].id in envs && old(removed) <= removed
        invariant Steady(threads[t].id, old(registry), old(envs), registry, envs)
        decreases w.budget - k
      {
        Interfere(t, d, w.others(k));
        WaiterEnvExists(State(), d, t);
        k := k + 1;
      }
    }

    /** e.lock <- struct{}{} */
    method Lock(t: Tid, d: bool)
      requires Valid(d) && t in threads && threads[t].pc == Waiting
      requires threads[t].id in envs && !envs[threads[t].id].slot
      modifies this`threads, this`envs
      ensures Valid(d) && threads == old(threads)[t := old(threads[t]).(pc := Locked)]
      ensures var id := old(threads[t]).id; envs == old(envs)[id := old(envs)[id].(slot := true)]
    {
      var th := threads[t];
      ReachableStep(State(), TakeLock(t), d);
      envs := envs[th.id := envs[th.id].(slot := true)];
      threads := threads[t := th.(pc := Locked)];
    }

    /** The context ended first: a client's handler returns, a shutdown task goes on without the lock. */
    method StopWaiting(t: Tid, d: bool)
      requires Valid(d) && t in threads && threads[t].pc == Waiting && Interrupted(t)
      modifies this`threads
      ensures Valid(d)
      ensures threads == old(threads)[t := old(threads[t]).(pc := if t.Client? then Done(false) else DeletingUnlocked)]
    {
      var th := threads[t];
      ReachableStep(State(), GiveUp(t), d);
      threads := threads[t := th.(pc := if t.Client? then Done(false) else DeletingUnlocked)];
    }

    function Awaited(r: Waited, t: Tid): Pc {
      match r
      case Got => Locked
      case Interrupted => if t.Client? then Done(false) else DeletingUnlocked
      case Blocked => Waiting
    }

    /** select: the lock, or the context's end. */
    method Select(t: Tid, d: bool, prefersCancel: bool) returns (r: Waited)
      requires Valid(d) && t in threads && threads[t].pc == Waiting && threads[t].id in envs
      modifies this`threads, this`envs
      ensures Valid(d) && threads == old(threads)[t := old(threads[t]).(pc := Awaited(r, t))]
      ensures var id := old(threads[t]).id;
              envs == if r.Got? then old(envs)[id := old(envs)[id].(slot := true)] else old(envs)
      ensures r.Got? ==> !old(envs)[old(threads[t]).id].slot
      ensures r.Interrupted? ==> old(Interrupted(t))
      ensures r.Blocked? ==> old(envs)[old(threads[t]).id].slot && !old(Interrupted(t))
    {
      if !envs[threads[t].id].slot && !(Interrupted(t) && prefersCancel) {
        Lock(t, d);
        return Waited.Got;
      } else if Interrupted(t) {
        StopWaiting(t, d);
        return Waited.Interrupted;
      }
      return Waited.Blocked;
    }

    /** Waits for the lock; anything may happen before, while it is blocked, and after. */
    method Await(t: Tid, d: bool, w: World) returns (r: Waited)
      requires Valid(d) && t in threads && threads[t].pc == Waiting
      modifies this
      ensures Valid(d) && t in threads && old(removed) <= removed
      ensures Undisturbed(old(threads[t]).(pc := Awaited(r, t)), threads[t])
      ensures r.Interrupted? ==> Interrupted(t)
      ensures r.Blocked? ==> !Interrupted(t) && threads[t].id in envs && envs[threads[t].id].slot
      ensures Steady(threads[t].id, old(registry), old(envs), registry, envs)
    {
      Interfere(t, d, w.others(w.budget + 3));
      Block(t, d, w);
      r := Select(t, d, w.prefersCancel);
      if !r.Blocked? {
        Interfere(t, d, w.others(w.budget + 4));
      }
    }

    /** What a handler does with the lock depends on its environment's pod. */
    method Enter(t: Tid, d: bool) returns (pod: bool)
      requires Valid(d) && t in threads && threads[t].pc == Locked
      modifies this`threads
      ensures Valid(d) && t in threads && threads[t].id in envs && pod == envs[threads[t].id].pod
      ensures threads == old(threads)[t := old(threads[t]).(pc := Entered(old(threads[t]).kind, envs[threads[t].id]))]
    {
      HeldEnvExists(State(), d, t);
      var th := threads[t];
      pod := envs[th.id].pod;
      ReachableStep(State(), Step.Enter(t), d);
      threads := threads[t := th.(pc := Entered(th.kind, envs[th.id]))];
    }

    /** defer unlock() */
    method Unlock(t: Tid, d: bool)
      requires Valid(d) && t in threads && threads[t].pc.Releasing?
      modifies this`threads, this`envs
      ensures Valid(d) && old(threads[t]).id in old(envs)
      ensures threads == old(threads)[t := old(threads[t]).(pc := Done(old(threads[t]).pc.ok))]
      ensures var id := old(threads[t]).id; envs == old(envs)[id := old(envs)[id].(slot := false)]
    {
      HeldEnvExists(State(), d, t);
      var th := threads[t];
      ReachableStep(State(), Release(t), d);
      envs := envs[th.id := envs[th.id].(slot := false)];
      threads := threads[t := th.(pc := Done(th.pc.ok))];
    }

    /** The end of a handler that holds the lock. */
    method Finish(t: Tid, d: bool, others: seq<Step>)
      requires Valid(d) && t in threads && threads[t].pc.Releasing?
      modifies this
      ensures Valid(d) && t in threads && old(removed) <= removed
      ensures Undisturbed(old(threads[t]).(pc := Done(old(threads[t]).pc.ok)), threads[t])
      ensures SamePod(threads[t].id, old(envs), envs)
      ensures threads[t].id in jobs ==> threads[t].id in old(jobs)
      ensures Steady(threads[t].id, old(registry), old(envs), registry, envs)
    {
      Interfere(t, d, others);
      Unlock(t, d);
    }

    /** acquire: an environment's lock, or the reason there is none. */
    method Acquire(t: Tid, d: bool, w: World) returns (r: Option<Outcome>)
      requires Valid(d) && t in threads && threads[t].pc == LookingUp && t.Client? && !threads[t].kind.RemoveRpc?
      modifies this
      ensures Valid(d) && t in threads
      ensures var pc := match r
                        case None => Locked
                        case Some(Pending) => Waiting
                        case _ => Done(false);
              Undisturbed(old(threads[t]).(pc := pc), threads[t])
      ensures r == Some(NotFound) <==> old(threads[t]).id !in old(registry)
      ensures r.Some? ==> r.value.NotFound? || r.value.Pending? || r.value.Cancelled?
      ensures r == Some(Cancelled) ==> threads[t].cancelled
      ensures r == Some(Pending) ==> !threads[t].cancelled && threads[t].id in envs && envs[threads[t].id].slot
      ensures Steady(threads[t].id, old(registry), old(envs), registry, envs)
    {
      var found := LookUp(t, d, true);
      if !found {
        return Some(NotFound);
      }
      var got := Await(t, d, w);
      match got {
        case Got => return None;
        case Interrupted => return Some(Cancelled);
        case Blocked => return Some(Pending);
      }
    }

    /** backend.Create: a cancelled one makes nothing, a successful one makes the Job. */
    method MakeJob(t: Tid, d: bool, w: World) returns (ok: bool)
      requires Valid(d) && t in threads && threads[t].pc == Creating
      modifies this`threads, this`jobs
      ensures Valid(d) && t in threads
      ensures threads == old(threads)[t := old(threads[t]).(pc := if ok then Booting else CleaningUp, failed := !ok)]
      ensures jobs == if w.made && !old(threads[t]).cancelled then old(jobs) + {old(threads[t]).id} else old(jobs)
      ensures ok == (w.created && w.made && !old(threads[t]).cancelled)
    {
      var th := threads[t];
      var made := w.made && !th.cancelled;
      ok := w.created && made;
      ReachableStep(State(), CreateJob(t, made, ok), d);
      jobs := if made then jobs + {th.id} else jobs;
      threads := threads[t := th.(pc := if ok then Booting else CleaningUp, failed := !ok)];
    }

    /** backend.Delete of what a failed boot may have left. */
    method Discard(t: Tid, d: bool, ok: bool)
      requires Valid(d) && t in threads && threads[t].pc == CleaningUp
      modifies this`threads, this`jobs
      ensures Valid(d) && t in threads
      ensures var th := old(threads[t]);
              threads == old(threads)[t := th.(pc := Releasing(false), deletes := th.deletes + 1)]
      ensures jobs == if ok then old(jobs) - {old(threads[t]).id} else old(jobs)
    {
      var th := threads[t];
      ReachableStep(State(), CleanUp(t, ok), d);
      jobs := if ok then jobs - {th.id} else jobs;
      threads := threads[t := th.(pc := Releasing(false), deletes := th.deletes + 1)];
    }

    /** Create the Job, then wait for its pod. */
    method Boot(t: Tid, d: bool, w: World) returns (ok: bool)
      requires Valid(d) && t in threads && threads[t].pc == Creating && t.Client?
      modifies this
      ensures Valid(d) && t in threads
      ensures Undisturbed(old(threads[t]).(pc := if ok then Releasing(true) else CleaningUp, failed := !ok), threads[t])
      ensures threads[t].id in envs && (envs[threads[t].id].pod <==> ok)
      ensures ok ==> w.made && w.created && w.booted
      ensures !ok ==> threads[t].cancelled || !w.made || !w.created || !w.booted
    {
      Interfere(t, d, w.others(w.budget + 5));
      CreatingHasNoPod(State(), d, t);
      ok := MakeJob(t, d, w);
      if ok {
        Interfere(t, d, w.others(w.budget + 1));
        ok := AwaitPod(t, d, w.booted);
      }
    }

    /** The rest of booting; e.pod is set at its end. */
    method AwaitPod(t: Tid, d: bool, booted: bool) returns (ok: bool)
      requires Valid(d) && t in threads && threads[t].pc == Booting
      modifies this`threads, this`envs
      ensures Valid(d) && t in threads && ok == booted
      ensures threads[t] == old(threads[t]).(pc := if ok then Releasing(true) else CleaningUp, failed := !ok)
      ensures threads[t].id in old(envs)
      ensures var id, e := threads[t].id, old(envs)[old(threads[t]).id];
              envs == if ok then old(envs)[id := e.(pod := true, podWrites := e.podWrites + 1)] else old(envs)
    {
      HeldEnvExists(State(), d, t);
      var th := threads[t];
      ok := booted;
      ReachableStep(State(), Step.Boot(t, ok), d);
      if ok {
        var e := envs[th.id];
        envs := envs[th.id := Env(e.slot, true, e.podWrites + 1)];
      }
      threads := threads[t := th.(pc := if ok then Releasing(true) else CleaningUp, failed := !ok)];
    }

    /** Booting, and the delete after a boot that failed. */
    method BootOrDiscard(t: Tid, d: bool, w: World) returns (ok: bool)
      requires Valid(d) && t in threads && threads[t].pc == Creating && t.Client?
      modifies this
      ensures Valid(d) && t in threads
      ensures var th := old(threads[t]);
              Undisturbed(th.(pc := Releasing(ok), failed := !ok, deletes := th.deletes + if ok then 0 else 1),
                          threads[t])
      ensures threads[t].id in envs && (envs[threads[t].id].pod <==> ok)
      ensures ok ==> w.made && w.created && w.booted
      ensures !ok ==> threads[t].cancelled || !w.made || !w.created || !w.booted
      ensures !ok && w.deleted ==> threads[t].id !in jobs
    {
      ok := Boot(t, d, w);
      if !ok {
        Interfere(t, d, w.others(w.budget + 2));
        Discard(t, d, w.deleted);
      }
    }

    /** Start, once it has the lock. */
    method StartLocked(t: Tid, d: bool, w: World) returns (r: Outcome)
      requires Valid(d) && Runs(t, StartRpc, Locked) && t.Client?
      modifies this
      ensures Valid(d) && t in threads && threads[t].id == old(threads[t]).id
      ensures r.Succeeded? || r.Unanswered? || r.WrongState? || r.Failed?
      ensures threads[t].pc == Done(r.Succeeded? || r.Unanswered?)
      ensures threads[t].deletes == old(threads[t]).deletes + if r.Failed? then 1 else 0
      ensures threads[t].id in envs && (r.Failed? <==> !envs[threads[t].id].pod)
      ensures HasPod(threads[t].id, old(envs)) ==> r.WrongState?
      ensures BootOutcome(r, w, threads[t].cancelled)
      ensures r.Failed? && w.deleted ==> threads[t].id !in jobs
    {
      var started := Enter(t, d);
      if started {
        Finish(t, d, w.others(w.budget));
        return WrongState;
      }
      var ok := BootOrDiscard(t, d, w);
      Finish(t, d, w.others(w.budget));
      return if !ok then Failed else if w.answered then Succeeded else Unanswered;
    }

    /**
     * Start. In every interleaving: success means the pod is set, and so does
     * an answer that could not be sent; a failed boot sets none, and has
     * deleted what it may have made before letting go of the lock; an
     * environment that is started already is refused.
     */
    method Start(t: Tid, d: bool, w: World) returns (r: Outcome)
      requires Valid(d) && Runs(t, StartRpc, LookingUp) && t.Client?
      modifies this
      ensures Valid(d) && t in threads && threads[t].id == old(threads[t]).id
      ensures threads[t].pc == if r.Pending? then Waiting else Done(r.Succeeded? || r.Unanswered?)
      ensures threads[t].deletes == old(threads[t]).deletes + if r.Failed? then 1 else 0
      ensures r.Succeeded? || r.Unanswered? || r.WrongState? ==> HasPod(threads[t].id, envs)
      ensures r.Failed? ==> !HasPod(threads[t].id, envs)
      ensures HasPod(threads[t].id, old(envs)) ==> !r.Succeeded? && !r.Unanswered? && !r.Failed?
      ensures r.NotFound? <==> old(threads[t]).id !in old(registry)
      ensures r.Cancelled? ==> threads[t].cancelled
      ensures r.Pending? ==> !threads[t].cancelled
      ensures !r.NotOurs? && BootOutcome(r, w, threads[t].cancelled)
      ensures r.Failed? && w.deleted ==> threads[t].id !in jobs
    {
      var a := Acquire(t, d, w);
      if a.Some? {
        return a.value;
      }
      r := StartLocked(t, d, w);
    }

    /** The exec or copy is over. */
    method Leave(t: Tid, d: bool)
      requires Valid(d) && t in threads && threads[t].pc == Running
      modifies this`threads
      ensures Valid(d) && t in threads
      ensures threads == old(threads)[t := old(threads[t]).(pc := Releasing(true))]
    {
      var th := threads[t];
      ReachableStep(State(), Step.Leave(t), d);
      threads := threads[t := th.(pc := Releasing(true))];
    }

    method UseLocked(t: Tid, d: bool, w: World) returns (r: Outcome)
      requires Valid(d) && Runs(t, UseRpc, Locked) && t.Client?
      modifies this
      ensures Valid(d) && t in threads && threads[t].id == old(threads[t]).id
      ensures (r.Succeeded? || r.WrongState?) && threads[t].pc == Done(r.Succeeded?)
      ensures threads[t].deletes == old(threads[t]).deletes
      ensures threads[t].id in envs && (r.Succeeded? <==> envs[threads[t].id].pod)
    {
      var started := Enter(t, d);
      if started {
        Interfere(t, d, w.others(w.budget));
        Leave(t, d);
      }
      Finish(t, d, w.others(w.budget + 1));
      return if started then Succeeded else WrongState;
    }

    /** Exec, CopyIn and CopyOut, as far as the environment is concerned: the backend is used only with a pod. */
    method Use(t: Tid, d: bool, w: World) returns (r: Outcome)
      requires Valid(d) && Runs(t, UseRpc, LookingUp) && t.Client?
      modifies this
      ensures Valid(d) && t in threads && threads[t].id == old(threads[t]).id
      ensures threads[t].pc == if r.Pending? then Waiting else Done(r.Succeeded?)
      ensures threads[t].deletes == old(threads[t]).deletes
      ensures r.Succeeded? ==> threads[t].id in envs && envs[threads[t].id].pod
      ensures r.WrongState? ==> threads[t].id in envs && !envs[threads[t].id].pod
      ensures r.NotFound? <==> old(threads[t]).id !in old(registry)
      ensures r.Cancelled? ==> threads[t].cancelled
      ensures r.Pending? ==> !threads[t].cancelled
      ensures r.Succeeded? || r.WrongState? || r.NotFound? || r.Cancelled? || r.Pending?
    {
      var a := Acquire(t, d, w);
      if a.Some? {
        return a.value;
      }
      r := UseLocked(t, d, w);
    }

    /** backend.Delete or DeleteOwned */
    method DeleteJob(t: Tid, d: bool, ok: bool)
      requires Valid(d) && t in threads && (threads[t].pc == Deleting || threads[t].pc == DeletingUnlocked)
      modifies this`threads, this`jobs, this`removed
      ensures Valid(d)
      ensures jobs == if ok then old(jobs) - {old(threads[t]).id} else old(jobs)
      ensures var th := old(threads[t]);
              threads == old(threads)[t := th.(pc := if th.pc == Deleting then Releasing(ok) else Done(ok),
                                               deletes := th.deletes + 1)]
      ensures var th := old(threads[t]);
              removed == if ok && th.pc == Deleting && th.kind.RemoveRpc? && !th.cancelled then old(removed) + {th.id}
                         else old(removed)
    {
      var th := threads[t];
      ReachableStep(State(), Step.Delete(t, ok), d);
      if ok {
        jobs := jobs - {th.id};
        if th.pc == Deleting && th.kind.RemoveRpc? && !th.cancelled {
          removed := removed + {th.id};
        }
      }
      var next := if th.pc == Deleting then Releasing(ok) else Done(ok);
      threads := threads[t := th.(pc := next, deletes := th.deletes + 1)];
    }

    /** s.mu.Lock(); delete(s.envs, id); s.mu.Unlock() */
    method Forget(t: Tid, d: bool)
      requires Valid(d) && t in threads && threads[t].pc == Forgetting
      modifies this`threads, this`registry
      ensures Valid(d) && t in threads
      ensures registry == old(registry) - {old(threads[t]).id}
      ensures threads == old(threads)[t := old(threads[t]).(pc := Deleting)]
      ensures Forgotten(threads[t].id, registry, envs)
    {
      HeldEnvExists(State(), d, t);
      var th := threads[t];
      ReachableStep(State(), Step.Forget(t), d);
      registry := registry - {th.id};
      threads := threads[t := th.(pc := Deleting)];
    }

    /** Remove's first act under the lock. */
    method ForgetLocked(t: Tid, d: bool, w: World)
      requires Valid(d) && Runs(t, RemoveRpc, Locked) && t.Client?
      modifies this
      ensures Valid(d) && t in threads
      ensures Undisturbed(old(threads[t]).(pc := Deleting), threads[t])
      ensures Forgotten(threads[t].id, registry, envs)
    {
      var _ := Enter(t, d);
      Interfere(t, d, w.others(w.budget));
      Forget(t, d);
    }

    /** Remove, once it has the lock: forget the environment, delete its Job. */
    method RemoveLocked(t: Tid, d: bool, w: World)
      requires Valid(d) && Runs(t, RemoveRpc, Locked) && t.Client?
      modifies this
      ensures Valid(d) && t in threads
      ensures var th := old(threads[t]);
              Undisturbed(th.(pc := Releasing(w.deleted), deletes := th.deletes + 1), threads[t])
      ensures Forgotten(threads[t].id, registry, envs)
    {
      ForgetLocked(t, d, w);
      Interfere(t, d, w.others(w.budget + 1));
      DeleteJob(t, d, w.deleted);
    }

    /** Remove of an environment that was registered. */
    method RemoveRegistered(t: Tid, d: bool, w: World) returns (r: Outcome)
      requires Valid(d) && Runs(t, RemoveRpc, Waiting) && t.Client?
      modifies this
      ensures Valid(d) && t in threads && threads[t].id == old(threads[t]).id
      ensures r.Succeeded? || r.Failed? || r.Cancelled? || r.Pending?
      ensures threads[t].pc == if r.Pending? then Waiting else Done(r.Succeeded?)
      ensures threads[t].deletes == old(threads[t]).deletes + if r.Succeeded? || r.Failed? then 1 else 0
      ensures r.Succeeded? || r.Failed? ==> threads[t].id !in registry
      ensures r.Succeeded? && !threads[t].cancelled ==> threads[t].id in removed
      ensures r.Succeeded? ==> w.deleted
      ensures r.Failed? ==> !w.deleted
      ensures r.Cancelled? ==> threads[t].cancelled
      ensures r.Pending? ==> !threads[t].cancelled
    {
      var got := Await(t, d, w);
      if got.Interrupted? {
        return Cancelled;
      } else if got.Blocked? {
        return Pending;
      }
      RemoveLocked(t, d, w);
      if w.deleted && !threads[t].cancelled {
        SuccessfulRemoveCounts(State(), d, t);
      }
      Finish(t, d, w.others(w.budget + 2));
      return if w.deleted then Succeeded else Failed;
    }

    /**
     * Remove. An environment it does not give up on is forgotten for good.
     * Success while the runner still waits means, under the runner's
     * discipline, that its Job is gone; an unknown id gets a delete of its own
     * unless it can be no Job of this instance.
     */
    method Remove(t: Tid, d: bool, w: World) returns (r: Outcome)
      requires Valid(d) && Runs(t, RemoveRpc, LookingUp) && t.Client?
      modifies this
      ensures Valid(d) && t in threads && threads[t].id == old(threads[t]).id
      ensures threads[t].pc == if r.Pending? then Waiting else Done(r.Succeeded? || r.NotOurs?)
      ensures threads[t].deletes == old(threads[t]).deletes + if r.Succeeded? || r.Failed? then 1 else 0
      ensures r.Succeeded? ==> w.deleted
      ensures r.Failed? ==> !w.deleted
      ensures r.Cancelled? ==> threads[t].cancelled
      ensures r.Pending? ==> !threads[t].cancelled
      ensures || r.Succeeded? || r.Failed? || r.NotOurs?
              || ((r.Cancelled? || r.Pending?) && threads[t].id in old(registry))
      ensures threads[t].id in old(envs) || threads[t].id in old(registry) ==>
                !r.Cancelled? && !r.Pending? ==> threads[t].id !in registry
      ensures var id := threads[t].id;
              if id in old(registry) then
                !r.NotOurs? && (r.Succeeded? && !threads[t].cancelled ==> id in removed && (d ==> id !in jobs))
              else
                (r.NotOurs? <==> !w.ours) && (r.Succeeded? ==> id !in jobs)
    {
      var found := LookUp(t, d, w.ours);
      if found {
        r := RemoveRegistered(t, d, w);
        if d {
          StayRemoved(State(), d, threads[t].id);
        }
      } else if !w.ours {
        r := NotOurs;
      } else {
        Interfere(t, d, w.others(w.budget));
        DeleteJob(t, d, w.deleted);
        r := if w.deleted then Succeeded else Failed;
      }
    }

    /** Shutdown: forget every environment, and start a task for each. */
    method Shutdown(d: bool) returns (tasks: set<Id>)
      requires Valid(d) && !shutdown
      modifies this
      ensures Valid(d) && State() == After(old(State()), Step.Shutdown, d)
      ensures tasks == old(registry) && registry == {} && shutdown
      ensures forall id :: id in tasks ==> Runs(Drop(id), ShutdownTask, Waiting)
    {
      tasks := registry;
      ReachableStep(State(), Step.Shutdown, d);
      var s := After(State(), Step.Shutdown, d);
      registry, threads, shutdown := {}, s.threads, true;
    }

    /**
     * The goroutine of one environment: its lock, or the end of patience, then
     * exactly one delete. The result says whether it got the lock; without it
     * the delete is issued only once the context has expired.
     */
    method DropEnvironment(t: Tid, d: bool, w: World) returns (r: Waited)
      requires Valid(d) && Runs(t, ShutdownTask, Waiting) && t.Drop?
      modifies this
      ensures Valid(d) && t in threads
      ensures !r.Blocked? ==> threads[t].pc == Done(w.deleted) && threads[t].deletes == old(threads[t]).deletes + 1
      ensures r.Blocked? ==> threads[t].pc == Waiting && threads[t].deletes == old(threads[t]).deletes
      ensures r.Interrupted? ==> expired
    {
      r := Await(t, d, w);
      if r.Got? {
        var _ := Enter(t, d);
        Interfere(t, d, w.others(w.budget));
        DeleteJob(t, d, w.deleted);
        Finish(t, d, w.others(w.budget + 1));
      } else if r.Interrupted? {
        DeleteJob(t, d, w.deleted);
      }
    }
  }

  lemma HeldEnvExists(s: Server, d: bool, t: Tid)
    requires Reachable(s, d) && t in s.threads
    ensures Holding(s.threads[t].pc) ==> s.threads[t].id in s.envs
  {
    ReachableInv(s, d);
    if Holding(s.threads[t].pc) {
      assert Holds(s, t, s.threads[t].id);
    }
  }

  lemma WaiterEnvExists(s: Server, d: bool, t: Tid)
    requires Reachable(s, d) && t in s.threads && s.threads[t].pc.Waiting?
    ensures s.threads[t].id in s.envs
  {
    ReachableInv(s, d);
  }

  lemma CreatingHasNoPod(s: Server, d: bool, t: Tid)
    requires Reachable(s, d) && t in s.threads && s.threads[t].pc.Creating?
    ensures var id := s.threads[t].id; id in s.envs && !s.envs[id].pod
  {
    ReachableInv(s, d);
    assert ThreadOk(s, t);
  }

  lemma StayRemoved(s: Server, d: bool, id: Id)
    requires Reachable(s, d) && d
    ensures id in s.removed ==> id !in s.jobs && id !in s.registry
  {
    ReachableInv(s, d);
  }

  /** What a handler may rely on: another's step, or its own cancellation, leaves it where it is, with its pod. */
  lemma OthersStep(s: Server, a: Step, d: bool, t: Tid)
    requires Reachable(s, d) && CanStep(s, a, d) && t in s.threads && !By(a, t)
    ensures var s' := After(s, a, d);
            && Reachable(s', d)
            && t in s'.threads && Undisturbed(s.threads[t], s'.threads[t])
            && (Holding(s.threads[t].pc) ==> SamePod(s.threads[t].id, s.envs, s'.envs))
            && (Holding(s.threads[t].pc) && s.threads[t].id in s'.jobs ==> s.threads[t].id in s.jobs)
            && Steady(s.threads[t].id, s.registry, s.envs, s'.registry, s'.envs)
            && s.removed <= s'.removed && (s.expired ==> s'.expired)
  {
    ReachableStep(s, a, d);
    ReachableInv(s, d);
    OneThreadMoves(s, a, d);
    HeldEnvExists(s, d, t);
    if Holding(s.threads[t].pc) && !a.Cancel? {
      PodStays(s, a, d, t);
    }
    if Holding(s.threads[t].pc) {
      NoneCreates(s, a, d, t);
    }
  }

  /** While a handler holds the lock of an environment no other one creates its Job. */
  lemma NoneCreates(s: Server, a: Step, d: bool, t: Tid)
    requires LockInv(s) && CanStep(s, a, d) && t in s.threads && !By(a, t) && Holding(s.threads[t].pc)
    ensures s.threads[t].id in After(s, a, d).jobs ==> s.threads[t].id in s.jobs
  {
    assert Holds(s, t, s.threads[t].id);
    assert a.CreateJob? ==> Holds(s, a.t, s.threads[a.t].id);
  }
}
