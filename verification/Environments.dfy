/**
 * The life of job environments in the plugin: Start, Exec and copies, Remove
 * and Shutdown race for a registry and a one-slot lock per environment, step
 * by step, while the backend creates and deletes Jobs.
 */
module Environments {
  import opened Bytes

  type Id = string

  /** Remove's and Shutdown's part in an environment's life are threads of their own kind. */
  datatype Kind = StartRpc | UseRpc | RemoveRpc | ShutdownTask

  /** The handlers of RPCs, and the goroutine Shutdown starts for each environment. */
  datatype Tid = Client(n: nat) | Drop(id: Id)

  /** Where a handler is; from Locked to Releasing it holds the environment's lock. */
  datatype Pc =
    | LookingUp
    | Waiting
    | Locked
    | Creating
    | Booting
    | CleaningUp
    | Running
    | Forgetting
    | Deleting
    | Releasing(ok: bool)
    | DeletingUnlocked
    | Done(ok: bool)

  datatype Thread = Thread(kind: Kind, id: Id, pc: Pc, cancelled: bool, failed: bool, deletes: nat)

  /** `slot` says that the lock channel is full; `podWrites` counts assignments to pod. */
  datatype Env = Env(slot: bool, pod: bool, podWrites: nat)

  /** `envs` are all environments ever made, `removed` the ids whose Remove succeeded while registered. */
  datatype Server = Server(
    registry: set<Id>, envs: map<Id, Env>, jobs: set<Id>, threads: map<Tid, Thread>,
    removed: set<Id>, shutdown: bool, expired: bool)

  const EMPTY := Server({}, map[], {}, map[], {}, false, false)

  predicate Holding(pc: Pc) {
    match pc
    case LookingUp => false
    case Waiting => false
    case DeletingUnlocked => false
    case Done(_) => false
    case _ => true
  }

  datatype Step =
    | NewEnv(id: Id)
    | Issue(n: nat, kind: Kind, id: Id)
    | Cancel(t: Tid)
    | LookUp(t: Tid, ours: bool)
    | TakeLock(t: Tid)
    | GiveUp(t: Tid)
    | Enter(t: Tid)
    | CreateJob(t: Tid, made: bool, ok: bool)
    | Boot(t: Tid, ok: bool)
    | CleanUp(t: Tid, ok: bool)
    | Leave(t: Tid)
    | Forget(t: Tid)
    | Delete(t: Tid, ok: bool)
    | Release(t: Tid)
    | Shutdown
    | Expire

  predicate At(s: Server, t: Tid, pc: Pc) {
    t in s.threads && s.threads[t].pc == pc
  }

  /** The runner's side of the protocol: per environment one RPC at a time, cancelled ones not counted. */
  predicate Idle(s: Server, id: Id) {
    forall t :: t in s.threads && t.Client? && s.threads[t].id == id ==> s.threads[t].cancelled || s.threads[t].pc.Done?
  }

  predicate CanStep(s: Server, a: Step, disciplined: bool) {
    match a
    case NewEnv(id) => id !in s.envs
    case Issue(n, kind, id) =>
      Client(n) !in s.threads && !kind.ShutdownTask? && (disciplined ==> Idle(s, id))
    case Cancel(t) => t in s.threads && t.Client?
    case LookUp(t, _) => At(s, t, LookingUp)
    case TakeLock(t) => At(s, t, Waiting) && s.threads[t].id in s.envs && !s.envs[s.threads[t].id].slot
    case GiveUp(t) => At(s, t, Waiting) && (if t.Client? then s.threads[t].cancelled else s.expired)
    case Enter(t) => At(s, t, Locked) && s.threads[t].id in s.envs
    case CreateJob(t, made, ok) =>
      // A create that was cancelled makes nothing; one that reports success made the Job.
      At(s, t, Creating) && (ok ==> made) && (s.threads[t].cancelled ==> !made)
    case Boot(t, _) => At(s, t, Booting) && s.threads[t].id in s.envs
    case CleanUp(t, _) => At(s, t, CleaningUp)
    case Leave(t) => At(s, t, Running)
    case Forget(t) => At(s, t, Forgetting)
    case Delete(t, _) => At(s, t, Deleting) || At(s, t, DeletingUnlocked)
    case Release(t) => t in s.threads && s.threads[t].pc.Releasing? && s.threads[t].id in s.envs
    case Shutdown => !s.shutdown
    case Expire => s.shutdown
  }

  /** The handler a step is about, if any. */
  function Actor(a: Step): Option<Tid> {
    match a
    case NewEnv(_) => None
    case Issue(n, _, _) => Some(Client(n))
    case Cancel(t) => Some(t)
    case LookUp(t, _) => Some(t)
    case TakeLock(t) => Some(t)
    case GiveUp(t) => Some(t)
    case Enter(t) => Some(t)
    case CreateJob(t, _, _) => Some(t)
    case Boot(t, _) => Some(t)
    case CleanUp(t, _) => Some(t)
    case Leave(t) => Some(t)
    case Forget(t) => Some(t)
    case Delete(t, _) => Some(t)
    case Release(t) => Some(t)
    case Shutdown => None
    case Expire => None
  }

  /** What a handler does once it holds the lock. */
  function Entered(kind: Kind, e: Env): Pc {
    match kind
    case StartRpc => if e.pod then Releasing(false) else Creating
    case UseRpc => if e.pod then Running else Releasing(false)
    case RemoveRpc => Forgetting
    case ShutdownTask => Deleting
  }

  /** Where looking up its environment leads a handler. */
  function LookedUp(s: Server, th: Thread, ours: bool): Pc {
    if th.id in s.registry then Waiting
    else if th.kind.RemoveRpc? then (if ours then DeletingUnlocked else Done(true))
    else Done(false)
  }

  /** The handler of a step after it. */
  function Moved(s: Server, a: Step, disciplined: bool): Thread
    requires CanStep(s, a, disciplined) && Actor(a).Some?
  {
    if a.Issue? then Thread(a.kind, a.id, LookingUp, false, false, 0)
    else
      var th := s.threads[Actor(a).value];
      match a
      case Cancel(_) => th.(cancelled := true)
      case LookUp(_, ours) => th.(pc := LookedUp(s, th, ours))
      case TakeLock(_) => th.(pc := Locked)
      case GiveUp(t) => th.(pc := if t.Client? then Done(false) else DeletingUnlocked)
      case Enter(_) => th.(pc := Entered(th.kind, s.envs[th.id]))
      case CreateJob(_, _, ok) => th.(pc := if ok then Booting else CleaningUp, failed := !ok)
      case Boot(_, ok) => th.(pc := if ok then Releasing(true) else CleaningUp, failed := !ok)
      case CleanUp(_, _) => th.(pc := Releasing(false), deletes := th.deletes + 1)
      case Leave(_) => th.(pc := Releasing(true))
      case Forget(_) => th.(pc := Deleting)
      case Delete(_, ok) => th.(pc := if th.pc.Deleting? then Releasing(ok) else Done(ok), deletes := th.deletes + 1)
      case Release(_) => th.(pc := Done(th.pc.ok))
  }

  function EnvsAfter(s: Server, a: Step, disciplined: bool): map<Id, Env>
    requires CanStep(s, a, disciplined)
  {
    match a
    case NewEnv(id) => s.envs[id := Env(false, false, 0)]
    case TakeLock(t) => var id := s.threads[t].id; s.envs[id := s.envs[id].(slot := true)]
    case Release(t) => var id := s.threads[t].id; s.envs[id := s.envs[id].(slot := false)]
    case Boot(t, ok) =>
      var id := s.threads[t].id;
      if ok then s.envs[id := s.envs[id].(pod := true, podWrites := s.envs[id].podWrites + 1)] else s.envs
    case _ => s.envs
  }

  function JobsAfter(s: Server, a: Step, disciplined: bool): set<Id>
    requires CanStep(s, a, disciplined)
  {
    match a
    case CreateJob(t, made, _) => if made then s.jobs + {s.threads[t].id} else s.jobs
    case CleanUp(t, ok) => if ok then s.jobs - {s.threads[t].id} else s.jobs
    case Delete(t, ok) => if ok then s.jobs - {s.threads[t].id} else s.jobs
    case _ => s.jobs
  }

  /** A Remove or a shutdown task, holding the lock of its environment, deletes the Job. */
  predicate DeletesLocked(s: Server, a: Step) {
    a.Delete? && a.ok && At(s, a.t, Deleting)
  }

  /** A Remove does so, whose client still waits for the answer. */
  predicate RemoveSucceeds(s: Server, a: Step) {
    DeletesLocked(s, a) && s.threads[a.t].kind.RemoveRpc? && !s.threads[a.t].cancelled
  }

  function ThreadsAfter(s: Server, a: Step, disciplined: bool): map<Tid, Thread>
    requires CanStep(s, a, disciplined)
  {
    if Actor(a).Some? then s.threads[Actor(a).value := Moved(s, a, disciplined)]
    else if a.Shutdown? then
      s.threads + map t: Tid | t in set id | id in s.registry :: Drop(id) ::
                    Thread(ShutdownTask, t.id, Waiting, false, false, 0)
    else s.threads
  }

  function After(s: Server, a: Step, disciplined: bool): Server
    requires CanStep(s, a, disciplined)
  {
    Server(
      if a.NewEnv? then s.registry + {a.id}
      else if a.Forget? then s.registry - {s.threads[a.t].id}
      else if a.Shutdown? then {}
      else s.registry,
      EnvsAfter(s, a, disciplined),
      JobsAfter(s, a, disciplined),
      ThreadsAfter(s, a, disciplined),
      if RemoveSucceeds(s, a) then s.removed + {s.threads[a.t].id} else s.removed,
      s.shutdown || a.Shutdown?,
      s.expired || a.Expire?)
  }

  function Play(s: Server, steps: seq<Step>, disciplined: bool): Option<Server>
    decreases |steps|
  {
    if steps == [] then Some(s)
    else if !CanStep(s, steps[0], disciplined) then None
    else Play(After(s, steps[0], disciplined), steps[1..], disciplined)
  }

  ghost predicate Leads(s: Server, t: Server, disciplined: bool) {
    exists steps :: Play(s, steps, disciplined) == Some(t)
  }

  ghost predicate Reachable(s: Server, disciplined: bool) {
    Leads(EMPTY, s, disciplined)
  }

  // ----- Locks -----

  predicate Holds(s: Server, t: Tid, id: Id) {
    t in s.threads && s.threads[t].id == id && Holding(s.threads[t].pc)
  }

  /** Shutdown's goroutines: one per environment, none before Shutdown. */
  ghost predicate DropInv(s: Server) {
    forall t :: t in s.threads ==>
      && (t.Drop? <==> s.threads[t].kind.ShutdownTask?)
      && (t.Drop? ==> s.shutdown && t.id == s.threads[t].id && !s.threads[t].cancelled)
  }

  predicate Appears(s: Server, a: Step, u: Tid, th: Thread) {
    && (|| th.pc.LookingUp?
        || (th.pc.Waiting? && a.Shutdown? && u == Drop(th.id) && th.id in s.registry && th.kind.ShutdownTask?))
    && !th.failed && th.deletes == 0 && !th.cancelled
  }

  /** A step changes its own handler only; handlers that appear have not taken a lock. */
  lemma OneThreadMoves(s: Server, a: Step, disciplined: bool)
    requires CanStep(s, a, disciplined) && DropInv(s)
    ensures var s' := After(s, a, disciplined);
            && (forall u :: u in s.threads ==>
                  u in s'.threads && s'.threads[u].id == s.threads[u].id && s'.threads[u].kind == s.threads[u].kind)
            && (forall u :: u in s.threads && Some(u) != Actor(a) ==> s'.threads[u] == s.threads[u])
            && (forall u :: u in s'.threads && u !in s.threads ==> Appears(s, a, u, s'.threads[u]))
            && DropInv(s')
  {
    if Actor(a).Some? && !a.Issue? {
      SameIdentity(s, a, disciplined);
    }
  }

  lemma SameIdentity(s: Server, a: Step, disciplined: bool)
    requires CanStep(s, a, disciplined) && Actor(a).Some? && !a.Issue?
    ensures Actor(a).value in s.threads
    ensures var th, th' := s.threads[Actor(a).value], Moved(s, a, disciplined);
            th'.id == th.id && th'.kind == th.kind && (!a.Cancel? ==> th'.cancelled == th.cancelled)
    ensures a.Cancel? ==> a.t.Client?
  {
  }

  /** The slot is full exactly while one handler is inside, and there is never a second one. */
  ghost predicate LockInv(s: Server) {
    && (forall t, u, id :: Holds(s, t, id) && Holds(s, u, id) ==> t == u)
    && (forall t, id :: Holds(s, t, id) ==> id in s.envs && s.envs[id].slot)
    && (forall id :: id in s.envs && s.envs[id].slot ==> exists t :: Holds(s, t, id))
    && (forall t :: t in s.threads && s.threads[t].pc.Waiting? ==> s.threads[t].id in s.envs)
    && s.registry <= s.envs.Keys
  }

  lemma LockStep(s: Server, a: Step, disciplined: bool)
    requires LockInv(s) && DropInv(s) && CanStep(s, a, disciplined)
    ensures LockInv(After(s, a, disciplined))
  {
    var s' := After(s, a, disciplined);
    OneThreadMoves(s, a, disciplined);
    forall t, u, id | Holds(s', t, id) && Holds(s', u, id) ensures t == u && id in s'.envs && s'.envs[id].slot {
      HolderBefore(s, a, disciplined, t, id);
      HolderBefore(s, a, disciplined, u, id);
    }
    forall id | id in s'.envs && s'.envs[id].slot ensures exists t :: Holds(s', t, id) {
      HolderAfter(s, a, disciplined, id);
    }
  }

  /** Who holds a lock after a step held it before, or has just taken it from an empty slot. */
  lemma HolderBefore(s: Server, a: Step, disciplined: bool, t: Tid, id: Id)
    requires LockInv(s) && DropInv(s) && CanStep(s, a, disciplined) && Holds(After(s, a, disciplined), t, id)
    ensures var s' := After(s, a, disciplined);
            && id in s'.envs && s'.envs[id].slot
            && if a == TakeLock(t) then !s.envs[id].slot else Holds(s, t, id)
  {
    OneThreadMoves(s, a, disciplined);
    assert a.Release? ==> Holds(s, a.t, s.threads[a.t].id);
    assert a != TakeLock(t) ==> Holds(s, t, id);
  }

  lemma HolderAfter(s: Server, a: Step, disciplined: bool, id: Id)
    requires LockInv(s) && DropInv(s) && CanStep(s, a, disciplined)
    requires var s' := After(s, a, disciplined); id in s'.envs && s'.envs[id].slot
    ensures exists t :: Holds(After(s, a, disciplined), t, id)
  {
    if a.TakeLock? && s.threads[a.t].id == id {
      assert Holds(After(s, a, disciplined), a.t, id);
    } else {
      var t :| Holds(s, t, id);
      KeepsHolding(s, a, disciplined, t, id);
    }
  }

  /** Only its Release takes a handler's lock away, and that empties the slot. */
  lemma KeepsHolding(s: Server, a: Step, disciplined: bool, t: Tid, id: Id)
    requires DropInv(s) && CanStep(s, a, disciplined) && Holds(s, t, id)
    requires var s' := After(s, a, disciplined); id in s'.envs && s'.envs[id].slot
    ensures Holds(After(s, a, disciplined), t, id)
  {
    OneThreadMoves(s, a, disciplined);
  }

  // ----- What each handler may be at -----

  /** A handler's kind, history and place in its body go together with its environment. */
  ghost predicate ThreadOk(s: Server, t: Tid)
    requires t in s.threads
  {
    var th := s.threads[t];
    && (th.failed ==> th.kind.StartRpc?)
    && (th.failed && (th.pc.Releasing? || th.pc.Done?) ==> th.deletes > 0)
    && (th.kind.ShutdownTask? ==>
          && th.deletes == (if th.pc.Releasing? || th.pc.Done? then 1 else 0)
          && th.id in s.envs && th.id !in s.registry)
    && match th.pc
       case LookingUp => !th.kind.ShutdownTask? && !th.failed
       case Waiting => !th.failed
       case Locked => !th.failed
       case Creating => th.kind.StartRpc? && !th.failed && th.id in s.envs && !s.envs[th.id].pod
       case Booting => th.kind.StartRpc? && !th.failed && th.id in s.envs && !s.envs[th.id].pod
       case CleaningUp => th.kind.StartRpc? && th.failed
       case Running => th.kind.UseRpc? && th.id in s.envs && s.envs[th.id].pod
       case Forgetting => th.kind.RemoveRpc?
       case Deleting => th.kind.ShutdownTask? || (th.kind.RemoveRpc? && th.id in s.envs && th.id !in s.registry)
       case DeletingUnlocked => th.kind.RemoveRpc? || (th.kind.ShutdownTask? && s.expired)
       case Releasing(ok) => th.kind.RemoveRpc? && ok && !th.cancelled ==> th.id in s.removed
       case Done(_) => true
  }

  ghost predicate WorkInv(s: Server) {
    && (forall t :: t in s.threads ==> ThreadOk(s, t))
    && (forall id :: id in s.envs ==> s.envs[id].podWrites == if s.envs[id].pod then 1 else 0)
  }

  /** An environment's pod changes only at the end of its Start, so never while another handler is inside. */
  lemma PodStays(s: Server, a: Step, disciplined: bool, u: Tid)
    requires LockInv(s) && WorkInv(s) && CanStep(s, a, disciplined) && u in s.threads && Some(u) != Actor(a)
    requires var th := s.threads[u]; th.id in s.envs && Holding(th.pc)
    ensures var id, envs := s.threads[u].id, EnvsAfter(s, a, disciplined);
            id in envs && envs[id].pod == s.envs[id].pod
  {
    if a.Boot? && s.threads[a.t].id == s.threads[u].id {
      assert Holds(s, a.t, s.threads[u].id) && Holds(s, u, s.threads[u].id);
    }
  }

  lemma WorkStep(s: Server, a: Step, disciplined: bool)
    requires LockInv(s) && DropInv(s) && WorkInv(s) && CanStep(s, a, disciplined)
    ensures WorkInv(After(s, a, disciplined))
  {
    var s' := After(s, a, disciplined);
    OneThreadMoves(s, a, disciplined);
    forall u | u in s'.threads ensures ThreadOk(s', u) {
      if Some(u) == Actor(a) {
        ActorOk(s, a, disciplined);
      } else if u in s.threads {
        BystanderOk(s, a, disciplined, u);
      }
    }
    PodCounts(s, a, disciplined);
  }

  lemma PodCounts(s: Server, a: Step, disciplined: bool)
    requires WorkInv(s) && CanStep(s, a, disciplined)
    ensures forall id :: id in EnvsAfter(s, a, disciplined) ==>
              var e := EnvsAfter(s, a, disciplined)[id]; e.podWrites == if e.pod then 1 else 0
  {
    if a.Boot? {
      assert ThreadOk(s, a.t);
    }
  }

  lemma ActorOk(s: Server, a: Step, disciplined: bool)
    requires LockInv(s) && DropInv(s) && WorkInv(s) && CanStep(s, a, disciplined) && Actor(a).Some?
    ensures ThreadOk(After(s, a, disciplined), Actor(a).value)
  {
    var t := Actor(a).value;
    if t in s.threads {
      assert ThreadOk(s, t);
      if Holding(s.threads[t].pc) {
        assert Holds(s, t, s.threads[t].id);
      }
    }
    if a.CreateJob? || a.Boot? || a.CleanUp? || a.Enter? {
      StartOk(s, a, disciplined);
    } else {
      OtherOk(s, a, disciplined);
    }
  }

  lemma StartOk(s: Server, a: Step, disciplined: bool)
    requires CanStep(s, a, disciplined) && (a.CreateJob? || a.Boot? || a.CleanUp? || a.Enter?)
    requires ThreadOk(s, a.t)
    ensures ThreadOk(After(s, a, disciplined), a.t)
  {
  }

  lemma OtherOk(s: Server, a: Step, disciplined: bool)
    requires CanStep(s, a, disciplined) && Actor(a).Some? && !a.CreateJob? && !a.Boot? && !a.CleanUp? && !a.Enter?
    requires DropInv(s)
    requires Actor(a).value in s.threads ==>
               var th := s.threads[Actor(a).value];
               && ThreadOk(s, Actor(a).value)
               && (Holding(th.pc) ==> th.id in s.envs)
    ensures ThreadOk(After(s, a, disciplined), Actor(a).value)
  {
  }

  lemma BystanderOk(s: Server, a: Step, disciplined: bool, u: Tid)
    requires LockInv(s) && DropInv(s) && WorkInv(s) && CanStep(s, a, disciplined)
    requires u in s.threads && Some(u) != Actor(a)
    ensures u in After(s, a, disciplined).threads && ThreadOk(After(s, a, disciplined), u)
  {
    OneThreadMoves(s, a, disciplined);
    assert ThreadOk(s, u);
    var th := s.threads[u];
    if Holding(th.pc) {
      assert Holds(s, u, th.id);
      PodStays(s, a, disciplined, u);
    }
  }

  // ----- Removed environments -----

  predicate Pending(th: Thread) {
    !th.cancelled && !th.pc.Done?
  }

  predicate Awaited(s: Server, t: Tid) {
    t in s.threads && t.Client? && Pending(s.threads[t])
  }

  /** The runner's discipline, as it shows in the plugin: one RPC per environment that it still waits for. */
  ghost predicate OneAtATime(s: Server) {
    forall t, u :: Awaited(s, t) && Awaited(s, u) && s.threads[t].id == s.threads[u].id ==> t == u
  }

  /**
   * A Start of a removed environment can only be cancelled, on its way to
   * fail, about to find nothing, or about to find the environment started.
   */
  predicate Harmless(th: Thread, pod: bool) {
    th.kind.StartRpc? ==>
      || th.pc.LookingUp? || th.pc.CleaningUp? || th.pc.Releasing? || th.pc.Done?
      || (th.cancelled && (th.pc.Waiting? || th.pc.Locked? || th.pc.Creating?))
      || (pod && (th.pc.Waiting? || th.pc.Locked?))
  }

  /** An environment that is gone for good: forgotten, without a Job, and nobody left to create one. */
  ghost predicate Sealed(s: Server, id: Id) {
    && id in s.envs && id !in s.registry && id !in s.jobs
    && forall t :: t in s.threads && s.threads[t].id == id ==> Harmless(s.threads[t], s.envs[id].pod)
  }

  ghost predicate RemovedInv(s: Server) {
    forall id :: id in s.removed ==> Sealed(s, id)
  }

  /** A Start that its client still waits for, and that waits for the lock. */
  predicate WaitsToStart(s: Server, t: Tid, id: Id) {
    && t in s.threads && s.threads[t].id == id && s.threads[t].kind.StartRpc?
    && s.threads[t].pc.Waiting? && !s.threads[t].cancelled
  }

  /** The environment was never started, and a Start is waiting to do so. */
  ghost predicate Exposed(s: Server, id: Id) {
    id in s.envs && !s.envs[id].pod && exists t :: WaitsToStart(s, t, id)
  }

  lemma OneAtATimeStep(s: Server, a: Step)
    requires OneAtATime(s) && DropInv(s) && CanStep(s, a, true)
    ensures OneAtATime(After(s, a, true))
  {
    var s' := After(s, a, true);
    OneThreadMoves(s, a, true);
    forall t, u | Awaited(s', t) && Awaited(s', u) && s'.threads[t].id == s'.threads[u].id ensures t == u {
      AwaitedBefore(s, a, t);
      AwaitedBefore(s, a, u);
    }
  }

  lemma AwaitedBefore(s: Server, a: Step, t: Tid)
    requires DropInv(s) && CanStep(s, a, true) && Awaited(After(s, a, true), t)
    ensures Awaited(s, t) || (a.Issue? && t == Client(a.n) && t !in s.threads)
  {
    OneThreadMoves(s, a, true);
  }

  lemma RemovedStep(s: Server, a: Step)
    requires LockInv(s) && DropInv(s) && WorkInv(s) && OneAtATime(s) && RemovedInv(s) && CanStep(s, a, true)
    ensures RemovedInv(After(s, a, true))
  {
    var s' := After(s, a, true);
    forall id | id in s'.removed ensures Sealed(s', id) {
      if id in s.removed {
        StaysSealed(s, a, true, id);
      } else {
        assert RemoveSucceeds(s, a) && s.threads[a.t].id == id;
        DisciplineShields(s, a);
        DeletedIsSealed(s, a, true);
      }
    }
  }

  /** No step of any handler, with discipline or without, brings a sealed environment back. */
  lemma StaysSealed(s: Server, a: Step, disciplined: bool, id: Id)
    requires LockInv(s) && DropInv(s) && WorkInv(s) && CanStep(s, a, disciplined) && Sealed(s, id)
    ensures Sealed(After(s, a, disciplined), id)
  {
    var s' := After(s, a, disciplined);
    OneThreadMoves(s, a, disciplined);
    NoNewJob(s, a, disciplined, id);
    forall t | t in s'.threads && s'.threads[t].id == id ensures Harmless(s'.threads[t], s'.envs[id].pod) {
      if t in s.threads {
        assert Harmless(s.threads[t], s.envs[id].pod) && ThreadOk(s, t);
        if Some(t) == Actor(a) {
          StaysHarmless(s, a, disciplined, t);
        }
      }
    }
  }

  lemma NoNewJob(s: Server, a: Step, disciplined: bool, id: Id)
    requires WorkInv(s) && CanStep(s, a, disciplined) && Sealed(s, id)
    ensures var s' := After(s, a, disciplined);
            && id in s'.envs && id !in s'.registry && id !in s'.jobs && (s.envs[id].pod ==> s'.envs[id].pod)
  {
    if a.CreateJob? {
      assert ThreadOk(s, a.t);
      assert s.threads[a.t].id == id ==> Harmless(s.threads[a.t], s.envs[id].pod);
    }
  }

  lemma StaysHarmless(s: Server, a: Step, disciplined: bool, t: Tid)
    requires DropInv(s) && CanStep(s, a, disciplined) && Actor(a) == Some(t) && t in s.threads && ThreadOk(s, t)
    requires var id := s.threads[t].id;
             id in s.envs && id !in s.registry && Harmless(s.threads[t], s.envs[id].pod)
    ensures Harmless(Moved(s, a, disciplined), s.envs[s.threads[t].id].pod)
  {
  }

  /** Such a delete seals its environment unless that stands exposed to a waiting Start. */
  lemma DeletedIsSealed(s: Server, a: Step, disciplined: bool)
    requires LockInv(s) && DropInv(s) && WorkInv(s) && CanStep(s, a, disciplined) && DeletesLocked(s, a)
    requires !Exposed(s, s.threads[a.t].id)
    ensures Sealed(After(s, a, disciplined), s.threads[a.t].id)
  {
    OneThreadMoves(s, a, disciplined);
    var s', r, id := After(s, a, disciplined), a.t, s.threads[a.t].id;
    assert ThreadOk(s, r) && Holds(s, r, id);
    forall t | t in s'.threads && s'.threads[t].id == id ensures Harmless(s'.threads[t], s'.envs[id].pod) {
      if t != r && s.threads[t].kind.StartRpc? {
        assert ThreadOk(s, t);
        assert !Holds(s, t, id) && !(!s.envs[id].pod && WaitsToStart(s, t, id));
      }
    }
  }

  lemma DisciplineShields(s: Server, a: Step)
    requires DropInv(s) && OneAtATime(s) && RemoveSucceeds(s, a)
    ensures !Exposed(s, s.threads[a.t].id)
  {
    var id := s.threads[a.t].id;
    forall t ensures !WaitsToStart(s, t, id) {
      if WaitsToStart(s, t, id) {
        assert Awaited(s, a.t) && Awaited(s, t);
      }
    }
  }

  // ----- Every run -----

  ghost predicate Inv(s: Server, disciplined: bool) {
    LockInv(s) && DropInv(s) && WorkInv(s) && (disciplined ==> OneAtATime(s) && RemovedInv(s))
  }

  lemma StepKeepsInv(s: Server, a: Step, disciplined: bool)
    requires Inv(s, disciplined) && CanStep(s, a, disciplined)
    ensures Inv(After(s, a, disciplined), disciplined)
  {
    OneThreadMoves(s, a, disciplined);
    LockStep(s, a, disciplined);
    WorkStep(s, a, disciplined);
    if disciplined {
      OneAtATimeStep(s, a);
      RemovedStep(s, a);
    }
  }

  lemma {:induction false} PlayKeepsInv(s: Server, steps: seq<Step>, disciplined: bool, t: Server)
    requires Inv(s, disciplined) && Play(s, steps, disciplined) == Some(t)
    ensures Inv(t, disciplined) && s.removed <= t.removed
    decreases |steps|
  {
    if steps != [] {
      StepKeepsInv(s, steps[0], disciplined);
      PlayKeepsInv(After(s, steps[0], disciplined), steps[1..], disciplined, t);
    }
  }

  lemma ReachableInv(s: Server, disciplined: bool)
    requires Reachable(s, disciplined)
    ensures Inv(s, disciplined)
  {
    var steps :| Play(EMPTY, steps, disciplined) == Some(s);
    PlayKeepsInv(EMPTY, steps, disciplined, s);
  }

  /** In every interleaving: one handler at a time inside an environment, and the lock is full exactly then. */
  lemma MutualExclusion(s: Server, disciplined: bool, id: Id)
    requires Reachable(s, disciplined) && id in s.envs
    ensures forall t, u :: Holds(s, t, id) && Holds(s, u, id) ==> t == u
    ensures s.envs[id].slot <==> exists t :: Holds(s, t, id)
  {
    ReachableInv(s, disciplined);
  }

  /** pod is assigned at most once, and nothing is executed or copied before it is. */
  lemma PodBeforeUse(s: Server, disciplined: bool, id: Id)
    requires Reachable(s, disciplined) && id in s.envs
    ensures s.envs[id].podWrites <= 1 && (s.envs[id].podWrites == 1 <==> s.envs[id].pod)
    ensures forall t :: t in s.threads && s.threads[t].id == id && s.threads[t].pc.Running? ==> s.envs[id].pod
    ensures forall t :: t in s.threads && s.threads[t].id == id && s.threads[t].pc.Creating? ==> !s.envs[id].pod
  {
    ReachableInv(s, disciplined);
    forall t | t in s.threads && s.threads[t].id == id ensures ThreadOk(s, t) {
    }
  }

  /** A boot that failed has issued a delete by the time its handler lets go of the lock. */
  lemma FailedBootDeletes(s: Server, disciplined: bool, t: Tid)
    requires Reachable(s, disciplined) && t in s.threads && s.threads[t].failed
    requires !s.threads[t].pc.CleaningUp?
    ensures s.threads[t].deletes > 0
  {
    ReachableInv(s, disciplined);
    assert ThreadOk(s, t);
  }

  /** Shutdown starts one task per registered environment. */
  lemma ShutdownSnapshot(s: Server, disciplined: bool)
    requires Reachable(s, disciplined) && CanStep(s, Shutdown, disciplined)
    ensures var s' := After(s, Shutdown, disciplined);
            && s'.registry == {}
            && (forall id :: Drop(id) in s'.threads <==> id in s.registry)
  {
    ReachableInv(s, disciplined);
  }

  /** A shutdown task deletes at most once, and once before it ends; without waiting its turn only when time is up. */
  lemma ShutdownDeletesOnce(s: Server, disciplined: bool, t: Tid)
    requires Reachable(s, disciplined) && t in s.threads && t.Drop?
    ensures s.threads[t].deletes <= 1
    ensures s.threads[t].pc.Done? ==> s.threads[t].deletes == 1
    ensures forall ok, u ::
              CanStep(s, Delete(t, ok), disciplined) && u != t && Holds(s, u, s.threads[t].id) ==> s.expired
  {
    ReachableInv(s, disciplined);
    assert ThreadOk(s, t);
    if s.threads[t].pc.Deleting? {
      assert Holds(s, t, s.threads[t].id);
    }
  }

  /**
   * No leak: once a Remove of a registered environment has succeeded, its Job
   * is gone, and no later state of any run has one again, even with a
   * cancelled Start still unwinding or waiting for the lock.
   */
  lemma NoLeakedJob(s: Server, id: Id, steps: seq<Step>, t: Server)
    requires Reachable(s, true) && id in s.removed && Play(s, steps, true) == Some(t)
    ensures id !in t.jobs && id !in t.registry && id in t.removed
  {
    ReachableInv(s, true);
    PlayKeepsInv(s, steps, true, t);
  }

  lemma {:induction false} PlayOneMore(s: Server, steps: seq<Step>, a: Step, disciplined: bool, t: Server)
    requires Play(s, steps, disciplined) == Some(t) && CanStep(t, a, disciplined)
    ensures Play(s, steps + [a], disciplined) == Some(After(t, a, disciplined))
    decreases |steps|
  {
    if steps == [] {
      assert ([a])[1..] == [];
      assert Play(After(s, a, disciplined), [], disciplined) == Some(After(s, a, disciplined));
    } else {
      PlayOneMore(After(s, steps[0], disciplined), steps[1..], a, disciplined, t);
      assert (steps + [a])[1..] == steps[1..] + [a];
    }
  }

  lemma LeadsOn(s: Server, t: Server, a: Step, disciplined: bool)
    requires Leads(s, t, disciplined) && CanStep(t, a, disciplined)
    ensures Leads(s, After(t, a, disciplined), disciplined)
  {
    var steps :| Play(s, steps, disciplined) == Some(t);
    PlayOneMore(s, steps, a, disciplined, t);
  }

  lemma {:induction false} LeadsThrough(s: Server, m: Server, steps: seq<Step>, disciplined: bool, t: Server)
    requires Leads(s, m, disciplined) && Play(m, steps, disciplined) == Some(t)
    ensures Leads(s, t, disciplined)
    decreases |steps|
  {
    if steps != [] {
      LeadsOn(s, m, steps[0], disciplined);
      LeadsThrough(s, After(m, steps[0], disciplined), steps[1..], disciplined, t);
    }
  }

  lemma ReachableStep(s: Server, a: Step, disciplined: bool)
    requires Reachable(s, disciplined) && CanStep(s, a, disciplined)
    ensures Reachable(After(s, a, disciplined), disciplined)
  {
    LeadsOn(EMPTY, s, a, disciplined);
  }

  // ----- When a deleted Job can come back, exactly -----

  lemma {:induction false} SealedForever(s: Server, steps: seq<Step>, disciplined: bool, t: Server, id: Id)
    requires Inv(s, disciplined) && Sealed(s, id) && Play(s, steps, disciplined) == Some(t)
    ensures Sealed(t, id)
    decreases |steps|
  {
    if steps != [] {
      StepKeepsInv(s, steps[0], disciplined);
      StaysSealed(s, steps[0], disciplined, id);
      SealedForever(After(s, steps[0], disciplined), steps[1..], disciplined, t, id);
    }
  }

  /** A Start with the way free to a new Job. */
  ghost predicate AboutToStart(s: Server, t: Tid, id: Id, pc: Pc) {
    && t in s.threads && s.threads[t] == Thread(StartRpc, id, pc, false, s.threads[t].failed, s.threads[t].deletes)
    && id in s.envs && !s.envs[id].pod && (pc == Waiting ==> !s.envs[id].slot)
  }

  lemma DeleterLetsGo(s: Server, a: Step, d: bool, t: Tid) returns (s': Server)
    requires Inv(s, d) && CanStep(s, a, d) && DeletesLocked(s, a)
    requires WaitsToStart(s, t, s.threads[a.t].id) && !s.envs[s.threads[a.t].id].pod
    ensures Leads(After(s, a, d), s', d) && AboutToStart(s', t, s.threads[a.t].id, Waiting)
  {
    var m, r := After(s, a, d), a.t;
    assert ThreadOk(s, r) && Holds(s, r, s.threads[r].id);
    assert Play(m, [], d) == Some(m);
    LeadsOn(m, m, Release(r), d);
    s' := After(m, Release(r), d);
  }

  lemma StartLocks(o: Server, s: Server, d: bool, t: Tid, id: Id) returns (s': Server)
    requires Leads(o, s, d) && AboutToStart(s, t, id, Waiting)
    ensures Leads(o, s', d) && AboutToStart(s', t, id, Locked)
  {
    LeadsOn(o, s, TakeLock(t), d);
    s' := After(s, TakeLock(t), d);
  }

  lemma StartEnters(o: Server, s: Server, d: bool, t: Tid, id: Id) returns (s': Server)
    requires Leads(o, s, d) && AboutToStart(s, t, id, Locked)
    ensures Leads(o, s', d) && AboutToStart(s', t, id, Creating)
  {
    LeadsOn(o, s, Enter(t), d);
    s' := After(s, Enter(t), d);
  }

  lemma StartCreates(o: Server, s: Server, d: bool, t: Tid, id: Id) returns (s': Server)
    requires Leads(o, s, d) && AboutToStart(s, t, id, Creating)
    ensures Leads(o, s', d) && id in s'.jobs
  {
    LeadsOn(o, s, CreateJob(t, true, true), d);
    s' := After(s, CreateJob(t, true, true), d);
  }

  ghost predicate Leaks(s: Server, id: Id, disciplined: bool) {
    exists t :: Leads(s, t, disciplined) && id in t.jobs
  }

  /**
   * Whether the runner keeps to its discipline or not: a Job that a Remove or
   * a shutdown task deleted under the lock can come back exactly when, at the
   * delete, the environment was not started and an uncancelled Start was
   * waiting for its lock.
   */
  lemma LeaksExactly(s: Server, a: Step, disciplined: bool)
    requires Reachable(s, disciplined) && CanStep(s, a, disciplined) && DeletesLocked(s, a)
    ensures Leaks(After(s, a, disciplined), s.threads[a.t].id, disciplined) <==> Exposed(s, s.threads[a.t].id)
  {
    ReachableInv(s, disciplined);
    var m, id := After(s, a, disciplined), s.threads[a.t].id;
    if Exposed(s, id) {
      var u :| WaitsToStart(s, u, id);
      var free := DeleterLetsGo(s, a, disciplined, u);
      var locked := StartLocks(m, free, disciplined, u, id);
      var inside := StartEnters(m, locked, disciplined, u, id);
      var leak := StartCreates(m, inside, disciplined, u, id);
    } else {
      DeletedIsSealed(s, a, disciplined);
      StepKeepsInv(s, a, disciplined);
      forall t | Leads(m, t, disciplined) ensures id !in t.jobs {
        var steps :| Play(m, steps, disciplined) == Some(t);
        SealedForever(m, steps, disciplined, t, id);
      }
    }
  }

  /** One environment with one Start and one Remove, both uncancelled, at given places. */
  function Scene(id: Id, registered: bool, slot: bool, start: Pc, remove: Pc): Server {
    Server(if registered then {id} else {}, map[id := Env(slot, false, 0)], {},
           map[Client(1) := Thread(StartRpc, id, start, false, false, 0),
               Client(2) := Thread(RemoveRpc, id, remove, false, false, 0)],
           {}, false, false)
  }

  lemma Take(s: Server, a: Step, t: Server)
    requires Reachable(s, false) && CanStep(s, a, false) && After(s, a, false) == t
    ensures Reachable(t, false)
  {
    ReachableStep(s, a, false);
  }

  lemma BothIssued(id: Id)
    ensures Reachable(Scene(id, true, false, LookingUp, LookingUp), false)
  {
    assert Play(EMPTY, [], false) == Some(EMPTY);
    var one := Server({id}, map[id := Env(false, false, 0)], {}, map[], {}, false, false);
    Take(EMPTY, NewEnv(id), one);
    var two := one.(threads := map[Client(1) := Thread(StartRpc, id, LookingUp, false, false, 0)]);
    Take(one, Issue(1, StartRpc, id), two);
    Take(two, Issue(2, RemoveRpc, id), Scene(id, true, false, LookingUp, LookingUp));
  }

  lemma StartWaits(id: Id)
    ensures Reachable(Scene(id, true, false, Waiting, LookingUp), false)
  {
    BothIssued(id);
    Take(Scene(id, true, false, LookingUp, LookingUp), LookUp(Client(1), true),
         Scene(id, true, false, Waiting, LookingUp));
  }

  lemma BothWait(id: Id)
    ensures Reachable(Scene(id, true, false, Waiting, Waiting), false)
  {
    StartWaits(id);
    Take(Scene(id, true, false, Waiting, LookingUp), LookUp(Client(2), true),
         Scene(id, true, false, Waiting, Waiting));
  }

  lemma RemoveLocks(id: Id)
    ensures Reachable(Scene(id, true, true, Waiting, Locked), false)
  {
    BothWait(id);
    Take(Scene(id, true, false, Waiting, Waiting), TakeLock(Client(2)),
         Scene(id, true, true, Waiting, Locked));
  }

  lemma RemoveEnters(id: Id)
    ensures Reachable(Scene(id, true, true, Waiting, Forgetting), false)
  {
    RemoveLocks(id);
    Take(Scene(id, true, true, Waiting, Locked), Enter(Client(2)),
         Scene(id, true, true, Waiting, Forgetting));
  }

  lemma RemoveForgets(id: Id)
    ensures Reachable(Scene(id, false, true, Waiting, Deleting), false)
  {
    RemoveEnters(id);
    Take(Scene(id, true, true, Waiting, Forgetting), Forget(Client(2)),
         Scene(id, false, true, Waiting, Deleting));
  }

  /**
   * Such a state is reached: acquiring the lock does not look whether the
   * environment is still registered, so a Start that waits, uncancelled, while
   * the environment is removed boots it afterwards.
   */
  lemma LeakWithoutDiscipline(id: Id)
    ensures exists s :: Reachable(s, false) && id in s.removed && id in s.jobs
  {
    RemoveForgets(id);
    var s, a := Scene(id, false, true, Waiting, Deleting), Delete(Client(2), true);
    assert WaitsToStart(s, Client(1), id);
    LeaksExactly(s, a, false);
    var m := After(s, a, false);
    var t :| Leads(m, t, false) && id in t.jobs;
    var steps :| Play(m, steps, false) == Some(t);
    ReachableStep(s, a, false);
    LeadsThrough(EMPTY, m, steps, false, t);
    ReachableInv(m, false);
    PlayKeepsInv(m, steps, false, t);
  }

  // ----- A shutdown that leaves a Job behind -----

  /** One environment, its Start waiting for the lock, and the shutdown task at a given place. */
  function ShutdownScene(id: Id, slot: bool, task: Pc): Server {
    Server({}, map[id := Env(slot, false, 0)], {},
           map[Client(1) := Thread(StartRpc, id, Waiting, false, false, 0),
               Drop(id) := Thread(ShutdownTask, id, task, false, false, 0)],
           {}, true, false)
  }

  lemma StartIssued(id: Id)
    ensures Reachable(OneStart(id, LookingUp), true)
  {
    assert Play(EMPTY, [], true) == Some(EMPTY);
    ReachableStep(EMPTY, NewEnv(id), true);
    var made := Server({id}, map[id := Env(false, false, 0)], {}, map[], {}, false, false);
    assert After(EMPTY, NewEnv(id), true) == made;
    ReachableStep(made, Issue(1, StartRpc, id), true);
    assert After(made, Issue(1, StartRpc, id), true) == OneStart(id, LookingUp);
  }

  function OneStart(id: Id, pc: Pc): Server {
    Server({id}, map[id := Env(false, false, 0)], {},
           map[Client(1) := Thread(StartRpc, id, pc, false, false, 0)], {}, false, false)
  }

  lemma StartFound(id: Id)
    ensures Reachable(OneStart(id, Waiting), true)
  {
    StartIssued(id);
    var s := OneStart(id, LookingUp);
    ReachableStep(s, LookUp(Client(1), true), true);
    assert After(s, LookUp(Client(1), true), true) == OneStart(id, Waiting);
  }

  lemma ShutdownBegun(id: Id)
    ensures Reachable(ShutdownScene(id, false, Waiting), true)
  {
    StartFound(id);
    var s := OneStart(id, Waiting);
    ReachableStep(s, Shutdown, true);
    var t, scene := After(s, Shutdown, true), ShutdownScene(id, false, Waiting);
    assert t.threads == scene.threads;
    assert t == scene;
  }

  lemma ShutdownLocks(id: Id)
    ensures Reachable(ShutdownScene(id, true, Locked), true)
  {
    ShutdownBegun(id);
    var s := ShutdownScene(id, false, Waiting);
    ReachableStep(s, TakeLock(Drop(id)), true);
    assert After(s, TakeLock(Drop(id)), true) == ShutdownScene(id, true, Locked);
  }

  lemma ShutdownEnters(id: Id)
    ensures Reachable(ShutdownScene(id, true, Deleting), true)
  {
    ShutdownLocks(id);
    var s := ShutdownScene(id, true, Locked);
    ReachableStep(s, Enter(Drop(id)), true);
    assert After(s, Enter(Drop(id)), true) == ShutdownScene(id, true, Deleting);
  }

  /**
   * Under the runner's discipline and in good time a shutdown can still leave
   * a Job behind: a Start that waits for the lock boots the environment after
   * the task has deleted its Job and is done with it.
   */
  lemma ShutdownMayLeak(id: Id)
    ensures exists m, t ::
              && Reachable(m, true) && Leads(m, t, true)
              && At(m, Drop(id), Releasing(true)) && !m.expired && id !in m.jobs
              && id in t.jobs
  {
    ShutdownEnters(id);
    var s, a := ShutdownScene(id, true, Deleting), Delete(Drop(id), true);
    assert WaitsToStart(s, Client(1), id);
    LeaksExactly(s, a, true);
    var m := After(s, a, true);
    ReachableStep(s, a, true);
    var t :| Leads(m, t, true) && id in t.jobs;
    assert At(m, Drop(id), Releasing(true)) && !m.expired;
  }

  /** A Remove that answers success to a client still waiting, having held the lock, counts as removed. */
  lemma SuccessfulRemoveCounts(s: Server, disciplined: bool, t: Tid)
    requires Reachable(s, disciplined) && At(s, t, Releasing(true))
    requires s.threads[t].kind.RemoveRpc? && !s.threads[t].cancelled
    ensures s.threads[t].id in s.removed
  {
    ReachableInv(s, disciplined);
    assert ThreadOk(s, t);
  }
}
