/**
 * The whole resumable step protocol as one state machine: helpers that race to
 * start the step, its supervisor, followers, an exec stream that breaks at any
 * byte, and the plugin that reattaches.
 */
module StepSystem {
  import opened Bytes
  import opened ExecStream
  import opened StepIO
  import opened StepLog
  import opened Supervisor
  import opened Follow
  import opened Reattach

  /** How far `run` has come before it turns into a follower. */
  datatype Stage = Preparing | Created | Spawned | Quit

  datatype Helper = Runner(stage: Stage) | Following(f: Follower)

  /** What the plugin does: about to exec, attached to a helper's output, or finished. */
  datatype Phase =
    | Ready
    | Attached(pid: nat, base: nat, got: nat)
    | Settled(ret: Ret, end: End, cancelled: bool)

  datatype Plugin = Plugin(dec: Dec, status: Status, phase: Phase)

  /**
   * `created` says that the log file exists and `creator` who created it;
   * `starts` counts supervisors started; `record` is the supervisor file.
   */
  datatype System = System(
    created: bool, creator: Option<nat>, sup: Option<Sup>, starts: nat, record: bool,
    helpers: map<nat, Helper>, plugin: Plugin)

  const IDLE := System(false, None, None, 0, false, map[], Plugin(FRESH, Fine, Ready))

  function LogFile(s: System): seq<byte> {
    if s.sup.Some? then s.sup.value.log.file else []
  }

  function DiskOf(s: System): Disk {
    Disk(if s.created then Some(LogFile(s)) else None,
         if s.sup.Some? then s.sup.value.done else None,
         s.record,
         s.sup.Some? && !s.sup.value.life.Dead?)
  }

  /** What a helper has written to its exec stream. */
  function Output(h: Helper): seq<byte> {
    if h.Following? then h.f.written else []
  }

  /** The helper an exec starts: `run` while nothing was received, `follow` from the next byte after that. */
  function Launched(offset: nat): Helper {
    if offset == 0 then Runner(Preparing) else Following(Begin(offset))
  }

  const KILLED := 137

  function Kill(h: Helper): Helper {
    match h
    case Runner(_) => Runner(Quit)
    case Following(f) => if f.pc.Exit? then h else Following(f.(pc := Exit(KILLED)))
  }

  datatype Step =
    | Launch(pid: nat)                         // the plugin's exec starts a helper
    | StrayRun(pid: nat)                       // any other run of the same step directory
    | StrayFollow(pid: nat, off: nat)
    | Create(pid: nat)                         // exclusive creation of the log
    | Spawn(pid: nat, ok: bool)                // start the supervisor
    | Record(pid: nat, ok: bool)               // write the supervisor file, become a follower
    | KillHelper(pid: nat)
    | Poll(pid: nat, fate: WriteFate)          // one operation of a follower
    | Supervise(act: Act)
    | Deliver(n: nat)                          // the stream brings the next n bytes
    | Return(end: End, cancelled: bool, late: bool, interrupted: bool)

  predicate CanStep(s: System, a: Step) {
    match a
    case Launch(pid) => s.plugin.phase.Ready? && pid !in s.helpers
    case StrayRun(pid) => pid !in s.helpers
    case StrayFollow(pid, _) => pid !in s.helpers
    case Create(pid) => pid in s.helpers && s.helpers[pid] == Runner(Preparing)
    case Spawn(pid, _) => pid in s.helpers && s.helpers[pid] == Runner(Created)
    case Record(pid, _) => pid in s.helpers && s.helpers[pid] == Runner(Spawned)
    case KillHelper(pid) => pid in s.helpers
    case Poll(pid, _) => pid in s.helpers && s.helpers[pid].Following? && !s.helpers[pid].f.pc.Exit?
    case Supervise(act) => s.sup.Some? && Enabled(s.sup.value, act)
    case Deliver(n) =>
      var p := s.plugin;
      && p.phase.Attached? && p.status == Fine && p.phase.pid in s.helpers
      && p.phase.got + n <= |Output(s.helpers[p.phase.pid])|
    case Return(_, _, _, _) => !s.plugin.phase.Settled?
  }

  /** The next n bytes of the attached helper's output. */
  function Arriving(s: System, n: nat): (x: seq<byte>)
    requires CanStep(s, Deliver(n))
    ensures |x| == n
  {
    Output(s.helpers[s.plugin.phase.pid])[s.plugin.phase.got..s.plugin.phase.got + n]
  }

  function After(s: System, a: Step, fate: nat -> bool): System
    requires CanStep(s, a)
  {
    match a
    case Launch(pid) =>
      s.(helpers := s.helpers[pid := Launched(s.plugin.dec.offset)],
         plugin := s.plugin.(phase := Attached(pid, s.plugin.dec.offset, 0)))
    case StrayRun(pid) => s.(helpers := s.helpers[pid := Runner(Preparing)])
    case StrayFollow(pid, off) => s.(helpers := s.helpers[pid := Following(Begin(off))])
    case Create(pid) =>
      if s.created then s.(helpers := s.helpers[pid := Following(Begin(0))])
      else s.(created := true, creator := Some(pid), helpers := s.helpers[pid := Runner(Created)])
    case Spawn(pid, ok) =>
      if ok then s.(sup := Some(SPAWNED), starts := s.starts + 1, helpers := s.helpers[pid := Runner(Spawned)])
      else s.(helpers := s.helpers[pid := Runner(Quit)])
    case Record(pid, ok) =>
      if ok then s.(record := true, helpers := s.helpers[pid := Following(Begin(0))])
      else s.(helpers := s.helpers[pid := Runner(Quit)])
    case KillHelper(pid) => s.(helpers := s.helpers[pid := Kill(s.helpers[pid])])
    case Poll(pid, w) =>
      s.(helpers := s.helpers[pid := Following(Follow.Step(s.helpers[pid].f, Obs(DiskOf(s), w)))])
    case Supervise(act) => s.(sup := Some(Apply(s.sup.value, act)))
    case Deliver(n) =>
      var (d, st) := Feed(s.plugin.dec, Arriving(s, n), fate);
      s.(plugin := Plugin(d, st, s.plugin.phase.(got := s.plugin.phase.got + n)))
    case Return(end, cancelled, late, interrupted) =>
      var v := Judge(s.plugin.dec, s.plugin.status, end, cancelled, late, interrupted);
      s.(plugin := s.plugin.(phase := if v.Some? then Settled(v.value, end, cancelled) else Ready))
  }

  /** The state after a whole run of the system, if every step of it can be taken. */
  function Play(s: System, steps: seq<Step>, fate: nat -> bool): Option<System>
    decreases |steps|
  {
    if steps == [] then Some(s)
    else if !CanStep(s, steps[0]) then None
    else Play(After(s, steps[0], fate), steps[1..], fate)
  }

  ghost predicate Reachable(s: System, fate: nat -> bool) {
    exists steps :: Play(IDLE, steps, fate) == Some(s)
  }

  // ----- The invariant -----

  /** Only the helper that created the log is on its way to start the supervisor, and it does so once. */
  ghost predicate StartInv(s: System) {
    && (s.created <==> s.creator.Some?)
    && s.starts == (if s.sup.Some? then 1 else 0)
    && (s.sup.Some? ==> s.created && Inv(s.sup.value))
    && (s.record ==> s.sup.Some?)
    && (forall p :: p in s.helpers && s.helpers[p] == Runner(Created) ==> s.creator == Some(p) && s.sup.None?)
    && (forall p :: p in s.helpers && s.helpers[p] == Runner(Spawned) ==> s.sup.Some?)
  }

  /** `x` is what the log holds from byte `i` on. */
  ghost predicate At(log: seq<byte>, i: nat, x: seq<byte>) {
    i + |x| <= |log| && forall k :: 0 <= k < |x| ==> x[k] == log[i + k]
  }

  lemma AtExtends(log: seq<byte>, i: nat, x: seq<byte>)
    requires At(log, i, x)
    ensures log[..i] + x == log[..i + |x|]
  {
  }

  /** What a follower wrote is the log from its offset on, as far as it has read. */
  ghost predicate Copies(f: Follower, log: seq<byte>) {
    f.written == [] || At(log, f.off, f.written)
  }

  /** A follower's findings are still true: its place in the log, and what it concluded from done and the record. */
  ghost predicate FollowerInv(f: Follower, d: Disk) {
    var log := LogOf(d);
    && Copies(f, log)
    && match f.pc
       case OpenLog => f.pos == f.off && f.written == [] && !f.blind
       case StatLog => f.pos == f.off && f.written == [] && !f.blind && d.log.Some?
       case Read(ret) => AtPos(f, log) && f.pos == f.off + |f.written| && Concluded(ret, f.blind, d)
       case Write(ret, buf) =>
         && AtPos(f, log) && f.pos == f.off + |f.written| + |buf| && At(log, f.off + |f.written|, buf)
         && Concluded(ret, f.blind, d)
       case CheckDone => AtPos(f, log) && f.pos == f.off + |f.written|
       case CheckAlive => AtPos(f, log) && f.pos == f.off + |f.written|
       case Recheck => AtPos(f, log) && f.pos == f.off + |f.written| && (!f.blind ==> Dead(d))
       case Exit(code) =>
         && (code == 0 ==> d.done == Some(true) && f.off + |f.written| == |log|)
         && (code == EXIT_INCOMPLETE ==> d.done == Some(false) && f.off + |f.written| == |log|)
         && (code == EXIT_GONE && !f.blind ==> Dead(d) && d.done.None?)
  }

  /** The supervisor on record no longer runs. */
  predicate Dead(d: Disk) {
    d.record && !d.running
  }

  predicate AtPos(f: Follower, log: seq<byte>) {
    f.off <= f.pos <= |log|
  }

  predicate Concluded(ret: Then, blind: bool, d: Disk) {
    match ret
    case Poll => true
    case End(complete) => d.done == Some(complete)
    case Gone => !blind ==> Dead(d) && d.done.None?
  }

  /** How the disk may change under a follower: the log grows until it is done, and what is decided stays. */
  predicate Rely(d: Disk, e: Disk) {
    && (d.log.Some? ==> e.log.Some?)
    && LogOf(d) <= LogOf(e)
    && (d.done.Some? ==> e.done == d.done && LogOf(e) == LogOf(d))
    && (Dead(d) ==> Dead(e) && e.done == d.done && LogOf(e) == LogOf(d))
    && (d.record ==> e.record)
  }

  /** What the plugin's decoder has to show for the log as far as it was received. */
  ghost predicate ReadInv(d: Dec, st: Status, log: seq<byte>) {
    d.offset <= |log| && Reflects(d, st, log[..d.offset])
  }

  /** The decoder has read the log up to its offset, and its stream is a copy of the log from where it was attached. */
  ghost predicate PluginInv(s: System) {
    ReadInv(s.plugin.dec, s.plugin.status, LogFile(s)) && PhaseHolds(s)
  }

  ghost predicate PhaseHolds(s: System) {
    var p := s.plugin;
    match p.phase
    case Ready => true
    case Attached(pid, base, got) =>
      && pid in s.helpers && got <= |Output(s.helpers[pid])|
      && p.dec.offset == base + got
      && (match s.helpers[pid]
          case Runner(_) => base == 0
          case Following(f) => f.off == base)
    case Settled(ret, end, cancelled) =>
      && ret.Returned?
      && (p.dec.exited ==> ret == Returned(p.dec.code, None))
      && (!p.dec.exited ==> ret.code == -1 && (ret.err.None? <==> cancelled && end.Exited?))
  }

  ghost predicate FollowersInv(s: System) {
    forall p :: p in s.helpers && s.helpers[p].Following? ==> FollowerInv(s.helpers[p].f, DiskOf(s))
  }

  ghost predicate SysInv(s: System) {
    StartInv(s) && FollowersInv(s) && PluginInv(s)
  }

  lemma IdleInv()
    ensures SysInv(IDLE)
  {
    FreshTracks();
  }

  /** Whatever happens elsewhere, a follower's disk changes only as it relies on. */
  lemma DiskRely(s: System, a: Step, fate: nat -> bool)
    requires StartInv(s) && CanStep(s, a)
    ensures Rely(DiskOf(s), DiskOf(After(s, a, fate)))
  {
    if a.Supervise? {
      StepGrows(s.sup.value, a.act);
    }
  }

  lemma StartStep(s: System, a: Step, fate: nat -> bool)
    requires StartInv(s) && CanStep(s, a)
    ensures StartInv(After(s, a, fate))
  {
    if a.Supervise? {
      StepKeepsInv(s.sup.value, a.act);
    } else {
      SpawnedInv();
      StartStepHelpers(s, a, fate);
    }
  }

  lemma StartStepHelpers(s: System, a: Step, fate: nat -> bool)
    requires StartInv(s) && CanStep(s, a) && !a.Supervise? && Inv(SPAWNED)
    ensures StartInv(After(s, a, fate))
  {
    var t := After(s, a, fate);
    forall p | p in t.helpers && t.helpers[p].Runner?
      ensures t.helpers[p] == Runner(Created) ==> t.creator == Some(p) && t.sup.None?
      ensures t.helpers[p] == Runner(Spawned) ==> t.sup.Some?
    {
      RunnerOrigin(s, a, fate, p);
    }
  }

  /** A runner after a step: it was there before in the same stage, or the step moved it on. */
  lemma RunnerOrigin(s: System, a: Step, fate: nat -> bool, p: nat)
    requires CanStep(s, a)
    requires p in After(s, a, fate).helpers && After(s, a, fate).helpers[p].Runner?
    ensures var st := After(s, a, fate).helpers[p].stage;
            || st == Preparing || st == Quit
            || (a == Create(p) && st == Created && !s.created)
            || (a == Spawn(p, true) && st == Spawned)
            || (p in s.helpers && s.helpers[p] == Runner(st) && a != Create(p) && !(a.Spawn? && a.pid == p))
  {
  }

  lemma AtStays(log: seq<byte>, more: seq<byte>, i: nat, x: seq<byte>)
    requires log <= more && At(log, i, x)
    ensures At(more, i, x)
  {
  }

  lemma FollowerStable(f: Follower, d: Disk, e: Disk)
    requires FollowerInv(f, d) && Rely(d, e)
    ensures FollowerInv(f, e)
  {
    if f.written != [] {
      AtStays(LogOf(d), LogOf(e), f.off, f.written);
    }
    if f.pc.Write? {
      AtStays(LogOf(d), LogOf(e), f.off + |f.written|, f.pc.buf);
    }
  }

  lemma FollowerWrites(f: Follower, d: Disk, w: WriteFate)
    requires FollowerInv(f, d) && f.pc.Write?
    ensures FollowerInv(Follow.Step(f, Obs(d, w)), d)
  {
    var log, put := LogOf(d), Accepted(f.pc.buf, w);
    assert At(log, f.off + |f.written|, put);
    assert At(log, f.off, f.written + put);
  }

  lemma FollowerReads(f: Follower, d: Disk, w: WriteFate)
    requires FollowerInv(f, d) && f.pc.Read?
    ensures FollowerInv(Follow.Step(f, Obs(d, w)), d)
  {
    var log := LogOf(d);
    var n := ReadSize(f, log);
    assert n > 0 ==> At(log, f.pos, log[f.pos..f.pos + n]);
  }

  /** One operation of a follower keeps its findings true. */
  lemma FollowerStep(f: Follower, d: Disk, w: WriteFate)
    requires FollowerInv(f, d)
    ensures FollowerInv(Follow.Step(f, Obs(d, w)), d)
  {
    match f.pc
    case Read(_) => FollowerReads(f, d, w);
    case Write(_, _) => FollowerWrites(f, d, w);
    case _ =>
  }

  lemma BeginInv(off: nat, d: Disk)
    ensures FollowerInv(Begin(off), d)
  {
  }

  /** A helper that follows after a step: it just began, made one operation, was killed, or did nothing. */
  lemma FollowerOrigin(s: System, a: Step, fate: nat -> bool, p: nat)
    requires CanStep(s, a)
    requires p in After(s, a, fate).helpers && After(s, a, fate).helpers[p].Following?
    ensures var g := After(s, a, fate).helpers[p].f;
            if p in s.helpers && s.helpers[p].Following? then
              var f := s.helpers[p].f;
              || g == f || g == f.(pc := Exit(KILLED))
              || (a.Poll? && g == Follow.Step(f, Obs(DiskOf(s), a.fate)))
            else
              g == Begin(g.off)
  {
  }

  lemma FollowersStep(s: System, a: Step, fate: nat -> bool)
    requires StartInv(s) && FollowersInv(s) && CanStep(s, a)
    ensures FollowersInv(After(s, a, fate))
  {
    var t := After(s, a, fate);
    DiskRely(s, a, fate);
    forall p | p in t.helpers && t.helpers[p].Following? ensures FollowerInv(t.helpers[p].f, DiskOf(t)) {
      FollowerOrigin(s, a, fate, p);
      FollowerAfter(s, t.helpers[p].f, p, DiskOf(t));
    }
  }

  lemma FollowerAfter(s: System, g: Follower, p: nat, e: Disk)
    requires FollowersInv(s) && Rely(DiskOf(s), e)
    requires if p in s.helpers && s.helpers[p].Following? then
               var f := s.helpers[p].f;
               g == f || g == f.(pc := Exit(KILLED)) || exists w :: g == Follow.Step(f, Obs(DiskOf(s), w))
             else
               g == Begin(g.off)
    ensures FollowerInv(g, e)
  {
    if p in s.helpers && s.helpers[p].Following? {
      var f := s.helpers[p].f;
      if w :| g == Follow.Step(f, Obs(DiskOf(s), w)) {
        FollowerStep(f, DiskOf(s), w);
      }
      FollowerStable(g, DiskOf(s), e);
    } else {
      BeginInv(g.off, e);
    }
  }

  lemma HelperKeepsOutput(s: System, a: Step, fate: nat -> bool, p: nat)
    requires CanStep(s, a) && p in s.helpers
    ensures var t := After(s, a, fate);
            && p in t.helpers
            && Output(s.helpers[p]) <= Output(t.helpers[p])
            && (s.helpers[p].Following? ==> t.helpers[p].Following? && t.helpers[p].f.off == s.helpers[p].f.off)
            && (s.helpers[p].Runner? && t.helpers[p].Following? ==> t.helpers[p].f.off == 0)
  {
  }

  /** The next bytes of the attached helper's output are the next bytes of the log. */
  lemma ArrivingIsNext(s: System, n: nat)
    requires FollowersInv(s) && StartInv(s) && PhaseHolds(s) && CanStep(s, Deliver(n))
    requires s.plugin.dec.offset <= |LogFile(s)|
    ensures At(LogFile(s), s.plugin.dec.offset, Arriving(s, n))
  {
    var ph := s.plugin.phase;
    var out := Output(s.helpers[ph.pid]);
    if out != [] {
      CopiedFrom(s, ph.pid);
    }
    PartAt(LogFile(s), ph.base, out, ph.got, n, s.plugin.dec.offset, Arriving(s, n));
  }

  /** What a follower has written is in the log from its offset on. */
  lemma CopiedFrom(s: System, p: nat)
    requires FollowersInv(s) && StartInv(s) && p in s.helpers && Output(s.helpers[p]) != []
    ensures At(LogFile(s), s.helpers[p].f.off, Output(s.helpers[p]))
  {
    assert FollowerInv(s.helpers[p].f, DiskOf(s));
  }

  lemma PartAt(log: seq<byte>, i: nat, x: seq<byte>, from: nat, n: nat, j: nat, part: seq<byte>)
    requires from + n <= |x| && part == x[from..from + n] && j == i + from <= |log|
    requires x != [] ==> At(log, i, x)
    ensures At(log, j, part)
  {
    forall k | 0 <= k < |part| ensures part[k] == log[j + k] {
      assert part[k] == x[from + k];
    }
  }

  lemma DecoderReadsOn(d: Dec, log: seq<byte>, x: seq<byte>, fate: nat -> bool)
    requires ReadInv(d, Fine, log) && At(log, d.offset, x)
    ensures var r := Feed(d, x, fate); ReadInv(r.0, r.1, log) && r.0.offset == d.offset + |x|
  {
    AtExtends(log, d.offset, x);
    FeedReflects(d, log[..d.offset], x, log[..d.offset + |x|], fate);
    var r := Feed(d, x, fate);
    assert r.0.offset == d.offset + |x| by {
      assert ShowsStatus(r.0, r.1, d.offset + |x|, Parse(log[..d.offset + |x|]));
    }
  }

  lemma DeliverStep(s: System, n: nat, fate: nat -> bool)
    requires SysInv(s) && CanStep(s, Deliver(n))
    ensures PluginInv(After(s, Deliver(n), fate))
  {
    ArrivingIsNext(s, n);
    DecoderReadsOn(s.plugin.dec, LogFile(s), Arriving(s, n), fate);
    Delivered(s, n, fate, Feed(s.plugin.dec, Arriving(s, n), fate));
  }

  lemma Delivered(s: System, n: nat, fate: nat -> bool, r: (Dec, Status))
    requires PhaseHolds(s) && CanStep(s, Deliver(n)) && r == Feed(s.plugin.dec, Arriving(s, n), fate)
    requires ReadInv(r.0, r.1, LogFile(s)) && r.0.offset == s.plugin.dec.offset + n
    ensures PluginInv(After(s, Deliver(n), fate))
  {
    var t := After(s, Deliver(n), fate);
    assert LogFile(t) == LogFile(s) && t.plugin.dec == r.0 && t.plugin.status == r.1;
  }

  lemma ReturnStep(s: System, a: Step, fate: nat -> bool)
    requires PluginInv(s) && CanStep(s, a) && a.Return?
    ensures PluginInv(After(s, a, fate))
  {
  }

  /** Steps that leave the decoder alone. */
  lemma OtherStep(s: System, a: Step, fate: nat -> bool)
    requires SysInv(s) && CanStep(s, a) && !a.Deliver? && !a.Return?
    ensures PluginInv(After(s, a, fate))
  {
    var t := After(s, a, fate);
    LogOnlyGrows(s, a, fate);
    ReadsStill(s.plugin.dec, s.plugin.status, LogFile(s), LogFile(t));
    OtherPhase(s, a, fate);
  }

  lemma LogOnlyGrows(s: System, a: Step, fate: nat -> bool)
    requires StartInv(s) && CanStep(s, a)
    ensures LogFile(s) <= LogFile(After(s, a, fate))
  {
    if a.Supervise? {
      StepGrows(s.sup.value, a.act);
    }
  }

  lemma ReadsStill(d: Dec, st: Status, log: seq<byte>, more: seq<byte>)
    requires ReadInv(d, st, log) && log <= more
    ensures ReadInv(d, st, more)
  {
    assert more[..d.offset] == log[..d.offset];
  }

  lemma OtherPhase(s: System, a: Step, fate: nat -> bool)
    requires PhaseHolds(s) && CanStep(s, a) && !a.Deliver? && !a.Return?
    ensures PhaseHolds(After(s, a, fate))
    ensures After(s, a, fate).plugin.dec == s.plugin.dec && After(s, a, fate).plugin.status == s.plugin.status
  {
    if s.plugin.phase.Attached? {
      HelperKeepsOutput(s, a, fate, s.plugin.phase.pid);
    }
  }

  lemma StepKeepsSysInv(s: System, a: Step, fate: nat -> bool)
    requires SysInv(s) && CanStep(s, a)
    ensures SysInv(After(s, a, fate))
  {
    StartStep(s, a, fate);
    FollowersStep(s, a, fate);
    match a
    case Deliver(n) => DeliverStep(s, n, fate);
    case Return(_, _, _, _) => ReturnStep(s, a, fate);
    case _ => OtherStep(s, a, fate);
  }

  lemma {:induction false} PlayKeepsInv(s: System, steps: seq<Step>, fate: nat -> bool, t: System)
    requires SysInv(s) && Play(s, steps, fate) == Some(t)
    ensures SysInv(t)
    decreases |steps|
  {
    if steps != [] {
      StepKeepsSysInv(s, steps[0], fate);
      PlayKeepsInv(After(s, steps[0], fate), steps[1..], fate, t);
    }
  }

  lemma ReachableInv(s: System, fate: nat -> bool)
    requires Reachable(s, fate)
    ensures SysInv(s)
  {
    var steps :| Play(IDLE, steps, fate) == Some(s);
    IdleInv();
    PlayKeepsInv(IDLE, steps, fate, s);
  }

  // ----- The protocol's promises -----

  /** The frames the supervisor has begun to log, in order. */
  function Logged(s: System): seq<Frame> {
    if s.sup.Some? then Frames(s.sup.value.plan) else []
  }

  /**
   * At any time, after any number of breaks at any byte: the decoder has
   * consumed exactly the first Offset() bytes of the log, and the runner was
   * sent an in-order prefix of what the step logged.
   */
  lemma ExactlyOnce(s: System, fate: nat -> bool)
    requires Reachable(s, fate)
    ensures s.plugin.dec.offset <= |LogFile(s)|
    ensures s.plugin.status == Fine ==> Tracks(s.plugin.dec, LogFile(s)[..s.plugin.dec.offset])
    ensures Flatten(s.plugin.dec.sent) <= Flatten(Logged(s))
    ensures !s.plugin.status.Corrupted?
  {
    ReachableInv(s, fate);
    var log := LogFile(s)[..s.plugin.dec.offset];
    if s.sup.Some? {
      LogDecodes(s.sup.value, s.plugin.dec.offset);
      FlattenPrefix(Parse(log).frames, Logged(s));
    } else {
      assert log == [];
    }
  }

  lemma SupervisorInv(s: System, fate: nat -> bool)
    requires Reachable(s, fate) && s.sup.Some?
    ensures Inv(s.sup.value)
  {
    ReachableInv(s, fate);
  }

  /** What the runner saw on stdout is a prefix of what the step wrote; likewise stderr, unless the helper spoke. */
  lemma OutputIsPrefix(s: System, fate: nat -> bool)
    requires Reachable(s, fate) && s.sup.Some?
    ensures Select(KIND_STDOUT, Flatten(s.plugin.dec.sent)) <= s.sup.value.out.produced
    ensures (forall r :: r in s.sup.value.plan ==> !r.source.Helper?) ==>
              Select(KIND_STDERR, Flatten(s.plugin.dec.sent)) <= s.sup.value.err.produced
  {
    ExactlyOnce(s, fate);
    SupervisorInv(s, fate);
    LoggedIsPrefix(s.sup.value);
    SelectPrefix(KIND_STDOUT, Flatten(s.plugin.dec.sent), Flatten(Logged(s)));
    SelectPrefix(KIND_STDERR, Flatten(s.plugin.dec.sent), Flatten(Logged(s)));
  }

  /** An exit code is known only with all of the step's log: every frame sent, the recorded code, nothing torn. */
  lemma ExitMeansAll(s: System, fate: nat -> bool)
    requires Reachable(s, fate) && s.plugin.dec.exited
    ensures s.sup.Some? && s.sup.value.exit.Some?
    ensures LogFile(s) == Ended(Logged(s), s.sup.value.exit.value)
    ensures s.plugin.dec.offset == |LogFile(s)|
    ensures Flatten(s.plugin.dec.sent) == Flatten(Logged(s))
    ensures s.plugin.dec.code == ToInt32(ToUint32(s.sup.value.exit.value))
  {
    ReachableInv(s, fate);
    var k := s.plugin.dec.offset;
    var log := LogFile(s)[..k];
    if s.sup.Some? {
      LogDecodes(s.sup.value, k);
      assert k == |LogFile(s)| ==> log == LogFile(s);
    }
  }

  /**
   * The step's outcome as the plugin reports it: a nil error comes with the
   * recorded code after all of the output, or is the (-1, nil) of a cancelled
   * attempt that ended normally; everything else is an error.
   */
  lemma HonestResult(s: System, fate: nat -> bool)
    requires Reachable(s, fate) && s.plugin.phase.Settled?
    ensures var ph := s.plugin.phase;
            && ph.ret.Returned?
            && (ph.ret.err.None? <==> s.plugin.dec.exited || (ph.cancelled && ph.end.Exited?))
            && (if s.plugin.dec.exited then
                  && s.sup.Some? && s.sup.value.exit.Some?
                  && Flatten(s.plugin.dec.sent) == Flatten(Logged(s))
                  && ph.ret.code == ToInt32(ToUint32(s.sup.value.exit.value))
                else ph.ret.code == -1)
  {
    ReachableInv(s, fate);
    if s.plugin.dec.exited {
      ExitMeansAll(s, fate);
    }
  }

  /** A decoder that has read all of a log that ends in its exit record knows the exit code. */
  lemma WholeLogExits(s: Sup, d: Dec)
    requires Inv(s) && s.exit.Some? && s.log.file == Ended(Frames(s.plan), s.exit.value)
    requires Tracks(d, s.log.file)
    ensures d.exited
  {
    assert s.log.file[..|s.log.file|] == s.log.file;
    LogDecodes(s, |s.log.file|);
  }

  /**
   * The other half of honesty: when a follow that returned 0 has had all of
   * its output delivered and decoded, the exit record has arrived, so however
   * its exec ends, the step settles with the recorded code.
   */
  lemma CompleteFollowSettles(s: System, fate: nat -> bool, end: End, cancelled: bool, late: bool, interrupted: bool)
    requires Reachable(s, fate) && s.plugin.status == Fine && s.plugin.phase.Attached?
    requires s.plugin.phase.pid in s.helpers
    requires var h := s.helpers[s.plugin.phase.pid];
             h.Following? && h.f.pc == Exit(0) && s.plugin.phase.got == |h.f.written|
    ensures s.plugin.dec.exited && s.sup.Some? && s.sup.value.exit.Some?
    ensures After(s, Return(end, cancelled, late, interrupted), fate).plugin.phase
         == Settled(Returned(ToInt32(ToUint32(s.sup.value.exit.value)), None), end, cancelled)
  {
    AttachedInv(s, fate);
    FollowerVerdicts(s, fate, s.plugin.phase.pid);
    ExactlyOnce(s, fate);
    SupervisorInv(s, fate);
    assert s.plugin.dec.offset == |LogFile(s)|;
    assert LogFile(s)[..|LogFile(s)|] == LogFile(s);
    WholeLogExits(s.sup.value, s.plugin.dec);
    ExitMeansAll(s, fate);
  }

  lemma AttachedInv(s: System, fate: nat -> bool)
    requires Reachable(s, fate)
    ensures PhaseHolds(s)
  {
    ReachableInv(s, fate);
  }

  /** A helper between creating the log and starting the supervisor. */
  predicate MayStart(s: System, p: nat) {
    p in s.helpers && s.helpers[p] == Runner(Created)
  }

  /** However many runs of the step directory overlap, the step is started at most once. */
  lemma StartedAtMostOnce(s: System, fate: nat -> bool)
    requires Reachable(s, fate)
    ensures s.starts <= 1
    ensures s.starts == 1 <==> s.sup.Some?
    ensures forall p, q :: MayStart(s, p) && MayStart(s, q) ==> p == q
  {
    ReachableInv(s, fate);
  }

  /**
   * A follower that returned: 0 means it wrote all of a complete log from its
   * offset on, "incomplete" all of one that could not be opened, written or
   * closed, and "gone" that the supervisor died without finishing, provided
   * its record was in place.
   */
  lemma FollowerVerdicts(s: System, fate: nat -> bool, p: nat)
    requires Reachable(s, fate) && p in s.helpers && s.helpers[p].Following?
    ensures var f := s.helpers[p].f;
            && (f.pc == Exit(0) ==>
                  && s.sup.Some? && s.sup.value.exit.Some?
                  && LogFile(s) == Ended(Logged(s), s.sup.value.exit.value)
                  && f.off <= |LogFile(s)| && f.written == LogFile(s)[f.off..])
            && (f.pc == Exit(EXIT_INCOMPLETE) ==>
                  && s.sup.Some? && s.sup.value.done == Some(false)
                  && (s.sup.value.log.failed || NeverOpened(s.sup.value))
                  && f.off <= |LogFile(s)| && f.written == LogFile(s)[f.off..])
            && (f.pc == Exit(EXIT_GONE) && !f.blind ==>
                  s.sup.Some? && s.sup.value.life.Dead? && s.sup.value.done.None?)
            && f.written <= if f.off <= |LogFile(s)| then LogFile(s)[f.off..] else []
  {
    FollowerReturned(s, fate, p);
    if s.sup.Some? {
      SupervisorInv(s, fate);
      DoneMeans(s.sup.value);
    }
  }

  /** What a return code says of the disk and of what was written. */
  lemma FollowerReturned(s: System, fate: nat -> bool, p: nat)
    requires Reachable(s, fate) && p in s.helpers && s.helpers[p].Following?
    ensures var f, d, log := s.helpers[p].f, DiskOf(s), LogFile(s);
            && (f.pc == Exit(0) ==> d.done == Some(true) && f.off <= |log| && f.written == log[f.off..])
            && (f.pc == Exit(EXIT_INCOMPLETE) ==> d.done == Some(false) && f.off <= |log| && f.written == log[f.off..])
            && (f.pc == Exit(EXIT_GONE) && !f.blind ==> Dead(d) && d.done.None? && s.sup.Some?)
            && f.written <= if f.off <= |log| then log[f.off..] else []
  {
    FollowerTrue(s, fate, p);
    WroteFromOffset(s.helpers[p].f, DiskOf(s));
    assert LogOf(DiskOf(s)) == LogFile(s);
  }

  lemma FollowerTrue(s: System, fate: nat -> bool, p: nat)
    requires Reachable(s, fate) && p in s.helpers && s.helpers[p].Following?
    ensures FollowerInv(s.helpers[p].f, DiskOf(s)) && (s.sup.Some? ==> s.created) && (s.record ==> s.sup.Some?)
  {
    ReachableInv(s, fate);
  }

  /** What a done file says of the log. */
  lemma DoneMeans(s: Sup)
    requires Inv(s)
    ensures s.done == Some(true) ==> s.exit.Some? && s.log.file == Ended(Frames(s.plan), s.exit.value)
    ensures s.done == Some(false) ==> s.log.failed || NeverOpened(s)
  {
    LogDecodes(s, 0);
  }

  lemma WroteFromOffset(f: Follower, d: Disk)
    requires FollowerInv(f, d)
    ensures f.written <= if f.off <= |LogOf(d)| then LogOf(d)[f.off..] else []
    ensures f.off + |f.written| == |LogOf(d)| ==> f.written == LogOf(d)[f.off..]
  {
    if f.written != [] {
      assert At(LogOf(d), f.off, f.written);
    }
  }

  /** Not yet a follower, or one whose last liveness check, if any, found the supervisor file. */
  predicate Sighted(s: System, p: nat) {
    p in s.helpers && s.helpers[p].Following? ==> !s.helpers[p].f.blind
  }

  lemma SightedStep(s: System, a: Step, fate: nat -> bool, p: nat)
    requires StartInv(s) && CanStep(s, a) && s.record && Sighted(s, p)
    ensures After(s, a, fate).record && Sighted(After(s, a, fate), p)
  {
    var t := After(s, a, fate);
    if p in t.helpers && t.helpers[p].Following? {
      FollowerOrigin(s, a, fate, p);
    }
  }

  lemma {:induction false} StaysSighted(s: System, steps: seq<Step>, fate: nat -> bool, t: System, p: nat)
    requires StartInv(s) && s.record && Sighted(s, p) && Play(s, steps, fate) == Some(t)
    ensures t.record && Sighted(t, p)
    decreases |steps|
  {
    if steps != [] {
      StartStep(s, steps[0], fate);
      SightedStep(s, steps[0], fate, p);
      StaysSighted(After(s, steps[0], fate), steps[1..], fate, t, p);
    }
  }

  lemma {:induction false} PlayOn(s: System, steps: seq<Step>, m: System, more: seq<Step>, fate: nat -> bool)
    requires Play(s, steps, fate) == Some(m)
    ensures Play(s, steps + more, fate) == Play(m, more, fate)
    decreases |steps|
  {
    if steps == [] {
      assert steps + more == more;
    } else {
      assert (steps + more)[1..] == steps[1..] + more;
      PlayOn(After(s, steps[0], fate), steps[1..], m, more, fate);
    }
  }

  lemma ReachableOn(s: System, steps: seq<Step>, fate: nat -> bool, t: System)
    requires Reachable(s, fate) && Play(s, steps, fate) == Some(t)
    ensures Reachable(t, fate)
  {
    var before :| Play(IDLE, before, fate) == Some(s);
    PlayOn(IDLE, before, s, steps, fate);
  }

  /**
   * The supervisor file is what a follower's "gone" needs: a follower that had
   * not begun, or had not yet looked in vain, when the file was in place says
   * "gone" only of a supervisor that died without finishing.
   */
  lemma GoneMeansDead(s: System, steps: seq<Step>, fate: nat -> bool, t: System, p: nat)
    requires Reachable(s, fate) && s.record && Sighted(s, p) && Play(s, steps, fate) == Some(t)
    requires p in t.helpers && t.helpers[p].Following? && t.helpers[p].f.pc == Exit(EXIT_GONE)
    ensures t.sup.Some? && t.sup.value.life.Dead? && t.sup.value.done.None?
  {
    ReachableInv(s, fate);
    StaysSighted(s, steps, fate, t, p);
    ReachableOn(s, steps, fate, t);
    FollowerVerdicts(t, fate, p);
  }

  // ----- Bounded response in the running system -----

  /** The log can change no more: it is marked done, or the supervisor on record is dead. */
  predicate Decided(d: Disk) {
    d.log.Some? && (d.done.Some? || Dead(d))
  }

  /** A follower's findings are what bounded response starts from. */
  lemma FollowerConsistent(f: Follower, d: Disk)
    requires FollowerInv(f, d) && !f.blind && f.off <= |LogOf(d)| && !f.pc.Exit?
    ensures Consistent(f, d)
    ensures Eventually(f, d) == LogOf(d)[f.off..]
  {
    var log, w := LogOf(d), f.written + Buffered(f);
    assert |w| == f.pos - f.off;
    assert forall k :: 0 <= k < |w| ==> w[k] == log[f.off + k];
    assert w + log[f.pos..] == log[f.off..];
  }

  lemma RelyKeeps(f: Follower, d: Disk, e: Disk)
    requires Decided(d) && Rely(d, e) && Consistent(f, d)
    ensures Decided(e) && LogOf(e) == LogOf(d) && e.done == d.done && Consistent(f, e)
  {
  }

  /** The operations that helper p makes in a run. */
  function Operations(steps: seq<Step>, p: nat): nat {
    if steps == [] then 0 else (if steps[0].Poll? && steps[0].pid == p then 1 else 0) + Operations(steps[1..], p)
  }

  /** Nothing kills helper p, and its reads and writes succeed. */
  predicate Unharmed(steps: seq<Step>, p: nat) {
    forall i :: 0 <= i < |steps| ==>
      steps[i] != KillHelper(p) && (steps[i].Poll? && steps[i].pid == p ==> steps[i].fate.Full?)
  }

  lemma OthersLeaveFollower(s: System, a: Step, fate: nat -> bool, p: nat)
    requires CanStep(s, a) && p in s.helpers && s.helpers[p].Following?
    requires a != KillHelper(p) && !(a.Poll? && a.pid == p)
    ensures p in After(s, a, fate).helpers && After(s, a, fate).helpers[p] == s.helpers[p]
  {
  }

  /** From f to g in n operations, on a decided disk: nothing is lost or undone, and the bounds shrink. */
  ghost predicate Advances(f: Follower, g: Follower, d: Disk, n: nat) {
    && Consistent(f, d) && Consistent(g, d)
    && n + Rank(g, d) <= Rank(f, d)
    && g.idle + PollBound(g, d) <= f.idle + PollBound(f, d)
    && Eventually(g, d) == Eventually(f, d)
    && g.off == f.off
  }

  lemma AdvancesOn(f: Follower, g: Follower, h: Follower, d: Disk, m: nat, n: nat)
    requires Advances(f, g, d, m) && Advances(g, h, d, n)
    ensures Advances(f, h, d, m + n)
  {
  }

  /** Bounds and findings depend on the log and the done file only. */
  lemma SameBounds(f: Follower, g: Follower, d: Disk, e: Disk, n: nat)
    requires LogOf(e) == LogOf(d) && e.done == d.done && Advances(f, g, e, n)
    ensures Advances(f, g, d, n)
  {
  }

  lemma {:induction false} DecidedRun(s: System, steps: seq<Step>, fate: nat -> bool, t: System, p: nat)
    requires StartInv(s) && Play(s, steps, fate) == Some(t) && Unharmed(steps, p)
    requires p in s.helpers && s.helpers[p].Following?
    requires Decided(DiskOf(s)) && Consistent(s.helpers[p].f, DiskOf(s))
    ensures p in t.helpers && t.helpers[p].Following? && LogFile(t) == LogFile(s)
    ensures Advances(s.helpers[p].f, t.helpers[p].f, DiskOf(s), Operations(steps, p))
    decreases |steps|
  {
    if steps != [] {
      var a, f, d := steps[0], s.helpers[p].f, DiskOf(s);
      var m := After(s, a, fate);
      StartStep(s, a, fate);
      DiskRely(s, a, fate);
      OneStepOn(s, a, fate, p);
      var g := m.helpers[p].f;
      RelyKeeps(g, d, DiskOf(m));
      DecidedRun(m, steps[1..], fate, t, p);
      var h, n := t.helpers[p].f, Operations(steps[1..], p);
      SameBounds(g, h, d, DiskOf(m), n);
      AdvancesOn(f, g, h, d, if a.Poll? && a.pid == p then 1 else 0, n);
    }
  }

  lemma OneStepOn(s: System, a: Step, fate: nat -> bool, p: nat)
    requires CanStep(s, a) && p in s.helpers && s.helpers[p].Following?
    requires a != KillHelper(p) && (a.Poll? && a.pid == p ==> a.fate.Full?)
    requires Decided(DiskOf(s)) && Consistent(s.helpers[p].f, DiskOf(s))
    ensures var t := After(s, a, fate);
            && p in t.helpers && t.helpers[p].Following?
            && Advances(s.helpers[p].f, t.helpers[p].f, DiskOf(s), if a.Poll? && a.pid == p then 1 else 0)
  {
    var f, d := s.helpers[p].f, DiskOf(s);
    if a.Poll? && a.pid == p {
      FollowerAdvances(f, d);
    } else {
      OthersLeaveFollower(s, a, fate, p);
    }
  }

  lemma FollowerAdvances(f: Follower, d: Disk)
    requires Decided(d) && Consistent(f, d) && !f.pc.Exit?
    ensures Advances(f, Follow.Step(f, Obs(d, Full)), d, 1)
  {
    if f.pc.Read? || f.pc.Write? {
      CopyProgresses(f, d);
    } else {
      CheckProgresses(f, d);
    }
  }

  lemma FollowerEnds(f: Follower, g: Follower, d: Disk, n: nat)
    requires Advances(f, g, d, n) && f.off <= |LogOf(d)| && Eventually(f, d) == LogOf(d)[f.off..]
    ensures n <= Rank(f, d) && g.idle < f.idle + LIVENESS_EVERY
    ensures n == Rank(f, d) || g.pc.Exit? ==> g.pc == Exit(CodeFor(d.done)) && g.written == LogOf(d)[f.off..]
  {
    assert g.pc.Exit? ==> LogOf(d)[g.pos..] == [];
  }

  /**
   * Bounded response in the running system: once the log is decided, a
   * follower that has not looked for the supervisor file in vain makes at most
   * Rank more operations, among at most a liveness period of polls; after as
   * many it has returned, with the rest of the log written and the code that
   * the done file decides, whatever all others do meanwhile.
   */
  lemma FollowerReturns(s: System, steps: seq<Step>, fate: nat -> bool, t: System, p: nat)
    requires Reachable(s, fate) && Play(s, steps, fate) == Some(t) && Unharmed(steps, p)
    requires p in s.helpers && s.helpers[p].Following? && Decided(DiskOf(s))
    requires var f := s.helpers[p].f; !f.blind && !f.pc.Exit? && f.off <= |LogFile(s)|
    ensures p in t.helpers && t.helpers[p].Following? && LogFile(t) == LogFile(s)
    ensures var f, g, d := s.helpers[p].f, t.helpers[p].f, DiskOf(s);
            && Operations(steps, p) <= Rank(f, d)
            && g.idle < f.idle + LIVENESS_EVERY
            && (Operations(steps, p) == Rank(f, d) || g.pc.Exit? ==>
                  g.pc == Exit(CodeFor(d.done)) && g.written == LogFile(s)[f.off..])
  {
    ReachableInv(s, fate);
    var f, d := s.helpers[p].f, DiskOf(s);
    FollowerConsistent(f, d);
    DecidedRun(s, steps, fate, t, p);
    FollowerEnds(f, t.helpers[p].f, d, Operations(steps, p));
  }

  lemma ReachableStep(s: System, a: Step, fate: nat -> bool)
    requires Reachable(s, fate) && CanStep(s, a)
    ensures Reachable(After(s, a, fate), fate)
  {
    assert [a][1..] == [];
    assert Play(After(s, a, fate), [], fate) == Some(After(s, a, fate));
    ReachableOn(s, [a], fate, After(s, a, fate));
  }

  lemma OnePoll(s: System, fate: nat -> bool, p: nat) returns (t: System)
    requires Reachable(s, fate) && p in s.helpers && s.helpers[p].Following? && !s.helpers[p].f.pc.Exit?
    ensures Reachable(t, fate) && DiskOf(t) == DiskOf(s)
    ensures t == s.(helpers := s.helpers[p := Following(Follow.Step(s.helpers[p].f, Obs(DiskOf(s), Full)))])
  {
    ReachableStep(s, Step.Poll(p, Full), fate);
    t := After(s, Step.Poll(p, Full), fate);
  }

  /** Left to poll, a follower of a final log returns, and nothing else changes. */
  lemma {:induction false} PollsToEnd(s: System, fate: nat -> bool, p: nat) returns (t: System)
    requires Reachable(s, fate) && p in s.helpers && s.helpers[p].Following?
    requires Final(DiskOf(s)) && Consistent(s.helpers[p].f, DiskOf(s))
    ensures Reachable(t, fate) && p in t.helpers && t == s.(helpers := s.helpers[p := t.helpers[p]])
    ensures t.helpers[p].Following? && t.helpers[p].f.off == s.helpers[p].f.off
    ensures t.helpers[p].f.pc == Exit(CodeFor(DiskOf(s).done))
    decreases Rank(s.helpers[p].f, DiskOf(s))
  {
    var f, d := s.helpers[p].f, DiskOf(s);
    if f.pc.Exit? {
      t := s;
      assert s.helpers == s.helpers[p := s.helpers[p]];
    } else {
      if f.pc.Read? || f.pc.Write? {
        CopyProgresses(f, d);
      } else {
        CheckProgresses(f, d);
      }
      var m := OnePoll(s, fate, p);
      t := PollsToEnd(m, fate, p);
      assert s.helpers[p := t.helpers[p]] == m.helpers[p := t.helpers[p]];
    }
  }

  /** One that finds neither done file nor supervisor file gives up. */
  lemma PollsToGone(s: System, fate: nat -> bool, p: nat) returns (t: System)
    requires Reachable(s, fate) && p in s.helpers && s.helpers[p].Following?
    requires DiskOf(s).log.Some? && DiskOf(s).done.None? && !s.record
    requires Consistent(s.helpers[p].f, DiskOf(s))
    ensures Reachable(t, fate) && t.sup == s.sup && t.record == s.record
    ensures p in t.helpers && t.helpers[p].Following? && t.helpers[p].f.pc == Exit(EXIT_GONE)
  {
    t := PollsToEnd(s, fate, p);
  }

  // ----- An ordinary step -----

  /** An exec at offset 0 starts a helper that may start the step, and none at a later offset does. */
  lemma LaunchRunsOnlyAtStart(s: System, pid: nat, fate: nat -> bool)
    requires CanStep(s, Launch(pid))
    ensures CanStep(After(s, Launch(pid), fate), Create(pid)) <==> s.plugin.dec.offset == 0
    ensures s.plugin.dec.offset > 0 ==>
              After(s, Launch(pid), fate).helpers[pid] == Following(Begin(s.plugin.dec.offset))
  {
  }

  lemma Spawned1(fate: nat -> bool) returns (s: System)
    ensures Reachable(s, fate) && s.sup == Some(SPAWNED) && s.created && !s.record && s.starts == 1
    ensures s.helpers == map[1 := Runner(Spawned)] && s.plugin == Plugin(FRESH, Fine, Attached(1, 0, 0))
  {
    assert Play(IDLE, [], fate) == Some(IDLE);
    ReachableStep(IDLE, Launch(1), fate);
    var launched := After(IDLE, Launch(1), fate);
    ReachableStep(launched, Create(1), fate);
    var created := After(launched, Create(1), fate);
    ReachableStep(created, Spawn(1, true), fate);
    s := After(created, Spawn(1, true), fate);
  }

  /** A creator of the log that nothing stops starts the supervisor, and then follows. */
  lemma Started(fate: nat -> bool) returns (s: System)
    ensures Reachable(s, fate) && s.sup == Some(SPAWNED) && s.created && s.record && s.starts == 1
    ensures s.helpers == map[1 := Following(Begin(0))] && s.plugin == Plugin(FRESH, Fine, Attached(1, 0, 0))
  {
    var spawned := Spawned1(fate);
    ReachableStep(spawned, Record(1, true), fate);
    s := After(spawned, Record(1, true), fate);
  }

  lemma {:induction false} SuperviseAll(s: System, acts: seq<Act>, x: Sup, fate: nat -> bool)
    requires Reachable(s, fate) && s.sup.Some? && Acts(s.sup.value, acts) == Some(x)
    ensures Reachable(s.(sup := Some(x)), fate)
    decreases |acts|
  {
    if acts == [] {
      assert s.(sup := Some(x)) == s;
    } else {
      ReachableStep(s, Supervise(acts[0]), fate);
      SuperviseAll(After(s, Supervise(acts[0]), fate), acts[1..], x, fate);
    }
  }

  /** With sinks that do not fail, what arrives leaves the decoder fine. */
  lemma ArrivesFine(s: System, n: nat, fate: nat -> bool)
    requires Reachable(s, fate) && CanStep(s, Deliver(n)) && Infallible(fate)
    ensures Reachable(After(s, Deliver(n), fate), fate)
    ensures After(s, Deliver(n), fate).plugin.status == Fine
  {
    ReachableStep(s, Deliver(n), fate);
    ExactlyOnce(After(s, Deliver(n), fate), fate);
    NeverFails(More(s.plugin.dec, Arriving(s, n)), fate);
  }

  /** The output of a step that ran and was marked complete, followed to its end. */
  lemma Followed(recs: seq<Rec>, code: int, fate: nat -> bool) returns (s: System)
    requires Pieces(recs)
    ensures Reachable(s, fate) && s.starts == 1 && s.sup.Some? && s.sup.value.plan == recs
    ensures s.sup.value.exit == Some(code) && 1 in s.helpers && s.helpers[1].Following?
    ensures s.helpers[1].f.pc == Exit(0) && s.plugin == Plugin(FRESH, Fine, Attached(1, 0, 0))
  {
    var begun := Started(fate);
    var acts, x := OrdinaryStep(recs, code);
    SuperviseAll(begun, acts, x, fate);
    s := PollsToEnd(begun.(sup := Some(x)), fate, 1);
  }

  /**
   * An ordinary run of the whole protocol exists for every step: whatever it
   * writes and however it ends, there is a run in which the runner gets all of
   * its output and its exit code.
   */
  lemma OrdinaryRun(recs: seq<Rec>, code: int, fate: nat -> bool) returns (s: System)
    requires Pieces(recs) && Infallible(fate)
    ensures Reachable(s, fate) && s.starts == 1
    ensures s.plugin.phase == Settled(Returned(ToInt32(ToUint32(code)), None), Exited(0), false)
    ensures Flatten(s.plugin.dec.sent) == Flatten(Frames(recs))
  {
    var before := Followed(recs, code, fate);
    var n := |before.helpers[1].f.written|;
    ArrivesFine(before, n, fate);
    var read := After(before, Deliver(n), fate);
    CompleteFollowSettles(read, fate, Exited(0), false, false, false);
    ExitMeansAll(read, fate);
    ReachableStep(read, Return(Exited(0), false, false, false), fate);
    s := After(read, Return(Exited(0), false, false, false), fate);
  }

  /** After an attempt without an exit record the plugin tries again exactly when only a broken stream is to blame. */
  lemma RetriesExactly(s: System, end: End, cancelled: bool, late: bool, interrupted: bool, fate: nat -> bool)
    requires CanStep(s, Return(end, cancelled, late, interrupted))
    ensures After(s, Return(end, cancelled, late, interrupted), fate).plugin.phase.Ready? <==>
              && !s.plugin.dec.exited && s.plugin.status == Fine && end.Broken?
              && !cancelled && !late && !interrupted
  {
  }

  // ----- "Gone" of a step that runs -----

  /** The step was started, its supervisor is not on record yet, and a second follower has begun. */
  lemma UnrecordedStart(fate: nat -> bool) returns (s: System)
    ensures Reachable(s, fate) && s.sup == Some(SPAWNED) && s.created && !s.record
    ensures 2 in s.helpers && s.helpers[2] == Following(Begin(0))
  {
    var spawned := Spawned1(fate);
    ReachableStep(spawned, StrayFollow(2, 0), fate);
    s := After(spawned, StrayFollow(2, 0), fate);
  }

  /** So "gone" is reported of a step whose supervisor lives: a run of the system that gets there. */
  lemma GoneWhileRunning(fate: nat -> bool)
    ensures exists s :: Reachable(s, fate) && GoneButAlive(s)
  {
    var s := UnrecordedStart(fate);
    var t := PollsToGone(s, fate, 2);
    assert Saw(t, 2);
    assert GoneButAlive(t);
  }

  predicate Saw(s: System, p: nat) {
    p in s.helpers && s.helpers[p].Following? && s.helpers[p].f.pc == Exit(EXIT_GONE)
  }

  ghost predicate GoneButAlive(s: System) {
    s.sup.Some? && !s.sup.value.life.Dead? && !s.record && exists p :: Saw(s, p)
  }

  lemma FrozenStep(s: System, a: Step, fate: nat -> bool)
    requires StartInv(s) && CanStep(s, a) && s.sup.Some? && Frozen(s.sup.value)
    ensures var t := After(s, a, fate); t.sup.Some? && LogFile(t) == LogFile(s) && Frozen(t.sup.value)
  {
    if a.Supervise? {
      StepGrows(s.sup.value, a.act);
    }
  }

  /** What was decided stays decided: a finished log never changes again. */
  lemma {:induction false} FinalLogStays(s: System, steps: seq<Step>, fate: nat -> bool, t: System)
    requires SysInv(s) && s.sup.Some? && Frozen(s.sup.value) && Play(s, steps, fate) == Some(t)
    ensures t.sup.Some? && LogFile(t) == LogFile(s) && Frozen(t.sup.value)
    decreases |steps|
  {
    if steps != [] {
      var a := steps[0];
      StepKeepsSysInv(s, a, fate);
      FrozenStep(s, a, fate);
      FinalLogStays(After(s, a, fate), steps[1..], fate, t);
    }
  }
}
