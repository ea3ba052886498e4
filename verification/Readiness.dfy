/**
 * Waiting for a job's pod: the assessment of one observation of the pod, with
 * the image-pull timers it keeps between observations, and the polling loop.
 */
module Readiness {
  import opened Bytes

  const MAIN := "main"

  datatype State = WaitingFor(reason: string) | Terminated | Up

  datatype Status = Status(name: string, state: State, ready: bool, restarts: int)

  datatype Phase = Pending | PodRunning | Succeeded | PodFailed | Unknown

  /** `inits` are the init containers with whether they restart always: those are the native sidecars. */
  datatype Pod = Pod(name: string, created: int, phase: Phase, inits: seq<(string, bool)>, containers: seq<string>,
                     initStatuses: seq<Status>, statuses: seq<Status>)

  datatype Config = Config(pullFailAfter: int, restartLimit: int)

  datatype Failure =
    | EndedEarly(phase: Phase)
    | PullFailed(name: string, reason: string)
    | FailedToStart(name: string, reason: string)
    | ExitedDuringStartup(name: string)

  function Sidecars(inits: seq<(string, bool)>): set<string> {
    set i | 0 <= i < |inits| && inits[i].1 :: inits[i].0
  }

  /** The reasons for waiting that the assessment tells apart. */
  datatype Reason = PullRetry | PullHopeless | CrashLoop | CreateError | Unlisted

  function Classify(reason: string): Reason {
    match reason
    case "ErrImagePull" => PullRetry
    case "ImagePullBackOff" => PullRetry
    case "InvalidImageName" => PullHopeless
    case "ErrImageNeverPull" => PullHopeless
    case "CrashLoopBackOff" => CrashLoop
    case "CreateContainerConfigError" => CreateError
    case "CreateContainerError" => CreateError
    case "RunContainerError" => CreateError
    case _ => Unlisted
  }

  /** One container status as it was seen: when, and whether it is a native sidecar's. */
  datatype Sighting = Sighting(time: int, status: Status, sidecar: bool)

  // ----- One status -----

  type Timers = map<string, int>

  datatype Watched = Watched(timers: Timers, failure: Option<Failure>)

  predicate RestartsLeft(cfg: Config, g: Sighting) {
    g.sidecar && g.status.restarts < cfg.restartLimit
  }

  /** What one status does to the timers, and whether it is fatal. */
  function Look(cfg: Config, t: Timers, g: Sighting): Watched {
    var cs := g.status;
    match cs.state
    case WaitingFor(reason) =>
      (match Classify(reason)
       case PullRetry => PullTimed(cfg, t, g, reason)
       case PullHopeless => PullTimed(cfg, t, g, reason)
       case CrashLoop => Watched(t, if RestartsLeft(cfg, g) then None else Some(FailedToStart(cs.name, reason)))
       case CreateError => Watched(t, Some(FailedToStart(cs.name, reason)))
       case Unlisted => Watched(t - {cs.name}, None))
    case Terminated =>
      Watched(t - {cs.name},
              if (cs.name == MAIN || g.sidecar) && !RestartsLeft(cfg, g) then Some(ExitedDuringStartup(cs.name))
              else None)
    case Up => Watched(t - {cs.name}, None)
  }

  /** A pull error starts its container's timer, or finds it running. */
  function PullTimed(cfg: Config, t: Timers, g: Sighting, reason: string): Watched {
    var first := if g.status.name in t then t[g.status.name] else g.time;
    Watched(t[g.status.name := first],
            if Classify(reason).PullHopeless? || g.time - first >= cfg.pullFailAfter
            then Some(PullFailed(g.status.name, reason)) else None)
  }

  /** A run of statuses, up to the first fatal one. */
  function Watch(cfg: Config, t: Timers, h: seq<Sighting>): Watched
    decreases |h|
  {
    if h == [] then Watched(t, None)
    else
      var w := Look(cfg, t, h[0]);
      if w.failure.Some? then w else Watch(cfg, w.timers, h[1..])
  }

  lemma {:induction false} WatchConcat(cfg: Config, t: Timers, a: seq<Sighting>, b: seq<Sighting>)
    ensures var w := Watch(cfg, t, a);
            Watch(cfg, t, a + b) == if w.failure.Some? then w else Watch(cfg, w.timers, b)
    decreases |a|
  {
    if a == [] {
      assert a + b == b;
    } else {
      assert (a + b)[1..] == a[1..] + b;
      WatchConcat(cfg, Look(cfg, t, a[0]).timers, a[1..], b);
    }
  }

  // ----- What is fatal, in terms of the history alone -----

  predicate PullError(g: Sighting) {
    && g.status.state.WaitingFor?
    && (Classify(g.status.state.reason).PullRetry? || Classify(g.status.state.reason).PullHopeless?)
  }

  /** Not waiting, or waiting for a reason the assessment does not list. */
  predicate Clears(g: Sighting) {
    g.status.state.WaitingFor? ==> Classify(g.status.state.reason).Unlisted?
  }

  /** A pull error of `name` at i that nothing has cleared before n. */
  ghost predicate Persists(h: seq<Sighting>, name: string, i: int, n: int) {
    && 0 <= i < n <= |h|
    && PullError(h[i]) && h[i].status.name == name
    && forall k :: i < k < n && h[k].status.name == name ==> !Clears(h[k])
  }

  /**
   * The j-th status ends the wait: main's crash, or a sidecar's at its restart
   * limit, a container that cannot be created, or a pull error that is
   * hopeless or has persisted for the configured time.
   */
  ghost predicate Fatal(cfg: Config, h: seq<Sighting>, j: nat)
    requires j < |h|
  {
    var g := h[j];
    match g.status.state
    case WaitingFor(reason) =>
      (match Classify(reason)
       case PullRetry => exists i :: Persists(h, g.status.name, i, j + 1) && g.time - h[i].time >= cfg.pullFailAfter
       case PullHopeless => true
       case CrashLoop => !RestartsLeft(cfg, g)
       case CreateError => true
       case Unlisted => false)
    case Terminated => (g.status.name == MAIN || g.sidecar) && !RestartsLeft(cfg, g)
    case Up => false
  }

  ghost predicate Uneventful(cfg: Config, h: seq<Sighting>) {
    forall j :: 0 <= j < |h| ==> !Fatal(cfg, h, j)
  }

  predicate Chronological(h: seq<Sighting>) {
    forall i, j :: 0 <= i <= j < |h| ==> h[i].time <= h[j].time
  }

  /** The timers hold, per name, the time of the first pull error that has persisted. */
  ghost predicate TimersMean(h: seq<Sighting>, t: Timers) {
    && (forall name :: name in t ==> exists i :: Persists(h, name, i, |h|) && h[i].time == t[name])
    && (forall name, i :: Persists(h, name, i, |h|) ==> name in t && t[name] <= h[i].time)
  }

  // ----- The reasons themselves -----

  /** The reasons of a failing image pull, those a retry may cure first. */
  predicate MayRetry(reason: string) {
    reason == "ErrImagePull" || reason == "ImagePullBackOff"
  }

  predicate IsHopeless(reason: string) {
    reason == "InvalidImageName" || reason == "ErrImageNeverPull"
  }

  predicate CannotCreate(reason: string) {
    reason == "CreateContainerConfigError" || reason == "CreateContainerError" || reason == "RunContainerError"
  }

  /** The table of reasons, by its words. */
  lemma ReasonsExactly(reason: string)
    ensures Classify(reason).PullRetry? <==> MayRetry(reason)
    ensures Classify(reason).PullHopeless? <==> IsHopeless(reason)
    ensures Classify(reason).CrashLoop? <==> reason == "CrashLoopBackOff"
    ensures Classify(reason).CreateError? <==> CannotCreate(reason)
    ensures Classify(reason).Unlisted? <==>
              !MayRetry(reason) && !IsHopeless(reason) && reason != "CrashLoopBackOff" && !CannotCreate(reason)
  {
  }

  /** What starts or keeps a pull timer, and what clears it. */
  lemma TimersExactly(g: Sighting)
    ensures PullError(g) <==>
              g.status.state.WaitingFor? && (MayRetry(g.status.state.reason) || IsHopeless(g.status.state.reason))
    ensures Clears(g) <==>
              g.status.state.WaitingFor? ==>
                var reason := g.status.state.reason;
                !MayRetry(reason) && !IsHopeless(reason) && reason != "CrashLoopBackOff" && !CannotCreate(reason)
  {
    if g.status.state.WaitingFor? {
      ReasonsExactly(g.status.state.reason);
    }
  }

  /** What is fatal: by the reason waited for, and by an exit. */
  lemma FatalExactly(cfg: Config, h: seq<Sighting>, j: nat)
    requires j < |h|
    ensures var g := h[j];
            var mayRestart := g.sidecar && g.status.restarts < cfg.restartLimit;
            Fatal(cfg, h, j) <==>
              match g.status.state
              case WaitingFor(reason) =>
                || IsHopeless(reason) || CannotCreate(reason)
                || (reason == "CrashLoopBackOff" && !mayRestart)
                || (MayRetry(reason) && exists i ::
                      Persists(h, g.status.name, i, j + 1) && g.time - h[i].time >= cfg.pullFailAfter)
              case Terminated => (g.status.name == "main" || g.sidecar) && !mayRestart
              case Up => false
  {
    if h[j].status.state.WaitingFor? {
      ReasonsExactly(h[j].status.state.reason);
    }
  }

  lemma PersistsLonger(h: seq<Sighting>, g: Sighting, name: string, i: int)
    ensures 0 <= i < |h| ==>
              (Persists(h + [g], name, i, |h| + 1) <==>
               Persists(h, name, i, |h|) && (g.status.name == name ==> !Clears(g)))
    ensures i == |h| ==> (Persists(h + [g], name, i, |h| + 1) <==> PullError(g) && g.status.name == name)
  {
    var hg := h + [g];
    assert hg[|h|] == g && forall k :: 0 <= k < |h| ==> hg[k] == h[k];
    if 0 <= i < |h| && Persists(h, name, i, |h|) && (g.status.name == name ==> !Clears(g)) {
      assert forall k :: i < k < |hg| && hg[k].status.name == name ==> !Clears(hg[k]);
    }
  }

  lemma TimersStep(cfg: Config, h: seq<Sighting>, t: Timers, g: Sighting)
    requires TimersMean(h, t) && Chronological(h + [g])
    ensures TimersMean(h + [g], Look(cfg, t, g).timers)
  {
    var hg, t' := h + [g], Look(cfg, t, g).timers;
    forall name | name in t' ensures exists i :: Persists(hg, name, i, |hg|) && hg[i].time == t'[name] {
      if name in t && (name != g.status.name || !Clears(g)) {
        var i :| Persists(h, name, i, |h|) && h[i].time == t[name];
        PersistsLonger(h, g, name, i);
        assert hg[i] == h[i];
      } else {
        PersistsLonger(h, g, name, |h|);
        assert hg[|h|] == g;
      }
    }
    forall name, i | Persists(hg, name, i, |hg|) ensures name in t' && t'[name] <= hg[i].time {
      PersistsLonger(h, g, name, i);
      if i < |h| {
        assert hg[i] == h[i] && Persists(h, name, i, |h|);
      } else if name in t {
        var k :| Persists(h, name, k, |h|) && h[k].time == t[name];
        assert hg[k] == h[k] && hg[k].time <= hg[i].time;
      }
    }
  }

  /** A status is fatal by the timers exactly when it is by the history. */
  lemma FatalByTimers(cfg: Config, h: seq<Sighting>, t: Timers, g: Sighting)
    requires TimersMean(h, t) && Chronological(h + [g])
    ensures Look(cfg, t, g).failure.Some? <==> Fatal(cfg, h + [g], |h|)
  {
    var hg, t' := h + [g], Look(cfg, t, g).timers;
    TimersStep(cfg, h, t, g);
    assert hg[|h|] == g;
    if PullError(g) {
      var name := g.status.name;
      var i :| Persists(hg, name, i, |hg|) && hg[i].time == t'[name];
      if k :| Persists(hg, name, k, |hg|) && g.time - hg[k].time >= cfg.pullFailAfter {
        assert t'[name] <= hg[k].time;
      }
    }
  }

  lemma FatalStays(cfg: Config, h: seq<Sighting>, more: seq<Sighting>, j: nat)
    requires j < |h|
    ensures Fatal(cfg, h + more, j) <==> Fatal(cfg, h, j)
  {
    var hm := h + more;
    assert forall k :: 0 <= k < |h| ==> hm[k] == h[k];
    var name := h[j].status.name;
    if i :| Persists(hm, name, i, j + 1) && hm[j].time - hm[i].time >= cfg.pullFailAfter {
      assert Persists(h, name, i, j + 1);
    }
    if i :| Persists(h, name, i, j + 1) && h[j].time - h[i].time >= cfg.pullFailAfter {
      assert Persists(hm, name, i, j + 1);
    }
  }

  /** The whole history: no failure exactly when nothing in it was fatal, and then the timers mean what they should. */
  lemma {:induction false} WatchMeaning(cfg: Config, h: seq<Sighting>)
    requires Chronological(h)
    ensures var w := Watch(cfg, map[], h);
            && (w.failure.None? <==> Uneventful(cfg, h))
            && (w.failure.None? ==> TimersMean(h, w.timers))
    decreases |h|
  {
    if h != [] {
      var n := |h| - 1;
      var init, g := h[..n], h[n];
      assert h == init + [g];
      WatchMeaning(cfg, init);
      WatchConcat(cfg, map[], init, [g]);
      var w := Watch(cfg, map[], init);
      assert Watch(cfg, w.timers, [g]).failure == Look(cfg, w.timers, g).failure by {
        assert [g][1..] == [];
      }
      assert Watch(cfg, w.timers, [g]).timers == Look(cfg, w.timers, g).timers by {
        assert [g][1..] == [];
      }
      forall j | 0 <= j < n ensures Fatal(cfg, h, j) <==> Fatal(cfg, init, j) {
        FatalStays(cfg, init, [g], j);
      }
      if w.failure.None? {
        FatalByTimers(cfg, init, w.timers, g);
        TimersStep(cfg, init, w.timers, g);
      }
    }
  }

  /** The failure reported is that of the first fatal status. */
  lemma {:induction false} FirstFatal(cfg: Config, h: seq<Sighting>) returns (j: nat)
    requires Chronological(h) && Watch(cfg, map[], h).failure.Some?
    ensures j < |h| && Fatal(cfg, h, j) && Uneventful(cfg, h[..j])
    ensures Describes(Watch(cfg, map[], h).failure.value, h[j].status)
    decreases |h|
  {
    var n := |h| - 1;
    var init, g := h[..n], h[n];
    assert h == init + [g];
    WatchConcat(cfg, map[], init, [g]);
    var w := Watch(cfg, map[], init);
    if w.failure.Some? {
      j := FirstFatal(cfg, init);
      FatalStays(cfg, init, [g], j);
      assert init[..j] == h[..j];
    } else {
      j := n;
      LastIsFatal(cfg, init, g);
    }
  }

  lemma LastIsFatal(cfg: Config, init: seq<Sighting>, g: Sighting)
    requires Chronological(init + [g]) && Chronological(init) && Watch(cfg, map[], init).failure.None?
    requires Watch(cfg, Watch(cfg, map[], init).timers, [g]).failure.Some?
    ensures Fatal(cfg, init + [g], |init|) && Uneventful(cfg, init)
    ensures Describes(Watch(cfg, Watch(cfg, map[], init).timers, [g]).failure.value, g.status)
  {
    var t := Watch(cfg, map[], init).timers;
    assert [g][1..] == [];
    assert Watch(cfg, t, [g]).failure == Look(cfg, t, g).failure;
    WatchMeaning(cfg, init);
    FatalByTimers(cfg, init, t, g);
  }

  predicate Describes(f: Failure, cs: Status) {
    match f
    case EndedEarly(_) => false
    case PullFailed(name, reason) => name == cs.name && cs.state == WaitingFor(reason)
    case FailedToStart(name, reason) => name == cs.name && cs.state == WaitingFor(reason)
    case ExitedDuringStartup(name) => name == cs.name && cs.state == Terminated
  }

  // ----- Ready -----

  /** Whether the last status of a name says ready. */
  predicate LastReady(ss: seq<Status>, name: string) {
    ss != [] && (if ss[|ss| - 1].name == name then ss[|ss| - 1].ready else LastReady(ss[..|ss| - 1], name))
  }

  function Statuses(pod: Pod): seq<Status> {
    pod.initStatuses + pod.statuses
  }

  ghost predicate IsReady(pod: Pod) {
    && pod.phase.PodRunning?
    && (forall c :: c in pod.containers ==> LastReady(Statuses(pod), c))
    && (forall c :: c in Sidecars(pod.inits) ==> LastReady(Statuses(pod), c))
  }

  predicate Ended(pod: Pod) {
    pod.phase.PodFailed? || pod.phase.Succeeded?
  }

  method AllReady(pod: Pod, sidecars: set<string>) returns (r: bool)
    requires sidecars == Sidecars(pod.inits)
    ensures pod.phase.PodRunning? ==> r == IsReady(pod)
  {
    var all := Statuses(pod);
    var ready: map<string, bool> := map[];
    for i := 0 to |all|
      invariant forall c :: LastReady(all[..i], c) <==> c in ready && ready[c]
    {
      assert all[..i + 1][..i] == all[..i];
      ready := ready[all[i].name := all[i].ready];
    }
    assert all[..|all|] == all;
    for i := 0 to |pod.containers|
      invariant forall j :: 0 <= j < i ==> LastReady(all, pod.containers[j])
    {
      var c := pod.containers[i];
      if c !in ready || !ready[c] {
        return false;
      }
    }
    var todo := sidecars;
    while todo != {}
      invariant todo <= sidecars && forall c :: c in sidecars - todo ==> LastReady(all, c)
      decreases |todo|
    {
      var c :| c in todo;
      if c !in ready || !ready[c] {
        return false;
      }
      todo := todo - {c};
    }
    return true;
  }

  // ----- Assessing a pod -----

  function Seen(pod: Pod, now: int): (h: seq<Sighting>)
    ensures |h| == |Statuses(pod)|
    ensures forall i :: 0 <= i < |h| ==>
              && h[i].time == now && h[i].status == Statuses(pod)[i]
              && (h[i].sidecar <==> exists k :: 0 <= k < |pod.inits| && pod.inits[k] == (h[i].status.name, true))
  {
    var ss, side := Statuses(pod), Sidecars(pod.inits);
    seq(|ss|, i requires 0 <= i < |ss| => Sighting(now, ss[i], ss[i].name in side))
  }

  datatype Verdict = PodReady | NotYet | Fails(failure: Failure)

  /** The waiter's memory between polls, and the assessment that updates it. */
  class Assessor {
    const cfg: Config
    var pullErrSince: Timers

    constructor (cfg: Config)
      ensures this.cfg == cfg && pullErrSince == map[]
    {
      this.cfg := cfg;
      pullErrSince := map[];
    }

    /** Notes one status: true to go on, or the failure it means. */
    method Note(g: Sighting) returns (f: Option<Failure>)
      modifies this
      ensures Watched(pullErrSince, f) == Look(cfg, old(pullErrSince), g)
    {
      var cs := g.status;
      if cs.state.WaitingFor? {
        var reason := cs.state.reason;
        var kind := Classify(reason);
        if kind.PullRetry? || kind.PullHopeless? {
          var first := g.time;
          if cs.name in pullErrSince {
            first := pullErrSince[cs.name];
          } else {
            pullErrSince := pullErrSince[cs.name := first];
          }
          if kind.PullHopeless? || g.time - first >= cfg.pullFailAfter {
            f := Some(PullFailed(cs.name, reason));
          } else {
            f := None;
          }
          assert pullErrSince == old(pullErrSince)[cs.name := first];
        } else if kind.CrashLoop? {
          if g.sidecar && cs.restarts < cfg.restartLimit {
            return None;
          }
          return Some(FailedToStart(cs.name, reason));
        } else if kind.CreateError? {
          return Some(FailedToStart(cs.name, reason));
        } else {
          pullErrSince := pullErrSince - {cs.name};
          return None;
        }
      } else {
        pullErrSince := pullErrSince - {cs.name};
        if cs.state.Terminated? && (cs.name == MAIN || g.sidecar) {
          if g.sidecar && cs.restarts < cfg.restartLimit {
            return None;
          }
          return Some(ExitedDuringStartup(cs.name));
        }
        return None;
      }
    }

    method Assess(pod: Pod, now: int) returns (v: Verdict)
      modifies this
      ensures var w := Watch(cfg, old(pullErrSince), Seen(pod, now));
              if Ended(pod) then
                v == Fails(EndedEarly(pod.phase)) && pullErrSince == old(pullErrSince)
              else
                && pullErrSince == w.timers
                && v == if w.failure.Some? then Fails(w.failure.value) else if IsReady(pod) then PodReady else NotYet
    {
      if pod.phase.PodFailed? || pod.phase.Succeeded? {
        return Fails(EndedEarly(pod.phase));
      }
      var sidecars := {};
      for i := 0 to |pod.inits|
        invariant sidecars == Sidecars(pod.inits[..i]) && pullErrSince == old(pullErrSince)
      {
        SidecarsOneMore(pod.inits, i);
        if pod.inits[i].1 {
          sidecars := sidecars + {pod.inits[i].0};
        }
      }
      assert pod.inits[..|pod.inits|] == pod.inits;
      var all := pod.initStatuses + pod.statuses;
      ghost var h := Seen(pod, now);
      assert h[0..] == h;
      for i := 0 to |all|
        invariant Watch(cfg, old(pullErrSince), h) == Watch(cfg, pullErrSince, h[i..])
      {
        assert h[i..][1..] == h[i + 1..];
        var f := Note(Sighting(now, all[i], all[i].name in sidecars));
        if f.Some? {
          return Fails(f.value);
        }
      }
      if pod.phase.PodRunning? {
        var ready := AllReady(pod, sidecars);
        if ready {
          return PodReady;
        }
      }
      return NotYet;
    }
  }

  lemma SidecarsOneMore(inits: seq<(string, bool)>, i: nat)
    requires i < |inits|
    ensures Sidecars(inits[..i + 1]) == Sidecars(inits[..i]) + if inits[i].1 then {inits[i].0} else {}
  {
    var a, b := inits[..i + 1], inits[..i];
    assert a[i] == inits[i] && forall j :: 0 <= j < i ==> a[j] == b[j];
    forall x ensures x in Sidecars(a) <==> x in Sidecars(b) || (inits[i].1 && x == inits[i].0) {
      if x in Sidecars(b) {
        var j :| 0 <= j < |b| && b[j].1 && b[j].0 == x;
        assert a[j].1 && a[j].0 == x;
      }
    }
  }

  // ----- Waiting -----

  /** One round of polling: the pods listed, if listing worked, when, and whether time is up after it. */
  datatype PollResult = PollResult(pods: Option<seq<Pod>>, now: int, expired: bool)

  datatype Outcome = Ready(name: string) | Failed(failure: Failure) | NotReady | StillWaiting

  function Newest(pods: seq<Pod>): (p: Pod)
    requires pods != []
    ensures p in pods && forall q :: q in pods ==> q.created <= p.created
  {
    if |pods| == 1 then pods[0]
    else
      var p := Newest(pods[..|pods| - 1]);
      assert pods == pods[..|pods| - 1] + [pods[|pods| - 1]];
      if pods[|pods| - 1].created > p.created then pods[|pods| - 1] else p
  }

  function PodOf(p: PollResult): Option<Pod> {
    if p.pods.Some? && p.pods.value != [] then Some(Newest(p.pods.value)) else None
  }

  /** All statuses seen in a sequence of polls. */
  function History(polls: seq<PollResult>): seq<Sighting> {
    if polls == [] then []
    else
      var last := polls[|polls| - 1];
      History(polls[..|polls| - 1]) + if PodOf(last).Some? then Seen(PodOf(last).value, last.now) else []
  }

  /** The first k polls decided nothing. */
  ghost predicate Undecided(cfg: Config, polls: seq<PollResult>, k: nat)
    requires k <= |polls|
  {
    && Watch(cfg, map[], History(polls[..k])).failure.None?
    && forall i :: 0 <= i < k ==>
         && !polls[i].expired
         && (PodOf(polls[i]).Some? ==> !Ended(PodOf(polls[i]).value) && !IsReady(PodOf(polls[i]).value))
  }

  /** The poll after k undecided ones decides. */
  ghost predicate Decides(cfg: Config, polls: seq<PollResult>, k: nat, o: Outcome)
    requires k < |polls|
  {
    var pod, w := PodOf(polls[k]), Watch(cfg, map[], History(polls[..k + 1]));
    match o
    case Ready(name) => pod.Some? && pod.value.name == name && IsReady(pod.value) && w.failure.None?
    case Failed(f) => pod.Some? && if Ended(pod.value) then f == EndedEarly(pod.value.phase) else w.failure == Some(f)
    case NotReady =>
      && polls[k].expired
      && (pod.Some? ==> !Ended(pod.value) && !IsReady(pod.value) && w.failure.None?)
    case StillWaiting => false
  }

  /** What the wait comes to: k polls decided nothing, and the next one decided, if there was one. */
  ghost predicate Waited(cfg: Config, polls: seq<PollResult>, o: Outcome, k: nat) {
    && k <= |polls| && Undecided(cfg, polls, k)
    && if o.StillWaiting? then k == |polls| else k < |polls| && Decides(cfg, polls, k, o)
  }

  /** Polls until the pod is ready, has failed or time is up; `k` polls decided nothing. */
  method WaitReady(cfg: Config, polls: seq<PollResult>) returns (o: Outcome, k: nat)
    ensures Waited(cfg, polls, o, k)
  {
    var a := new Assessor(cfg);
    k := 0;
    while k < |polls|
      invariant fresh(a) && a.cfg == cfg
      invariant k <= |polls| && Undecided(cfg, polls, k)
      invariant a.pullErrSince == Watch(cfg, map[], History(polls[..k])).timers
    {
      var p := polls[k];
      assert polls[..k + 1][..k] == polls[..k];
      if p.pods.Some? && p.pods.value != [] {
        var pod := Newest(p.pods.value);
        WatchConcat(cfg, map[], History(polls[..k]), Seen(pod, p.now));
        var v := a.Assess(pod, p.now);
        match v {
          case Fails(f) => return Failed(f), k;
          case PodReady => return Ready(pod.name), k;
          case NotYet =>
        }
      } else {
        assert History(polls[..k + 1]) == History(polls[..k]);
      }
      if p.expired {
        return NotReady, k;
      }
      k := k + 1;
    }
    o := StillWaiting;
  }

  lemma {:induction false} HistoryIsChronological(polls: seq<PollResult>)
    requires forall i, j :: 0 <= i <= j < |polls| ==> polls[i].now <= polls[j].now
    ensures Chronological(History(polls))
    ensures polls != [] ==> forall g :: g in History(polls) ==> g.time <= polls[|polls| - 1].now
    decreases |polls|
  {
    if polls != [] {
      var init, last := polls[..|polls| - 1], polls[|polls| - 1];
      HistoryIsChronological(init);
      forall g | g in History(init) ensures g.time <= last.now {
        assert init != [];
        assert init[|init| - 1].now <= last.now;
      }
    }
  }

  lemma HistoryOneMore(polls: seq<PollResult>, k: nat)
    requires k < |polls|
    ensures History(polls[..k + 1])
         == History(polls[..k]) + if PodOf(polls[k]).Some? then Seen(PodOf(polls[k]).value, polls[k].now) else []
  {
    var upTo := polls[..k + 1];
    assert upTo[..k] == polls[..k] && upTo[k] == polls[k];
  }

  lemma UneventfulSoFar(cfg: Config, polls: seq<PollResult>, k: nat)
    requires forall i, j :: 0 <= i <= j < |polls| ==> polls[i].now <= polls[j].now
    requires k <= |polls|
    ensures Chronological(History(polls[..k]))
    ensures Watch(cfg, map[], History(polls[..k])).failure.None? <==> Uneventful(cfg, History(polls[..k]))
  {
    HistoryIsChronological(polls[..k]);
    WatchMeaning(cfg, History(polls[..k]));
  }

  /** A failure that first shows in the extension of an uneventful history is in the extension. */
  lemma FailureIsNew(cfg: Config, before: seq<Sighting>, seen: seq<Sighting>) returns (j: nat)
    requires Chronological(before + seen) && Uneventful(cfg, before)
    requires Watch(cfg, map[], before + seen).failure.Some?
    ensures var h := before + seen;
            && |before| <= j < |h| && Fatal(cfg, h, j) && Uneventful(cfg, h[..j])
            && Describes(Watch(cfg, map[], h).failure.value, h[j].status)
  {
    j := FirstFatal(cfg, before + seen);
    if j < |before| {
      FatalStays(cfg, before, seen, j);
    }
  }

  /** The verdict on poll k, in terms of all that was seen up to and including it. */
  ghost predicate Justified(cfg: Config, polls: seq<PollResult>, k: nat, o: Outcome)
    requires k < |polls|
  {
    var h, pod := History(polls[..k + 1]), PodOf(polls[k]);
    match o
    case Ready(name) => pod.Some? && pod.value.name == name && IsReady(pod.value) && Uneventful(cfg, h)
    case Failed(EndedEarly(phase)) => pod.Some? && Ended(pod.value) && phase == pod.value.phase
    case Failed(f) =>
      exists j :: |History(polls[..k])| <= j < |h| && Fatal(cfg, h, j)
                  && Uneventful(cfg, h[..j]) && Describes(f, h[j].status)
    case NotReady =>
      polls[k].expired && (pod.Some? ==> !Ended(pod.value) && !IsReady(pod.value)) && Uneventful(cfg, h)
    case StillWaiting => false
  }

  /**
   * A pod is reported ready only if it runs with every container and sidecar
   * ready and nothing fatal was ever seen; a container's failure is reported
   * only for the first fatal status of the whole history, however many polls
   * and pods it took.
   */
  lemma OutcomeMeaning(cfg: Config, polls: seq<PollResult>, k: nat, o: Outcome)
    requires forall i, j :: 0 <= i <= j < |polls| ==> polls[i].now <= polls[j].now
    requires k < |polls| && Undecided(cfg, polls, k) && Decides(cfg, polls, k, o)
    ensures Justified(cfg, polls, k, o)
  {
    UneventfulSoFar(cfg, polls, k);
    UneventfulSoFar(cfg, polls, k + 1);
    HistoryOneMore(polls, k);
    assert PodOf(polls[k]).None? ==> History(polls[..k + 1]) == History(polls[..k]);
    if o.Failed? && !Ended(PodOf(polls[k]).value) {
      var j := FailureIsNew(cfg, History(polls[..k]), Seen(PodOf(polls[k]).value, polls[k].now));
      assert !o.failure.EndedEarly?;
    }
  }

  // ----- What must end the wait -----

  ghost predicate InOrder(polls: seq<PollResult>) {
    forall i, j :: 0 <= i <= j < |polls| ==> polls[i].now <= polls[j].now
  }

  lemma {:induction false} HistoryPrefix(polls: seq<PollResult>, i: nat, k: nat)
    requires i <= k <= |polls|
    ensures History(polls[..i]) <= History(polls[..k])
    decreases k
  {
    if i < k {
      HistoryPrefix(polls, i, k - 1);
      HistoryOneMore(polls, k - 1);
    }
  }

  /** A pod that ended or is ready, a status that is fatal, and the end of time: each is answered when it is seen. */
  lemma DecidesInTime(cfg: Config, polls: seq<PollResult>, o: Outcome, k: nat, j: nat)
    requires InOrder(polls) && Waited(cfg, polls, o, k) && j < |polls|
    requires var pod := PodOf(polls[j]);
             || polls[j].expired
             || (pod.Some? && (pod.value.phase == PodFailed || pod.value.phase == Succeeded || IsReady(pod.value)))
             || !Uneventful(cfg, History(polls[..j + 1]))
    ensures k <= j && !o.StillWaiting?
  {
    if k > j {
      var seen, all := History(polls[..j + 1]), History(polls[..k]);
      UneventfulSoFar(cfg, polls, k);
      HistoryPrefix(polls, j + 1, k);
      assert all == seen + all[|seen|..];
      forall x | 0 <= x < |seen| ensures !Fatal(cfg, seen, x) {
        FatalStays(cfg, seen, all[|seen|..], x);
      }
    }
  }

  /** A container of the pod whose every status is an unready one that waits for its image. */
  predicate PullStuck(pod: Pod, name: string) {
    && name in pod.containers
    && (exists x :: 0 <= x < |Statuses(pod)| && Statuses(pod)[x].name == name)
    && forall x :: 0 <= x < |Statuses(pod)| && Statuses(pod)[x].name == name ==> WaitsForImage(Statuses(pod)[x])
  }

  predicate WaitsForImage(cs: Status) {
    && !cs.ready && cs.state.WaitingFor?
    && (cs.state.reason == "ErrImagePull" || cs.state.reason == "ImagePullBackOff")
  }

  lemma {:induction false} NotLastReady(ss: seq<Status>, name: string)
    requires forall x :: 0 <= x < |ss| && ss[x].name == name ==> !ss[x].ready
    ensures !LastReady(ss, name)
    decreases |ss|
  {
    if ss != [] {
      NotLastReady(ss[..|ss| - 1], name);
    }
  }

  lemma StuckIsNotReady(pod: Pod, name: string)
    requires PullStuck(pod, name)
    ensures !IsReady(pod)
  {
    NotLastReady(Statuses(pod), name);
  }

  /** The sightings of a container that is stuck in polls i to j, from the first one at a to the last one at b. */
  ghost predicate Stuck(h: seq<Sighting>, base: nat, name: string, a: nat, b: nat, from: int, to: int) {
    && base <= a <= b < |h|
    && h[a].status.name == name && h[a].time == from
    && h[b].status.name == name && h[b].time == to
    && forall x :: base <= x < |h| && h[x].status.name == name ==> WaitsForImage(h[x].status)
  }

  lemma StuckLonger(h: seq<Sighting>, pod: Pod, now: int, base: nat, name: string, a: nat, b: nat, from: int, to: int)
    returns (c: nat)
    requires Stuck(h, base, name, a, b, from, to) && PullStuck(pod, name)
    ensures Stuck(h + Seen(pod, now), base, name, a, c, from, now)
  {
    var x :| 0 <= x < |Statuses(pod)| && Statuses(pod)[x].name == name;
    c := |h| + x;
    var all := h + Seen(pod, now);
    assert all[a] == h[a];
    forall y | base <= y < |all| && all[y].status.name == name ensures WaitsForImage(all[y].status) {
      assert all[y] == if y < |h| then h[y] else Seen(pod, now)[y - |h|];
    }
  }

  lemma StuckOnce(h: seq<Sighting>, pod: Pod, now: int, name: string) returns (c: nat)
    requires PullStuck(pod, name)
    ensures Stuck(h + Seen(pod, now), |h|, name, c, c, now, now)
  {
    var x :| 0 <= x < |Statuses(pod)| && Statuses(pod)[x].name == name;
    c := |h| + x;
    var all := h + Seen(pod, now);
    forall y | |h| <= y < |all| && all[y].status.name == name ensures WaitsForImage(all[y].status) {
      assert all[y] == Seen(pod, now)[y - |h|];
    }
  }

  lemma HistoryWith(polls: seq<PollResult>, j: nat, h: seq<Sighting>, pod: Pod)
    requires j < |polls| && h == History(polls[..j]) && PodOf(polls[j]) == Some(pod)
    ensures History(polls[..j + 1]) == h + Seen(pod, polls[j].now)
  {
    HistoryOneMore(polls, j);
  }

  /** Poll m shows the container stuck, and adds what it shows to the history. */
  ghost predicate StuckAt(polls: seq<PollResult>, hs: seq<seq<Sighting>>, m: nat, name: string) {
    && m < |polls| && m + 1 < |hs|
    && PodOf(polls[m]).Some? && PullStuck(PodOf(polls[m]).value, name)
    && hs[m + 1] == hs[m] + Seen(PodOf(polls[m]).value, polls[m].now)
  }

  lemma {:induction false} StuckSpan(polls: seq<PollResult>, hs: seq<seq<Sighting>>, i: nat, j: nat, name: string)
    returns (a: nat, b: nat)
    requires i <= j && forall m :: i <= m <= j ==> StuckAt(polls, hs, m, name)
    ensures j < |polls| && j + 1 < |hs|
    ensures Stuck(hs[j + 1], |hs[i]|, name, a, b, polls[i].now, polls[j].now)
    decreases j
  {
    assert StuckAt(polls, hs, j, name);
    var pod, now := PodOf(polls[j]).value, polls[j].now;
    if i == j {
      a := StuckOnce(hs[j], pod, now, name);
      b := a;
    } else {
      a, b := StuckSpan(polls, hs, i, j - 1, name);
      b := StuckLonger(hs[j], pod, now, |hs[i]|, name, a, b, polls[i].now, polls[j - 1].now);
    }
  }

  lemma StuckIsFatal(cfg: Config, h: seq<Sighting>, base: nat, name: string, a: nat, b: nat, from: int, to: int)
    requires Stuck(h, base, name, a, b, from, to) && to - from >= cfg.pullFailAfter
    ensures Fatal(cfg, h, b)
  {
    forall x | a <= x <= b && h[x].status.name == name ensures PullError(h[x]) && !Clears(h[x]) {
      TimersExactly(h[x]);
    }
    assert Persists(h, name, a, b + 1);
    FatalExactly(cfg, h, b);
  }

  lemma StuckThroughout(polls: seq<PollResult>, i: nat, j: nat, name: string) returns (hs: seq<seq<Sighting>>)
    requires i <= j < |polls|
    requires forall m :: i <= m <= j ==> PodOf(polls[m]).Some? && PullStuck(PodOf(polls[m]).value, name)
    ensures |hs| == |polls| + 1 && hs[j + 1] == History(polls[..j + 1])
    ensures forall m :: i <= m <= j ==> StuckAt(polls, hs, m, name)
  {
    hs := seq(|polls| + 1, m requires 0 <= m <= |polls| => History(polls[..m]));
    forall m | i <= m <= j ensures StuckAt(polls, hs, m, name) {
      HistoryWith(polls, m, hs[m], PodOf(polls[m]).value);
    }
  }

  lemma LastingIsFatal(cfg: Config, polls: seq<PollResult>, i: nat, j: nat, name: string)
    requires i <= j < |polls| && polls[j].now - polls[i].now >= cfg.pullFailAfter
    requires forall m :: i <= m <= j ==> PodOf(polls[m]).Some? && PullStuck(PodOf(polls[m]).value, name)
    ensures !Uneventful(cfg, History(polls[..j + 1]))
  {
    var hs := StuckThroughout(polls, i, j, name);
    var a, b := StuckSpan(polls, hs, i, j, name);
    var h, base := hs[j + 1], |hs[i]|;
    StuckIsFatal(cfg, h, base, name, a, b, polls[i].now, polls[j].now);
  }

  /** A wait that comes to poll j with something fatal there fails. */
  lemma FatalPollFails(cfg: Config, polls: seq<PollResult>, o: Outcome, j: nat)
    requires InOrder(polls) && j < |polls| && Decides(cfg, polls, j, o) && PodOf(polls[j]).Some?
    requires !Uneventful(cfg, History(polls[..j + 1]))
    ensures o.Failed?
  {
    UneventfulSoFar(cfg, polls, j + 1);
  }

  /**
   * An image that cannot be pulled ends the wait: a container seen in every
   * poll of a long enough span as waiting for its image, whatever the other
   * containers do, makes the outcome a failure by the end of the span, and at
   * the last poll of the span a failure of the pod.
   */
  lemma LastingPullErrorFails(cfg: Config, polls: seq<PollResult>, o: Outcome, k: nat, i: nat, j: nat, name: string)
    requires InOrder(polls) && Waited(cfg, polls, o, k) && i <= j < |polls|
    requires forall m :: i <= m <= j ==> PodOf(polls[m]).Some? && PullStuck(PodOf(polls[m]).value, name)
    requires polls[j].now - polls[i].now >= cfg.pullFailAfter
    ensures k <= j && !o.StillWaiting?
    ensures i <= k ==> !o.Ready?
    ensures k == j ==> o.Failed?
  {
    LastingIsFatal(cfg, polls, i, j, name);
    DecidesInTime(cfg, polls, o, k, j);
    if i <= k {
      StuckIsNotReady(PodOf(polls[k]).value, name);
    }
    if k == j {
      FatalPollFails(cfg, polls, o, j);
    }
  }
}
