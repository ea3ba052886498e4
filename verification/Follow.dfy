/**
 * `follow`: copies the step log from an offset until it is complete, polling a
 * disk that the supervisor changes between any two of its operations.
 */
module Follow {
  import opened Bytes
  import opened Supervisor

  const LIVENESS_EVERY := 20

  const EXIT_GONE := 3
  const EXIT_NO_LOG := 4
  const EXIT_INCOMPLETE := 5

  /** What one operation of a follower finds on disk, and how its own read or write goes. */
  datatype Disk = Disk(log: Option<seq<byte>>, done: Option<bool>, record: bool, running: bool)

  datatype Obs = Obs(disk: Disk, fate: WriteFate)

  /** supervisorAlive: the record is there and names a process that still runs. */
  predicate Alive(d: Disk) {
    d.record && d.running
  }

  /** What a drain returns to: polling, a complete or incomplete end, or a vanished supervisor. */
  datatype Then = Poll | End(complete: bool) | Gone

  /** The next operation of a follower. */
  datatype Pc =
    | OpenLog
    | StatLog
    | Read(ret: Then)
    | Write(ret: Then, buf: seq<byte>)
    | CheckDone
    | CheckAlive
    | Recheck
    | Exit(code: int)

  /**
   * `written` is all that went to stdout, `idle` counts polls, and `blind`
   * says that the last liveness check found no supervisor record at all.
   */
  datatype Follower = Follower(off: nat, pos: nat, written: seq<byte>, idle: nat, blind: bool, pc: Pc)

  function Begin(off: nat): Follower {
    Follower(off, off, [], 0, false, OpenLog)
  }

  /** Where a drain that reached the end of the log goes on. */
  function AfterDrain(ret: Then): Pc {
    match ret
    case Poll => CheckDone
    case End(complete) => Exit(if complete then 0 else EXIT_INCOMPLETE)
    case Gone => Exit(EXIT_GONE)
  }

  /** Where a drain that failed goes on: the error of the last one, after a vanished supervisor, is ignored. */
  function AfterFailure(ret: Then): Pc {
    if ret.Gone? then Exit(EXIT_GONE) else Exit(1)
  }

  function NextPoll(f: Follower): Follower {
    f.(idle := f.idle + 1, pc := Read(Poll))
  }

  predicate ChecksLiveness(idle: nat) {
    idle % LIVENESS_EVERY == LIVENESS_EVERY - 1
  }

  function ReadSize(f: Follower, log: seq<byte>): nat {
    if |log| <= f.pos then 0 else Min(READ_BUF, |log| - f.pos)
  }

  /** One operation of a follower on what it observes. */
  function Step(f: Follower, o: Obs): Follower {
    var log := if o.disk.log.Some? then o.disk.log.value else [];
    match f.pc
    case OpenLog => f.(pc := if o.disk.log.Some? then StatLog else Exit(EXIT_NO_LOG))
    case StatLog => f.(pc := if |log| < f.off then Exit(EXIT_NO_LOG) else Read(Poll))
    case Read(ret) =>
      if !o.fate.Full? then f.(pc := AfterFailure(ret))
      else
        var n := ReadSize(f, log);
        if n == 0 then f.(pc := AfterDrain(ret))
        else f.(pos := f.pos + n, pc := Write(ret, log[f.pos..f.pos + n]))
    case Write(ret, buf) =>
      f.(written := f.written + Accepted(buf, o.fate), pc := if o.fate.Full? then Read(ret) else AfterFailure(ret))
    case CheckDone =>
      if o.disk.done.Some? then f.(pc := Read(End(o.disk.done.value)))
      else if ChecksLiveness(f.idle) then f.(pc := CheckAlive)
      else NextPoll(f)
    case CheckAlive =>
      var g := f.(blind := !o.disk.record);
      if Alive(o.disk) then NextPoll(g) else g.(pc := Recheck)
    case Recheck => if o.disk.done.Some? then NextPoll(f) else f.(pc := Read(Gone))
    case Exit(_) => f
  }

  /** A follower after a sequence of observations, one per operation. */
  function Run(f: Follower, world: seq<Obs>): Follower
    decreases |world|
  {
    if world == [] then f else Run(Step(f, world[0]), world[1..])
  }

  lemma RunOne(f: Follower, world: seq<Obs>, k: nat)
    requires k < |world|
    ensures Run(f, world[k..]) == Run(Step(f, world[k]), world[k + 1..])
  {
    assert world[k..][1..] == world[k + 1..];
  }

  lemma {:induction false} RunStops(f: Follower, world: seq<Obs>)
    requires f.pc.Exit?
    ensures Run(f, world) == f
    decreases |world|
  {
    if world != [] {
      RunStops(f, world[1..]);
    }
  }

  // ----- The loop -----

  datatype DrainEnd = AtEnd | Failed | OutOfWorld

  /** One read of the inner loop, and the write of what it returned. */
  method CopyOnce(f: Follower, world: seq<Obs>, k: nat, ret: Then)
    returns (pos: nat, written: seq<byte>, k': nat, end: Option<DrainEnd>, ghost g: Follower)
    requires k < |world| && f.pc == Read(ret)
    ensures k < k' <= |world|
    ensures Run(f, world[k..]) == Run(g, world[k'..])
    ensures g == f.(pos := pos, written := written, pc := g.pc)
    ensures match end
            case None => g.pc == Read(ret)
            case Some(OutOfWorld) => k' == |world| && !g.pc.Exit?
            case Some(AtEnd) => g.pc == AfterDrain(ret)
            case Some(Failed) => g.pc == AfterFailure(ret)
  {
    pos, written, k' := f.pos, f.written, k + 1;
    var o := world[k];
    var log := if o.disk.log.Some? then o.disk.log.value else [];
    RunOne(f, world, k);
    g := Step(f, o);
    if !o.fate.Full? {
      return pos, written, k', Some(Failed), g;
    }
    var n := if |log| <= pos then 0 else Min(READ_BUF, |log| - pos);
    if n == 0 {
      return pos, written, k', Some(AtEnd), g;
    }
    var buf := log[pos..pos + n];
    pos := pos + n;
    written, k', end, g := PassOn(f.(pos := pos, pc := Write(ret, buf)), world, k', ret, buf);
  }

  /** stdout.Write of what was read. */
  method PassOn(f: Follower, world: seq<Obs>, k: nat, ret: Then, buf: seq<byte>)
    returns (written: seq<byte>, k': nat, end: Option<DrainEnd>, ghost g: Follower)
    requires k <= |world| && f.pc == Write(ret, buf)
    ensures k <= k' <= |world|
    ensures Run(f, world[k..]) == Run(g, world[k'..])
    ensures g == f.(written := written, pc := g.pc)
    ensures match end
            case None => g.pc == Read(ret)
            case Some(OutOfWorld) => k' == |world| && !g.pc.Exit?
            case Some(AtEnd) => false
            case Some(Failed) => g.pc == AfterFailure(ret)
  {
    if k == |world| {
      return f.written, k, Some(OutOfWorld), f;
    }
    RunOne(f, world, k);
    g := Step(f, world[k]);
    written := f.written + Accepted(buf, world[k].fate);
    return written, k + 1, if world[k].fate.Full? then None else Some(Failed), g;
  }

  /** The inner loop: read and write until the end of the log, an error, or the end of the observations. */
  method DrainLog(f: Follower, world: seq<Obs>, k: nat, ret: Then)
    returns (pos: nat, written: seq<byte>, k': nat, end: DrainEnd, ghost g: Follower)
    requires k <= |world| && f.pc == Read(ret)
    ensures k <= k' <= |world|
    ensures Run(f, world[k..]) == Run(g, world[k'..])
    ensures g == f.(pos := pos, written := written, pc := g.pc)
    ensures match end
            case OutOfWorld => k' == |world| && !g.pc.Exit?
            case AtEnd => g.pc == AfterDrain(ret)
            case Failed => g.pc == AfterFailure(ret)
  {
    pos, written, k' := f.pos, f.written, k;
    g := f;
    while k' < |world|
      invariant k <= k' <= |world|
      invariant Run(f, world[k..]) == Run(g, world[k'..])
      invariant g == f.(pos := pos, written := written)
      decreases |world| - k'
    {
      var stop;
      pos, written, k', stop, g := CopyOnce(f.(pos := pos, written := written), world, k', ret);
      if stop.Some? {
        return pos, written, k', stop.value, g;
      }
    }
    end := OutOfWorld;
  }

  /** The exit code of `follow` and what it wrote; None while it is still following. */
  datatype Result = Result(code: Option<int>, written: seq<byte>)

  function Outcome(f: Follower): Result {
    Result(if f.pc.Exit? then Some(f.pc.code) else None, f.written)
  }

  /** The last drain, after which follow returns. */
  method Conclude(f: Follower, world: seq<Obs>, k: nat, ret: Then) returns (r: Result)
    requires k <= |world| && f.pc == Read(ret) && !ret.Poll?
    ensures r == Outcome(Run(f, world[k..]))
  {
    var pos, written, k', end, g := DrainLog(f, world, k, ret);
    if end.OutOfWorld? {
      return Result(None, written);
    }
    RunStops(g, world[k'..]);
    match ret
    case End(complete) =>
      return Result(Some(if end.Failed? then 1 else if complete then 0 else EXIT_INCOMPLETE), written);
    case Gone =>
      return Result(Some(EXIT_GONE), written);
  }

  /** What follow does when a poll found no done file: now and then, look whether the supervisor still runs. */
  method CheckSupervisor(f: Follower, world: seq<Obs>, k: nat) returns (k': nat, blind: bool, r: Option<Result>)
    requires k <= |world| && f.pc == CheckAlive
    ensures k <= k' <= |world|
    ensures r.None? ==> Run(f, world[k..]) == Run(NextPoll(f.(blind := blind)), world[k'..])
    ensures r.Some? ==> r.value == Outcome(Run(f, world[k..]))
  {
    if k == |world| {
      return k, f.blind, Some(Result(None, f.written));
    }
    RunOne(f, world, k);
    blind := !world[k].disk.record;
    if Alive(world[k].disk) {
      return k + 1, blind, None;
    }
    if k + 1 == |world| {
      return k + 1, blind, Some(Result(None, f.written));
    }
    RunOne(f.(blind := blind, pc := Recheck), world, k + 1);
    if world[k + 1].disk.done.Some? {
      return k + 2, blind, None;
    }
    var res := Conclude(f.(blind := blind, pc := Read(Gone)), world, k + 2, Gone);
    return k + 2, blind, Some(res);
  }

  /** One round of the polling loop; a result if follow returned in it. */
  method PollOnce(f: Follower, world: seq<Obs>, k: nat)
    returns (pos: nat, written: seq<byte>, blind: bool, k': nat, r: Option<Result>)
    requires k < |world| && f.pc == Read(Poll)
    ensures r.Some? ==> r.value == Outcome(Run(f, world[k..]))
    ensures r.None? ==> k < k' <= |world|
    ensures r.None? ==>
              Run(f, world[k..]) == Run(NextPoll(f.(pos := pos, written := written, blind := blind)), world[k'..])
  {
    var end;
    ghost var g;
    blind := f.blind;
    pos, written, k', end, g := DrainLog(f, world, k, Poll);
    if end.Failed? {
      RunStops(g, world[k'..]);
      return pos, written, blind, k', Some(Result(Some(1), written));
    }
    if end.OutOfWorld? || k' == |world| {
      return pos, written, blind, k', Some(Result(None, written));
    }
    var o := world[k'];
    RunOne(g, world, k');
    k' := k' + 1;
    if o.disk.done.Some? {
      var complete := o.disk.done.value;
      var res := Conclude(f.(pos := pos, written := written, pc := Read(End(complete))), world, k', End(complete));
      r := Some(res);
    } else if f.idle % LIVENESS_EVERY == LIVENESS_EVERY - 1 {
      k', blind, r := CheckSupervisor(f.(pos := pos, written := written, pc := CheckAlive), world, k');
    } else {
      r := None;
    }
  }

  /** follow(dir, off), watched for as many operations as `world` has observations. */
  method FollowLog(off: nat, world: seq<Obs>) returns (r: Result)
    ensures r == Outcome(Run(Begin(off), world))
  {
    if |world| == 0 {
      return Result(None, []);
    }
    if world[0].disk.log.None? {
      RunStops(Step(Begin(off), world[0]), world[1..]);
      return Result(Some(EXIT_NO_LOG), []);
    }
    if |world| == 1 {
      return Result(None, []);
    }
    RunOne(Begin(off).(pc := StatLog), world, 1);
    var size := if world[1].disk.log.Some? then |world[1].disk.log.value| else 0;
    if size < off {
      RunStops(Begin(off).(pc := Exit(EXIT_NO_LOG)), world[2..]);
      return Result(Some(EXIT_NO_LOG), []);
    }
    var k, idle, pos, written, blind := 2, 0, off, [], false;
    while k < |world|
      invariant 2 <= k <= |world|
      invariant Run(Begin(off), world) == Run(Follower(off, pos, written, idle, blind, Read(Poll)), world[k..])
      decreases |world| - k
    {
      var res;
      pos, written, blind, k, res := PollOnce(Follower(off, pos, written, idle, blind, Read(Poll)), world, k);
      if res.Some? {
        return res.value;
      }
      idle := idle + 1;
    }
    return Result(None, written);
  }

  // ----- Bounded response -----

  function LogOf(d: Disk): seq<byte> {
    if d.log.Some? then d.log.value else []
  }

  /** How follow must end on a disk that no longer changes. */
  function CodeFor(done: Option<bool>): int {
    match done
    case Some(complete) => if complete then 0 else EXIT_INCOMPLETE
    case None => EXIT_GONE
  }

  /** The log is marked done, or no live supervisor is on record. */
  predicate Final(d: Disk) {
    d.log.Some? && (d.done.Some? || !Alive(d))
  }

  function Buffered(f: Follower): seq<byte> {
    if f.pc.Write? then f.pc.buf else []
  }

  /** All that will have been written once the rest of the log is copied. */
  function Eventually(f: Follower, d: Disk): seq<byte>
    requires f.pos <= |LogOf(d)|
  {
    f.written + Buffered(f) + LogOf(d)[f.pos..]
  }

  /** A follower whose findings so far agree with the disk as it now stays. */
  predicate Consistent(f: Follower, d: Disk) {
    && f.pos <= |LogOf(d)|
    && f.off <= f.pos
    && match f.pc
       case Read(End(complete)) => d.done == Some(complete)
       case Read(Gone) => d.done.None?
       case Write(End(complete), _) => d.done == Some(complete)
       case Write(Gone, _) => d.done.None?
       case Exit(code) => code == CodeFor(d.done) && f.pos == |LogOf(d)|
       case _ => true
  }

  /** Polls until the next liveness check. */
  function PollsLeft(idle: nat): nat {
    LIVENESS_EVERY - 1 - idle % LIVENESS_EVERY
  }

  /** An upper bound on the operations a follower still makes on a final disk. */
  function Rank(f: Follower, d: Disk): nat {
    var r := 2 * if f.pos < |LogOf(d)| then |LogOf(d)| - f.pos else 0;
    var c := if d.done.Some? then 0 else 3 * PollsLeft(f.idle);
    match f.pc
    case OpenLog => c + r + 8
    case StatLog => c + r + 7
    case Read(ret) => if ret.Poll? then c + r + 6 else r + 1
    case Write(ret, _) => if ret.Poll? then c + r + 7 else r + 2
    case CheckDone => c + r + 5
    case CheckAlive => if d.done.Some? then r + 8 else r + 3
    case Recheck => if d.done.Some? then r + 7 else r + 2
    case Exit(_) => 0
  }

  /** An upper bound on the polls still begun. */
  function PollBound(f: Follower, d: Disk): nat {
    if d.done.Some? then (if f.pc.CheckAlive? || f.pc.Recheck? then 1 else 0)
    else match f.pc
         case OpenLog => PollsLeft(f.idle)
         case StatLog => PollsLeft(f.idle)
         case CheckDone => PollsLeft(f.idle)
         case Read(Poll) => PollsLeft(f.idle)
         case Write(Poll, _) => PollsLeft(f.idle)
         case _ => 0
  }

  lemma NextPollLeft(idle: nat)
    requires !ChecksLiveness(idle)
    ensures PollsLeft(idle + 1) == PollsLeft(idle) - 1
  {
    assert (idle + 1) % LIVENESS_EVERY == idle % LIVENESS_EVERY + 1;
  }

  /** A step towards the end: nothing decided is undone, nothing is lost, and the bounds shrink. */
  ghost predicate Progress(f: Follower, g: Follower, d: Disk) {
    && Consistent(f, d) && Consistent(g, d)
    && Eventually(g, d) == Eventually(f, d)
    && g.idle + PollBound(g, d) <= f.idle + PollBound(f, d)
    && (f.pc.Exit? || Rank(g, d) < Rank(f, d))
  }

  lemma CopyProgresses(f: Follower, d: Disk)
    requires Final(d) && Consistent(f, d) && (f.pc.Read? || f.pc.Write?)
    ensures Progress(f, Step(f, Obs(d, Full)), d)
  {
    if f.pc.Read? {
      var log := LogOf(d);
      var n := ReadSize(f, log);
      assert log[f.pos..] == log[f.pos..f.pos + n] + log[f.pos + n..];
      assert n == 0 ==> f.pos == |log|;
    }
  }

  lemma CheckProgresses(f: Follower, d: Disk)
    requires Final(d) && Consistent(f, d) && !f.pc.Read? && !f.pc.Write?
    ensures Progress(f, Step(f, Obs(d, Full)), d)
  {
    if f.pc.CheckDone? && d.done.None? && !ChecksLiveness(f.idle) {
      NextPollLeft(f.idle);
    }
  }

  /**
   * Bounded response: on a final disk follow returns within one liveness
   * period of polls, having written the rest of the log, with a code decided
   * by the done file alone.
   */
  lemma {:induction false} FollowResponds(f: Follower, world: seq<Obs>, d: Disk)
    requires Final(d) && Consistent(f, d)
    requires forall i :: 0 <= i < |world| ==> world[i] == Obs(d, Full)
    requires |world| >= Rank(f, d)
    ensures var g := Run(f, world);
            && g.pc == Exit(CodeFor(d.done))
            && g.written == Eventually(f, d)
            && g.idle <= f.idle + PollBound(f, d)
    decreases |world|
  {
    if f.pc.Exit? {
      RunStops(f, world);
      assert LogOf(d)[f.pos..] == [];
    } else {
      if f.pc.Read? || f.pc.Write? {
        CopyProgresses(f, d);
      } else {
        CheckProgresses(f, d);
      }
      FollowResponds(Step(f, world[0]), world[1..], d);
    }
  }

  /** From the start: follow on a final disk, in explicit numbers of operations and polls. */
  lemma FollowReturns(off: nat, world: seq<Obs>, d: Disk)
    requires Final(d)
    requires forall i :: 0 <= i < |world| ==> world[i] == Obs(d, Full)
    requires |world| >= 2 * |LogOf(d)| + 3 * LIVENESS_EVERY + 5
    ensures var g := Run(Begin(off), world);
            if off <= |LogOf(d)| then
              && g.pc == Exit(if d.done.None? then 3 else if d.done.value then 0 else 5)
              && g.pc == Exit(CodeFor(d.done)) && g.written == LogOf(d)[off..] && g.idle < 20
            else
              g.pc == Exit(4) && g.written == []
  {
    if off <= |LogOf(d)| {
      FollowResponds(Begin(off), world, d);
    } else {
      var f := Begin(off);
      RunOne(f, world, 0);
      RunOne(Step(f, world[0]), world, 1);
      assert world[0..] == world;
      RunStops(Step(Step(f, world[0]), world[1]), world[2..]);
    }
  }

  /** Without a log there is nothing to follow. */
  lemma NoLogReturns(off: nat, world: seq<Obs>)
    requires world != [] && world[0].disk.log.None?
    ensures Run(Begin(off), world).pc == Exit(4) && Run(Begin(off), world).written == []
  {
    RunStops(Step(Begin(off), world[0]), world[1..]);
  }

  /**
   * A read or a write that fails ends follow with code 1, whatever was found
   * before, except in the drain after a vanished supervisor, where "gone" is
   * still said; what was written of the last piece is a part of it.
   */
  lemma FailureReturns(f: Follower, o: Obs, world: seq<Obs>)
    requires !o.fate.Full? && (f.pc.Read? || f.pc.Write?)
    ensures var g := Run(f, [o] + world);
            && g.pc == Exit(if f.pc.ret == Gone then 3 else 1)
            && f.written <= g.written <= f.written + Buffered(f)
  {
    assert ([o] + world)[1..] == world;
    RunStops(Step(f, o), world);
  }

  /** A follower of a supervisor that runs, is on record and has not finished never concludes anything. */
  predicate Undecided(f: Follower) {
    match f.pc
    case Read(ret) => ret.Poll?
    case Write(ret, _) => ret.Poll?
    case Recheck => false
    case Exit(code) => code == EXIT_NO_LOG
    case _ => true
  }

  lemma {:induction false} LiveStepFollowed(f: Follower, world: seq<Obs>, d: Disk)
    requires d.log.Some? && d.done.None? && Alive(d) && Undecided(f)
    requires forall i :: 0 <= i < |world| ==> world[i] == Obs(d, Full)
    ensures Undecided(Run(f, world))
    decreases |world|
  {
    if world != [] {
      LiveStepFollowed(Step(f, world[0]), world[1..], d);
    }
  }

  /**
   * On a disk that stays as it is follow says "gone" exactly when there is
   * something left to follow, no done file, and no live supervisor on record.
   */
  lemma GoneExactly(off: nat, world: seq<Obs>, d: Disk)
    requires d.log.Some?
    requires forall i :: 0 <= i < |world| ==> world[i] == Obs(d, Full)
    requires |world| >= 2 * |LogOf(d)| + 3 * LIVENESS_EVERY + 5
    ensures Run(Begin(off), world).pc == Exit(EXIT_GONE) <==> off <= |LogOf(d)| && d.done.None? && !Alive(d)
  {
    if Final(d) {
      FollowReturns(off, world, d);
    } else {
      LiveStepFollowed(Begin(off), world, d);
    }
  }

  /**
   * So of a step that runs "gone" is reported, wrongly, exactly while its
   * supervisor file is missing, which a second follower may find before `run`
   * has written it.
   */
  lemma RunningStepReportedGone(log: seq<byte>, done: Option<bool>, record: bool, world: seq<Obs>)
    requires forall i :: 0 <= i < |world| ==> world[i] == Obs(Disk(Some(log), done, record, true), Full)
    requires |world| >= 2 * |log| + 3 * LIVENESS_EVERY + 5
    ensures Run(Begin(0), world).pc == Exit(EXIT_GONE) <==> done.None? && !record
  {
    GoneExactly(0, world, Disk(Some(log), done, record, true));
  }
}
