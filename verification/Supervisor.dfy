/**
 * The step helper's supervisor: two readers and the main goroutine append
 * frames to the log under a mutex, writes may fail half-way, the process may
 * be killed at any point, and `done` marks the end.
 */
module Supervisor {
  import opened Bytes
  import opened ExecStream
  import opened StepIO
  import opened StepLog

  const READ_BUF := 32 * 1024

  /** How a write to a file or pipe goes: all of it, a part then an error, or a part then a kill. */
  datatype WriteFate = Full | Short(n: nat) | Killed(n: nat)

  function Accepted(b: seq<byte>, fate: WriteFate): (w: seq<byte>)
    ensures w <= b
  {
    if fate.Full? then b else b[..Min(fate.n, |b|)]
  }

  // ----- frameLog -----

  datatype LogState = LogState(file: seq<byte>, closed: bool, failed: bool)

  function WriteLog(l: LogState, b: seq<byte>, fate: WriteFate): LogState {
    l.(file := l.file + Accepted(b, fate), failed := l.failed || !fate.Full?)
  }

  function FrameStep(l: LogState, kind: byte, p: seq<byte>, fate: WriteFate): LogState {
    if l.closed || l.failed then l else WriteLog(l, AppendFrame([], kind, p), fate)
  }

  function FinishStep(l: LogState, code: int, fate: WriteFate, closes: bool): LogState {
    var w := if l.failed then l else WriteLog(l, ExitFrame(code), fate);
    w.(closed := true, failed := w.failed || !closes)
  }

  /** frameLog as the helper keeps it; each method is one critical section. */
  class FrameLog {
    var file: seq<byte>
    var closed: bool
    var failed: bool

    function State(): LogState
      reads this
    {
      LogState(file, closed, failed)
    }

    constructor (file: seq<byte>)
      ensures State() == LogState(file, false, false)
    {
      this.file := file;
      closed, failed := false, false;
    }

    /** The file system takes all of `b` or a part of it. */
    method FileWrite(b: seq<byte>, fate: WriteFate) returns (ok: bool)
      modifies this`file
      ensures file == old(file) + Accepted(b, fate) && ok == fate.Full?
    {
      file := file + Accepted(b, fate);
      ok := fate.Full?;
    }

    method Frame(kind: byte, p: seq<byte>, fate: WriteFate)
      modifies this
      ensures State() == FrameStep(old(State()), kind, p, fate)
    {
      if closed || failed {
        return;
      }
      var ok := FileWrite(AppendFrame([], kind, p), fate);
      failed := !ok;
    }

    method Finish(code: int, fate: WriteFate, closes: bool)
      modifies this
      ensures State() == FinishStep(old(State()), code, fate, closes)
    {
      if !failed {
        var ok := FileWrite(ExitFrame(code), fate);
        failed := !ok;
      }
      if !failed {
        failed := !closes;
      }
      closed := true;
    }
  }

  // ----- The supervisor as a state machine -----

  /** Where a frame's payload comes from: the step's pipes, or the helper reporting why it could not run it. */
  datatype Source = StdoutPipe | StderrPipe | Helper

  datatype Rec = Rec(source: Source, payload: seq<byte>)

  function KindOf(s: Source): byte {
    if s.StdoutPipe? then KIND_STDOUT else KIND_STDERR
  }

  function Frames(plan: seq<Rec>): (fs: seq<Frame>)
    ensures |fs| == |plan|
  {
    seq(|plan|, i requires 0 <= i < |plan| => Frame(KindOf(plan[i].source), plan[i].payload))
  }

  /** What one source contributed to the log. */
  function Stream(plan: seq<Rec>, src: Source): seq<byte> {
    if plan == [] then []
    else Stream(plan[..|plan| - 1], src) + (if plan[|plan| - 1].source == src then plan[|plan| - 1].payload else [])
  }

  /** One pipe of the step: what was written to it, how much its reader took, what the reader still holds. */
  datatype Pipe = Pipe(produced: seq<byte>, read: nat, held: Option<seq<byte>>)

  datatype Life = Opening | Logging | Finished | Marked | Dead

  /**
   * `plan` lists the frames whose write was begun, `exit` the exit code whose
   * record was begun, `whole` that every write so far went in completely.
   * `done` is Some(true) for an empty done file, Some(false) for an error in it.
   */
  datatype Sup = Sup(
    life: Life, log: LogState, out: Pipe, err: Pipe,
    plan: seq<Rec>, exit: Option<int>, whole: bool, done: Option<bool>)

  const EMPTY_PIPE := Pipe([], 0, None)

  const SPAWNED := Sup(Opening, LogState([], false, false), EMPTY_PIPE, EMPTY_PIPE, [], None, true, None)

  function PipeOf(s: Sup, src: Source): Pipe {
    if src.StdoutPipe? then s.out else s.err
  }

  function SetPipe(s: Sup, src: Source, p: Pipe): Sup {
    if src.StdoutPipe? then s.(out := p) else s.(err := p)
  }

  datatype Act =
    | Open(ok: bool, marks: bool)
    | Produce(src: Source, data: seq<byte>)
    | ReadPipe(src: Source, n: nat)
    | FramePipe(src: Source, fate: WriteFate)
    | Say(msg: seq<byte>, fate: WriteFate)
    | Finish(code: int, fate: WriteFate, closes: bool)
    | MarkDone(ok: bool)
    | Die

  predicate Enabled(s: Sup, a: Act) {
    match a
    case Open(_, _) => s.life.Opening?
    case Produce(src, _) => !src.Helper?
    case ReadPipe(src, n) =>
      && (s.life.Logging? || s.life.Finished? || s.life.Marked?)
      && !src.Helper? && PipeOf(s, src).held.None?
      && 0 < n <= READ_BUF && PipeOf(s, src).read + n <= |PipeOf(s, src).produced|
    case FramePipe(src, _) =>
      && (s.life.Logging? || s.life.Finished? || s.life.Marked?)
      && !src.Helper? && PipeOf(s, src).held.Some?
    case Say(msg, _) => s.life.Logging? && |msg| <= MAX_PAYLOAD
    case Finish(_, _, _) => s.life.Logging?
    case MarkDone(_) => s.life.Finished?
    case Die => !s.life.Dead?
  }

  function LifeAfter(life: Life, fate: WriteFate): Life {
    if fate.Killed? then Dead else life
  }

  /** frame(): drops the payload once the log is closed or broken. */
  function LogRec(s: Sup, r: Rec, fate: WriteFate): Sup {
    if s.log.closed || s.log.failed then s
    else s.(log := FrameStep(s.log, KindOf(r.source), r.payload, fate), plan := s.plan + [r],
            whole := fate.Full?, life := LifeAfter(s.life, fate))
  }

  function Apply(s: Sup, a: Act): Sup
    requires Enabled(s, a)
  {
    match a
    case Open(ok, marks) =>
      if ok then s.(life := Logging) else s.(life := Dead, done := if marks then Some(false) else None)
    case Produce(src, data) =>
      var p := PipeOf(s, src);
      SetPipe(s, src, p.(produced := p.produced + data))
    case ReadPipe(src, n) =>
      var p := PipeOf(s, src);
      SetPipe(s, src, p.(read := p.read + n, held := Some(p.produced[p.read..p.read + n])))
    case FramePipe(src, fate) =>
      var p := PipeOf(s, src);
      LogRec(SetPipe(s, src, p.(held := None)), Rec(src, p.held.value), fate)
    case Say(msg, fate) => LogRec(s, Rec(Helper, msg), fate)
    case Finish(code, fate, closes) =>
      var l := FinishStep(s.log, code, fate, closes);
      if s.log.failed then s.(log := l, life := Finished)
      else s.(log := l, exit := Some(code), whole := fate.Full?, life := LifeAfter(Finished, fate))
    case MarkDone(ok) => s.(life := Marked, done := if ok then Some(!s.log.failed) else None)
    case Die => s.(life := Dead)
  }

  // ----- Well-formed logs -----

  /** What the log holds once every write begun has gone in completely. */
  function Intended(plan: seq<Rec>, exit: Option<int>): seq<byte> {
    if exit.Some? then Ended(Frames(plan), exit.value) else Encode(Frames(plan))
  }

  /** What all writes but the last put into the log. */
  function BeforeLast(plan: seq<Rec>, exit: Option<int>): seq<byte> {
    Encode(Frames(if exit.Some? || plan == [] then plan else plan[..|plan| - 1]))
  }

  /** The file is the frames of the plan and perhaps the exit record, of which at most the last is torn. */
  ghost predicate LogShape(plan: seq<Rec>, exit: Option<int>, whole: bool, file: seq<byte>) {
    && (forall i :: 0 <= i < |plan| ==> |plan[i].payload| <= MAX_PAYLOAD)
    && BeforeLast(plan, exit) <= file <= Intended(plan, exit)
    && (whole ==> file == Intended(plan, exit))
  }

  /** Nothing can be appended to the log any more. */
  predicate Frozen(s: Sup) {
    s.log.closed || s.life.Dead?
  }

  predicate Live(s: Sup) {
    !s.log.closed && !s.log.failed && !s.life.Dead?
  }

  /** The supervisor could not open the log, and died. */
  predicate NeverOpened(s: Sup) {
    s.life.Dead? && s.plan == [] && s.exit.None? && s.log.file == [] && !s.log.closed
  }

  ghost predicate PhaseInv(s: Sup) {
    && (s.life.Opening? ==> s.plan == [] && s.log.file == [] && s.whole && !s.log.closed && !s.log.failed)
    && (s.life.Opening? || s.life.Logging? ==> !s.log.closed && s.exit.None?)
    && (s.life.Finished? || s.life.Marked? ==> s.log.closed)
    && (!s.whole ==> s.log.failed || s.life.Dead?)
    && (s.exit.Some? ==> Frozen(s))
    && (s.log.closed && !s.log.failed ==> s.whole && s.exit.Some?)
    && (s.done.Some? ==> s.life.Marked? || s.life.Dead?)
    && (s.done == Some(true) ==> s.whole && s.exit.Some? && s.log.closed && !s.log.failed)
    && (s.done == Some(false) ==> s.log.failed || NeverOpened(s))
  }

  function Held(p: Pipe): seq<byte> {
    if p.held.Some? then p.held.value else []
  }

  /** What a pipe's source logged is a prefix of what was written to it; while the log is live nothing is missing. */
  ghost predicate PipeInv(p: Pipe, logged: seq<byte>, live: bool) {
    && p.read <= |p.produced|
    && |Held(p)| <= READ_BUF
    && logged <= p.produced[..p.read]
    && (live ==> logged + Held(p) == p.produced[..p.read])
  }

  ghost predicate Inv(s: Sup) {
    && LogShape(s.plan, s.exit, s.whole, s.log.file)
    && PhaseInv(s)
    && PipeInv(s.out, Stream(s.plan, StdoutPipe), Live(s))
    && PipeInv(s.err, Stream(s.plan, StderrPipe), Live(s))
  }

  lemma SpawnedInv()
    ensures Inv(SPAWNED)
  {
    assert Frames([]) == [];
    assert Stream([], StdoutPipe) == [] && Stream([], StderrPipe) == [];
  }

  lemma FramesAppend(plan: seq<Rec>, r: Rec)
    ensures Frames(plan + [r]) == Frames(plan) + [Frame(KindOf(r.source), r.payload)]
    ensures Encode(Frames(plan + [r])) == Encode(Frames(plan)) + AppendFrame([], KindOf(r.source), r.payload)
    ensures (plan + [r])[..|plan|] == plan
  {
    EncodeAppend(Frames(plan), Frame(KindOf(r.source), r.payload));
  }

  lemma StreamAppend(plan: seq<Rec>, r: Rec, src: Source)
    ensures Stream(plan + [r], src) == Stream(plan, src) + if r.source == src then r.payload else []
  {
    assert (plan + [r])[..|plan|] == plan;
  }

  /** Beginning to write a record to a whole log keeps the log's shape. */
  lemma ShapeAfterRec(plan: seq<Rec>, file: seq<byte>, r: Rec, fate: WriteFate)
    requires LogShape(plan, None, true, file) && |r.payload| <= MAX_PAYLOAD
    ensures LogShape(plan + [r], None, fate.Full?, file + Accepted(AppendFrame([], KindOf(r.source), r.payload), fate))
  {
    FramesAppend(plan, r);
    PartlyIn(file, AppendFrame([], KindOf(r.source), r.payload), fate);
  }

  lemma PartlyIn(file: seq<byte>, b: seq<byte>, fate: WriteFate)
    ensures file <= file + Accepted(b, fate) <= file + b
  {
  }

  lemma ShapeAfterExit(plan: seq<Rec>, file: seq<byte>, code: int, fate: WriteFate)
    requires LogShape(plan, None, true, file)
    ensures LogShape(plan, Some(code), fate.Full?, file + Accepted(ExitFrame(code), fate))
  {
    PartlyIn(file, ExitFrame(code), fate);
  }

  /** Logging a record that a reader held, or that the helper says, keeps the invariant. */
  lemma LogRecKeepsInv(s: Sup, r: Rec, fate: WriteFate)
    requires LogShape(s.plan, s.exit, s.whole, s.log.file) && PhaseInv(s)
    requires !s.life.Dead? && !s.life.Opening? && |r.payload| <= MAX_PAYLOAD
    requires PipeInv(s.out, Stream(s.plan, StdoutPipe), false) && PipeInv(s.err, Stream(s.plan, StderrPipe), false)
    requires Live(s) ==>
               && Stream(s.plan + [r], StdoutPipe) + Held(s.out) == s.out.produced[..s.out.read]
               && Stream(s.plan + [r], StderrPipe) + Held(s.err) == s.err.produced[..s.err.read]
    ensures Inv(LogRec(s, r, fate))
  {
    if Live(s) {
      assert s.exit.None? && s.whole;
      ShapeAfterRec(s.plan, s.log.file, r, fate);
    }
  }

  /** A reader hands over what it holds. */
  lemma HandOver(p: Pipe, logged: seq<byte>, live: bool)
    requires PipeInv(p, logged, live) && p.held.Some?
    ensures PipeInv(p.(held := None), logged, false)
    ensures live ==> (logged + p.held.value) + Held(p.(held := None)) == p.produced[..p.read]
  {
    assert (logged + p.held.value) + [] == logged + p.held.value;
  }

  lemma NothingSaid(p: Pipe, logged: seq<byte>, live: bool)
    requires PipeInv(p, logged, live)
    ensures PipeInv(p, logged, false) && (live ==> (logged + []) + Held(p) == p.produced[..p.read])
  {
    assert logged + [] == logged;
  }

  lemma FramePipeKeepsInv(s: Sup, src: Source, fate: WriteFate)
    requires Inv(s) && Enabled(s, FramePipe(src, fate))
    ensures Inv(Apply(s, FramePipe(src, fate)))
  {
    var p := PipeOf(s, src);
    var r := Rec(src, p.held.value);
    StreamAppend(s.plan, r, StdoutPipe);
    StreamAppend(s.plan, r, StderrPipe);
    if src.StdoutPipe? {
      HandOver(s.out, Stream(s.plan, StdoutPipe), Live(s));
      NothingSaid(s.err, Stream(s.plan, StderrPipe), Live(s));
      LogRecKeepsInv(s.(out := p.(held := None)), r, fate);
    } else {
      NothingSaid(s.out, Stream(s.plan, StdoutPipe), Live(s));
      HandOver(s.err, Stream(s.plan, StderrPipe), Live(s));
      LogRecKeepsInv(s.(err := p.(held := None)), r, fate);
    }
  }

  lemma SayKeepsInv(s: Sup, msg: seq<byte>, fate: WriteFate)
    requires Inv(s) && Enabled(s, Say(msg, fate))
    ensures Inv(Apply(s, Say(msg, fate)))
  {
    StreamAppend(s.plan, Rec(Helper, msg), StdoutPipe);
    StreamAppend(s.plan, Rec(Helper, msg), StderrPipe);
    NothingSaid(s.out, Stream(s.plan, StdoutPipe), Live(s));
    NothingSaid(s.err, Stream(s.plan, StderrPipe), Live(s));
    LogRecKeepsInv(s, Rec(Helper, msg), fate);
  }

  /** A pipe gains bytes, or its reader takes some. */
  lemma PipeKeepsInv(p: Pipe, q: Pipe, logged: seq<byte>, live: bool)
    requires PipeInv(p, logged, live)
    requires || (q.read == p.read && q.held == p.held && p.produced <= q.produced)
             || (q.produced == p.produced && p.held.None?
                 && p.read <= q.read <= |p.produced| && q.read <= p.read + READ_BUF
                 && q.held == Some(p.produced[p.read..q.read]))
    ensures PipeInv(q, logged, live)
  {
    assert q.produced[..p.read] == p.produced[..p.read];
    assert q.produced[..q.read] == q.produced[..p.read] + q.produced[p.read..q.read];
  }

  lemma ReaderKeepsInv(s: Sup, a: Act)
    requires Inv(s) && Enabled(s, a) && (a.Produce? || a.ReadPipe?)
    ensures Inv(Apply(s, a))
  {
    var src := a.src;
    var q := PipeOf(Apply(s, a), src);
    PipeKeepsInv(PipeOf(s, src), q, Stream(s.plan, src), Live(s));
    assert Apply(s, a) == SetPipe(s, src, q);
    SetPipeKeepsInv(s, src, q);
  }

  lemma SetPipeKeepsInv(s: Sup, src: Source, q: Pipe)
    requires Inv(s) && !src.Helper? && PipeInv(q, Stream(s.plan, src), Live(s))
    ensures Inv(SetPipe(s, src, q))
  {
  }

  lemma FinishKeepsInv(s: Sup, code: int, fate: WriteFate, closes: bool)
    requires Inv(s) && Enabled(s, Finish(code, fate, closes))
    ensures Inv(Apply(s, Finish(code, fate, closes)))
  {
    if !s.log.failed {
      ShapeAfterExit(s.plan, s.log.file, code, fate);
    }
  }

  lemma LifeKeepsInv(s: Sup, a: Act)
    requires Inv(s) && Enabled(s, a) && (a.Open? || a.MarkDone? || a.Die?)
    ensures Inv(Apply(s, a))
  {
    var t := Apply(s, a);
    assert LogShape(t.plan, t.exit, t.whole, t.log.file);
    assert Live(t) ==> Live(s);
  }

  /** Every step of the supervisor, in every interleaving, keeps the log well formed. */
  lemma StepKeepsInv(s: Sup, a: Act)
    requires Inv(s) && Enabled(s, a)
    ensures Inv(Apply(s, a))
  {
    match a
    case Open(_, _) => LifeKeepsInv(s, a);
    case Produce(_, _) => ReaderKeepsInv(s, a);
    case ReadPipe(_, _) => ReaderKeepsInv(s, a);
    case FramePipe(src, fate) => FramePipeKeepsInv(s, src, fate);
    case Say(msg, fate) => SayKeepsInv(s, msg, fate);
    case Finish(code, fate, closes) => FinishKeepsInv(s, code, fate, closes);
    case MarkDone(_) => LifeKeepsInv(s, a);
    case Die => LifeKeepsInv(s, a);
  }

  // ----- What the invariant gives -----

  /** How a step may change the log and what it stands for: it grows, until it is closed or its writer dead. */
  ghost predicate Grows(s: Sup, t: Sup) {
    && s.log.file <= t.log.file
    && (Frozen(s) ==> Frozen(t) && t.log.file == s.log.file)
    && s.plan <= t.plan
    && (s.done.Some? ==> t.done == s.done)
    && (s.life.Dead? ==> t.life.Dead? && t.done == s.done)
    && (s.exit.Some? ==> t.exit == s.exit && t.plan == s.plan)
    && s.out.produced <= t.out.produced && s.err.produced <= t.err.produced
  }

  lemma LogRecGrows(s: Sup, r: Rec, fate: WriteFate)
    requires PhaseInv(s) && !s.life.Dead?
    ensures Grows(s, LogRec(s, r, fate))
  {
  }

  lemma StepGrows(s: Sup, a: Act)
    requires PhaseInv(s) && Enabled(s, a)
    ensures Grows(s, Apply(s, a))
  {
    match a
    case FramePipe(src, fate) =>
      var p := PipeOf(s, src);
      LogRecGrows(SetPipe(s, src, p.(held := None)), Rec(src, p.held.value), fate);
    case Say(msg, fate) => LogRecGrows(s, Rec(Helper, msg), fate);
    case Finish(code, fate, closes) => FinishGrows(s, code, fate, closes);
    case Produce(_, _) => PipeGrows(s, a);
    case ReadPipe(_, _) => PipeGrows(s, a);
    case _ =>
  }

  lemma FinishGrows(s: Sup, code: int, fate: WriteFate, closes: bool)
    requires PhaseInv(s) && Enabled(s, Finish(code, fate, closes))
    ensures Grows(s, Apply(s, Finish(code, fate, closes)))
  {
  }

  lemma PipeGrows(s: Sup, a: Act)
    requires Enabled(s, a) && (a.Produce? || a.ReadPipe?)
    ensures Grows(s, Apply(s, a))
  {
  }

  function ExitCode(s: Sup): int {
    if s.exit.Some? then s.exit.value else 0
  }

  /**
   * Every prefix of the log decodes without corruption to a prefix of the
   * frames begun; the exit code shows only once the log is whole, and an empty
   * done file exists only for such a log.
   */
  lemma LogDecodes(s: Sup, k: nat)
    requires Inv(s) && k <= |s.log.file|
    ensures SoundFrames(Frames(s.plan))
    ensures s.log.file[..k] <= Ended(Frames(s.plan), ExitCode(s))
    ensures ReadsBack(Frames(s.plan), ExitCode(s), s.log.file[..k], Parse(s.log.file[..k]))
    ensures Parse(s.log.file[..k]).exit.Some? ==> s.exit.Some? && k == |s.log.file|
    ensures s.done == Some(true) ==> s.log.file == Ended(Frames(s.plan), s.exit.value)
    ensures s.done.Some? && !NeverOpened(s) ==> (s.done.value <==> !s.log.failed)
  {
    assert s.log.file <= Ended(Frames(s.plan), ExitCode(s));
    if s.done.Some? {
      assert s.done == if s.done.value then Some(true) else Some(false);
    }
    var log := s.log.file[..k];
    ParsePrefix(Frames(s.plan), ExitCode(s), log);
    assert |Ended(Frames(s.plan), ExitCode(s))| > |Encode(Frames(s.plan))|;
  }

  // ----- Whole runs -----

  /** A supervisor after a sequence of steps, if each can be taken. */
  function Acts(s: Sup, acts: seq<Act>): Option<Sup>
    decreases |acts|
  {
    if acts == [] then Some(s)
    else if !Enabled(s, acts[0]) then None
    else Acts(Apply(s, acts[0]), acts[1..])
  }

  /** A step in which no write to the log goes wrong. */
  predicate Faultless(a: Act) {
    match a
    case Open(ok, _) => ok
    case FramePipe(_, fate) => fate.Full?
    case Say(_, fate) => fate.Full?
    case Finish(_, fate, closes) => fate.Full? && closes
    case _ => true
  }

  lemma FaultlessStep(s: Sup, a: Act)
    requires Inv(s) && !s.log.failed && s.done != Some(false) && Enabled(s, a) && Faultless(a)
    ensures Inv(Apply(s, a)) && !Apply(s, a).log.failed && Apply(s, a).done != Some(false)
  {
    StepKeepsInv(s, a);
    StaysFaultless(s, a);
  }

  lemma StaysFaultless(s: Sup, a: Act)
    requires !s.log.failed && s.done != Some(false) && Enabled(s, a) && Faultless(a)
    ensures !Apply(s, a).log.failed && Apply(s, a).done != Some(false)
  {
  }

  lemma {:induction false} FaultlessRun(s: Sup, acts: seq<Act>, t: Sup)
    requires Inv(s) && !s.log.failed && s.done != Some(false)
    requires Acts(s, acts) == Some(t) && forall i :: 0 <= i < |acts| ==> Faultless(acts[i])
    ensures Inv(t) && !t.log.failed && t.done != Some(false)
    decreases |acts|
  {
    if acts != [] {
      FaultlessStep(s, acts[0]);
      FaultlessRun(Apply(s, acts[0]), acts[1..], t);
    }
  }

  lemma {:induction false} ActsKeepInv(s: Sup, acts: seq<Act>, t: Sup)
    requires Inv(s) && Acts(s, acts) == Some(t)
    ensures Inv(t)
    decreases |acts|
  {
    if acts != [] {
      StepKeepsInv(s, acts[0]);
      ActsKeepInv(Apply(s, acts[0]), acts[1..], t);
    }
  }

  /**
   * The done file tells what became of the log: empty only for one that is
   * whole and ends in its exit record, and not empty only when something went
   * wrong with opening, writing or closing it.
   */
  lemma DoneExactly(acts: seq<Act>, t: Sup)
    requires Acts(SPAWNED, acts) == Some(t) && t.done.Some?
    ensures t.done == Some(true) ==> t.exit.Some? && t.log.file == Ended(Frames(t.plan), t.exit.value)
    ensures t.done == Some(false) ==> exists i :: 0 <= i < |acts| && !Faultless(acts[i])
  {
    SpawnedInv();
    ActsKeepInv(SPAWNED, acts, t);
    LogDecodes(t, 0);
    if forall i :: 0 <= i < |acts| ==> Faultless(acts[i]) {
      FaultlessRun(SPAWNED, acts, t);
    }
  }

  /** A supervisor that gets to mark the end leaves a done file, also when it could not even open the log. */
  lemma AlwaysMarked(s: Sup)
    requires Inv(s)
    ensures Enabled(s, MarkDone(true)) ==>
              var t := Apply(s, MarkDone(true));
              && t.done.Some?
              && (t.done.value <==> !s.log.failed && s.exit.Some? && s.log.file == Ended(Frames(s.plan), s.exit.value))
    ensures Enabled(s, Open(false, true)) ==> Apply(s, Open(false, true)).done == Some(false)
  {
  }

  lemma {:induction false} ActsThen(s: Sup, acts: seq<Act>, t: Sup, a: Act)
    requires Acts(s, acts) == Some(t) && Enabled(t, a)
    ensures Acts(s, acts + [a]) == Some(Apply(t, a))
    decreases |acts|
  {
    if acts == [] {
      assert ([a])[1..] == [];
      assert Acts(Apply(s, a), []) == Some(Apply(s, a));
    } else {
      assert (acts + [a])[1..] == acts[1..] + [a];
      ActsThen(Apply(s, acts[0]), acts[1..], t, a);
    }
  }

  /** Nothing unread, nothing held, nothing wrong: `recs` has been logged. */
  ghost predicate CaughtUp(s: Sup, recs: seq<Rec>) {
    && s.life.Logging? && s.plan == recs && s.exit.None? && s.done.None?
    && s.log == LogState(Encode(Frames(recs)), false, false)
    && s.out.held.None? && s.out.read == |s.out.produced|
    && s.err.held.None? && s.err.read == |s.err.produced|
    && s.out.produced == Stream(recs, StdoutPipe) && s.err.produced == Stream(recs, StderrPipe)
  }

  /** Output in pieces that the readers take as they come. */
  predicate Pieces(recs: seq<Rec>) {
    forall i :: 0 <= i < |recs| ==> !recs[i].source.Helper? && 0 < |recs[i].payload| <= READ_BUF
  }

  /** A source writes a piece, and its reader takes it. */
  lemma PieceTaken(s: Sup, recs: seq<Rec>, r: Rec) returns (t: Sup)
    requires CaughtUp(s, recs) && !r.source.Helper? && 0 < |r.payload| <= READ_BUF
    ensures Acts(s, [Produce(r.source, r.payload), ReadPipe(r.source, |r.payload|)]) == Some(t)
    ensures var p := PipeOf(s, r.source).produced + r.payload;
            t == SetPipe(s, r.source, Pipe(p, |p|, Some(r.payload)))
  {
    var p := PipeOf(s, r.source);
    var a, b := Produce(r.source, r.payload), ReadPipe(r.source, |r.payload|);
    var all, m := p.produced + r.payload, Apply(s, a);
    assert all[p.read..p.read + |r.payload|] == r.payload;
    t := Apply(m, b);
    TwoActs(s, a, b);
  }

  lemma TwoActs(s: Sup, a: Act, b: Act)
    requires Enabled(s, a) && Enabled(Apply(s, a), b)
    ensures Acts(s, [a, b]) == Some(Apply(Apply(s, a), b))
  {
    var m, t := Apply(s, a), Apply(Apply(s, a), b);
    assert [a, b][1..] == [b] && [b][1..] == [];
    assert Acts(t, []) == Some(t);
    assert Acts(m, [b]) == Some(t);
  }

  /** And logs it. */
  lemma PieceLogged(s: Sup, recs: seq<Rec>, r: Rec, t: Sup)
    requires CaughtUp(s, recs) && !r.source.Helper?
    requires var p := PipeOf(s, r.source).produced + r.payload;
             t == SetPipe(s, r.source, Pipe(p, |p|, Some(r.payload)))
    ensures Enabled(t, FramePipe(r.source, Full)) && CaughtUp(Apply(t, FramePipe(r.source, Full)), recs + [r])
  {
    FramesAppend(recs, r);
    StreamAppend(recs, r, StdoutPipe);
    StreamAppend(recs, r, StderrPipe);
    assert s.out.produced + [] == s.out.produced && s.err.produced + [] == s.err.produced;
  }

  lemma OnePiece(s: Sup, recs: seq<Rec>, r: Rec) returns (acts: seq<Act>, t: Sup)
    requires CaughtUp(s, recs) && !r.source.Helper? && 0 < |r.payload| <= READ_BUF
    ensures Acts(s, acts) == Some(t) && CaughtUp(t, recs + [r])
  {
    var taken := PieceTaken(s, recs, r);
    PieceLogged(s, recs, r, taken);
    var two, c := [Produce(r.source, r.payload), ReadPipe(r.source, |r.payload|)], FramePipe(r.source, Full);
    ActsThen(s, two, taken, c);
    acts, t := two + [c], Apply(taken, c);
  }

  lemma {:induction false} ActsConcat(s: Sup, a: seq<Act>, m: Sup, b: seq<Act>)
    requires Acts(s, a) == Some(m)
    ensures Acts(s, a + b) == Acts(m, b)
    decreases |a|
  {
    if a == [] {
      assert a + b == b;
    } else {
      assert (a + b)[1..] == a[1..] + b;
      ActsConcat(Apply(s, a[0]), a[1..], m, b);
    }
  }

  lemma {:induction false} AllPieces(recs: seq<Rec>) returns (acts: seq<Act>, t: Sup)
    requires Pieces(recs)
    ensures Acts(SPAWNED, acts) == Some(t) && CaughtUp(t, recs)
    decreases |recs|
  {
    if recs == [] {
      acts, t := [Open(true, true)], Apply(SPAWNED, Open(true, true));
      assert acts[1..] == [] && Acts(t, []) == Some(t);
      assert Frames(recs) == [] && Stream(recs, StdoutPipe) == [] && Stream(recs, StderrPipe) == [];
    } else {
      var init, r := recs[..|recs| - 1], recs[|recs| - 1];
      var before, s := AllPieces(init);
      var more;
      more, t := OnePiece(s, init, r);
      acts := before + more;
      ActsConcat(SPAWNED, before, s, more);
      assert recs == init + [r];
    }
  }

  /**
   * An ordinary step can happen: whatever it writes, in whatever order its
   * readers take it, its log comes to hold all of it and the exit record, and
   * is marked complete.
   */
  lemma OrdinaryStep(recs: seq<Rec>, code: int) returns (acts: seq<Act>, t: Sup)
    requires Pieces(recs)
    ensures Acts(SPAWNED, acts) == Some(t)
    ensures t.plan == recs && t.log.file == Ended(Frames(recs), code) && t.exit == Some(code)
    ensures t.done == Some(true)
    ensures t.out.produced == Stream(recs, StdoutPipe) && t.err.produced == Stream(recs, StderrPipe)
  {
    var s;
    acts, s := AllPieces(recs);
    var a := Finish(code, Full, true);
    ActsThen(SPAWNED, acts, s, a);
    ActsThen(SPAWNED, acts + [a], Apply(s, a), MarkDone(true));
    t := Apply(Apply(s, a), MarkDone(true));
    acts := acts + [a] + [MarkDone(true)];
  }

  /** What a frame list says on a stream is what its sources logged, stdout having only one. */
  lemma {:induction false} StreamIsSelect(plan: seq<Rec>)
    ensures Select(KIND_STDOUT, Flatten(Frames(plan))) == Stream(plan, StdoutPipe)
    ensures (forall r :: r in plan ==> !r.source.Helper?) ==>
              Select(KIND_STDERR, Flatten(Frames(plan))) == Stream(plan, StderrPipe)
    decreases |plan|
  {
    if plan == [] {
      assert Frames(plan) == [];
    } else {
      var init, r := plan[..|plan| - 1], plan[|plan| - 1];
      assert plan == init + [r];
      StreamIsSelect(init);
      FramesAppend(init, r);
      var f := Frame(KindOf(r.source), r.payload);
      FlattenConcat(Frames(init), [f]);
      FlattenOne(f);
      SelectConcat(KIND_STDOUT, Flatten(Frames(init)), Tag(f.kind, f.payload));
      SelectConcat(KIND_STDERR, Flatten(Frames(init)), Tag(f.kind, f.payload));
      SelectTag(KIND_STDOUT, f.kind, f.payload);
      SelectTag(KIND_STDERR, f.kind, f.payload);
    }
  }

  /** What the log says of a stream is a prefix of what the step wrote to it. */
  lemma LoggedIsPrefix(s: Sup)
    requires Inv(s)
    ensures Select(KIND_STDOUT, Flatten(Frames(s.plan))) <= s.out.produced
    ensures (forall r :: r in s.plan ==> !r.source.Helper?) ==>
              Select(KIND_STDERR, Flatten(Frames(s.plan))) <= s.err.produced
  {
    StreamIsSelect(s.plan);
  }

  /** If both readers had taken and logged everything when the log was finished, all of it is in the log for good. */
  lemma SettledFinishLosesNothing(s: Sup, code: int, closes: bool)
    requires Inv(s) && Enabled(s, Finish(code, Full, closes)) && !s.log.failed
    requires s.out.held.None? && s.out.read == |s.out.produced|
    requires s.err.held.None? && s.err.read == |s.err.produced|
    ensures var t := Apply(s, Finish(code, Full, closes));
            && t.log.file == Ended(Frames(s.plan), code)
            && Stream(t.plan, StdoutPipe) == s.out.produced
            && Stream(t.plan, StderrPipe) == s.err.produced
  {
    assert s.out.produced[..s.out.read] == s.out.produced;
    assert s.err.produced[..s.err.read] == s.err.produced;
  }
}
