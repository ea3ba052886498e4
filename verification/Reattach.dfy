/**
 * runStep: runs a step over an exec stream that may break at any byte, and
 * reattaches to its log until the exit record arrives.
 */
module Reattach {
  import opened Bytes
  import opened ExecStream
  import opened StepIO
  import opened Argv

  /** Nanoseconds. */
  const MAX_REATTACH_BACKOFF := 10_000_000_000

  const TWO_63 := 0x8000_0000_0000_0000
  const TWO_64 := 0x1_0000_0000_0000_0000

  // ----- Waits -----

  function Pow2(k: nat): nat {
    if k == 0 then 1 else 2 * Pow2(k - 1)
  }

  function WrapInt64(x: int): int {
    (x + TWO_63) % TWO_64 - TWO_63
  }

  /** min(backoff << min(fails, 16), maxReattachBackoff), in int64 arithmetic */
  function Wait(backoff: int, fails: nat): int {
    Min(WrapInt64(backoff * Pow2(Min(fails, 16))), MAX_REATTACH_BACKOFF)
  }

  lemma {:induction false} Pow2Bounds(k: nat, m: nat)
    requires k <= m
    ensures 1 <= Pow2(k) <= Pow2(m)
    decreases m
  {
    if m > 0 {
      if k < m {
        Pow2Bounds(k, m - 1);
      } else {
        Pow2Bounds(k - 1, m - 1);
      }
    }
  }

  lemma MulMonotone(b: int, x: int, y: int)
    requires 0 <= b && x <= y
    ensures b * x <= b * y
  {
  }

  /** The shift does not overflow; the wait is positive, capped, at least the backoff, and grows with failures. */
  lemma WaitBounds(backoff: int, fails: nat, later: nat)
    requires 0 < backoff <= MAX_REATTACH_BACKOFF && fails <= later
    ensures WrapInt64(backoff * Pow2(Min(fails, 16))) == backoff * Pow2(Min(fails, 16))
    ensures 0 < backoff <= Wait(backoff, fails) <= Wait(backoff, later) <= MAX_REATTACH_BACKOFF
  {
    var k, m := Min(fails, 16), Min(later, 16);
    Pow2Bounds(0, k);
    Pow2Bounds(k, m);
    Pow2Bounds(m, 16);
    assert Pow2(16) == 65536 by {
      assert Pow2(4) == 16;
      assert Pow2(8) == 256;
      assert Pow2(12) == 4096;
    }
    MulMonotone(backoff, 1, Pow2(k));
    MulMonotone(backoff, Pow2(k), Pow2(m));
    MulMonotone(backoff, Pow2(m), 65536);
  }

  /** From one failure to the next the wait doubles, up to the cap; after sixteen it stays. */
  lemma WaitDoubles(backoff: int, fails: nat)
    requires 0 < backoff <= MAX_REATTACH_BACKOFF
    ensures Wait(backoff, 0) == backoff
    ensures Wait(backoff, fails + 1)
         == if fails < 16 then Min(2 * Wait(backoff, fails), 10_000_000_000) else Wait(backoff, fails)
  {
    WaitBounds(backoff, 0, fails);
    WaitBounds(backoff, fails, fails + 1);
    assert Pow2(0) == 1;
    if fails < 16 {
      assert Pow2(fails + 1) == 2 * Pow2(fails);
      Doubles(backoff, Pow2(fails), Pow2(fails + 1));
    }
  }

  lemma Doubles(b: int, x: int, y: int)
    requires y == 2 * x
    ensures b * y == 2 * (b * x)
  {
  }

  // ----- Attempts and their verdicts -----

  /** How backend.Exec ends: with the helper's exit code, an error that rules out another try, or just broken. */
  datatype End = Exited(code: int) | PodFinished | NoBinary | Broken

  datatype Why = Interrupted | BadOutput(status: Status) | NoExitRecord(code: int) | Unrunnable(end: End) | GaveUp

  datatype Ret = Returned(code: int, err: Option<Why>) | StillRunning

  /** Without an exit record: Some(err) to return (-1, err), None when only a broken stream is to blame. */
  function StopReason(status: Status, end: End, cancelled: bool): Option<Option<Why>> {
    if cancelled then Some(if end.Exited? then None else Some(Interrupted))
    else if status != Fine then Some(Some(BadOutput(status)))
    else if end.Exited? then Some(Some(NoExitRecord(end.code)))
    else if !end.Broken? then Some(Some(Unrunnable(end)))
    else None
  }

  /** What decides how runStep goes on after an attempt, in the order it is looked at. */
  function Judge(d: Dec, status: Status, end: End, cancelled: bool, late: bool, interrupted: bool): Option<Ret> {
    if d.exited then Some(Returned(d.code, None))
    else
      match StopReason(status, end, cancelled)
      case Some(err) => Some(Returned(-1, err))
      case None =>
        if late then Some(Returned(-1, Some(GaveUp)))
        else if interrupted then Some(Returned(-1, Some(Interrupted)))
        else None
  }

  /**
   * One exec of the helper as the environment plays it: the writes it makes
   * and how it ends, its duration, the time until the deadline is checked, a
   * cancellation during the wait and how much longer than asked the wait was.
   */
  datatype Attempt = Attempt(chunks: seq<seq<byte>>, end: End, cancelled: bool, took: nat, lag: nat,
                             interrupted: bool, overslept: nat)

  datatype Config = Config(run: seq<string>, helper: string, dir: string, timeout: nat, backoff: int, start: int)

  /** What happened in one attempt. */
  datatype Turn = Turn(argv: seq<string>, got: seq<byte>, status: Status, attempt: Attempt, ended: int, wait: int)

  function Received(turns: seq<Turn>): seq<byte> {
    if turns == [] then [] else Received(turns[..|turns| - 1]) + turns[|turns| - 1].got
  }

  /** Until output arrived the step is run, which starts it at most once; then its log is followed on. */
  function ArgvFor(c: Config, offset: nat): seq<string> {
    if offset == 0 then c.run else FollowArgv(c.helper, c.dir, offset)
  }

  /** When the last attempt up to the i-th that brought bytes ended; the start if none did. */
  function LastProgress(c: Config, turns: seq<Turn>, i: nat): int
    requires i <= |turns|
  {
    if i == 0 then c.start
    else if turns[i - 1].got != [] then turns[i - 1].ended
    else LastProgress(c, turns, i - 1)
  }

  /** Failures in a row before the i-th wait, as the loop counts them. */
  function Fails(turns: seq<Turn>, i: nat): nat
    requires i < |turns|
  {
    if turns[i].got != [] || i == 0 then 0 else Fails(turns, i - 1) + 1
  }

  predicate Late(c: Config, turns: seq<Turn>, i: nat)
    requires i < |turns|
  {
    turns[i].ended + turns[i].attempt.lag > LastProgress(c, turns, i + 1) + c.timeout
  }

  /** The i-th attempt asked for the right bytes, and the decoder was fed what it served, up to the first error. */
  ghost predicate Asked(c: Config, world: (nat, seq<string>) -> Attempt, turns: seq<Turn>, i: nat)
    requires i < |turns|
  {
    var t := turns[i];
    && t.argv == ArgvFor(c, |Received(turns[..i])|)
    && t.attempt == world(i, t.argv)
    && t.got <= Concat(t.attempt.chunks)
    && (t.status == Fine ==> t.got == Concat(t.attempt.chunks))
    && t.wait == Wait(c.backoff, Fails(turns, i))
  }

  /** The i-th attempt ended when it did, and left nothing but to try again. */
  ghost predicate WentOn(c: Config, turns: seq<Turn>, i: nat)
    requires i < |turns|
  {
    var t := turns[i];
    var p := Parse(Received(turns[..i + 1]));
    && t.status == Fine && p.fault == None && p.exit == None
    && t.attempt.end.Broken? && !t.attempt.cancelled && !t.attempt.interrupted
    && !Late(c, turns, i)
  }

  ghost predicate Timed(c: Config, turns: seq<Turn>, i: nat)
    requires i < |turns|
  {
    turns[i].ended == turns[i].attempt.took +
      if i == 0 then c.start
      else turns[i - 1].ended + turns[i - 1].attempt.lag + turns[i - 1].wait + turns[i - 1].attempt.overslept
  }

  /** A complete account of a runStep: what it asked, what it got, when, and how that decided its result. */
  ghost predicate Account(c: Config, world: (nat, seq<string>) -> Attempt, turns: seq<Turn>, d: Dec, r: Ret) {
    && (forall i :: 0 <= i < |turns| ==> Asked(c, world, turns, i) && Timed(c, turns, i))
    && (forall i :: 0 <= i < |turns| - 1 ==> WentOn(c, turns, i))
    && (turns == [] ==> r == StillRunning && d == FRESH)
    && (turns != [] ==>
          var last := turns[|turns| - 1];
          && Reflects(d, last.status, Received(turns))
          && (match Judge(d, last.status, last.attempt.end, last.attempt.cancelled,
                          Late(c, turns, |turns| - 1), last.attempt.interrupted)
              case Some(v) => r == v
              case None => r == StillRunning && WentOn(c, turns, |turns| - 1)))
  }

  // ----- The loop -----

  /** The exec stream writes chunk by chunk, and not again once a write has failed. */
  method Transport(dec: Decoder, chunks: seq<seq<byte>>, ghost log: seq<byte>) returns (status: Status, got: seq<byte>)
    requires Tracks(dec.State(), log)
    modifies dec, dec.stream
    ensures got <= Concat(chunks) && (status == Fine ==> got == Concat(chunks))
    ensures Reflects(dec.State(), status, log + got)
    ensures status == Fine ==> Tracks(dec.State(), log + got)
    ensures Infallible(dec.stream.fate) ==> !status.SinkFailed?
  {
    got, status := [], Fine;
    ghost var seen := log;
    var i := 0;
    assert log + got == log;
    while i < |chunks| && status == Fine
      invariant 0 <= i <= |chunks| && got == Concat(chunks[..i]) && seen == log + got
      invariant got <= Concat(chunks)
      invariant Reflects(dec.State(), status, seen) && (status == Fine ==> Tracks(dec.State(), seen))
      invariant Infallible(dec.stream.fate) ==> !status.SinkFailed?
    {
      ConcatSplit(chunks, i);
      status := dec.WriteTracked(chunks[i], seen);
      Associates(log, got, chunks[i]);
      got, seen, i := got + chunks[i], seen + chunks[i], i + 1;
    }
    if i == |chunks| {
      assert chunks[..|chunks|] == chunks;
    }
  }

  lemma ReceivedAppend(turns: seq<Turn>, t: Turn)
    ensures Received(turns + [t]) == Received(turns) + t.got
    ensures (turns + [t])[..|turns|] == turns
  {
  }

  lemma {:induction false} PrefixCounts(c: Config, turns: seq<Turn>, t: Turn, i: nat)
    requires i <= |turns|
    ensures LastProgress(c, turns + [t], i) == LastProgress(c, turns, i)
    ensures i < |turns| ==> Fails(turns + [t], i) == Fails(turns, i)
    ensures (turns + [t])[..i] == turns[..i]
  {
    if i > 0 {
      PrefixCounts(c, turns, t, i - 1);
    }
  }

  lemma AccountStays(c: Config, world: (nat, seq<string>) -> Attempt, turns: seq<Turn>, t: Turn, i: nat)
    requires i < |turns|
    ensures Asked(c, world, turns + [t], i) == Asked(c, world, turns, i)
    ensures Timed(c, turns + [t], i) == Timed(c, turns, i)
    ensures WentOn(c, turns + [t], i) == WentOn(c, turns, i)
  {
    PrefixCounts(c, turns, t, i);
    PrefixCounts(c, turns, t, i + 1);
  }

  /** What the loop knows between attempts: everything so far went on, and clocks and counters agree with it. */
  ghost predicate Ongoing(c: Config, world: (nat, seq<string>) -> Attempt, turns: seq<Turn>,
                          now: int, deadline: int, fails: nat) {
    && (forall i :: 0 <= i < |turns| ==> Asked(c, world, turns, i) && Timed(c, turns, i) && WentOn(c, turns, i))
    && deadline == LastProgress(c, turns, |turns|) + c.timeout
    && (turns == [] ==> now == c.start && fails == 0)
    && (turns != [] ==>
          var last := turns[|turns| - 1];
          && now == last.ended + last.attempt.lag + last.wait + last.attempt.overslept
          && fails == Fails(turns, |turns| - 1) + 1)
  }

  /** The next turn of an ongoing loop: it asked for the right bytes at the right time. */
  ghost predicate Follows(c: Config, world: (nat, seq<string>) -> Attempt, turns: seq<Turn>, t: Turn,
                          now: int, fails: nat)
  {
    && t.argv == ArgvFor(c, |Received(turns)|) && t.attempt == world(|turns|, t.argv)
    && t.got <= Concat(t.attempt.chunks) && (t.status == Fine ==> t.got == Concat(t.attempt.chunks))
    && t.wait == Wait(c.backoff, if t.got != [] then 0 else fails)
    && t.ended == now + t.attempt.took
  }

  /** One exec of the helper, decoded. */
  method Exec(dec: Decoder, c: Config, world: (nat, seq<string>) -> Attempt, argv: seq<string>, now: int, fails: nat,
              k: nat, ghost turns: seq<Turn>)
    returns (t: Turn)
    requires Tracks(dec.State(), Received(turns)) && argv == ArgvFor(c, |Received(turns)|) && k == |turns|
    modifies dec, dec.stream
    ensures Follows(c, world, turns, t, now, fails)
    ensures Reflects(dec.State(), t.status, Received(turns + [t]))
    ensures t.got != [] <==> dec.offset > old(dec.offset)
    ensures Infallible(dec.stream.fate) ==> !t.status.SinkFailed?
  {
    var a := world(k, argv);
    var status, got := Transport(dec, a.chunks, Received(turns));
    t := Turn(argv, got, status, a, now + a.took, Wait(c.backoff, if got != [] then 0 else fails));
    ReceivedAppend(turns, t);
  }

  /** The switch after an attempt. */
  method Classify(t: Turn) returns (stop: Option<Option<Why>>)
    ensures stop == StopReason(t.status, t.attempt.end, t.attempt.cancelled)
  {
    if t.attempt.cancelled {
      return Some(if t.attempt.end.Exited? then None else Some(Interrupted));
    } else if t.status != Fine {
      return Some(Some(BadOutput(t.status)));
    } else if t.attempt.end.Exited? {
      return Some(Some(NoExitRecord(t.attempt.end.code)));
    } else if t.attempt.end.PodFinished? || t.attempt.end.NoBinary? {
      return Some(Some(Unrunnable(t.attempt.end)));
    }
    return None;
  }

  /** The loop's variables besides the decoder. */
  datatype Vars = Vars(argv: seq<string>, now: int, deadline: int, fails: nat)

  /** One round of the loop: an exec and what it leads to. */
  method Round(dec: Decoder, c: Config, world: (nat, seq<string>) -> Attempt, v: Vars, turns: seq<Turn>)
    returns (r: Ret, t: Turn, v': Vars)
    requires Ongoing(c, world, turns, v.now, v.deadline, v.fails)
    requires Tracks(dec.State(), Received(turns)) && v.argv == ArgvFor(c, dec.offset)
    modifies dec, dec.stream
    ensures Account(c, world, turns + [t], dec.State(), r)
    ensures r.StillRunning? ==>
              && Ongoing(c, world, turns + [t], v'.now, v'.deadline, v'.fails)
              && Tracks(dec.State(), Received(turns + [t])) && v'.argv == ArgvFor(c, dec.offset)
    ensures Infallible(dec.stream.fate) ==> !t.status.SinkFailed?
  {
    v' := v;
    var before := dec.Offset();
    t := Exec(dec, c, world, v.argv, v.now, v.fails, |turns|, turns);
    var now := t.ended;
    NextTurn(c, world, turns, t, dec.State(), v.now, v.deadline, v.fails);
    Settles(c, world, turns + [t], |turns|, dec.State());
    var exit, exited := dec.Exit();
    if exited {
      return Returned(exit, None), t, v';
    }
    var stop := Classify(t);
    if stop.Some? {
      return Returned(-1, stop.value), t, v';
    }
    var offset := dec.Offset();
    var deadline, fails := v.deadline, v.fails;
    if offset > before {
      deadline, fails := now + c.timeout, 0;
    }
    now := now + t.attempt.lag;
    if now > deadline {
      return Returned(-1, Some(GaveUp)), t, v';
    }
    if t.attempt.interrupted {
      return Returned(-1, Some(Interrupted)), t, v';
    }
    now := now + t.wait + t.attempt.overslept;
    var argv := c.run;
    if offset > 0 {
      argv := FollowArgv(c.helper, c.dir, offset);
    }
    return StillRunning, t, Vars(argv, now, deadline, fails + 1);
  }

  /** runStep, watched for at most `budget` attempts; `world` and `fate` are the environment's choices. */
  method RunStep(c: Config, world: (nat, seq<string>) -> Attempt, fate: nat -> bool, budget: nat)
    returns (r: Ret, turns: seq<Turn>, sent: seq<Frame>, ghost d: Dec)
    ensures Account(c, world, turns, d, r) && sent == d.sent
    ensures |turns| <= budget && (r.StillRunning? ==> |turns| == budget)
    ensures Infallible(fate) ==> forall t :: t in turns ==> !t.status.SinkFailed?
  {
    var stream := new Stream(fate);
    var dec := new Decoder(stream);
    var v := Vars(c.run, c.start, c.start + c.timeout, 0);
    turns, d, r := [], FRESH, StillRunning;
    FreshTracks();
    while |turns| < budget && r.StillRunning?
      invariant fresh(dec) && fresh(stream) && dec.stream == stream && stream.fate == fate
      invariant Infallible(fate) ==> forall t :: t in turns ==> !t.status.SinkFailed?
      invariant |turns| <= budget && d == dec.State() && Account(c, world, turns, d, r)
      invariant r.StillRunning? ==>
                  && Ongoing(c, world, turns, v.now, v.deadline, v.fails)
                  && Tracks(d, Received(turns)) && v.argv == ArgvFor(c, dec.offset)
      decreases budget - |turns|
    {
      var t;
      r, t, v := Round(dec, c, world, v, turns);
      turns := turns + [t];
      d := dec.State();
    }
    sent := stream.sent;
  }

  /** The account extended by the next turn, whatever its verdict. */
  ghost predicate Extended(c: Config, world: (nat, seq<string>) -> Attempt, all: seq<Turn>, n: nat, d: Dec) {
    && |all| == n + 1
    && (forall i :: 0 <= i < |all| ==> Asked(c, world, all, i) && Timed(c, all, i))
    && (forall i :: 0 <= i < n ==> WentOn(c, all, i))
    && Reflects(d, all[n].status, Received(all))
  }

  /** The newest turn's verdict is the result, or the loop is ongoing again. */
  lemma Settles(c: Config, world: (nat, seq<string>) -> Attempt, all: seq<Turn>, n: nat, d: Dec)
    requires Extended(c, world, all, n, d)
    ensures var t := all[n];
            match Judge(d, t.status, t.attempt.end, t.attempt.cancelled, Late(c, all, n), t.attempt.interrupted)
            case Some(v) => Account(c, world, all, d, v)
            case None =>
              && Account(c, world, all, d, StillRunning)
              && Ongoing(c, world, all, t.ended + t.attempt.lag + t.wait + t.attempt.overslept,
                         LastProgress(c, all, n + 1) + c.timeout, Fails(all, n) + 1)
              && Tracks(d, Received(all)) && !d.exited
  {
    var t := all[n];
    if Judge(d, t.status, t.attempt.end, t.attempt.cancelled, Late(c, all, n), t.attempt.interrupted) == None {
      assert all[..n + 1] == all;
      assert WentOn(c, all, n);
    }
  }

  lemma OlderTurns(c: Config, world: (nat, seq<string>) -> Attempt, turns: seq<Turn>, t: Turn)
    requires forall i :: 0 <= i < |turns| ==> Asked(c, world, turns, i) && Timed(c, turns, i) && WentOn(c, turns, i)
    ensures var all := turns + [t];
            forall i :: 0 <= i < |turns| ==> Asked(c, world, all, i) && Timed(c, all, i) && WentOn(c, all, i)
  {
    var all := turns + [t];
    forall i | 0 <= i < |turns| ensures Asked(c, world, all, i) && Timed(c, all, i) && WentOn(c, all, i) {
      AccountStays(c, world, turns, t, i);
    }
  }

  lemma NewestTurn(c: Config, world: (nat, seq<string>) -> Attempt, turns: seq<Turn>, t: Turn,
                   now: int, deadline: int, fails: nat)
    requires Ongoing(c, world, turns, now, deadline, fails)
    requires Follows(c, world, turns, t, now, fails)
    ensures Asked(c, world, turns + [t], |turns|) && Timed(c, turns + [t], |turns|)
  {
    NewestCounts(c, world, turns, t, now, deadline, fails);
    assert (turns + [t])[..|turns|] == turns;
  }

  lemma NewestCounts(c: Config, world: (nat, seq<string>) -> Attempt, turns: seq<Turn>, t: Turn,
                     now: int, deadline: int, fails: nat)
    requires Ongoing(c, world, turns, now, deadline, fails)
    ensures Fails(turns + [t], |turns|) == (if t.got != [] then 0 else fails)
    ensures LastProgress(c, turns + [t], |turns| + 1) + c.timeout
         == if t.got != [] then t.ended + c.timeout else deadline
  {
    var n := |turns|;
    PrefixCounts(c, turns, t, n);
    if n > 0 {
      PrefixCounts(c, turns, t, n - 1);
    }
  }

  /** An ongoing loop and its next turn. */
  lemma NextTurn(c: Config, world: (nat, seq<string>) -> Attempt, turns: seq<Turn>, t: Turn, d: Dec,
                 now: int, deadline: int, fails: nat)
    requires Ongoing(c, world, turns, now, deadline, fails)
    requires Follows(c, world, turns, t, now, fails) && Reflects(d, t.status, Received(turns + [t]))
    ensures Extended(c, world, turns + [t], |turns|, d)
    ensures Fails(turns + [t], |turns|) == (if t.got != [] then 0 else fails)
    ensures LastProgress(c, turns + [t], |turns| + 1) + c.timeout
         == if t.got != [] then t.ended + c.timeout else deadline
  {
    OlderTurns(c, world, turns, t);
    NewestTurn(c, world, turns, t, now, deadline, fails);
    NewestCounts(c, world, turns, t, now, deadline, fails);
  }
}
