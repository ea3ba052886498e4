/** What runStep guarantees, for every behaviour of the exec stream. */
module ReattachProofs {
  import opened Bytes
  import opened ExecStream
  import opened StepIO
  import opened StepLog
  import opened Argv
  import opened Reattach

  // ----- Exactly once -----

  /** What an argv asks for: the log from some byte on. */
  function Asks(c: Config, argv: seq<string>): Option<nat> {
    if argv == c.run then Some(0)
    else if |argv| != 4 || argv[1] != "follow" then None
    else match ParseFollow(argv[2..])
         case Ok((dir, off)) => if dir == c.dir then Some(off) else None
         case Err(_) => None
  }

  /** The pod holds `log`: whatever a helper is asked for, the stream brings a prefix of it, then breaks or ends. */
  ghost predicate Serves(c: Config, world: (nat, seq<string>) -> Attempt, log: seq<byte>) {
    forall i: nat, argv: seq<string> :: ServesOne(Asks(c, argv), Concat(world(i, argv).chunks), log)
  }

  ghost predicate ServesOne(from: Option<nat>, got: seq<byte>, log: seq<byte>) {
    from.Some? && from.value <= |log| ==> got <= log[from.value..]
  }

  /** The plugin asks for exactly the bytes it does not have yet. */
  lemma AsksForTheRest(c: Config, offset: nat)
    requires IsAbs(c.dir) && offset <= MAX_INT64
    requires c.run == FollowArgv(c.helper, c.dir, offset) ==> offset == 0
    ensures Asks(c, ArgvFor(c, offset)) == Some(offset)
  {
    FollowRoundTrip(c.helper, c.dir, offset);
  }

  /** `run` is never mistaken for a `follow` of another offset. */
  predicate RunArgvShape(c: Config) {
    |c.run| > 1 && c.run[1] == "run"
  }

  /** Received bytes are always a prefix of the log, however often and wherever the stream broke. */
  lemma {:induction false} ReceivedIsPrefix(c: Config, world: (nat, seq<string>) -> Attempt, turns: seq<Turn>,
                                            log: seq<byte>)
    requires forall i :: 0 <= i < |turns| ==> Asked(c, world, turns, i)
    requires Serves(c, world, log) && IsAbs(c.dir) && RunArgvShape(c) && |log| <= MAX_INT64
    ensures Received(turns) <= log
    decreases |turns|
  {
    if turns != [] {
      var n := |turns| - 1;
      var earlier, t := turns[..n], turns[n];
      assert turns == earlier + [t];
      forall i | 0 <= i < n ensures Asked(c, world, earlier, i) {
        AccountStays(c, world, earlier, t, i);
      }
      ReceivedIsPrefix(c, world, earlier, log);
      var offset := |Received(earlier)|;
      assert Asked(c, world, turns, n);
      AsksForTheRest(c, offset);
      var got := Concat(world(n, t.argv).chunks);
      assert ServesOne(Asks(c, t.argv), got, log);
      assert log == log[..offset] + log[offset..];
    }
  }

  /**
   * The end of a runStep over a well-formed log: what went to the runner is
   * the log's frames in order, from the first, with nothing lost or repeated;
   * an exit code means all of them, and the recorded code.
   */
  lemma HonestOutcome(c: Config, world: (nat, seq<string>) -> Attempt, turns: seq<Turn>, d: Dec, r: Ret,
                      fs: seq<Frame>, code: int, log: seq<byte>)
    requires Account(c, world, turns, d, r)
    requires Serves(c, world, log) && IsAbs(c.dir) && RunArgvShape(c) && |log| <= MAX_INT64
    requires SoundFrames(fs) && log <= Ended(fs, code)
    ensures Flatten(d.sent) <= Flatten(fs)
    ensures d.exited ==> && log == Received(turns) == Ended(fs, code)
                         && Flatten(d.sent) == Flatten(fs)
                         && d.code == ToInt32(ToUint32(code))
                         && r == Returned(d.code, None)
    ensures r.Returned? ==> r.err != Some(BadOutput(Corrupted(AfterExit)))
    ensures r.Returned? && r.err.Some? && r.err.value.BadOutput? ==> r.err.value.status == SinkFailed
  {
    ReceivedIsPrefix(c, world, turns, log);
    if turns == [] {
      assert Flatten([]) == [];
    } else {
      DecodedPrefix(d, turns[|turns| - 1].status, fs, code, Received(turns));
    }
  }

  /** A decoder that was written a prefix of a well-formed log. */
  lemma DecodedPrefix(d: Dec, st: Status, fs: seq<Frame>, code: int, got: seq<byte>)
    requires Reflects(d, st, got) && SoundFrames(fs) && got <= Ended(fs, code)
    ensures !st.Corrupted? && Flatten(d.sent) <= Flatten(fs)
    ensures d.exited ==> got == Ended(fs, code) && Flatten(d.sent) == Flatten(fs) && d.code == ToInt32(ToUint32(code))
  {
    ParsePrefix(fs, code, got);
    FlattenPrefix(Parse(got).frames, fs);
  }

  // ----- The outcome, exactly -----

  /**
   * A nil error does not quite mean an exit record: runStep also returns
   * (-1, nil) when it was cancelled while the helper ended normally.
   */
  lemma NilErrorExactly(c: Config, world: (nat, seq<string>) -> Attempt, turns: seq<Turn>, d: Dec, r: Ret)
    requires Account(c, world, turns, d, r) && turns != []
    ensures var a := turns[|turns| - 1].attempt;
            r.Returned? && r.err.None? <==> d.exited || (a.cancelled && a.end.Exited?)
    ensures var a := turns[|turns| - 1].attempt;
            d.exited || !(a.cancelled && a.end.Exited?) <==> (r.Returned? && r.err.None? ==> d.exited)
  {
  }

  function CancelledWorld(code: int): (nat, seq<string>) -> Attempt {
    (i, argv) => Attempt([], Exited(code), true, 0, 0, false, 0)
  }

  /** The input that shows it: nothing received, cancelled, the helper's exec ended. */
  lemma CancelledStepReturnsNil(c: Config, code: int)
    ensures var world := CancelledWorld(code);
            var turns := [Turn(c.run, [], Fine, world(0, c.run), c.start, Wait(c.backoff, 0))];
            && Account(c, world, turns, FRESH, Returned(-1, None))
            && Received(turns) == []
  {
    var world := CancelledWorld(code);
    var turns := [Turn(c.run, [], Fine, world(0, c.run), c.start, Wait(c.backoff, 0))];
    assert turns[..0] == [] && Received(turns[..0]) == [];
    assert Received(turns) == Received(turns[..0]) + [];
    assert Asked(c, world, turns, 0) && Timed(c, turns, 0);
    FreshTracks();
  }

  /** What Exec tells the runner: it looks for a cancellation before it looks at the result. */
  datatype Report = CancelledStatus | ExecFailed | ExecComplete(code: int)

  function ReportOf(r: Ret, cancelled: bool): Report
    requires r.Returned?
  {
    if cancelled then CancelledStatus
    else if r.err.Some? then ExecFailed
    else ExecComplete(ToInt32(ToUint32(r.code)))
  }

  /** The handler makes up for it: a completed Exec has all of the step's output and its exit code. */
  lemma CompletedExecIsHonest(c: Config, world: (nat, seq<string>) -> Attempt, turns: seq<Turn>, d: Dec, r: Ret,
                              fs: seq<Frame>, code: int, log: seq<byte>, cancelled: bool)
    requires Account(c, world, turns, d, r) && r.Returned?
    requires Serves(c, world, log) && IsAbs(c.dir) && RunArgvShape(c) && |log| <= MAX_INT64
    requires SoundFrames(fs) && log <= Ended(fs, code)
    requires turns[|turns| - 1].attempt.cancelled ==> cancelled
    ensures ReportOf(r, cancelled).ExecComplete? <==> d.exited && !cancelled
    ensures ReportOf(r, cancelled).ExecComplete? ==>
              && Flatten(d.sent) == Flatten(fs)
              && ReportOf(r, cancelled).code == ToInt32(ToUint32(code))
              && log == Ended(fs, code)
  {
    HonestOutcome(c, world, turns, d, r, fs, code, log);
    NilErrorExactly(c, world, turns, d, r);
    Int32RoundTrip(ToInt32(ToUint32(code)));
  }

  /**
   * The result of an account, each case with its exact condition: runStep goes
   * on exactly after a broken stream before the deadline, and each error has
   * the one cause that it names.
   */
  lemma ResultExactly(c: Config, world: (nat, seq<string>) -> Attempt, turns: seq<Turn>, d: Dec, r: Ret)
    requires Account(c, world, turns, d, r) && turns != []
    ensures var t, late := turns[|turns| - 1], Late(c, turns, |turns| - 1);
            var open, broken := !d.exited && !t.attempt.cancelled, t.status == Fine && t.attempt.end.Broken?;
            && (d.exited ==> r == Returned(d.code, None))
            && (r.StillRunning? <==> open && broken && !late && !t.attempt.interrupted)
            && (r == Returned(-1, Some(GaveUp)) <==> open && broken && late)
            && (r == Returned(-1, Some(Interrupted)) <==>
                  || (open && broken && !late && t.attempt.interrupted)
                  || (!d.exited && t.attempt.cancelled && !t.attempt.end.Exited?))
            && (forall st :: r == Returned(-1, Some(BadOutput(st))) <==> open && st == t.status != Fine)
            && (forall n :: r == Returned(-1, Some(NoExitRecord(n))) <==>
                  open && t.status == Fine && t.attempt.end == Exited(n))
            && (forall e :: r == Returned(-1, Some(Unrunnable(e))) <==>
                  open && t.status == Fine && e == t.attempt.end && (e == PodFinished || e == NoBinary))
            && (!d.exited && r.Returned? ==> r.code == -1)
  {
  }

  /** The deadline counts from the end of the last attempt that brought bytes, from the start if none did. */
  lemma {:induction false} LastProgressExactly(c: Config, turns: seq<Turn>, i: nat)
    requires i <= |turns|
    ensures || (LastProgress(c, turns, i) == c.start && forall k :: 0 <= k < i ==> turns[k].got == [])
            || exists j :: 0 <= j < i && turns[j].got != [] && LastProgress(c, turns, i) == turns[j].ended
                           && forall k :: j < k < i ==> turns[k].got == []
  {
    if i > 0 && turns[i - 1].got == [] {
      LastProgressExactly(c, turns, i - 1);
    }
  }

  /** Failures are counted from the last attempt that brought bytes. */
  lemma {:induction false} FailsExactly(turns: seq<Turn>, i: nat)
    requires i < |turns|
    ensures Fails(turns, i) <= i
    ensures forall k :: i - Fails(turns, i) < k <= i ==> turns[k].got == []
    ensures Fails(turns, i) < i ==> turns[i - Fails(turns, i)].got != []
  {
    if i > 0 && turns[i].got == [] {
      FailsExactly(turns, i - 1);
    }
  }

  /** The step is run exactly while nothing was received; the first attempt always runs it. */
  lemma RunsWhileNothingReceived(c: Config, world: (nat, seq<string>) -> Attempt, turns: seq<Turn>, d: Dec, r: Ret,
                                 i: nat)
    requires Account(c, world, turns, d, r) && i < |turns| && RunArgvShape(c)
    ensures turns[i].argv == c.run <==> Received(turns[..i]) == []
    ensures turns[0].argv == c.run
  {
    assert Asked(c, world, turns, i) && Asked(c, world, turns, 0);
    assert turns[..0] == [];
  }

  /** A stream that brings k bytes of the log and breaks, and the rest of the log the next time. */
  function BreaksAt(log: seq<byte>, k: nat): (nat, seq<string>) -> Attempt
    requires k <= |log|
  {
    (i: nat, argv: seq<string>) =>
      if i == 0 then Attempt([log[..k]], Broken, false, 0, 0, false, 0)
      else Attempt([log[k..]], Broken, false, 0, 0, false, 0)
  }

  lemma BrokenOnce(c: Config, log: seq<byte>, k: nat, turns: seq<Turn>, d: Dec, r: Ret, fs: seq<Frame>, code: int)
    requires k < |log| && Account(c, BreaksAt(log, k), turns, d, r) && |turns| == 1
    requires SoundFrames(fs) && log == Ended(fs, code) && !turns[0].status.SinkFailed?
    ensures r == StillRunning && Received(turns) == log[..k]
  {
    FirstGot(c, log, k, turns);
    DecodedPrefix(d, turns[0].status, fs, code, Received(turns));
    ResultExactly(c, BreaksAt(log, k), turns, d, r);
    assert LastProgress(c, turns, 0) == c.start;
    assert Timed(c, turns, 0);
  }

  lemma FirstGot(c: Config, log: seq<byte>, k: nat, turns: seq<Turn>)
    requires k <= |log| && turns != [] && Asked(c, BreaksAt(log, k), turns, 0)
    ensures Received(turns[..1]) == turns[0].got <= log[..k]
    ensures turns[0].status == Fine ==> turns[0].got == log[..k]
    ensures |turns| == 1 ==> turns[..1] == turns
  {
    assert Concat([log[..k]]) == log[..k] + Concat([]);
    assert turns[..1][..0] == [];
    assert Received(turns[..1]) == Received([]) + turns[0].got;
  }

  lemma BothGot(c: Config, log: seq<byte>, k: nat, turns: seq<Turn>)
    requires k <= |log| && |turns| == 2 && turns[0].status == Fine
    requires Asked(c, BreaksAt(log, k), turns, 0) && Asked(c, BreaksAt(log, k), turns, 1)
    ensures Received(turns) <= log && (turns[1].status == Fine ==> Received(turns) == log)
  {
    FirstGot(c, log, k, turns);
    assert Concat([log[k..]]) == log[k..] + Concat([]);
    assert Received(turns) == turns[0].got + turns[1].got;
    assert log == log[..k] + log[k..];
  }

  lemma BrokenTwice(c: Config, log: seq<byte>, k: nat, turns: seq<Turn>, d: Dec, r: Ret, fs: seq<Frame>, code: int)
    requires k <= |log| && Account(c, BreaksAt(log, k), turns, d, r) && |turns| == 2
    requires SoundFrames(fs) && log == Ended(fs, code) && !turns[1].status.SinkFailed?
    ensures r == Returned(ToInt32(ToUint32(code)), None) && Flatten(d.sent) == Flatten(fs)
  {
    assert WentOn(c, turns, 0);
    BothGot(c, log, k, turns);
    DecodedPrefix(d, turns[1].status, fs, code, Received(turns));
    WholeShows(d, fs, code, log, Received(turns), turns[1].status);
  }

  /** A decoder that read all of a log without complaint has its exit code. */
  lemma WholeShows(d: Dec, fs: seq<Frame>, code: int, log: seq<byte>, got: seq<byte>, st: Status)
    requires SoundFrames(fs) && log == got == Ended(fs, code) && st == Fine && Reflects(d, st, got)
    ensures d.exited
  {
    ParsePrefix(fs, code, got);
  }

  /**
   * A stream that breaks once, after any number of bytes, costs nothing: the
   * second attempt brings the exit record, the runner has all of the output
   * once, and the step's code is returned.
   */
  method ResumeOnce(c: Config, fs: seq<Frame>, code: int, k: nat, fate: nat -> bool)
    returns (r: Ret, sent: seq<Frame>)
    requires SoundFrames(fs) && k < |Ended(fs, code)| && Infallible(fate)
    ensures r == Returned(ToInt32(ToUint32(code)), None)
    ensures Flatten(sent) == Flatten(fs)
  {
    var log := Ended(fs, code);
    var turns;
    ghost var d;
    r, turns, sent, d := RunStep(c, BreaksAt(log, k), fate, 2);
    if |turns| == 1 {
      BrokenOnce(c, log, k, turns, d, r, fs, code);
    } else if |turns| == 2 {
      BrokenTwice(c, log, k, turns, d, r, fs, code);
    }
  }

  // ----- Termination -----

  /** Attempts that brought bytes, among the first k. */
  function Progresses(turns: seq<Turn>, k: nat): nat
    requires k <= |turns|
  {
    if k == 0 then 0 else Progresses(turns, k - 1) + if turns[k - 1].got != [] then 1 else 0
  }

  /** Attempts since the last one that brought bytes, among the first k. */
  function Quiet(turns: seq<Turn>, k: nat): nat
    requires k <= |turns|
  {
    if k == 0 || turns[k - 1].got != [] then 0 else Quiet(turns, k - 1) + 1
  }

  /** How many attempts can go by without a byte: one more than fit into the timeout, and the last. */
  function Patience(c: Config): nat
    requires 0 < c.backoff
  {
    c.timeout / c.backoff + 3
  }

  lemma {:induction false} ProgressNeedsBytes(turns: seq<Turn>, k: nat)
    requires k <= |turns|
    ensures Progresses(turns, k) <= |Received(turns[..k])|
  {
    if k > 0 {
      ProgressNeedsBytes(turns, k - 1);
      assert turns[..k][..k - 1] == turns[..k - 1];
    }
  }

  /** Waiting adds up: between attempts without progress the clock advances by at least the backoff. */
  lemma {:induction false} QuietTakesTime(c: Config, world: (nat, seq<string>) -> Attempt, turns: seq<Turn>, k: nat)
    requires 0 < k <= |turns| && 0 < c.backoff <= MAX_REATTACH_BACKOFF
    requires forall i :: 0 <= i < k ==> Asked(c, world, turns, i) && Timed(c, turns, i)
    ensures (Quiet(turns, k) - 1) * c.backoff <= turns[k - 1].ended - LastProgress(c, turns, k)
  {
    if turns[k - 1].got == [] {
      if k == 1 {
        assert Timed(c, turns, 0);
        FirstTurnQuiet(c, turns);
      } else {
        QuietTakesTime(c, world, turns, k - 1);
        TimeBetween(c, world, turns, k - 1);
        ClockAddsUp(Quiet(turns, k - 1), c.backoff, turns[k - 2].ended - LastProgress(c, turns, k - 1),
                    turns[k - 1].ended - LastProgress(c, turns, k));
      }
    }
  }

  lemma FirstTurnQuiet(c: Config, turns: seq<Turn>)
    requires turns != [] && turns[0].got == []
    ensures Quiet(turns, 1) - 1 == 0
    ensures LastProgress(c, turns, 1) == c.start
    ensures (Quiet(turns, 1) - 1) * c.backoff == 0
  {
    assert Quiet(turns, 0) == 0;
    assert LastProgress(c, turns, 0) == c.start;
  }

  lemma TimeBetween(c: Config, world: (nat, seq<string>) -> Attempt, turns: seq<Turn>, i: nat)
    requires 0 < i < |turns| && 0 < c.backoff <= MAX_REATTACH_BACKOFF
    requires Asked(c, world, turns, i - 1) && Timed(c, turns, i)
    ensures turns[i].ended >= turns[i - 1].ended + c.backoff
  {
    WaitBounds(c.backoff, Fails(turns, i - 1), Fails(turns, i - 1));
  }

  lemma ClockAddsUp(q: nat, b: nat, before: int, now: int)
    requires (q - 1) * b <= before && before + b <= now
    ensures (q + 1 - 1) * b <= now
  {
    OneMoreWait(q - 1, b);
  }

  lemma OneMoreWait(q: int, b: int)
    ensures (q + 1) * b == q * b + b
  {
  }

  lemma FitsIntoTimeout(q: int, b: int, timeout: nat)
    requires 0 < b && q * b <= timeout
    ensures q <= timeout / b
  {
    if q > timeout / b {
      MulMonotone(b, timeout / b + 1, q);
    }
  }

  /** Attempts that all left it to try again: at most Patience of them per byte received, and fewer since the last. */
  lemma {:induction false} OngoingCount(c: Config, world: (nat, seq<string>) -> Attempt, turns: seq<Turn>, k: nat)
    requires k <= |turns| && 0 < c.backoff <= MAX_REATTACH_BACKOFF
    requires forall i :: 0 <= i < k ==> Asked(c, world, turns, i) && Timed(c, turns, i) && WentOn(c, turns, i)
    ensures k <= Progresses(turns, k) * Patience(c) + Quiet(turns, k)
    ensures Quiet(turns, k) <= Patience(c) - 2
  {
    if k > 0 {
      OngoingCount(c, world, turns, k - 1);
      QuietTakesTime(c, world, turns, k);
      assert WentOn(c, turns, k - 1);
      FitsIntoTimeout(Quiet(turns, k) - 1, c.backoff, c.timeout);
      if turns[k - 1].got != [] {
        OneMoreWait(Progresses(turns, k - 1), Patience(c));
      }
    }
  }

  /** For a finite log runStep stops: the number of attempts is bounded, whatever the stream does. */
  lemma AttemptsAreBounded(c: Config, world: (nat, seq<string>) -> Attempt, turns: seq<Turn>, d: Dec, r: Ret,
                           log: seq<byte>)
    requires Account(c, world, turns, d, r)
    requires Serves(c, world, log) && IsAbs(c.dir) && RunArgvShape(c) && |log| <= MAX_INT64
    requires 0 < c.backoff <= MAX_REATTACH_BACKOFF
    ensures |turns| <= (|log| + 1) * Patience(c)
  {
    if turns != [] {
      var k := |turns| - 1;
      OngoingCount(c, world, turns, k);
      ProgressNeedsBytes(turns, k);
      ReceivedIsPrefix(c, world, turns, log);
      ReceivedGrows(turns);
      BoundAddsUp(Progresses(turns, k), |log|, Patience(c));
    }
  }

  lemma ReceivedGrows(turns: seq<Turn>)
    requires turns != []
    ensures |Received(turns[..|turns| - 1])| <= |Received(turns)|
  {
  }

  lemma BoundAddsUp(p: nat, n: nat, patience: nat)
    requires p <= n
    ensures p * patience + patience <= (n + 1) * patience
  {
    MulMonotone(patience, p + 1, n + 1);
  }

  /** The waits of a runStep: within bounds, and within a run of failures never shorter than before. */
  lemma WaitsGrow(c: Config, world: (nat, seq<string>) -> Attempt, turns: seq<Turn>, d: Dec, r: Ret, i: nat)
    requires Account(c, world, turns, d, r) && i < |turns|
    requires 0 < c.backoff <= MAX_REATTACH_BACKOFF
    ensures 0 < turns[i].wait <= MAX_REATTACH_BACKOFF
    ensures turns[i].got != [] ==> turns[i].wait == c.backoff
    ensures 0 < i && turns[i].got == [] ==>
              && turns[i - 1].wait <= turns[i].wait
              && (Fails(turns, i) <= 16 ==> turns[i].wait == Min(2 * turns[i - 1].wait, 10_000_000_000))
  {
    WaitBounds(c.backoff, 0, Fails(turns, i));
    assert Asked(c, world, turns, i);
    assert Pow2(0) == 1;
    if 0 < i && turns[i].got == [] {
      assert Asked(c, world, turns, i - 1);
      WaitBounds(c.backoff, Fails(turns, i - 1), Fails(turns, i));
      WaitDoubles(c.backoff, Fails(turns, i - 1));
    }
  }
}
