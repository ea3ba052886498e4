/**
 * Copying files into an environment: the runner's chunk sender, the plugin's
 * framing rules, and their agreement.
 */
module Upload {
  import opened Bytes
  import opened ExecStream
  import opened StepIO
  import opened Chunks

  /** A message of the upload: the first one names the environment and the destination. */
  datatype Chunk = Chunk(id: Option<string>, dest: Option<string>, data: seq<byte>)

  function Data(cs: seq<Chunk>): seq<byte> {
    if cs == [] then [] else Data(cs[..|cs| - 1]) + cs[|cs| - 1].data
  }

  lemma DataOneMore(cs: seq<Chunk>, k: nat)
    requires k < |cs|
    ensures Data(cs[..k + 1]) == Data(cs[..k]) + cs[k].data
  {
    assert cs[..k + 1][..k] == cs[..k];
  }

  lemma DataAppend(cs: seq<Chunk>, c: Chunk)
    ensures Data(cs + [c]) == Data(cs) + c.data
  {
    assert (cs + [c])[..|cs|] == cs;
  }

  lemma {:induction false} DataPrefix(cs: seq<Chunk>, k: nat)
    requires k <= |cs|
    ensures Data(cs[..k]) <= Data(cs)
    decreases |cs| - k
  {
    if k == |cs| {
      assert cs[..k] == cs;
    } else {
      DataOneMore(cs, k);
      DataPrefix(cs, k + 1);
    }
  }

  predicate Bare(c: Chunk) {
    c.id.None? && c.dest.None?
  }

  function Message(first: bool, id: string, dest: string, data: seq<byte>): Chunk {
    Chunk(if first then Some(id) else None, if first then Some(dest) else None, data)
  }

  /** From k on: within the size limit, and only the chunk at k is labelled, if `first`. */
  ghost predicate Labelled(cs: seq<Chunk>, k: nat, first: bool, id: string, dest: string) {
    forall i :: k <= i < |cs| ==>
      && |cs[i].data| <= CHUNK_SIZE
      && if first && i == k then cs[i].id == Some(id) && cs[i].dest == Some(dest) else Bare(cs[i])
  }

  /** `after` is `before` and full messages, of which only the first is labelled, if `first`. */
  ghost predicate Grown(before: seq<Chunk>, after: seq<Chunk>, first: bool, id: string, dest: string) {
    && before <= after && Labelled(after, |before|, first, id, dest)
    && forall i :: |before| <= i < |after| ==> |after[i].data| == CHUNK_SIZE
  }

  /** The messages of one upload: at least one, and only the first says where it goes. */
  ghost predicate IsUpload(cs: seq<Chunk>, id: string, dest: string) {
    cs != [] && Labelled(cs, 0, true, id, dest)
  }

  // ----- The runner's side -----

  /** The runner's writer; `fate(i)` says whether the i-th send succeeds. */
  class ChunkSender {
    const id: string
    const dest: string
    const fate: nat -> bool
    var buf: seq<byte>
    var sent: bool
    var frames: seq<Chunk>
    var sends: nat

    ghost predicate Valid()
      reads this
    {
      |buf| < CHUNK_SIZE && |frames| <= sends && (sent <==> sends > 0)
    }

    ghost function All(): seq<byte>
      reads this
    {
      Data(frames) + buf
    }

    constructor (id: string, dest: string, fate: nat -> bool)
      ensures Valid() && this.id == id && this.dest == dest && this.fate == fate
      ensures frames == [] && buf == [] && sends == 0
    {
      this.id, this.dest, this.fate := id, dest, fate;
      buf, sent, frames, sends := [], false, [], 0;
    }

    /** Sends what is buffered; the first time even when that is nothing. */
    method Flush() returns (ok: bool)
      requires |buf| <= CHUNK_SIZE && |frames| <= sends && (sent <==> sends > 0)
      modifies this
      ensures Valid() && buf == [] && sent
      ensures var tries := old(buf) != [] || !old(sent);
              && sends == old(sends) + (if tries then 1 else 0)
              && frames == if ok && tries then old(frames) + [Message(!old(sent), id, dest, old(buf))] else old(frames)
      ensures ok <==> forall i :: old(sends) <= i < sends ==> fate(i)
      ensures ok ==> Data(frames) == old(All())
    {
      if |buf| == 0 && sent {
        assert Data(frames) + [] == Data(frames);
        return true;
      }
      ok := fate(sends);
      if ok {
        var c := Message(!sent, id, dest, buf);
        DataAppend(frames, c);
        frames := frames + [c];
      }
      sends := sends + 1;
      sent := true;
      buf := [];
      assert !ok ==> !fate(old(sends));
    }

    /** Buffers as much of `p` as fits, and sends the buffer once it is full. */
    method Put(p: seq<byte>) returns (k: nat, ok: bool)
      requires Valid() && p != []
      modifies this
      ensures Valid() && 0 < k <= |p|
      ensures Grown(old(frames), frames, !old(sent), id, dest)
      ensures ok <==> forall i :: old(sends) <= i < sends ==> fate(i)
      ensures old(sends) <= sends && (sends == old(sends) ==> sent == old(sent))
      ensures ok ==> All() == old(All()) + p[..k] && |frames| - |old(frames)| == sends - old(sends)
      ensures !ok ==> buf == [] && frames == old(frames) && |old(buf) + p[..k]| == CHUNK_SIZE
    {
      k := Min(CHUNK_SIZE - |buf|, |p|);
      Associates(Data(frames), buf, p[..k]);
      buf := buf + p[..k];
      ok := true;
      if |buf| == CHUNK_SIZE {
        GrownByOne(frames, !sent, id, dest, buf);
        ok := Flush();
      }
    }

    /** As for the plugin's own chunk writer, with every message but the first one bare. */
    method Write(p: seq<byte>) returns (n: nat, ok: bool)
      requires Valid()
      modifies this
      ensures Valid() && n <= |p|
      ensures Grown(old(frames), frames, !old(sent), id, dest)
      ensures ok <==> forall i :: old(sends) <= i < sends ==> fate(i)
      ensures ok ==> n == |p| && All() == old(All()) + p && |frames| - |old(frames)| == sends - old(sends)
      ensures !ok ==> buf == [] && LosesLast(Data(frames), old(All()) + p[..n], CHUNK_SIZE)
    {
      n := 0;
      while n < |p|
        invariant Valid() && n <= |p|
        invariant Grown(old(frames), frames, !old(sent), id, dest)
        invariant old(sends) <= sends && |frames| - |old(frames)| == sends - old(sends)
        invariant sends == old(sends) ==> sent == old(sent)
        invariant forall i :: old(sends) <= i < sends ==> fate(i)
        invariant All() == old(All()) + p[..n]
      {
        ghost var before, held, cs, first := All(), buf, frames, !sent;
        var k;
        k, ok := Put(p[n..]);
        GrownTwice(old(frames), cs, frames, !old(sent), first, id, dest);
        Reaches(old(All()), p, n, k);
        if !ok {
          Lost(Data(frames), held, p[n..][..k], before + p[n..][..k], CHUNK_SIZE);
          return n + k, false;
        }
        n := n + k;
      }
      assert p[..n] == p;
      ok := true;
    }
  }

  lemma GrownByOne(cs: seq<Chunk>, first: bool, id: string, dest: string, data: seq<byte>)
    requires |data| == CHUNK_SIZE
    ensures Grown(cs, cs + [Message(first, id, dest, data)], first, id, dest)
  {
  }

  lemma GrownTwice(a: seq<Chunk>, b: seq<Chunk>, c: seq<Chunk>, first: bool, second: bool, id: string, dest: string)
    requires Grown(a, b, first, id, dest) && Grown(b, c, second, id, dest)
    requires second == (first && a == b)
    ensures Grown(a, c, first, id, dest)
  {
  }

  /** How the runner's side of an upload ended. */
  datatype Sending = Complete | FillFailed | SendFailed

  /** Fills the upload; false when a send failed, which ends it. */
  method SendWrites(w: ChunkSender, writes: seq<seq<byte>>) returns (ok: bool)
    requires w.Valid() && w.frames == [] && w.buf == [] && w.sends == 0
    modifies w
    ensures w.Valid() && Labelled(w.frames, 0, true, w.id, w.dest)
    ensures ok ==> |w.frames| == w.sends && w.All() == Concat(writes)
    ensures !ok ==> Data(w.frames) <= Concat(writes)
    ensures (forall i :: w.fate(i)) ==> ok
  {
    ghost var done := w.All();
    for i := 0 to |writes|
      invariant w.Valid() && Labelled(w.frames, 0, true, w.id, w.dest) && |w.frames| == w.sends
      invariant done == Concat(writes[..i]) && w.All() == done
    {
      ghost var next := done + writes[i];
      NextWrite(writes, i, done, next);
      var n, good := w.Write(writes[i]);
      if !good {
        LostTail(Data(w.frames), done + writes[i][..n], next, Concat(writes), CHUNK_SIZE);
        return false;
      }
      done := next;
    }
    assert writes[..|writes|] == writes;
    ok := true;
  }

  lemma NextWrite(writes: seq<seq<byte>>, i: nat, done: seq<byte>, next: seq<byte>)
    requires i < |writes| && done == Concat(writes[..i]) && next == done + writes[i]
    ensures next == Concat(writes[..i + 1]) && next <= Concat(writes)
  {
    ConcatSplit(writes, i);
  }

  /** The runner's half of copyIn: write the archive, then flush unless filling it failed. */
  method SendUpload(id: string, dest: string, writes: seq<seq<byte>>, filled: bool, fate: nat -> bool)
    returns (frames: seq<Chunk>, s: Sending)
    ensures frames == [] || IsUpload(frames, id, dest)
    ensures Data(frames) <= Concat(writes)
    ensures s.Complete? ==> filled && frames != [] && Data(frames) == Concat(writes)
    ensures s.FillFailed? ==> !filled
    ensures filled && (forall i :: fate(i)) ==> s.Complete?
  {
    var w := new ChunkSender(id, dest, fate);
    var ok := SendWrites(w, writes);
    if !ok {
      return w.frames, SendFailed;
    }
    assert Data(w.frames) <= w.All();
    if !filled {
      return w.frames, FillFailed;
    }
    ok := w.Flush();
    frames, s := w.frames, if ok then Complete else SendFailed;
  }

  // ----- The plugin's side -----

  /** How the archiver's input ended: at the upload's end, with an error, or because the archiver stopped reading. */
  datatype PipeEnd = AtEof | StreamBroke | Misframed | ReaderGone

  /**
   * What reached the archiver, and how it ended there, for the chunks `cs`.
   * The archiver takes all of the i-th write when take(i) is None; else it
   * goes away after that many bytes of it. `n` writes were taken whole.
   */
  ghost predicate Pumped(cs: seq<Chunk>, end: End, take: nat -> Option<nat>, n: nat, piped: seq<byte>, how: PipeEnd) {
    && n <= |cs|
    && (forall i :: 0 <= i < n ==> take(i).None?)
    && (forall i :: 1 <= i < n ==> Bare(cs[i]))
    && match how
       case AtEof => n == |cs| && end.Eof? && piped == Data(cs)
       case StreamBroke => n == |cs| && end.Broken? && piped == Data(cs)
       case Misframed => 1 <= n < |cs| && !Bare(cs[n]) && piped == Data(cs[..n])
       case ReaderGone =>
         && n < |cs| && (n == 0 || Bare(cs[n]))
         && take(n).Some?
         && piped == Data(cs[..n]) + cs[n].data[..Min(take(n).value, |cs[n].data|)]
  }

  /** The goroutine that feeds the archiver from the stream. */
  method Pump(cs: seq<Chunk>, end: End, take: nat -> Option<nat>) returns (piped: seq<byte>, how: PipeEnd, n: nat)
    requires cs != []
    ensures Pumped(cs, end, take, n, piped, how)
  {
    piped, n := [], 0;
    while n < |cs|
      invariant n <= |cs| && piped == Data(cs[..n])
      invariant forall i :: 0 <= i < n ==> take(i).None?
      invariant forall i :: 1 <= i < n ==> Bare(cs[i])
    {
      var c := cs[n];
      if n > 0 && (c.id.Some? || c.dest.Some?) {
        return piped, Misframed, n;
      }
      if take(n).Some? {
        return piped + c.data[..Min(take(n).value, |c.data|)], ReaderGone, n;
      }
      DataOneMore(cs, n);
      piped, n := piped + c.data, n + 1;
    }
    assert cs[..|cs|] == cs;
    how := if end.Eof? then AtEof else StreamBroke;
  }

  /** There is only one way it can go. */
  lemma PumpedOnce(cs: seq<Chunk>, end: End, take: nat -> Option<nat>, n: nat, p: seq<byte>, how: PipeEnd,
                   n': nat, p': seq<byte>, how': PipeEnd)
    requires Pumped(cs, end, take, n, p, how) && Pumped(cs, end, take, n', p', how')
    ensures n == n' && p == p' && how == how'
  {
  }

  /** Receives and drops what is left of the stream. */
  method DiscardRest(cs: seq<Chunk>, n: nat, end: End) returns (seen: nat, ended: Option<End>)
    requires n <= |cs|
    ensures seen == |cs| && ended == Some(end)
  {
    seen := n;
    while seen < |cs|
      invariant seen <= |cs|
    {
      seen := seen + 1;
    }
    ended := Some(end);
  }

  datatype Acquired = Refused | NotStarted | Started

  datatype Exec = ExecError | Exited(code: int)

  datatype Answer = Copied | InvalidArgument | NotAcquired | FailedPrecondition | Unavailable | Internal

  predicate NamesTarget(c: Chunk) {
    && c.id.Some? && c.id.value != ""
    && c.dest.Some? && c.dest.value != ""
  }

  /** The answer once the archiver has ended; a framing error goes before whatever it says. */
  function Verdict(how: PipeEnd, exec: Exec): Answer {
    if how.Misframed? then InvalidArgument
    else
      match exec
      case ExecError => Unavailable
      case Exited(code) => if code == 127 then FailedPrecondition else if code != 0 then Internal else Copied
  }

  /**
   * The plugin's CopyIn, for the chunks the stream delivers before it ends.
   * `seen` and `ended` tell what it had received when it answered: an upload
   * that reached the archiver is answered only after its stream has ended.
   */
  method CopyIn(cs: seq<Chunk>, end: End, env: Acquired, take: nat -> Option<nat>, exec: Exec)
    returns (a: Answer, piped: seq<byte>, how: PipeEnd, seen: nat, ended: Option<End>)
    ensures Answers(cs, end, env, take, exec, a, piped, how)
    ensures cs != [] && NamesTarget(cs[0]) && env.Started? ==>
              && seen == |cs| && ended == Some(end)
              && (forall n, p, h :: Pumped(cs, end, take, n, p, h) ==> p == piped && h == how)
    ensures Addressed(cs) && env.Started? && (exists n: nat :: ReachesLabel(cs, take, n)) ==> a.InvalidArgument?
    ensures a.Copied? ==> Addressed(cs) && exec == Exited(0) && forall n: nat :: !ReachesLabel(cs, take, n)
    ensures a.Copied? ==> seen == |cs| && ended == Some(end)
  {
    piped, how, seen, ended := [], StreamBroke, 0, None;
    if |cs| == 0 {
      return InvalidArgument, piped, how, 0, Some(end);
    }
    var first := cs[0];
    seen := 1;
    if first.id.None? || first.id.value == "" || first.dest.None? || first.dest.value == "" {
      return InvalidArgument, piped, how, seen, ended;
    }
    if env.Refused? {
      return NotAcquired, piped, how, seen, ended;
    }
    if env.NotStarted? {
      return FailedPrecondition, piped, how, seen, ended;
    }
    var n;
    piped, how, n := Pump(cs, end, take);
    forall n', p, h | Pumped(cs, end, take, n', p, h) ensures p == piped && h == how {
      PumpedOnce(cs, end, take, n, piped, how, n', p, h);
    }
    if how.Misframed? || how.ReaderGone? {
      seen, ended := DiscardRest(cs, n + 1, end);
    } else {
      seen, ended := n, Some(end);
    }
    if how.Misframed? {
      a := InvalidArgument;
    } else if exec.ExecError? {
      a := Unavailable;
    } else if exec.code == 127 {
      a := FailedPrecondition;
    } else if exec.code != 0 {
      a := Internal;
    } else {
      a := Copied;
    }
    AnswersExactly(cs, end, env, take, exec, a, piped, how);
  }

  /**
   * What each answer means, on the messages themselves: a bad request exactly
   * when the first message does not say where to, or a later one that is
   * reached does; otherwise the archiver's end decides.
   */
  lemma AnswersExactly(cs: seq<Chunk>, end: End, env: Acquired, take: nat -> Option<nat>, exec: Exec,
                       a: Answer, piped: seq<byte>, how: PipeEnd)
    requires Answers(cs, end, env, take, exec, a, piped, how)
    ensures !Addressed(cs) ==> a.InvalidArgument? && piped == []
    ensures Addressed(cs) && env.Refused? ==> a.NotAcquired? && piped == []
    ensures Addressed(cs) && env.NotStarted? ==> a.FailedPrecondition? && piped == []
    ensures Addressed(cs) && env.Started? ==>
              && (a.InvalidArgument? <==> exists n: nat :: ReachesLabel(cs, take, n))
              && (!a.InvalidArgument? ==>
                    && (a.Unavailable? <==> exec.ExecError?)
                    && (a.FailedPrecondition? <==> exec == Exited(127))
                    && (a.Internal? <==> exec.Exited? && exec.code != 0 && exec.code != 127)
                    && (a.Copied? <==> exec == Exited(0)))
  {
    if Addressed(cs) && env.Started? {
      var m :| Pumped(cs, end, take, m, piped, how);
      if how.Misframed? {
        assert ReachesLabel(cs, take, m);
      }
      if n: nat :| ReachesLabel(cs, take, n) {
        LabelStops(cs, end, take, n, m, piped, how);
      }
    }
  }

  /** A labelled later message that is reached is where the pumping ends. */
  lemma LabelStops(cs: seq<Chunk>, end: End, take: nat -> Option<nat>, n: nat, m: nat, piped: seq<byte>, how: PipeEnd)
    requires ReachesLabel(cs, take, n) && Pumped(cs, end, take, m, piped, how)
    ensures how.Misframed? && m == n
  {
  }

  /** The first message says where to. */
  predicate Addressed(cs: seq<Chunk>) {
    && cs != []
    && cs[0].id != None && cs[0].id != Some("")
    && cs[0].dest != None && cs[0].dest != Some("")
  }

  /** The n-th message, not the first, carries an id or a destination; those before it do not and were taken. */
  ghost predicate ReachesLabel(cs: seq<Chunk>, take: nat -> Option<nat>, n: nat) {
    && 1 <= n < |cs|
    && (cs[n].id.Some? || cs[n].dest.Some?)
    && forall i :: 0 <= i < n ==> take(i).None? && (i > 0 ==> cs[i].id.None? && cs[i].dest.None?)
  }

  /** What CopyIn promises of its answer. */
  ghost predicate Answers(cs: seq<Chunk>, end: End, env: Acquired, take: nat -> Option<nat>, exec: Exec,
                          a: Answer, piped: seq<byte>, how: PipeEnd)
  {
    if cs == [] || !NamesTarget(cs[0]) then a == InvalidArgument && piped == []
    else
      match env
      case Refused => a == NotAcquired && piped == []
      case NotStarted => a == FailedPrecondition && piped == []
      case Started => a == Verdict(how, exec) && exists n :: Pumped(cs, end, take, n, piped, how)
  }

  /** The framing the runner uses is never what the plugin objects to. */
  lemma UploadIsWellFramed(cs: seq<Chunk>, id: string, dest: string, end: End, take: nat -> Option<nat>,
                           n: nat, piped: seq<byte>, how: PipeEnd)
    requires IsUpload(cs, id, dest) && Pumped(cs, end, take, n, piped, how)
    ensures !how.Misframed?
    ensures piped <= Data(cs)
    ensures !how.ReaderGone? ==> piped == Data(cs)
  {
    if how.ReaderGone? {
      DataOneMore(cs, n);
      DataPrefix(cs, n + 1);
      var m := Min(take(n).value, |cs[n].data|);
      assert Data(cs[..n]) + cs[n].data[..m] <= Data(cs[..n]) + cs[n].data;
    }
  }

  /**
   * Both ends together. The runner reports success only for an archive it
   * wrote whole, sent whole and whose archiver ended well, having seen all of
   * it unless it stopped reading by itself. A success never hides a failed
   * send, though the runner drops that error: the plugin answers only after
   * the stream's end, and on a broken stream no answer arrives. With nothing
   * failing the upload succeeds exactly when it names an environment and a
   * destination.
   */
  method CopyFiles(id: string, dest: string, writes: seq<seq<byte>>, filled: bool, fate: nat -> bool,
                   env: Acquired, take: nat -> Option<nat>, exec: Exec)
    returns (reported: bool, s: Sending, a: Answer, piped: seq<byte>, how: PipeEnd)
    ensures piped <= Concat(writes)
    ensures reported ==> s.Complete? && filled && a.Copied? && exec == Exited(0) && (how.AtEof? || how.ReaderGone?)
    ensures reported && how.AtEof? ==> piped == Concat(writes)
    ensures filled && (forall i :: fate(i)) ==> (a.InvalidArgument? <==> id == "" || dest == "")
    ensures filled && (forall i :: fate(i)) && env.Started? && (forall i :: take(i).None?) && exec == Exited(0) ==>
              && (reported <==> id != "" && dest != "")
              && (reported ==> piped == Concat(writes))
  {
    var frames;
    frames, s := SendUpload(id, dest, writes, filled, fate);
    var end := if s.Complete? then Eof else Broken;
    var seen, ended;
    a, piped, how, seen, ended := CopyIn(frames, end, env, take, exec);
    if frames != [] && NamesTarget(frames[0]) && env.Started? {
      ghost var n :| Pumped(frames, end, take, n, piped, how);
      UploadIsWellFramed(frames, id, dest, end, take, n, piped, how);
    }
    // Of the two errors the runner joins, that of a failed send is dropped.
    var fillError := s.FillFailed?;
    var answered := ended != Some(Broken);
    reported := !fillError && answered && a.Copied?;
  }
}
