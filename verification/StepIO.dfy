/**
 * The framed step log: how frames are written, what a log means, and the
 * incremental decoder that reads one in any chunking.
 */
module StepIO {
  import opened Bytes
  import opened ExecStream

  const KIND_STDOUT: byte := 1
  const KIND_STDERR: byte := 2
  const KIND_EXIT: byte := 3
  const HEADER_LEN := 5
  const MAX_PAYLOAD := 0x10_0000

  /** Appends one frame to dst. The length is truncated to 32 bits, as in Go. */
  function AppendFrame(dst: seq<byte>, kind: byte, payload: seq<byte>): seq<byte> {
    dst + [kind] + PutUint32(ToUint32(|payload|)) + payload
  }

  function ExitFrame(code: int): seq<byte> {
    AppendFrame([], KIND_EXIT, PutUint32(ToUint32(code)))
  }

  datatype Corruption = AfterExit | Oversized | BadExit | UnknownKind

  datatype Scan = Partial | Corrupt(why: Corruption) | Whole(frame: Frame, end: nat)

  /** What the start of a buffer is, with the decoder's checks in the decoder's order. */
  function ScanFrame(buf: seq<byte>, exited: bool): (s: Scan)
    ensures s.Whole? ==> HEADER_LEN <= s.end <= |buf|
    ensures s.Whole? && s.frame.kind == KIND_EXIT ==> |s.frame.payload| == 4
  {
    if |buf| < HEADER_LEN then Partial
    else if exited then Corrupt(AfterExit)
    else
      var kind, n := buf[0], Uint32(buf[1..HEADER_LEN]);
      if n > MAX_PAYLOAD then Corrupt(Oversized)
      else if kind == KIND_EXIT && n != 4 then Corrupt(BadExit)
      else if kind != KIND_STDOUT && kind != KIND_STDERR && kind != KIND_EXIT then Corrupt(UnknownKind)
      else if |buf| < HEADER_LEN + n then Partial
      else Whole(Frame(kind, buf[HEADER_LEN..HEADER_LEN + n]), HEADER_LEN + n)
  }

  /** Which buffers are corrupt, on their bytes alone: a whole header is needed to tell. */
  lemma CorruptionExactly(buf: seq<byte>, exited: bool)
    ensures ScanFrame(buf, exited).Corrupt? <==>
              && 5 <= |buf|
              && (|| exited
                  || Uint32(buf[1..5]) > 0x10_0000
                  || buf[0] !in {1, 2, 3}
                  || (buf[0] == 3 && Uint32(buf[1..5]) != 4))
  {
  }

  /** And which start with a whole frame. */
  lemma WholeExactly(buf: seq<byte>, exited: bool)
    ensures ScanFrame(buf, exited).Whole? <==>
              && 5 <= |buf| && !ScanFrame(buf, exited).Corrupt? && 5 + Uint32(buf[1..5]) <= |buf|
    ensures ScanFrame(buf, exited).Whole? ==>
              && ScanFrame(buf, exited).frame == Frame(buf[0], buf[5..5 + Uint32(buf[1..5])])
              && ScanFrame(buf, exited).end == 5 + Uint32(buf[1..5])
  {
  }

  // ----- The meaning of a log: a recursive one-shot parser -----

  /** A log read in one piece: its data frames, what follows them undecoded, its exit code, what is wrong. */
  datatype Parsed = Parsed(frames: seq<Frame>, rest: seq<byte>, exit: Option<int>, fault: Option<Corruption>)

  function Parse(log: seq<byte>): Parsed {
    match ScanFrame(log, false)
    case Partial => Parsed([], log, None, None)
    case Corrupt(why) => Parsed([], log, None, Some(why))
    case Whole(f, end) =>
      if f.kind == KIND_EXIT then
        Trailer(log[end..], ToInt32(Uint32(f.payload)))
      else
        Prepend([f], Parse(log[end..]))
  }

  /** After the exit record a full header is corruption; fewer bytes go unnoticed. */
  function Trailer(rest: seq<byte>, code: int): Parsed {
    Parsed([], rest, Some(code), if |rest| < HEADER_LEN then None else Some(AfterExit))
  }

  function Prepend(fs: seq<Frame>, p: Parsed): Parsed {
    p.(frames := fs + p.frames)
  }

  /** The parse of a log extended by `more`, from the parse of the log alone: where to resume. */
  function Extend(p: Parsed, more: seq<byte>): Parsed {
    if p.fault.Some? then p.(rest := p.rest + more)
    else if p.exit.Some? then Prepend(p.frames, Trailer(p.rest + more, p.exit.value))
    else Prepend(p.frames, Parse(p.rest + more))
  }

  /** Only the first frame decides the scan of a buffer that is not partial. */
  lemma ScanStable(buf: seq<byte>, exited: bool, more: seq<byte>)
    requires !ScanFrame(buf, exited).Partial?
    ensures ScanFrame(buf + more, exited) == ScanFrame(buf, exited)
  {
    assert (buf + more)[1..HEADER_LEN] == buf[1..HEADER_LEN];
    var s := ScanFrame(buf, exited);
    if s.Whole? {
      assert (buf + more)[HEADER_LEN..s.end] == buf[HEADER_LEN..s.end];
    }
  }

  /**
   * Resumption: parsing can stop after any byte, inside a header or a payload,
   * and pick up from what was left over, with the same result.
   */
  lemma {:induction false} ParseResumes(log: seq<byte>, more: seq<byte>)
    ensures Parse(log + more) == Extend(Parse(log), more)
    decreases |log|
  {
    match ScanFrame(log, false)
    case Partial =>
    case Corrupt(_) =>
      ScanStable(log, false, more);
    case Whole(f, end) =>
      ScanStable(log, false, more);
      assert (log + more)[end..] == log[end..] + more;
      if f.kind != KIND_EXIT {
        ParseResumes(log[end..], more);
        ExtendPrepend([f], Parse(log[end..]), more);
      }
  }

  lemma ExtendPrepend(fs: seq<Frame>, p: Parsed, more: seq<byte>)
    ensures Extend(Prepend(fs, p), more) == Prepend(fs, Extend(p, more))
  {
    var r := if p.exit.Some? then Trailer(p.rest + more, p.exit.value) else Parse(p.rest + more);
    assert fs + (p.frames + r.frames) == (fs + p.frames) + r.frames;
  }

  // ----- The decoder -----

  datatype Status = Fine | Corrupted(why: Corruption) | SinkFailed

  /** A decoder together with the stream it writes to. */
  datatype Dec = Dec(offset: nat, pending: seq<byte>, code: int, exited: bool, sent: seq<Frame>, sends: nat)

  const FRESH := Dec(0, [], 0, false, [], 0)

  /** Takes one whole frame off the pending bytes and acts on it; false when its output could not be sent. */
  function TakeFrame(d: Dec, f: Frame, end: nat, fate: nat -> bool): (Dec, bool)
    requires end <= |d.pending| && (f.kind == KIND_EXIT ==> |f.payload| == 4)
  {
    var cut := d.(pending := d.pending[end..]);
    if f.kind == KIND_EXIT then
      (cut.(code := ToInt32(Uint32(f.payload)), exited := true), true)
    else
      var s := SendAll(fate, d.sends, f.kind, f.payload);
      (cut.(sent := d.sent + s.messages, sends := s.sends), s.ok)
  }

  /** Decodes what is pending, frame by frame, until it runs short or something fails. */
  function Drain(d: Dec, fate: nat -> bool): (Dec, Status)
    decreases |d.pending|
  {
    match ScanFrame(d.pending, d.exited)
    case Partial => (d, Fine)
    case Corrupt(why) => (d, Corrupted(why))
    case Whole(f, end) =>
      var (next, ok) := TakeFrame(d, f, end, fate);
      if ok then Drain(next, fate) else (next, SinkFailed)
  }

  function More(d: Dec, p: seq<byte>): Dec {
    d.(offset := d.offset + |p|, pending := d.pending + p)
  }

  function Feed(d: Dec, p: seq<byte>, fate: nat -> bool): (Dec, Status) {
    Drain(More(d, p), fate)
  }

  /** Writes as a transport makes them: in order, and none after one that failed. */
  function FeedAll(d: Dec, chunks: seq<seq<byte>>, fate: nat -> bool): (Dec, Status)
    decreases |chunks|
  {
    if chunks == [] then (d, Fine)
    else
      var (d', st) := Feed(d, chunks[0], fate);
      if st != Fine then (d', st) else FeedAll(d', chunks[1..], fate)
  }

  function Concat(chunks: seq<seq<byte>>): seq<byte> {
    if chunks == [] then [] else chunks[0] + Concat(chunks[1..])
  }

  lemma {:induction false} ConcatSplit(chunks: seq<seq<byte>>, i: nat)
    requires i < |chunks|
    ensures Concat(chunks[..i + 1]) == Concat(chunks[..i]) + chunks[i]
    ensures Concat(chunks[..i + 1]) <= Concat(chunks)
    decreases |chunks|
  {
    if i == 0 {
      assert chunks[..1][1..] == [] && chunks[..0] == [];
    } else {
      ConcatSplit(chunks[1..], i - 1);
      assert chunks[1..][..i] == chunks[..i + 1][1..];
      assert chunks[1..][..i - 1] == chunks[..i][1..];
    }
  }

  /** The decoder has consumed exactly `log`, and shows exactly what that log means. */
  ghost predicate Tracks(d: Dec, log: seq<byte>) {
    Shows(d, |log|, Parse(log))
  }

  ghost predicate Shows(d: Dec, n: nat, p: Parsed) {
    && d.offset == n
    && p.fault.None?
    && d.pending == p.rest
    && d.exited == p.exit.Some?
    && (d.exited ==> d.code == p.exit.value)
    && Flatten(d.sent) == Flatten(p.frames)
  }

  lemma FreshTracks()
    ensures Tracks(FRESH, [])
  {
  }

  /** The meaning of a buffer to a decoder that may already have seen the exit record. */
  function Pending(d: Dec): Parsed {
    if d.exited then Trailer(d.pending, d.code) else Parse(d.pending)
  }

  /** All frames before the k-th went out, that one not wholly, and what follows it is still pending. */
  ghost predicate FailsAt(d: Dec, d': Dec, p: Parsed, k: nat) {
    && k < |p.frames|
    && Flatten(d.sent) + Flatten(p.frames[..k]) <= Flatten(d'.sent)
    && Flatten(d'.sent) < Flatten(d.sent) + Flatten(p.frames[..k + 1])
    && Pending(d') == p.(frames := p.frames[k + 1..])
  }

  /**
   * What draining does, under every behaviour of the stream. Nothing failed:
   * all frames went out. A send failed: the frames before it went out and part
   * of that one, whose rest is lost, and no exit record was taken. Corruption:
   * all frames before it went out.
   */
  ghost predicate Delivers(d: Dec, r: (Dec, Status), p: Parsed) {
    var (d', st) := r;
    && d'.offset == d.offset
    && d'.sends >= d.sends
    && Flatten(d'.sent) <= Flatten(d.sent) + Flatten(p.frames)
    && (st.SinkFailed? ==> d'.exited == d.exited && d'.code == d.code && exists k :: FailsAt(d, d', p, k))
    && (!st.SinkFailed? ==>
          && Flatten(d'.sent) == Flatten(d.sent) + Flatten(p.frames)
          && d'.pending == p.rest
          && d'.exited == p.exit.Some?
          && (d'.exited ==> d'.code == p.exit.value)
          && (st == if p.fault.Some? then Corrupted(p.fault.value) else Fine))
  }

  lemma {:induction false} DrainDelivers(d: Dec, fate: nat -> bool)
    ensures Delivers(d, Drain(d, fate), Pending(d))
    decreases |d.pending|
  {
    match ScanFrame(d.pending, d.exited)
    case Partial =>
    case Corrupt(_) =>
    case Whole(f, end) =>
      var (next, _) := TakeFrame(d, f, end, fate);
      DrainDelivers(next, fate);
      if f.kind == KIND_EXIT {
        assert Pending(d) == Pending(next);
      } else {
        FrameDelivers(d, f, next, fate, Parse(next.pending), Drain(d, fate));
      }
  }

  /** One data frame in front of what draining the rest does. */
  lemma FrameDelivers(d: Dec, f: Frame, next: Dec, fate: nat -> bool, q: Parsed, r: (Dec, Status))
    requires var s := SendAll(fate, d.sends, f.kind, f.payload);
             && next.offset == d.offset && next.exited == d.exited && next.code == d.code
             && next.sent == d.sent + s.messages && next.sends == s.sends
             && (if s.ok then Delivers(next, r, q) else r == (next, SinkFailed))
    requires q == Pending(next)
    ensures Delivers(d, r, Prepend([f], q))
  {
    var s := SendAll(fate, d.sends, f.kind, f.payload);
    SendAllMeaning(fate, d.sends, f.kind, f.payload);
    FlattenConcat(d.sent, s.messages);
    FlattenConcat([f], q.frames);
    FlattenOne(f);
    Associates(Flatten(d.sent), Tag(f.kind, f.payload), Flatten(q.frames));
    if !s.ok {
      FailsFirst(d, f, next, q, Flatten(s.messages));
    } else if r.1.SinkFailed? {
      var k :| FailsAt(next, r.0, q, k);
      FailsLater(d, f, next, r.0, q, k);
    }
  }

  lemma FailsFirst(d: Dec, f: Frame, next: Dec, q: Parsed, sent: seq<Tagged>)
    requires sent < Tag(f.kind, f.payload) && Flatten(next.sent) == Flatten(d.sent) + sent && q == Pending(next)
    ensures FailsAt(d, next, Prepend([f], q), 0)
  {
    var fs := [f] + q.frames;
    assert fs[..0] == [] && fs[..1] == [f] && fs[1..] == q.frames;
    FlattenOne(f);
    assert Flatten([]) == [];
  }

  lemma FailsLater(d: Dec, f: Frame, next: Dec, d': Dec, q: Parsed, k: nat)
    requires FailsAt(next, d', q, k) && Flatten(next.sent) == Flatten(d.sent) + Tag(f.kind, f.payload)
    ensures FailsAt(d, d', Prepend([f], q), k + 1)
  {
    var fs := [f] + q.frames;
    FirstOf(f, q.frames, k);
    FirstOf(f, q.frames, k + 1);
    assert fs[k + 2..] == q.frames[k + 1..];
    Associates(Flatten(d.sent), Tag(f.kind, f.payload), Flatten(q.frames[..k]));
    Associates(Flatten(d.sent), Tag(f.kind, f.payload), Flatten(q.frames[..k + 1]));
  }

  lemma FirstOf(f: Frame, fs: seq<Frame>, k: nat)
    requires k <= |fs|
    ensures Flatten(([f] + fs)[..k + 1]) == Tag(f.kind, f.payload) + Flatten(fs[..k])
  {
    assert ([f] + fs)[..k + 1] == [f] + fs[..k];
    FlattenConcat([f], fs[..k]);
    FlattenOne(f);
  }

  /** What a decoder that was written `log`, and reported `st` last, has to show for it. */
  ghost predicate Reflects(d: Dec, st: Status, log: seq<byte>) {
    ShowsStatus(d, st, |log|, Parse(log))
  }

  ghost predicate ShowsStatus(d: Dec, st: Status, n: nat, p: Parsed) {
    if st.SinkFailed? then
      d.offset == n && !d.exited && Flatten(d.sent) <= Flatten(p.frames)
    else
      && Shows(d, n, p.(fault := None))
      && st == (if p.fault.Some? then Corrupted(p.fault.value) else Fine)
  }

  /** A write to a decoder that tracks a log gives one that tracks the longer log, or reports why not. */
  lemma FeedTracks(d: Dec, log: seq<byte>, p: seq<byte>, fate: nat -> bool)
    requires Tracks(d, log)
    ensures var (d', st) := Feed(d, p, fate);
            && Reflects(d', st, log + p)
            && (st.Fine? ==> Tracks(d', log + p))
  {
    ParseAfter(d, log, p);
    DrainDelivers(More(d, p), fate);
    ShowsMore(d, More(d, p), |log|, |log + p|, Parse(log), Pending(More(d, p)), Feed(d, p, fate));
  }

  /** The same for a log whose next bytes are `p`. */
  lemma FeedReflects(d: Dec, log: seq<byte>, p: seq<byte>, longer: seq<byte>, fate: nat -> bool)
    requires Reflects(d, Fine, log) && log + p == longer
    ensures Reflects(Feed(d, p, fate).0, Feed(d, p, fate).1, longer)
  {
    FeedTracks(d, log, p, fate);
  }

  lemma ParseAfter(d: Dec, log: seq<byte>, p: seq<byte>)
    requires Tracks(d, log)
    ensures Parse(log + p) == Prepend(Parse(log).frames, Pending(More(d, p)))
    ensures d.exited ==> Pending(More(d, p)).frames == []
  {
    ParseResumes(log, p);
  }

  lemma ShowsMore(d: Dec, c: Dec, n: nat, m: nat, p: Parsed, q: Parsed, r: (Dec, Status))
    requires Shows(d, n, p) && c.sent == d.sent && c.offset == m && c.exited == d.exited
    requires Delivers(c, r, q)
    requires d.exited ==> q.frames == []
    ensures var whole := Prepend(p.frames, q);
            && ShowsStatus(r.0, r.1, m, whole)
            && (r.1.Fine? ==> Shows(r.0, m, whole))
  {
    FlattenConcat(p.frames, q.frames);
  }

  // ----- Chunking -----

  /** All the writes of a careless transport, which goes on after a reported error. */
  function FeedEvery(d: Dec, chunks: seq<seq<byte>>, fate: nat -> bool): (Dec, Status)
    decreases |chunks|
  {
    if chunks == [] then (d, Fine)
    else
      var r := Feed(d, chunks[0], fate);
      if |chunks| == 1 then r else FeedEvery(r.0, chunks[1..], fate)
  }

  ghost predicate Infallible(fate: nat -> bool) {
    forall i :: fate(i)
  }

  /** Draining may stop for lack of input and go on later; after a failed send the rest stays pending. */
  lemma {:induction false} DrainResumes(d: Dec, p: seq<byte>, fate: nat -> bool)
    ensures var (d', st) := Drain(d, fate);
            Drain(More(d, p), fate) == if st.SinkFailed? then (More(d', p), st) else Drain(More(d', p), fate)
    decreases |d.pending|
  {
    match ScanFrame(d.pending, d.exited)
    case Partial =>
    case Corrupt(_) =>
      ScanStable(d.pending, d.exited, p);
    case Whole(f, end) =>
      ScanStable(d.pending, d.exited, p);
      assert (d.pending + p)[end..] == d.pending[end..] + p;
      var (next, ok) := TakeFrame(d, f, end, fate);
      assert TakeFrame(More(d, p), f, end, fate) == (More(next, p), ok);
      if ok {
        DrainResumes(next, p, fate);
      }
  }

  /** Draining an already drained decoder changes nothing and reports the same. */
  lemma {:induction false} DrainSettles(d: Dec, fate: nat -> bool)
    ensures var (d', st) := Drain(d, fate); !st.SinkFailed? ==> Drain(d', fate) == (d', st)
    decreases |d.pending|
  {
    match ScanFrame(d.pending, d.exited)
    case Partial =>
    case Corrupt(_) =>
    case Whole(f, end) =>
      var (next, ok) := TakeFrame(d, f, end, fate);
      if ok {
        DrainSettles(next, fate);
      }
  }

  /** Two writes are one write of the concatenation, unless the first ended in a failed send. */
  lemma FeedTwice(d: Dec, p: seq<byte>, q: seq<byte>, fate: nat -> bool)
    ensures var (d', st) := Feed(d, p, fate);
            Feed(d, p + q, fate) == if st.SinkFailed? then (More(d', q), st) else Feed(d', q, fate)
  {
    DrainResumes(More(d, p), q, fate);
    assert More(More(d, p), q) == More(d, p + q) by {
      assert (d.pending + p) + q == d.pending + (p + q);
    }
  }

  /** Corruption, once reported, is reported by every later write. */
  lemma CorruptionSticks(d: Dec, p: seq<byte>, q: seq<byte>, fate: nat -> bool)
    requires Feed(d, p, fate).1.Corrupted?
    ensures Feed(Feed(d, p, fate).0, q, fate) == (More(Feed(d, p, fate).0, q), Feed(d, p, fate).1)
  {
    var (d', st) := Feed(d, p, fate);
    DrainSettles(More(d, p), fate);
    var scan := ScanFrame(d'.pending, d'.exited);
    DrainShrinks(d', fate);
    assert scan.Corrupt?;
    ScanStable(d'.pending, d'.exited, q);
  }

  lemma {:induction false} DrainShrinks(d: Dec, fate: nat -> bool)
    ensures |Drain(d, fate).0.pending| <= |d.pending|
    ensures ScanFrame(d.pending, d.exited).Whole? ==> |Drain(d, fate).0.pending| < |d.pending|
    decreases |d.pending|
  {
    var scan := ScanFrame(d.pending, d.exited);
    if scan.Whole? {
      DrainShrinks(TakeFrame(d, scan.frame, scan.end, fate).0, fate);
    }
  }

  lemma {:induction false} NeverFails(d: Dec, fate: nat -> bool)
    requires Infallible(fate)
    ensures !Drain(d, fate).1.SinkFailed?
    decreases |d.pending|
  {
    var scan := ScanFrame(d.pending, d.exited);
    if scan.Whole? {
      SendAllMeaning(fate, d.sends, scan.frame.kind, scan.frame.payload);
      NeverFails(TakeFrame(d, scan.frame, scan.end, fate).0, fate);
    }
  }

  /** With infallible sinks the chunking of the input does not matter, not even past a corruption. */
  lemma {:induction false} ChunkingIrrelevant(d: Dec, chunks: seq<seq<byte>>, fate: nat -> bool)
    requires Infallible(fate) && chunks != []
    ensures FeedEvery(d, chunks, fate) == Feed(d, Concat(chunks), fate)
    decreases |chunks|
  {
    if |chunks| == 1 {
      assert Concat(chunks) == chunks[0] + Concat(chunks[1..]);
      assert Concat(chunks) == chunks[0];
    } else {
      ChunkingIrrelevant(Feed(d, chunks[0], fate).0, chunks[1..], fate);
      FeedTwice(d, chunks[0], Concat(chunks[1..]), fate);
      NeverFails(More(d, chunks[0]), fate);
    }
  }

  /**
   * A fresh decoder fed a log in any chunking shows what the one-shot parser
   * says about it: output, undecoded rest, offset, exit code and corruption.
   */
  lemma DecoderIsParser(chunks: seq<seq<byte>>, fate: nat -> bool)
    requires Infallible(fate) && chunks != []
    ensures var (d, st) := FeedEvery(FRESH, chunks, fate);
            var p := Parse(Concat(chunks));
            && d.offset == |Concat(chunks)|
            && Flatten(d.sent) == Flatten(p.frames)
            && d.pending == p.rest
            && (if d.exited then p.exit == Some(d.code) else p.exit == None)
            && st == (if p.fault.Some? then Corrupted(p.fault.value) else Fine)
  {
    var log := Concat(chunks);
    ChunkingIrrelevant(FRESH, chunks, fate);
    assert More(FRESH, log).pending == log;
    DrainDelivers(More(FRESH, log), fate);
    NeverFails(More(FRESH, log), fate);
    assert Flatten([]) == [];
  }

  /**
   * With sinks that may fail, a transport that stops at the first error leaves
   * the same output, exit code and status as one write of everything.
   */
  lemma {:induction false} ChunkingIrrelevantUntilError(d: Dec, chunks: seq<seq<byte>>, fate: nat -> bool)
    requires ScanFrame(d.pending, d.exited).Partial?
    ensures var (a, s) := FeedAll(d, chunks, fate);
            var (b, t) := Feed(d, Concat(chunks), fate);
            && s == t && a.sent == b.sent && a.sends == b.sends && a.exited == b.exited && a.code == b.code
            && (s == Fine ==> a == b)
    decreases |chunks|
  {
    if chunks == [] {
      assert More(d, []) == d;
    } else {
      var p, rest := chunks[0], Concat(chunks[1..]);
      var (d', st) := Feed(d, p, fate);
      FeedTwice(d, p, rest, fate);
      if st.Corrupted? {
        CorruptionSticks(d, p, rest, fate);
      } else if st.Fine? {
        DrainLeavesPartial(More(d, p), fate);
        ChunkingIrrelevantUntilError(d', chunks[1..], fate);
      }
    }
  }

  lemma {:induction false} DrainLeavesPartial(d: Dec, fate: nat -> bool)
    requires Drain(d, fate).1.Fine?
    ensures var d' := Drain(d, fate).0; ScanFrame(d'.pending, d'.exited).Partial?
    decreases |d.pending|
  {
    DrainSettles(d, fate);
    DrainShrinks(Drain(d, fate).0, fate);
  }

  /** The decoder: fields as the plugin keeps them, refining Feed. */
  class Decoder {
    const stream: Stream
    var offset: nat
    var pending: seq<byte>
    var code: int
    var exited: bool

    function State(): Dec
      reads this, stream
    {
      Dec(offset, pending, code, exited, stream.sent, stream.sends)
    }

    constructor (stream: Stream)
      ensures this.stream == stream
      ensures State() == FRESH.(sent := stream.sent, sends := stream.sends)
    {
      this.stream := stream;
      offset, pending, code, exited := 0, [], 0, false;
    }

    /** Consumes raw log bytes; a frame is written out once it is complete. */
    method Write(p: seq<byte>) returns (n: nat, status: Status)
      modifies this, stream
      ensures n == |p|
      ensures (State(), status) == Feed(old(State()), p, stream.fate)
    {
      offset := offset + |p|;
      pending := pending + p;
      ghost var d0 := State();
      assert d0 == More(old(State()), p);
      while |pending| >= HEADER_LEN
        invariant Drain(State(), stream.fate) == Drain(d0, stream.fate)
        decreases |pending|
      {
        ghost var before := State();
        if exited {
          return |p|, Corrupted(AfterExit);
        }
        var kind, len := pending[0], Uint32(pending[1..HEADER_LEN]);
        if len > MAX_PAYLOAD {
          return |p|, Corrupted(Oversized);
        } else if kind == KIND_EXIT && len != 4 {
          return |p|, Corrupted(BadExit);
        } else if kind != KIND_STDOUT && kind != KIND_STDERR && kind != KIND_EXIT {
          return |p|, Corrupted(UnknownKind);
        }
        var end := HEADER_LEN + len;
        if |pending| < end {
          break;
        }
        var payload := pending[HEADER_LEN..end];
        assert ScanFrame(before.pending, before.exited) == Whole(Frame(kind, payload), end);
        var ok := true;
        if kind == KIND_EXIT {
          code, exited := ToInt32(Uint32(payload)), true;
        } else {
          ok := stream.Write(kind, payload);
        }
        pending := pending[end..];
        if !ok {
          return |p|, SinkFailed;
        }
      }
      return |p|, Fine;
    }

    /** A write to a decoder that tracks a log. */
    method WriteTracked(p: seq<byte>, ghost log: seq<byte>) returns (status: Status)
      requires Tracks(State(), log)
      modifies this, stream
      ensures Reflects(State(), status, log + p)
      ensures status == Fine ==> Tracks(State(), log + p)
      ensures Infallible(stream.fate) ==> !status.SinkFailed?
    {
      FeedTracks(State(), log, p, stream.fate);
      if Infallible(stream.fate) {
        NeverFails(More(State(), p), stream.fate);
      }
      var _, st := Write(p);
      status := st;
    }

    /** How many raw bytes have been consumed: where to resume. */
    method Offset() returns (n: nat)
      ensures n == offset
    {
      n := offset;
    }

    /** The exit code, once the exit record has been decoded. */
    method Exit() returns (c: int, ok: bool)
      ensures c == code && ok == exited
    {
      c, ok := code, exited;
    }
  }
}
