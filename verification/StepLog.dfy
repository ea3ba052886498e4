/** Writing a step log and reading it back: what every prefix of a well-formed log decodes to. */
module StepLog {
  import opened Bytes
  import opened ExecStream
  import opened StepIO

  function Wire(f: Frame): seq<byte> {
    AppendFrame([], f.kind, f.payload)
  }

  function Encode(fs: seq<Frame>): seq<byte> {
    if fs == [] then [] else Wire(fs[0]) + Encode(fs[1..])
  }

  /** A data frame the decoder accepts. */
  predicate SoundData(f: Frame) {
    f.kind in {KIND_STDOUT, KIND_STDERR} && |f.payload| <= MAX_PAYLOAD
  }

  predicate SoundFrames(fs: seq<Frame>) {
    forall i :: 0 <= i < |fs| ==> SoundData(fs[i])
  }

  predicate Sound(f: Frame) {
    SoundData(f) || (f.kind == KIND_EXIT && |f.payload| == 4)
  }

  lemma WireHeader(f: Frame)
    requires Sound(f)
    ensures HEADER_LEN <= |Wire(f)| && Wire(f)[0] == f.kind && Wire(f)[1..HEADER_LEN] == PutUint32(|f.payload|)
  {
    assert ToUint32(|f.payload|) == |f.payload|;
  }

  lemma HeaderReads(f: Frame, buf: seq<byte>)
    requires Sound(f) && HEADER_LEN <= |buf|
    requires buf <= Wire(f) || Wire(f) <= buf
    ensures buf[0] == f.kind && Uint32(buf[1..HEADER_LEN]) == |f.payload|
  {
    WireHeader(f);
    Uint32RoundTrip(|f.payload|);
    SameHeader(buf, Wire(f));
  }

  lemma SameHeader(a: seq<byte>, b: seq<byte>)
    requires HEADER_LEN <= |a| && HEADER_LEN <= |b| && (a <= b || b <= a)
    ensures a[0] == b[0] && a[1..HEADER_LEN] == b[1..HEADER_LEN]
  {
  }

  lemma ScanEncoded(f: Frame, tail: seq<byte>)
    requires Sound(f)
    ensures ScanFrame(Wire(f) + tail, false) == Whole(f, |Wire(f)|)
    ensures (Wire(f) + tail)[|Wire(f)|..] == tail
  {
    HeaderReads(f, Wire(f) + tail);
    assert (Wire(f) + tail)[HEADER_LEN..|Wire(f)|] == f.payload;
  }

  lemma ScanCutShort(f: Frame, buf: seq<byte>)
    requires Sound(f) && buf < Wire(f)
    ensures ScanFrame(buf, false) == Partial
  {
    if |buf| >= HEADER_LEN {
      HeaderReads(f, buf);
    }
  }

  /** A data frame survives the log exactly when its stream is known and its payload is within bounds. */
  lemma FrameRoundTrip(f: Frame)
    ensures Parse(Wire(f)) == Parsed([f], [], None, None) <==> SoundData(f)
  {
    var b := Wire(f);
    if SoundData(f) {
      ScanEncoded(f, []);
      assert b + [] == b;
      assert Parse([]) == Parsed([], [], None, None);
    }
  }

  /** An exit code survives the log exactly when it is an int32. */
  lemma ExitRoundTrip(code: int)
    ensures Parse(ExitFrame(code)) == Parsed([], [], Some(ToInt32(ToUint32(code))), None)
    ensures Parse(ExitFrame(code)) == Parsed([], [], Some(code), None) <==> IsInt32(code)
  {
    var f := Frame(KIND_EXIT, PutUint32(ToUint32(code)));
    ScanEncoded(f, []);
    assert Wire(f) + [] == ExitFrame(code);
    Uint32RoundTrip(ToUint32(code));
    Int32RoundTrip(code);
  }

  /** Appending a frame to the log appends it to what the log encodes. */
  lemma {:induction false} EncodeConcat(a: seq<Frame>, b: seq<Frame>)
    ensures Encode(a + b) == Encode(a) + Encode(b)
  {
    if a == [] {
      assert a + b == b;
    } else {
      EncodeConcat(a[1..], b);
      assert (a + b)[0] == a[0] && (a + b)[1..] == a[1..] + b;
      Associates(Wire(a[0]), Encode(a[1..]), Encode(b));
    }
  }

  lemma EncodeAppend(fs: seq<Frame>, f: Frame)
    ensures Encode(fs + [f]) == AppendFrame(Encode(fs), f.kind, f.payload)
    ensures Encode(fs + [f]) == Encode(fs) + Wire(f)
  {
    EncodeConcat(fs, [f]);
    assert Encode([f]) == Wire(f) + Encode([]);
  }

  /** What a whole well-formed log may become: the frames, then the exit record. */
  function Ended(fs: seq<Frame>, code: int): seq<byte> {
    Encode(fs) + ExitFrame(code)
  }

  /** What the parse `p` of a prefix `log` of the log of `fs` and `code` has to be. */
  ghost predicate ReadsBack(fs: seq<Frame>, code: int, log: seq<byte>, p: Parsed) {
    && p.fault == None
    && p.frames <= fs
    && Encode(p.frames) + p.rest + (if p.exit.Some? then ExitFrame(code) else []) == log
    && (p.exit.Some? <==> log == Ended(fs, code))
    && (p.exit.Some? ==> p.frames == fs && p.exit.value == ToInt32(ToUint32(code)) && p.rest == [])
  }

  /**
   * Every prefix of a log, cut at any byte, parses without corruption to a
   * prefix of its frames; an exit code appears exactly when the log is whole.
   */
  lemma {:induction false} ParsePrefix(fs: seq<Frame>, code: int, log: seq<byte>)
    requires SoundFrames(fs) && log <= Ended(fs, code)
    ensures ReadsBack(fs, code, log, Parse(log))
    decreases |fs|
  {
    if fs == [] {
      assert Ended(fs, code) == ExitFrame(code);
      var f := Frame(KIND_EXIT, PutUint32(ToUint32(code)));
      assert Wire(f) == ExitFrame(code);
      if log == ExitFrame(code) {
        ExitRoundTrip(code);
      } else {
        ScanCutShort(f, log);
      }
    } else {
      var f, rest := fs[0], fs[1..];
      Associates(Wire(f), Encode(rest), ExitFrame(code));
      if |log| < |Wire(f)| {
        ScanCutShort(f, log);
      } else {
        var tail := log[|Wire(f)|..];
        assert log == Wire(f) + tail;
        ScanEncoded(f, tail);
        ParsePrefix(rest, code, tail);
        ReadsBackCons(f, rest, code, tail, Parse(tail));
        assert fs == [f] + rest;
      }
    }
  }

  /**
   * What a decoder reports of a log followed by other bytes: nothing before a
   * whole header is there, then corruption exactly for an oversized length, an
   * unknown kind or a malformed exit record, or for anything at all once the
   * log has ended. The frames before it are not touched.
   */
  lemma {:induction false} FaultExactly(fs: seq<Frame>, tail: seq<byte>)
    requires SoundFrames(fs) && |tail| >= 5
    ensures var n, p := Uint32(tail[1..5]), Parse(Encode(fs) + tail);
            && fs <= p.frames
            && (n > 0x10_0000 || tail[0] !in {1, 2, 3} || (tail[0] == 3 && n != 4) ==> p.fault.Some? && p.frames == fs)
    decreases |fs|
  {
    if fs == [] {
      assert Encode(fs) + tail == tail;
      CorruptionExactly(tail, false);
    } else {
      var f, rest := fs[0], fs[1..];
      Associates(Wire(f), Encode(rest), tail);
      ScanEncoded(f, Encode(rest) + tail);
      FaultExactly(rest, tail);
      assert fs == [f] + rest;
    }
  }

  /** After the exit record a whole header's worth of bytes is corruption, and fewer are not. */
  lemma TrailingBytes(fs: seq<Frame>, code: int, tail: seq<byte>)
    requires SoundFrames(fs)
    ensures var p := Parse(Ended(fs, code) + tail);
            p.frames == fs && p.exit == Some(ToInt32(ToUint32(code))) && (p.fault.Some? <==> |tail| >= 5)
  {
    ParsePrefix(fs, code, Ended(fs, code));
    ParseResumes(Ended(fs, code), tail);
    assert fs + [] == fs;
    assert [] + tail == tail;
  }

  lemma EncodeFirst(f: Frame, fs: seq<Frame>)
    ensures Encode([f] + fs) == Wire(f) + Encode(fs)
  {
    assert ([f] + fs)[1..] == fs;
  }

  lemma SameAfter<T>(w: seq<T>, a: seq<T>, b: seq<T>)
    ensures w + a == w + b <==> a == b
  {
    assert (w + a)[|w|..] == a && (w + b)[|w|..] == b;
  }

  lemma ReadsBackCons(f: Frame, rest: seq<Frame>, code: int, tail: seq<byte>, q: Parsed)
    requires ReadsBack(rest, code, tail, q)
    ensures ReadsBack([f] + rest, code, Wire(f) + tail, Prepend([f], q))
  {
    var w, x := Wire(f), if q.exit.Some? then ExitFrame(code) else [];
    EncodeFirst(f, q.frames);
    EncodeFirst(f, rest);
    Associates(w, Encode(q.frames), q.rest);
    Associates(w, Encode(q.frames) + q.rest, x);
    Associates(w, Encode(rest), ExitFrame(code));
    SameAfter(w, tail, Ended(rest, code));
  }
}
