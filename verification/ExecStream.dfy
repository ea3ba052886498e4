/**
 * The gRPC side of a step: the writers `Exec` hands to the decoder. Both of a
 * step's outputs go, in order, onto one stream of messages of at most 64 KiB.
 */
module ExecStream {
  import opened Bytes

  const CHUNK_SIZE := 0x1_0000

  /** A run of bytes of one output: a frame of the step log, or a message to the runner. */
  datatype Frame = Frame(kind: byte, payload: seq<byte>)

  /** One byte of output together with the stream it belongs to. */
  datatype Tagged = Tagged(kind: byte, value: byte)

  function Tag(kind: byte, p: seq<byte>): (t: seq<Tagged>)
    ensures |t| == |p|
  {
    seq(|p|, i requires 0 <= i < |p| => Tagged(kind, p[i]))
  }

  /** What a sequence of frames says, byte by byte, however it is cut into frames. */
  function Flatten(fs: seq<Frame>): seq<Tagged> {
    if fs == [] then [] else Tag(fs[0].kind, fs[0].payload) + Flatten(fs[1..])
  }

  /** The bytes of one stream, in order. */
  function Select(kind: byte, ts: seq<Tagged>): seq<byte> {
    if ts == [] then []
    else (if ts[0].kind == kind then [ts[0].value] else []) + Select(kind, ts[1..])
  }

  lemma {:induction false} FlattenConcat(a: seq<Frame>, b: seq<Frame>)
    ensures Flatten(a + b) == Flatten(a) + Flatten(b)
  {
    if a == [] {
      assert a + b == b;
    } else {
      var first, rest := a[0], a[1..];
      FlattenConcat(rest, b);
      assert (a + b)[0] == first && (a + b)[1..] == rest + b;
      Associates(Tag(first.kind, first.payload), Flatten(rest), Flatten(b));
    }
  }

  lemma FlattenOne(f: Frame)
    ensures Flatten([f]) == Tag(f.kind, f.payload)
  {
    assert Flatten([f]) == Tag(f.kind, f.payload) + Flatten([]);
  }

  lemma FlattenPrefix(a: seq<Frame>, b: seq<Frame>)
    requires a <= b
    ensures Flatten(a) <= Flatten(b)
  {
    assert b == a + b[|a|..];
    FlattenConcat(a, b[|a|..]);
  }

  lemma {:induction false} SelectConcat(kind: byte, a: seq<Tagged>, b: seq<Tagged>)
    ensures Select(kind, a + b) == Select(kind, a) + Select(kind, b)
  {
    if a == [] {
      assert a + b == b;
    } else {
      var first, rest := a[0], a[1..];
      SelectConcat(kind, rest, b);
      assert (a + b)[0] == first && (a + b)[1..] == rest + b;
      Associates(if first.kind == kind then [first.value] else [], Select(kind, rest), Select(kind, b));
    }
  }

  lemma SelectPrefix(kind: byte, a: seq<Tagged>, b: seq<Tagged>)
    requires a <= b
    ensures Select(kind, a) <= Select(kind, b)
  {
    assert b == a + b[|a|..];
    SelectConcat(kind, a, b[|a|..]);
  }

  lemma {:induction false} SelectTag(kind: byte, k: byte, p: seq<byte>)
    ensures Select(kind, Tag(k, p)) == if k == kind then p else []
  {
    if p != [] {
      assert Tag(k, p)[1..] == Tag(k, p[1..]);
      SelectTag(kind, k, p[1..]);
      assert p == [p[0]] + p[1..];
    } else {
      assert Tag(k, p) == [];
    }
  }

  /** The outcome of writing one payload: the messages that went out, the sends tried, success. */
  datatype Sent = Sent(messages: seq<Frame>, sends: nat, ok: bool)

  /** Writing `p` as messages, when `fate(i)` says whether the i-th send of the stream succeeds. */
  function SendAll(fate: nat -> bool, sends: nat, kind: byte, p: seq<byte>): Sent
    decreases |p|
  {
    if p == [] then Sent([], sends, true)
    else if !fate(sends) then Sent([], sends + 1, false)
    else
      var k := Min(CHUNK_SIZE, |p|);
      var rest := SendAll(fate, sends + 1, kind, p[k..]);
      Sent([Frame(kind, p[..k])] + rest.messages, rest.sends, rest.ok)
  }

  /**
   * The messages carry the payload's bytes in order: all of them on success,
   * else the ones before the message that failed; each message but the last
   * has the chunk size, which the last is within, and success means no send
   * failed.
   */
  lemma {:induction false} SendAllMeaning(fate: nat -> bool, sends: nat, kind: byte, p: seq<byte>)
    ensures var s := SendAll(fate, sends, kind, p);
            && Flatten(s.messages) <= Tag(kind, p)
            && (s.ok <==> Flatten(s.messages) == Tag(kind, p))
            && (s.ok <==> forall i :: sends <= i < s.sends ==> fate(i))
            && (forall m :: m in s.messages ==> m.kind == kind && 0 < |m.payload| <= CHUNK_SIZE)
            && (forall i :: 0 <= i < |s.messages| - 1 ==> |s.messages[i].payload| == CHUNK_SIZE)
            && s.sends >= sends
    decreases |p|
  {
    if p != [] && fate(sends) {
      var k := Min(CHUNK_SIZE, |p|);
      var rest := SendAll(fate, sends + 1, kind, p[k..]);
      SendAllMeaning(fate, sends + 1, kind, p[k..]);
      assert Tag(kind, p) == Tag(kind, p[..k]) + Tag(kind, p[k..]);
      var s := SendAll(fate, sends, kind, p);
      assert s.messages[1..] == rest.messages;
      assert Flatten(s.messages) == Tag(kind, p[..k]) + Flatten(rest.messages);
    } else if p != [] {
      assert Flatten([]) == [];
      assert !fate(sends);
    }
  }

  /** The stream of one Exec call: what has been sent on it so far. */
  class Stream {
    const fate: nat -> bool
    var sent: seq<Frame>
    var sends: nat

    constructor (fate: nat -> bool)
      ensures this.fate == fate && sent == [] && sends == 0
    {
      this.fate := fate;
      sent, sends := [], 0;
    }

    /** The writer for one output: cuts the payload into messages and sends them until one fails. */
    method Write(kind: byte, p: seq<byte>) returns (ok: bool)
      modifies this
      ensures var s := SendAll(fate, old(sends), kind, p);
              ok == s.ok && sent == old(sent) + s.messages && sends == s.sends
    {
      var off := 0;
      while off < |p|
        invariant 0 <= off <= |p|
        invariant var s := SendAll(fate, old(sends), kind, p);
                  var r := SendAll(fate, sends, kind, p[off..]);
                  s.ok == r.ok && s.sends == r.sends && old(sent) + s.messages == sent + r.messages
      {
        var end := Min(off + CHUNK_SIZE, |p|);
        ghost var rest := p[off..];
        assert rest[Min(CHUNK_SIZE, |rest|)..] == p[end..];
        assert rest[..Min(CHUNK_SIZE, |rest|)] == p[off..end];
        sends := sends + 1;
        if !fate(sends - 1) {
          return false;
        }
        sent := sent + [Frame(kind, p[off..end])];
        off := end;
      }
      return true;
    }
  }
}
