/**
 * Archives as streams of chunks: the writer that cuts what an exec prints
 * into messages, and the reader that joins them again on the other side.
 */
module Chunks {
  import opened Bytes
  import opened ExecStream
  import opened StepIO

  lemma {:induction false} ConcatAppend(cs: seq<seq<byte>>, c: seq<byte>)
    ensures Concat(cs + [c]) == Concat(cs) + c
  {
    if cs == [] {
      assert Concat([c]) == c + Concat([]);
    } else {
      assert (cs + [c])[1..] == cs[1..] + [c];
      ConcatAppend(cs[1..], c);
    }
  }

  /** The chunks from index k on all have the given size. */
  ghost predicate Even(cs: seq<seq<byte>>, k: nat, size: nat) {
    forall i :: k <= i < |cs| ==> |cs[i]| == size
  }

  /** Even chunks and a shorter remainder are determined by the bytes alone. */
  lemma {:induction false} EvenChunksUnique(a: seq<seq<byte>>, x: seq<byte>, b: seq<seq<byte>>, y: seq<byte>, size: nat)
    requires Even(a, 0, size) && Even(b, 0, size) && |x| < size && |y| < size
    requires Concat(a) + x == Concat(b) + y
    ensures a == b && x == y
    decreases |a| + |b|
  {
    if a != [] && b != [] {
      var all := Concat(a) + x;
      assert all[..size] == a[0] && all[size..] == Concat(a[1..]) + x;
      assert all[..size] == b[0] && all[size..] == Concat(b[1..]) + y;
      EvenChunksUnique(a[1..], x, b[1..], y, size);
      assert a == [a[0]] + a[1..] && b == [b[0]] + b[1..];
    } else if a == [] && b != [] {
      assert false;
    } else if a != [] {
      assert false;
    } else {
      assert Concat(a) + x == x && Concat(b) + y == y;
    }
  }

  /** Buffers writes and sends them in chunks; `fate(i)` says whether the i-th send succeeds. */
  class ChunkWriter {
    const size: int
    const fate: nat -> bool
    var buf: seq<byte>
    var sent: seq<seq<byte>>
    var sends: nat

    ghost predicate Valid()
      reads this
    {
      0 <= |buf| < size
    }

    /** All bytes accepted so far: those sent and those buffered. */
    ghost function All(): seq<byte>
      reads this
    {
      Concat(sent) + buf
    }

    constructor (size: int, fate: nat -> bool)
      ensures Valid() && this.size == (if size <= 0 then CHUNK_SIZE else size) && this.fate == fate
      ensures sent == [] && buf == [] && sends == 0
    {
      this.size := if size <= 0 then CHUNK_SIZE else size;
      this.fate := fate;
      buf, sent, sends := [], [], 0;
    }

    /** Sends any buffered bytes; they are gone from the buffer even when the send fails. */
    method Flush() returns (ok: bool)
      requires 0 <= |buf| <= size && 0 < size
      modifies this
      ensures Valid() && buf == []
      ensures sent == if ok && old(buf) != [] then old(sent) + [old(buf)] else old(sent)
      ensures sends == old(sends) + if old(buf) != [] then 1 else 0
      ensures ok <==> forall i :: old(sends) <= i < sends ==> fate(i)
      ensures ok ==> Concat(sent) == old(All())
    {
      if |buf| == 0 {
        return true;
      }
      ok := fate(sends);
      sends := sends + 1;
      if ok {
        ConcatAppend(sent, buf);
        sent := sent + [buf];
      }
      buf := [];
      assert !ok ==> !fate(old(sends));
    }

    /** Buffers as much of `p` as fits, and sends the buffer once it is full. */
    method Put(p: seq<byte>) returns (k: nat, ok: bool)
      requires Valid() && p != []
      modifies this
      ensures Valid() && 0 < k <= |p|
      ensures sent == old(sent) || (|sent| == |old(sent)| + 1 && old(sent) <= sent && |sent[|old(sent)|]| == size)
      ensures old(sends) <= sends && (ok <==> forall i :: old(sends) <= i < sends ==> fate(i))
      ensures ok ==> All() == old(All()) + p[..k]
      ensures !ok ==> buf == [] && sent == old(sent) && |old(buf) + p[..k]| == size
    {
      k := Min(size - |buf|, |p|);
      buf := buf + p[..k];
      assert Concat(sent) + buf == (Concat(sent) + old(buf)) + p[..k];
      ok := true;
      if |buf| == size {
        ok := Flush();
      }
    }

    /**
     * Nothing is lost or reordered while sends succeed; a failed send loses
     * exactly the last chunk of the bytes reported as written.
     */
    method Write(p: seq<byte>) returns (n: nat, ok: bool)
      requires Valid()
      modifies this
      ensures Valid() && n <= |p|
      ensures old(sent) <= sent && Even(sent, |old(sent)|, size)
      ensures ok <==> forall i :: old(sends) <= i < sends ==> fate(i)
      ensures ok ==> n == |p| && All() == old(All()) + p
      ensures !ok ==> buf == [] && LosesLast(Concat(sent), old(All()) + p[..n], size)
    {
      n := 0;
      while n < |p|
        invariant Valid() && n <= |p|
        invariant old(sent) <= sent && Even(sent, |old(sent)|, size) && old(sends) <= sends
        invariant forall i :: old(sends) <= i < sends ==> fate(i)
        invariant All() == old(All()) + p[..n]
      {
        ghost var before, held := All(), buf;
        var k;
        k, ok := Put(p[n..]);
        Reaches(old(All()), p, n, k);
        if !ok {
          Lost(Concat(sent), held, p[n..][..k], before + p[n..][..k], size);
          return n + k, false;
        }
        n := n + k;
      }
      assert p[..n] == p;
      ok := true;
    }
  }

  /** All of `all` has been sent but its last, full chunk. */
  ghost predicate LosesLast(sent: seq<byte>, all: seq<byte>, size: int) {
    0 <= size <= |all| && sent == all[..|all| - size]
  }

  lemma Reaches(before: seq<byte>, p: seq<byte>, n: nat, k: nat)
    requires n + k <= |p|
    ensures (before + p[..n]) + p[n..][..k] == before + p[..n + k]
  {
  }

  lemma Lost(sent: seq<byte>, held: seq<byte>, more: seq<byte>, all: seq<byte>, size: int)
    requires all == (sent + held) + more && |held + more| == size
    ensures LosesLast(sent, all, size)
  {
  }

  /** How a stream of chunks ends. */
  datatype End = Eof | Broken

  /** Joins the chunks a stream yields; `queue` are the ones still to come. */
  class ChunkReader {
    const end: End
    var queue: seq<seq<byte>>
    var cur: seq<byte>

    /** The bytes still to be read. */
    ghost function Left(): seq<byte>
      reads this
    {
      cur + Concat(queue)
    }

    constructor (queue: seq<seq<byte>>, end: End, cur: seq<byte>)
      ensures this.queue == queue && this.end == end && this.cur == cur
    {
      this.queue, this.end, this.cur := queue, end, cur;
    }

    /** Reads into a buffer of `room` bytes; the stream's end only once every byte is out, empty chunks or not. */
    method Read(room: nat) returns (data: seq<byte>, ended: Option<End>)
      modifies this
      ensures old(Left()) == data + Left()
      ensures |data| <= room
      ensures ended == if old(Left()) == [] then Some(end) else None
      ensures data == [] <==> old(Left()) == [] || room == 0
    {
      while |cur| == 0
        invariant Left() == old(Left())
        decreases |queue|, |cur|
      {
        if queue == [] {
          return [], Some(end);
        }
        assert cur + Concat(queue) == queue[0] + Concat(queue[1..]);
        cur, queue := queue[0], queue[1..];
      }
      var n := Min(room, |cur|);
      data, ended := cur[..n], None;
      ghost var was := cur;
      cur := cur[n..];
      assert was + Concat(queue) == data + (cur + Concat(queue));
    }
  }

  /** Reading to the end with any non-empty buffers. */
  method ReadAll(queue: seq<seq<byte>>, end: End, cur: seq<byte>, room: nat -> nat) returns (all: seq<byte>, how: End)
    requires forall i :: room(i) > 0
    ensures all == cur + Concat(queue) && how == end
  {
    var r := new ChunkReader(queue, end, cur);
    var i := 0;
    all := [];
    while true
      invariant fresh(r) && r.end == end
      invariant all + r.Left() == cur + Concat(queue)
      decreases |r.Left()|
    {
      ghost var left := r.Left();
      var data, ended := r.Read(room(i));
      assert all + left == (all + data) + r.Left();
      if ended.Some? {
        assert left == [];
        return all, ended.value;
      }
      all := all + data;
      i := i + 1;
    }
  }

  /** Full chunks, and a last one that may be shorter but is not empty. */
  ghost predicate Cut(cs: seq<seq<byte>>, size: int) {
    forall i :: 0 <= i < |cs| ==> if i < |cs| - 1 then |cs[i]| == size else 0 < |cs[i]| <= size
  }

  /**
   * CopyOut: what the archiver wrote, piece by piece, as the chunks that were
   * sent. The last one goes out only if the archiver then ended `clean`.
   */
  method SendArchive(writes: seq<seq<byte>>, size: int, clean: bool, fate: nat -> bool)
    returns (chunks: seq<seq<byte>>, ok: bool)
    ensures Cut(chunks, if size <= 0 then CHUNK_SIZE else size)
    ensures Concat(chunks) <= Concat(writes)
    ensures ok ==> clean && Concat(chunks) == Concat(writes)
    ensures clean && (forall i :: fate(i)) ==> ok
  {
    var w := new ChunkWriter(size, fate);
    assert Concat(writes[..0]) == [];
    for i := 0 to |writes|
      invariant fresh(w) && w.Valid() && w.size == (if size <= 0 then CHUNK_SIZE else size) && w.fate == fate
      invariant Even(w.sent, 0, w.size)
      invariant w.All() == Concat(writes[..i])
    {
      ConcatSplit(writes, i);
      ghost var before := w.All();
      var n, good := w.Write(writes[i]);
      if !good {
        LostTail(Concat(w.sent), before + writes[i][..n], before + writes[i], Concat(writes), w.size);
        return w.sent, false;
      }
    }
    assert writes[..|writes|] == writes;
    ghost var even := w.sent;
    assert Concat(even) <= Concat(writes);
    if !clean {
      return w.sent, false;
    }
    ok := w.Flush();
    chunks := w.sent;
  }

  lemma LostTail(sent: seq<byte>, taken: seq<byte>, offered: seq<byte>, all: seq<byte>, size: int)
    requires LosesLast(sent, taken, size) && taken <= offered <= all
    ensures sent <= all
  {
  }

  /**
   * A download, both ends together: the runner gets the archive's bytes, or
   * learns that it does not have them all. It reports an empty archive
   * exactly when nothing was written, because then no chunk is sent at all.
   */
  method Download(writes: seq<seq<byte>>, size: int, clean: bool, fate: nat -> bool, room: nat -> nat)
    returns (found: bool, got: seq<byte>, how: End)
    requires forall i :: room(i) > 0
    ensures got <= Concat(writes)
    ensures how.Eof? ==> clean && got == Concat(writes)
    ensures clean && (forall i :: fate(i)) ==> how.Eof? && (found <==> Concat(writes) != [])
  {
    var chunks, ok := SendArchive(writes, size, clean, fate);
    how := if ok then Eof else Broken;
    if chunks == [] {
      assert Concat(chunks) == [];
      return false, [], how;
    }
    assert Concat(chunks) == chunks[0] + Concat(chunks[1..]);
    got, how := ReadAll(chunks[1..], how, chunks[0], room);
    found := true;
  }
}
