/** Layering a step's assignments over the helper's own environment. */
module EnvMerge {
  import opened Argv

  function NameOf(kv: string): string {
    Cut(kv).0
  }

  /** What a list of assignments means: the last one of each name. */
  function Denotes(kvs: seq<string>): map<string, string> {
    if kvs == [] then map[] else Denotes(kvs[..|kvs| - 1])[NameOf(kvs[|kvs| - 1]) := kvs[|kvs| - 1]]
  }

  /** The names of a list in the order of their first occurrence. */
  function Names(kvs: seq<string>): seq<string> {
    if kvs == [] then []
    else
      var init, name := Names(kvs[..|kvs| - 1]), NameOf(kvs[|kvs| - 1]);
      if name in init then init else init + [name]
  }

  lemma {:induction false} NamesAreKeys(kvs: seq<string>)
    ensures forall n :: n in Names(kvs) <==> n in Denotes(kvs)
    ensures forall i, j :: 0 <= i < j < |Names(kvs)| ==> Names(kvs)[i] != Names(kvs)[j]
    ensures forall n :: n in Denotes(kvs) ==> NameOf(Denotes(kvs)[n]) == n
    decreases |kvs|
  {
    if kvs != [] {
      NamesAreKeys(kvs[..|kvs| - 1]);
    }
  }

  lemma {:induction false} DenotesConcat(a: seq<string>, b: seq<string>)
    ensures Denotes(a + b) == Denotes(a) + Denotes(b)
    decreases |b|
  {
    if b == [] {
      assert a + b == a;
    } else {
      assert (a + b)[..|a + b| - 1] == a + b[..|b| - 1];
      DenotesConcat(a, b[..|b| - 1]);
    }
  }

  /** mergeEnv: one entry per name, the last assignment winning, names in order of first occurrence. */
  method MergeEnv(base: seq<string>, over: seq<string>) returns (out: seq<string>)
    ensures |out| == |Names(base + over)|
    ensures forall i :: 0 <= i < |out| ==>
              var n := Names(base + over)[i]; n in Denotes(base + over) && out[i] == Denotes(base + over)[n]
  {
    var idx: map<string, nat> := map[];
    var all := base + over;
    out := [];
    ghost var names: seq<string> := [];
    ghost var meaning: map<string, string> := map[];
    for k := 0 to |all|
      invariant names == Names(all[..k]) && meaning == Denotes(all[..k])
      invariant Tracks(idx, out, names, meaning)
    {
      OneMore(all, k);
      var kv := all[k];
      var name := NameOf(kv);
      TracksOneMore(idx, out, names, meaning, name, kv);
      if name in idx {
        out := out[idx[name] := kv];
      } else {
        idx := idx[name := |out|];
        out := out + [kv];
        names := names + [name];
      }
      meaning := meaning[name := kv];
    }
    assert all[..|all|] == all;
  }

  /** The loop's own bookkeeping: idx finds the place of each name in out, which holds what the name means so far. */
  ghost predicate Tracks(idx: map<string, nat>, out: seq<string>, names: seq<string>, meaning: map<string, string>) {
    && idx.Keys == meaning.Keys && |out| == |names|
    && (forall n :: n in idx ==> idx[n] < |out| && names[idx[n]] == n)
    && (forall i :: 0 <= i < |out| ==> names[i] in idx && idx[names[i]] == i && out[i] == meaning[names[i]])
  }

  lemma TracksOneMore(idx: map<string, nat>, out: seq<string>, names: seq<string>, meaning: map<string, string>,
                      name: string, kv: string)
    requires Tracks(idx, out, names, meaning)
    ensures name in idx <==> name in meaning
    ensures if name in idx then
              idx[name] < |out| && Tracks(idx, out[idx[name] := kv], names, meaning[name := kv])
            else
              Tracks(idx[name := |out|], out + [kv], names + [name], meaning[name := kv])
  {
  }

  lemma OneMore(kvs: seq<string>, k: nat)
    requires k < |kvs|
    ensures var n := NameOf(kvs[k]);
            && Denotes(kvs[..k + 1]) == Denotes(kvs[..k])[n := kvs[k]]
            && Names(kvs[..k + 1]) == if n in Denotes(kvs[..k]) then Names(kvs[..k]) else Names(kvs[..k]) + [n]
  {
    assert kvs[..k + 1][..k] == kvs[..k];
    NamesAreKeys(kvs[..k]);
  }

  /** The merged list denotes the overrides layered over the base, and names nothing twice. */
  lemma MergeIsOverride(base: seq<string>, over: seq<string>, out: seq<string>)
    requires |out| == |Names(base + over)|
    requires forall i :: 0 <= i < |out| ==>
               var n := Names(base + over)[i]; n in Denotes(base + over) && out[i] == Denotes(base + over)[n]
    ensures forall i, j :: 0 <= i < j < |out| ==> NameOf(out[i]) != NameOf(out[j])
    ensures forall n :: (exists i :: 0 <= i < |out| && NameOf(out[i]) == n) <==> n in Denotes(base) + Denotes(over)
    ensures forall i :: 0 <= i < |out| ==>
              var n, both := NameOf(out[i]), Denotes(base) + Denotes(over);
              n in both && out[i] == both[n]
  {
    var all := base + over;
    NamesAreKeys(all);
    DenotesConcat(base, over);
    forall i | 0 <= i < |out| ensures NameOf(out[i]) == Names(all)[i] {
    }
    forall n | n in Denotes(all) ensures exists i :: 0 <= i < |out| && NameOf(out[i]) == n {
      var i :| 0 <= i < |out| && Names(all)[i] == n;
      assert NameOf(out[i]) == n;
    }
  }

  /** The x-th assignment is the last one of its name. */
  ghost predicate LastOfItsName(kvs: seq<string>, x: nat) {
    x < |kvs| && forall y :: x < y < |kvs| ==> Cut(kvs[y]).0 != Cut(kvs[x]).0
  }

  lemma {:induction false} DenotesLast(kvs: seq<string>, x: nat)
    requires LastOfItsName(kvs, x)
    ensures Cut(kvs[x]).0 in Denotes(kvs) && Denotes(kvs)[Cut(kvs[x]).0] == kvs[x]
    decreases |kvs|
  {
    if x < |kvs| - 1 {
      var init := kvs[..|kvs| - 1];
      assert forall y :: x < y < |init| ==> init[y] == kvs[y];
      DenotesLast(init, x);
    }
  }

  lemma {:induction false} LastExists(kvs: seq<string>, name: string) returns (x: nat)
    requires name in Denotes(kvs)
    ensures LastOfItsName(kvs, x) && Cut(kvs[x]).0 == name
    decreases |kvs|
  {
    var n := |kvs| - 1;
    if Cut(kvs[n]).0 == name {
      x := n;
    } else {
      x := LastExists(kvs[..n], name);
      assert forall y :: x < y < n ==> kvs[..n][y] == kvs[y];
    }
  }

  /** The merged list holds exactly the last assignment of each name, of all that were given. */
  lemma LastWins(base: seq<string>, over: seq<string>, out: seq<string>, kv: string)
    requires |out| == |Names(base + over)|
    requires forall i :: 0 <= i < |out| ==>
               var n := Names(base + over)[i]; n in Denotes(base + over) && out[i] == Denotes(base + over)[n]
    ensures kv in out <==> exists x: nat :: LastOfItsName(base + over, x) && (base + over)[x] == kv
  {
    var all := base + over;
    NamesAreKeys(all);
    if kv in out {
      var i :| 0 <= i < |out| && out[i] == kv;
      var x := LastExists(all, Names(all)[i]);
      DenotesLast(all, x);
    }
    if x: nat :| LastOfItsName(all, x) && all[x] == kv {
      DenotesLast(all, x);
      var i :| 0 <= i < |out| && Names(all)[i] == Cut(kv).0;
      assert out[i] == kv;
    }
  }
}
