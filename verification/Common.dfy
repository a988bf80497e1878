/** Shared vocabulary: optional values, and the subsequence relation used to state
    that a buffer neither reorders nor duplicates what was put into it. */
module Common {

  datatype Option<+T> = None | Some(value: T)

  lemma TakeSnoc<T>(s: seq<T>, i: nat)
    requires i < |s|
    ensures s[..i + 1] == s[..i] + [s[i]] && s[..i + 1][..i] == s[..i]
  {
  }

  /** `idx` places the elements of `s` at strictly increasing positions of `t`. */
  ghost predicate Embeds<T(!new)>(s: seq<T>, t: seq<T>, idx: seq<nat>) {
    && |idx| == |s|
    && (forall k :: 0 <= k < |s| ==> idx[k] < |t| && t[idx[k]] == s[k])
    && (forall j, k :: 0 <= j < k < |s| ==> idx[j] < idx[k])
  }

  /** `s` arises from `t` by deleting positions: order kept, no position used twice. */
  ghost predicate Subsequence<T(!new)>(s: seq<T>, t: seq<T>) {
    exists idx: seq<nat> :: Embeds(s, t, idx)
  }

  lemma EmbedsKeep<T(!new)>(s: seq<T>, t: seq<T>, idx: seq<nat>, x: T)
    requires Embeds(s, t, idx)
    ensures Embeds(s + [x], t + [x], idx + [|t|]) && Embeds(s, t + [x], idx)
    ensures forall i :: i in idx + [|t|] <==> i in idx || i == |t|
    ensures |t| !in idx
  {
  }

  lemma SubsequenceAppend<T(!new)>(s: seq<T>, t: seq<T>, x: T)
    requires Subsequence(s, t)
    ensures Subsequence(s + [x], t + [x])
  {
    var idx: seq<nat> :| Embeds(s, t, idx);
    assert Embeds(s + [x], t + [x], idx + [|t|]);
  }

  lemma SubsequenceWiden<T(!new)>(s: seq<T>, t: seq<T>, x: T)
    requires Subsequence(s, t)
    ensures Subsequence(s, t + [x])
  {
    var idx: seq<nat> :| Embeds(s, t, idx);
    assert Embeds(s, t + [x], idx);
  }

  lemma SubsequenceCut<T(!new)>(a: seq<T>, b: seq<T>, c: seq<T>, t: seq<T>)
    requires Subsequence(a + b + c, t)
    ensures Subsequence(a + c, t)
  {
    var idx: seq<nat> :| Embeds(a + b + c, t, idx);
    var cut := idx[..|a|] + idx[|a| + |b|..];
    forall k | 0 <= k < |a + c| ensures cut[k] < |t| && t[cut[k]] == (a + c)[k] {
      assert (a + c)[k] == (a + b + c)[if k < |a| then k else k + |b|];
    }
    assert Embeds(a + c, t, cut);
  }

  /** Strictly increasing positions grow at least as fast as their index. */
  lemma {:induction false} EmbeddingLowerBound<T(!new)>(s: seq<T>, t: seq<T>, idx: seq<nat>, k: nat)
    requires Embeds(s, t, idx) && k < |s|
    ensures k <= idx[k] <= |t| - (|s| - k)
    decreases |s| - k
  {
    if k + 1 < |s| { EmbeddingLowerBound(s, t, idx, k + 1); }
    IndexAtLeast(s, t, idx, k);
  }

  lemma {:induction false} IndexAtLeast<T(!new)>(s: seq<T>, t: seq<T>, idx: seq<nat>, k: nat)
    requires Embeds(s, t, idx) && k < |s|
    ensures k <= idx[k]
  {
    if k > 0 { IndexAtLeast(s, t, idx, k - 1); }
  }

  lemma SubsequenceLength<T(!new)>(s: seq<T>, t: seq<T>)
    requires Subsequence(s, t)
    ensures |s| <= |t|
    ensures |s| == |t| ==> s == t
  {
    var idx: seq<nat> :| Embeds(s, t, idx);
    forall k | 0 <= k < |s| ensures k <= idx[k] <= |t| - (|s| - k) {
      EmbeddingLowerBound(s, t, idx, k);
    }
    if s != [] { assert 0 <= idx[0] <= |t| - |s|; }
  }

  method Swap<T>(a: array<T>, i: nat, j: nat)
    requires i < a.Length && j < a.Length
    modifies a
    ensures a[i] == old(a[j]) && a[j] == old(a[i])
    ensures forall k :: 0 <= k < a.Length && k != i && k != j ==> a[k] == old(a[k])
    ensures multiset(a[..]) == old(multiset(a[..]))
  {
    a[i], a[j] := a[j], a[i];
  }
}
