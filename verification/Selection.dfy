/** Selection strategies: how the available providers are ordered. The grouped strategies
    keep priorities ascending and rearrange only within a priority. */
module Selection {
  import opened Arithmetic
  import opened Common
  import opened Breaker
  import opened Manager

  predicate AllOf(ps: seq<ProviderConfig>, k: int) {
    forall i :: 0 <= i < |ps| ==> ps[i].priority == k
  }

  /** The providers of one priority, in order. */
  function InGroup(ps: seq<ProviderConfig>, k: int): (g: seq<ProviderConfig>)
    ensures |g| <= |ps| && AllOf(g, k)
  {
    if ps == [] then []
    else
      var init, last := InGroup(ps[..|ps| - 1], k), ps[|ps| - 1];
      if last.priority == k then init + [last] else init
  }

  lemma {:induction false} GroupAppend(a: seq<ProviderConfig>, b: seq<ProviderConfig>, k: int)
    ensures InGroup(a + b, k) == InGroup(a, k) + InGroup(b, k)
  {
    if b == [] {
      assert a + b == a;
    } else {
      GroupAppend(a, b[..|b| - 1], k);
      assert (a + b)[..|a + b| - 1] == a + b[..|b| - 1];
    }
  }

  lemma {:induction false} GroupWhole(ps: seq<ProviderConfig>, k: int)
    requires AllOf(ps, k)
    ensures InGroup(ps, k) == ps
  {
    if ps != [] { GroupWhole(ps[..|ps| - 1], k); }
  }

  lemma {:induction false} GroupNone(ps: seq<ProviderConfig>, k: int)
    requires forall i :: 0 <= i < |ps| ==> ps[i].priority != k
    ensures InGroup(ps, k) == []
  {
    if ps != [] { GroupNone(ps[..|ps| - 1], k); }
  }

  lemma {:induction false} GroupCount(ps: seq<ProviderConfig>, q: ProviderConfig)
    ensures multiset(InGroup(ps, q.priority))[q] == multiset(ps)[q]
  {
    if ps != [] {
      GroupCount(ps[..|ps| - 1], q);
      assert ps == ps[..|ps| - 1] + [ps[|ps| - 1]];
    }
  }

  /** Rearranging each priority on its own rearranges the whole. */
  lemma GroupwisePermutation(a: seq<ProviderConfig>, b: seq<ProviderConfig>)
    requires forall k :: multiset(InGroup(a, k)) == multiset(InGroup(b, k))
    ensures multiset(a) == multiset(b)
  {
    forall q ensures multiset(a)[q] == multiset(b)[q] {
      GroupCount(a, q);
      GroupCount(b, q);
    }
  }

  // ---- grouping by priority ----

  predicate Ascending(ks: seq<int>) {
    forall i, j :: 0 <= i < j < |ks| ==> ks[i] < ks[j]
  }

  /** `ks` with `k` added in its place, unless already there. */
  function AddPriority(ks: seq<int>, k: int): (r: seq<int>)
    requires Ascending(ks)
    ensures Ascending(r) && forall x :: x in r <==> x == k || x in ks
  {
    if ks == [] then [k]
    else
      var last := ks[|ks| - 1];
      if last == k then ks
      else if last < k then ks + [k]
      else
        var init := ks[..|ks| - 1];
        assert ks == init + [last];
        var r := AddPriority(init, k);
        assert forall i :: 0 <= i < |r| ==> r[i] in r;
        r + [last]
  }

  /** The groups keep the order of `available`; the priorities come out ascending. */
  method GroupByPriority(available: seq<ProviderConfig>)
    returns (groups: map<int, seq<ProviderConfig>>, priorities: seq<int>)
    ensures Ascending(priorities)
    ensures forall k :: k in priorities <==> k in groups
    ensures forall k :: k in groups ==> groups[k] == InGroup(available, k) != []
    ensures forall k :: k !in groups ==> InGroup(available, k) == []
  {
    groups, priorities := map[], [];
    for i := 0 to |available|
      invariant Ascending(priorities)
      invariant forall k :: k in priorities <==> k in groups
      invariant forall k :: k in groups ==> groups[k] == InGroup(available[..i], k) != []
      invariant forall k :: k !in groups ==> InGroup(available[..i], k) == []
    {
      TakeSnoc(available, i);
      var p := available[i];
      if p.priority !in groups {
        priorities := AddPriority(priorities, p.priority);
        groups := groups[p.priority := []];
      }
      groups := groups[p.priority := groups[p.priority] + [p]];
    }
    assert available[..|available|] == available;
  }

  /** A result under construction: priorities ascending, all below `k`. */
  ghost predicate Below(r: seq<ProviderConfig>, k: int) {
    SortedByPriority(r) && forall i :: 0 <= i < |r| ==> r[i].priority < k
  }

  lemma AppendGroup(r: seq<ProviderConfig>, g: seq<ProviderConfig>, k: int)
    requires Below(r, k) && AllOf(g, k)
    ensures Below(r + g, k + 1)
    ensures forall j :: InGroup(r + g, j) == if j == k then g else InGroup(r, j)
  {
    forall j ensures InGroup(r + g, j) == if j == k then g else InGroup(r, j) {
      GroupAppend(r, g, j);
      if j == k { GroupNone(r, k); GroupWhole(g, k); } else { GroupNone(g, j); }
    }
  }

  /** The result after the groups of the first `i` priorities were appended. */
  ghost predicate Partial(r: seq<ProviderConfig>, priorities: seq<int>, i: nat)
    requires i <= |priorities|
  {
    && SortedByPriority(r)
    && (forall j :: i <= j < |priorities| ==> Below(r, priorities[j]))
    && forall k :: k !in priorities[..i] ==> InGroup(r, k) == []
  }

  lemma PartialStep(r: seq<ProviderConfig>, g: seq<ProviderConfig>, priorities: seq<int>, i: nat)
    requires Ascending(priorities) && i < |priorities| && Partial(r, priorities, i) && AllOf(g, priorities[i])
    ensures Partial(r + g, priorities, i + 1)
    ensures InGroup(r + g, priorities[i]) == g && priorities[..i + 1] == priorities[..i] + [priorities[i]]
    ensures forall k :: k != priorities[i] ==> InGroup(r + g, k) == InGroup(r, k)
    ensures priorities[i] !in priorities[..i]
  {
    AppendGroup(r, g, priorities[i]);
    TakeSnoc(priorities, i);
  }

  /** As Partial, and each group appended so far meets the strategy's condition. */
  ghost predicate Assembled(r: seq<ProviderConfig>, priorities: seq<int>, i: nat, ok: (int, seq<ProviderConfig>) -> bool)
    requires i <= |priorities|
  {
    Partial(r, priorities, i) && forall k :: k in priorities[..i] ==> ok(k, InGroup(r, k))
  }

  lemma AssembleStart(priorities: seq<int>, ok: (int, seq<ProviderConfig>) -> bool)
    ensures Assembled([], priorities, 0, ok)
  {
  }

  lemma AssembleStep(r: seq<ProviderConfig>, g: seq<ProviderConfig>, priorities: seq<int>, i: nat,
                     ok: (int, seq<ProviderConfig>) -> bool)
    requires Ascending(priorities) && i < |priorities| && Assembled(r, priorities, i, ok)
    requires AllOf(g, priorities[i]) && ok(priorities[i], g)
    ensures Assembled(r + g, priorities, i + 1, ok)
  {
    hide Partial;
    PartialStep(r, g, priorities, i);
  }

  lemma AssembleDone(r: seq<ProviderConfig>, priorities: seq<int>, ok: (int, seq<ProviderConfig>) -> bool)
    requires Assembled(r, priorities, |priorities|, ok)
    ensures SortedByPriority(r)
    ensures forall k :: if k in priorities then ok(k, InGroup(r, k)) else InGroup(r, k) == []
  {
    assert priorities[..|priorities|] == priorities;
  }

  lemma PermutationAllOf(g: seq<ProviderConfig>, r: seq<ProviderConfig>, k: int)
    requires multiset(g) == multiset(r) && AllOf(g, k)
    ensures AllOf(r, k)
  {
    forall i | 0 <= i < |r| ensures r[i].priority == k { assert r[i] in multiset(g); }
  }

  /** What every grouped strategy promises: ascending priorities and nothing but a
      rearrangement inside each. */
  ghost predicate Groupwise(available: seq<ProviderConfig>, r: seq<ProviderConfig>) {
    SortedByPriority(r) && forall k :: multiset(InGroup(r, k)) == multiset(InGroup(available, k))
  }

  // ---- round robin ----

  /** The group starting from position `s`, cyclically. */
  function Rotated(g: seq<ProviderConfig>, s: nat): (r: seq<ProviderConfig>)
    requires g != []
    ensures |r| == |g|
  {
    seq(|g|, i requires 0 <= i < |g| => g[(s + i) % |g|])
  }

  lemma RotatedPermutes(g: seq<ProviderConfig>, s: nat)
    requires g != []
    ensures Rotated(g, s) == g[s % |g|..] + g[..s % |g|]
    ensures multiset(Rotated(g, s)) == multiset(g)
  {
    var n := |g|;
    var t := s % n;
    var r := Rotated(g, s);
    forall i | 0 <= i < n ensures r[i] == (g[t..] + g[..t])[i] { ModShift(s, i, n); }
    assert r == g[t..] + g[..t];
    assert g == g[..t] + g[t..];
  }

  function Index(indexes: map<int, nat>, k: int): nat {
    if k in indexes then indexes[k] else 0
  }

  class RoundRobinSelector {
    var priorityIndexes: map<int, nat>

    constructor ()
      ensures priorityIndexes == map[]
    {
      priorityIndexes := map[];
    }

    method SelectProviders(available: seq<ProviderConfig>) returns (r: seq<ProviderConfig>)
      ensures Groupwise(available, r) && multiset(r) == multiset(available)
      ensures forall k :: InGroup(available, k) != [] ==>
                InGroup(r, k) == Rotated(InGroup(available, k), Index(priorityIndexes, k))
    {
      if |available| == 0 { return available; }
      var groups, priorities := GroupByPriority(available);
      var indexes := priorityIndexes;
      ghost var ok := (k: int, g: seq<ProviderConfig>) =>
        k in groups && groups[k] != [] && g == Rotated(groups[k], Index(indexes, k));
      r := [];
      AssembleStart(priorities, ok);
      for i := 0 to |priorities|
        invariant Assembled(r, priorities, i, ok)
      {
        hide Assembled, Rotated;
        var k := priorities[i];
        assert k in priorities;
        var rotated := RotateGroup(groups[k], Index(indexes, k));
        RotatedPermutes(groups[k], Index(indexes, k));
        PermutationAllOf(groups[k], rotated, k);
        AssembleStep(r, rotated, priorities, i, ok);
        r := r + rotated;
      }
      RotationsDone(available, r, groups, priorities, indexes, ok);
    }

    method RecordAttempt(priority: int)
      modifies this
      ensures priorityIndexes == old(priorityIndexes)[priority := Index(old(priorityIndexes), priority) + 1]
    {
      priorityIndexes := priorityIndexes[priority := Index(priorityIndexes, priority) + 1];
    }
  }

  lemma RotationsDone(available: seq<ProviderConfig>, r: seq<ProviderConfig>, groups: map<int, seq<ProviderConfig>>,
                      priorities: seq<int>, indexes: map<int, nat>, ok: (int, seq<ProviderConfig>) -> bool)
    requires forall k :: k in priorities <==> k in groups
    requires forall k :: k in groups ==> groups[k] == InGroup(available, k) != []
    requires forall k :: k !in groups ==> InGroup(available, k) == []
    requires Assembled(r, priorities, |priorities|, ok)
    requires forall k, g :: ok(k, g) ==> k in groups && g == Rotated(groups[k], Index(indexes, k))
    ensures Groupwise(available, r) && multiset(r) == multiset(available)
    ensures forall k :: InGroup(available, k) != [] ==>
              InGroup(r, k) == Rotated(InGroup(available, k), Index(indexes, k))
  {
    hide Assembled, Rotated;
    AssembleDone(r, priorities, ok);
    forall k ensures multiset(InGroup(r, k)) == multiset(InGroup(available, k)) {
      if k in groups { RotatedPermutes(groups[k], Index(indexes, k)); }
    }
    GroupwisePermutation(r, available);
  }

  method RotateGroup(group: seq<ProviderConfig>, index: nat) returns (rotated: seq<ProviderConfig>)
    requires group != []
    ensures rotated == Rotated(group, index)
  {
    if |group| == 1 {
      RotatedAt(group, index, 0);
      return group;
    }
    var currentIndex := index % |group|;
    ghost var whole := Rotated(group, index);
    rotated := [];
    hide Rotated;
    for i := 0 to |group|
      invariant rotated == whole[..i]
    {
      RotatedAt(group, index, i);
      TakeSnoc(whole, i);
      rotated := rotated + [group[(currentIndex + i) % |group|]];
    }
    assert whole[..|group|] == whole;
  }

  lemma RotatedAt(group: seq<ProviderConfig>, index: nat, i: nat)
    requires i < |group|
    ensures 0 <= (index % |group| + i) % |group| < |group|
    ensures Rotated(group, index)[i] == group[(index % |group| + i) % |group|]
  {
    ModShift(index, i, |group|);
    ModShift(index % |group|, i, |group|);
    DivUnique(index % |group|, 0, index % |group|, |group|);
  }

  /** The state after `n` recorded attempts at one priority. */
  function AfterAttempts(indexes: map<int, nat>, k: int, n: nat): map<int, nat> {
    if n == 0 then indexes
    else
      var m := AfterAttempts(indexes, k, n - 1);
      m[k := Index(m, k) + 1]
  }

  lemma {:induction false} AttemptsAdvance(indexes: map<int, nat>, k: int, n: nat)
    ensures Index(AfterAttempts(indexes, k, n), k) == Index(indexes, k) + n
    ensures forall j :: j != k ==> Index(AfterAttempts(indexes, k, n), j) == Index(indexes, j)
  {
    if n > 0 { AttemptsAdvance(indexes, k, n - 1); }
  }

  /** Over as many recorded attempts as the group has members, every position comes first
      exactly once. */
  lemma EachMemberFirstOnce(indexes: map<int, nat>, k: int, group: seq<ProviderConfig>, q: nat) returns (m: nat)
    requires q < |group|
    ensures m < |group| && Index(AfterAttempts(indexes, k, m), k) % |group| == q
    ensures Rotated(group, Index(AfterAttempts(indexes, k, m), k))[0] == group[q]
    ensures forall j: nat :: j < |group| && Index(AfterAttempts(indexes, k, j), k) % |group| == q ==> j == m
  {
    var n := |group|;
    var s := Index(indexes, k);
    var t := s % n;
    m := if q >= t then q - t else q - t + n;
    AttemptsAdvance(indexes, k, m);
    ModShift(s, m, n);
    forall j: nat | j < n && Index(AfterAttempts(indexes, k, j), k) % n == q ensures j == m {
      AttemptsAdvance(indexes, k, j);
      ModShift(s, j, n);
    }
  }

  // ---- random ----

  function Exchanged(s: seq<ProviderConfig>, i: nat, j: nat): (r: seq<ProviderConfig>)
    requires i < |s| && j < |s|
    ensures |r| == |s|
  {
    s[i := s[j]][j := s[i]]
  }

  method Exchange(a: array<ProviderConfig>, i: nat, j: nat)
    requires i < a.Length && j < a.Length
    modifies a
    ensures a[..] == Exchanged(old(a[..]), i, j)
  {
    a[i], a[j] := a[j], a[i];
  }

  /** From position `i` down, each element is exchanged with the drawn one at or before it. */
  function Shuffled(s: seq<ProviderConfig>, i: nat, draw: nat -> nat): (r: seq<ProviderConfig>)
    requires i < |s| || (s == [] && i == 0)
    ensures |r| == |s|
    decreases i
  {
    if i == 0 then s else Shuffled(Exchanged(s, i, draw(i) % (i + 1)), i - 1, draw)
  }

  function Last(n: nat): nat {
    if n == 0 then 0 else n - 1
  }

  function ShuffledGroup(s: seq<ProviderConfig>, draw: nat -> nat): seq<ProviderConfig> {
    Shuffled(s, Last(|s|), draw)
  }

  /** Shuffles a copy in place; `draw(i)` is what the random source returns at step i. */
  method Shuffle(group: seq<ProviderConfig>, draw: nat -> nat) returns (r: seq<ProviderConfig>)
    ensures r == ShuffledGroup(group, draw) && multiset(r) == multiset(group)
  {
    hide Shuffled, Exchanged;
    var a := new ProviderConfig[|group|](i requires 0 <= i < |group| => group[i]);
    assert a[..] == group;
    ShuffledPermutes(group, Last(|group|), draw);
    var i := a.Length - 1;
    while i > 0
      invariant -1 <= i < a.Length && (i >= 0 || a.Length == 0)
      invariant Shuffled(a[..], Last(i + 1), draw) == ShuffledGroup(group, draw)
    {
      ShuffledStep(a[..], i, draw);
      Exchange(a, i, draw(i) % (i + 1));
      i := i - 1;
    }
    ShuffledStart(a[..], draw);
    r := a[..];
  }

  lemma ShuffledStart(s: seq<ProviderConfig>, draw: nat -> nat)
    ensures Shuffled(s, 0, draw) == s
  {
  }

  lemma ShuffledStep(s: seq<ProviderConfig>, i: nat, draw: nat -> nat)
    requires 0 < i < |s|
    ensures Shuffled(s, i, draw) == Shuffled(Exchanged(s, i, draw(i) % (i + 1)), i - 1, draw)
  {
  }

  lemma ExchangedPermutes(s: seq<ProviderConfig>, i: nat, j: nat)
    requires i < |s| && j < |s|
    ensures multiset(Exchanged(s, i, j)) == multiset(s)
  {
  }

  lemma {:induction false} ShuffledPermutes(s: seq<ProviderConfig>, i: nat, draw: nat -> nat)
    requires i < |s| || (s == [] && i == 0)
    ensures multiset(Shuffled(s, i, draw)) == multiset(s)
    decreases i
  {
    if i > 0 {
      var j := draw(i) % (i + 1);
      ExchangedPermutes(s, i, j);
      ShuffledPermutes(Exchanged(s, i, j), i - 1, draw);
    }
  }

  /** Draws that follow a list of choices. */
  function ByList(d: seq<nat>): nat -> nat {
    (i: nat) => if i < |d| then d[i] else 0
  }

  lemma {:induction false} SameDraws(s: seq<ProviderConfig>, i: nat, f: nat -> nat, g: nat -> nat)
    requires (i < |s| || (s == [] && i == 0)) && forall k: nat :: k <= i ==> f(k) == g(k)
    ensures Shuffled(s, i, f) == Shuffled(s, i, g)
    decreases i
  {
    if i > 0 { SameDraws(Exchanged(s, i, f(i) % (i + 1)), i - 1, f, g); }
  }

  lemma {:induction false} DrawsFor(s: seq<ProviderConfig>, t: seq<ProviderConfig>, i: nat) returns (d: seq<nat>)
    requires i < |s| == |t| && s[i + 1..] == t[i + 1..] && multiset(s[..i + 1]) == multiset(t[..i + 1])
    ensures |d| == i + 1 && Shuffled(s, i, ByList(d)) == t
    decreases i
  {
    hide Shuffled, Exchanged, ByList;
    var j := Source(s, t, i);
    if i == 0 {
      d := [0];
      Placed(s, t, ByList(d));
    } else {
      Moved(s, t, i, j);
      var d' := DrawsFor(Exchanged(s, i, j), t, i - 1);
      d := d' + [j];
      OneMore(s, i, j, d');
    }
  }

  lemma Placed(s: seq<ProviderConfig>, t: seq<ProviderConfig>, draw: nat -> nat)
    requires |s| == |t| > 0 && s[0] == t[0] && s[1..] == t[1..]
    ensures Shuffled(s, 0, draw) == t
  {
    assert s == [s[0]] + s[1..] && t == [t[0]] + t[1..];
  }

  lemma Source(s: seq<ProviderConfig>, t: seq<ProviderConfig>, i: nat) returns (j: nat)
    requires i < |s| == |t| && multiset(s[..i + 1]) == multiset(t[..i + 1])
    ensures j <= i && s[j] == t[i]
  {
    assert t[..i + 1][i] in multiset(t[..i + 1]);
    assert t[i] in multiset(s[..i + 1]);
    j :| 0 <= j < |s[..i + 1]| && s[..i + 1][j] == t[i];
  }

  lemma OneMore(s: seq<ProviderConfig>, i: nat, j: nat, d: seq<nat>)
    requires j <= i < |s| && i == |d| > 0
    ensures Shuffled(s, i, ByList(d + [j])) == Shuffled(Exchanged(s, i, j), i - 1, ByList(d))
  {
    DivUnique(j, 0, j, i + 1);
    SameDraws(Exchanged(s, i, j), i - 1, ByList(d + [j]), ByList(d));
  }

  lemma Moved(s: seq<ProviderConfig>, t: seq<ProviderConfig>, i: nat, j: nat)
    requires j <= i < |s| == |t| && s[j] == t[i] && s[i + 1..] == t[i + 1..] && multiset(s[..i + 1]) == multiset(t[..i + 1])
    ensures var s' := Exchanged(s, i, j); s'[i..] == t[i..] && multiset(s'[..i]) == multiset(t[..i])
  {
    var s' := Exchanged(s, i, j);
    assert s'[i..] == [s[j]] + s[i + 1..] && t[i..] == [t[i]] + t[i + 1..];
    ExchangedFront(s, i, j);
    assert t[..i + 1] == t[..i] + [t[i]];
    assert multiset(s'[..i]) + multiset{s[j]} == multiset(t[..i]) + multiset{t[i]};
    assert multiset(s'[..i]) == multiset(s'[..i]) + multiset{s[j]} - multiset{s[j]};
  }

  lemma ExchangedFront(s: seq<ProviderConfig>, i: nat, j: nat)
    requires j <= i < |s|
    ensures multiset(Exchanged(s, i, j)[..i]) + multiset{s[j]} == multiset(s[..i + 1])
  {
    var e := Exchanged(s, i, j);
    assert s[..i + 1] == s[..i] + [s[i]];
    if j < i {
      assert s[..i] == s[..j] + [s[j]] + s[j + 1..i];
      assert e[..i] == s[..j] + [s[i]] + s[j + 1..i];
    } else {
      assert e[..i] == s[..i];
    }
  }

  /** Every order of the group is one the shuffle can give. */
  lemma EveryOrderPossible(s: seq<ProviderConfig>, t: seq<ProviderConfig>) returns (draw: nat -> nat)
    requires multiset(s) == multiset(t)
    ensures ShuffledGroup(s, draw) == t
  {
    assert |multiset(s)| == |s| && |multiset(t)| == |t|;
    if s == [] {
      draw := ByList([]);
    } else {
      assert s[..|s|] == s && t[..|t|] == t && s[|s|..] == t[|t|..];
      var d := DrawsFor(s, t, |s| - 1);
      draw := ByList(d);
    }
  }

  method SelectRandom(available: seq<ProviderConfig>, draw: int -> nat -> nat) returns (r: seq<ProviderConfig>)
    ensures Groupwise(available, r) && multiset(r) == multiset(available)
    ensures forall k :: InGroup(r, k) == ShuffledGroup(InGroup(available, k), draw(k))
  {
    if |available| == 0 { return available; }
    var groups, priorities := GroupByPriority(available);
    ghost var ok := (k: int, g: seq<ProviderConfig>) =>
      k in groups && multiset(g) == multiset(groups[k]) && g == ShuffledGroup(groups[k], draw(k));
    r := [];
    AssembleStart(priorities, ok);
    for i := 0 to |priorities|
      invariant Assembled(r, priorities, i, ok)
    {
      hide Assembled, ShuffledGroup;
      var k := priorities[i];
      assert k in priorities;
      var shuffled := groups[k];
      if |groups[k]| != 1 { shuffled := Shuffle(groups[k], draw(k)); } else { OneStays(groups[k], draw(k)); }
      PermutationAllOf(groups[k], shuffled, k);
      AssembleStep(r, shuffled, priorities, i, ok);
      r := r + shuffled;
    }
    AssembleDone(r, priorities, ok);
    NoneStays();
    hide ShuffledGroup;
    GroupwisePermutation(r, available);
  }

  lemma OneStays(g: seq<ProviderConfig>, draw: nat -> nat)
    requires |g| == 1
    ensures ShuffledGroup(g, draw) == g
  {
  }

  lemma NoneStays()
    ensures forall draw :: ShuffledGroup([], draw) == []
  {
  }

  // ---- sorting by a key ----

  ghost predicate SortedByKey(r: seq<ProviderConfig>, key: ProviderConfig -> real) {
    forall i, j :: 0 <= i < j < |r| ==> key(r[i]) <= key(r[j])
  }

  /** The exchange sort both sorting strategies use, on a copy. */
  method ExchangeSort(s: seq<ProviderConfig>, key: ProviderConfig -> real) returns (r: seq<ProviderConfig>)
    ensures multiset(r) == multiset(s) && SortedByKey(r, key)
  {
    var a := new ProviderConfig[|s|](i requires 0 <= i < |s| => s[i]);
    assert a[..] == s;
    var i := 0;
    while i < a.Length - 1
      invariant 0 <= i && (a.Length > 0 ==> i < a.Length) && multiset(a[..]) == multiset(s)
      invariant Settled(a, key, i)
    {
      BringLeast(a, key, i);
      i := i + 1;
    }
    r := a[..];
  }

  /** The first `i` elements are no larger than anything after them. */
  ghost predicate Settled(a: array<ProviderConfig>, key: ProviderConfig -> real, i: nat)
    reads a
  {
    forall p, q :: 0 <= p < i && p < q < a.Length ==> key(a[p]) <= key(a[q])
  }

  /** The inner loop: exchanges bring a least element of the rest to position `i`. */
  method BringLeast(a: array<ProviderConfig>, key: ProviderConfig -> real, i: nat)
    requires i < a.Length && Settled(a, key, i)
    modifies a
    ensures multiset(a[..]) == old(multiset(a[..])) && Settled(a, key, i + 1)
  {
    var j := i + 1;
    while j < a.Length
      invariant i < j <= a.Length && multiset(a[..]) == old(multiset(a[..])) && Settled(a, key, i)
      invariant forall q :: i < q < j ==> key(a[i]) <= key(a[q])
    {
      if key(a[i]) > key(a[j]) { Swap(a, i, j); }
      j := j + 1;
    }
  }

  // ---- least loaded ----

  function LoadScore(active: map<string, nat>, tracker: map<string, FailureInfo>, name: string): real {
    var busy := if name in active then active[name] as real * 10.0 else 0.0;
    if name !in tracker then busy
    else
      var f := tracker[name];
      var total := f.totalSuccesses + f.totalFailures;
      var rate := if total > 0 then f.totalFailures as real / total as real * 100.0 else 0.0;
      busy + rate + f.consecutiveFailures as real * 50.0
  }

  /** A provider nobody knows carries no load. Each active request weighs ten and each consecutive
      failure fifty; a history of failures only weighs a hundred, one without any nothing, and in
      between the share of failures counts. */
  lemma LoadMeaning(active: map<string, nat>, tracker: map<string, FailureInfo>, name: string, n: nat, f: FailureInfo)
    ensures name !in active && name !in tracker ==> LoadScore(active, tracker, name) == 0.0
    ensures LoadScore(active[name := n + 1], tracker, name) == LoadScore(active[name := n], tracker, name) + 10.0
    ensures var more := f.(consecutiveFailures := f.consecutiveFailures + 1);
            LoadScore(active, tracker[name := more], name) == LoadScore(active, tracker[name := f], name) + 50.0
    ensures f.totalFailures == 0 && f.consecutiveFailures == 0 ==>
              LoadScore(active, tracker[name := f], name) == LoadScore(active, tracker - {name}, name)
    ensures f.totalFailures > 0 && f.consecutiveFailures == 0 ==>
              var share := LoadScore(active, tracker[name := f], name) - LoadScore(active, tracker - {name}, name);
              share * (f.totalSuccesses + f.totalFailures) as real == 100.0 * f.totalFailures as real
  {
    if f.totalFailures > 0 {
      var a, b := f.totalFailures as real, (f.totalSuccesses + f.totalFailures) as real;
      ShareOf(a, b);
    }
    assert 0.0 / 1.0 == 0.0;
    if f.totalFailures == 0 && f.totalSuccesses > 0 { ShareOf(0.0, f.totalSuccesses as real); }
  }

  lemma ShareOf(a: real, b: real)
    requires b > 0.0
    ensures a / b * 100.0 * b == 100.0 * a && (a == 0.0 ==> a / b == 0.0)
  {
    var q := a / b;
    assert q * b == a;
  }

  method SelectLeastLoaded(available: seq<ProviderConfig>, active: map<string, nat>, tracker: map<string, FailureInfo>)
    returns (r: seq<ProviderConfig>)
    ensures Groupwise(available, r) && multiset(r) == multiset(available)
    ensures forall k :: SortedByKey(InGroup(r, k), (p: ProviderConfig) => LoadScore(active, tracker, p.name))
  {
    if |available| == 0 { return available; }
    var load := (p: ProviderConfig) => LoadScore(active, tracker, p.name);
    var groups, priorities := GroupByPriority(available);
    ghost var ok := (k: int, g: seq<ProviderConfig>) =>
      k in groups && multiset(g) == multiset(groups[k]) && SortedByKey(g, load);
    r := [];
    AssembleStart(priorities, ok);
    for i := 0 to |priorities|
      invariant Assembled(r, priorities, i, ok)
    {
      hide Assembled, SortedByKey, LoadScore;
      var k := priorities[i];
      assert k in priorities;
      var sorted := SortGroup(groups[k], load);
      PermutationAllOf(groups[k], sorted, k);
      AssembleStep(r, sorted, priorities, i, ok);
      r := r + sorted;
    }
    hide SortedByKey, LoadScore;
    AssembleDone(r, priorities, ok);
    EmptySorted(load);
    GroupwisePermutation(r, available);
  }

  method SortGroup(group: seq<ProviderConfig>, key: ProviderConfig -> real) returns (r: seq<ProviderConfig>)
    ensures multiset(r) == multiset(group) && SortedByKey(r, key)
  {
    if |group| == 1 { return group; }
    r := ExchangeSort(group, key);
  }

  lemma EmptySorted(key: ProviderConfig -> real)
    ensures SortedByKey([], key)
  {
  }

  // ---- adaptive ----

  /** Highest effective score first, whatever the priorities, while scores hold still. */
  method SelectAdaptive(available: seq<ProviderConfig>, score: string -> real) returns (r: seq<ProviderConfig>)
    ensures multiset(r) == multiset(available)
    ensures forall i, j :: 0 <= i < j < |r| ==> score(r[i].name) >= score(r[j].name)
  {
    var key := (p: ProviderConfig) => -score(p.name);
    r := ExchangeSort(available, key);
    assert forall i, j :: 0 <= i < j < |r| ==> key(r[i]) <= key(r[j]);
  }
}
