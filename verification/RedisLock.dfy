/** The distributed lock on a provider's score: SET NX with a time to live, and an unlock
    that deletes the key only while it still carries the caller's token. */
module RedisLock {
  import opened Common

  /** A key's value; without a positive TTL it never expires. */
  datatype Entry = Entry(token: string, expiry: Option<int>)

  type Database = map<string, Entry>

  predicate Live(e: Entry, now: int) { e.expiry.None? || now < e.expiry.value }

  predicate Present(db: Database, key: string, now: int) { key in db && Live(db[key], now) }

  function Acquired(token: string, ttl: int, now: int): Entry {
    Entry(token, if ttl > 0 then Some(now + ttl) else None)
  }

  class RedisStore {
    var db: Database

    constructor ()
      ensures db == map[]
    {
      db := map[];
    }

    /** Granted exactly when no unexpired value sits under the key. */
    method Lock(key: string, token: string, ttl: int, now: int) returns (granted: bool)
      modifies this
      ensures granted == !Present(old(db), key, now)
      ensures db == if granted then old(db)[key := Acquired(token, ttl, now)] else old(db)
    {
      if key in db && (db[key].expiry.None? || now < db[key].expiry.value) { return false; }
      db := db[key := Entry(token, if ttl > 0 then Some(now + ttl) else None)];
      return true;
    }

    /** The unlock closure: compare and delete in one step. */
    method Unlock(key: string, token: string, now: int)
      modifies this
      ensures db == Released(old(db), key, token, now)
    {
      if key in db && (db[key].expiry.None? || now < db[key].expiry.value) && db[key].token == token {
        db := db - {key};
      }
    }
  }

  function Released(db: Database, key: string, token: string, now: int): Database {
    if Present(db, key, now) && db[key].token == token then db - {key} else db
  }

  /** A granted lock refuses everyone on its key up to its time to live and nobody after it, or
      for ever without one; other keys are untouched. */
  lemma LockLasts(db: Database, key: string, token: string, ttl: int, now: int, later: int, other: string)
    ensures var db' := db[key := Acquired(token, ttl, now)];
            && (Present(db', key, later) <==> ttl <= 0 || later - now < ttl) && db'[key].token == token
            && (other != key ==> Present(db', other, later) == Present(db, other, later))
  {
  }

  // ---- runs of many clients ----

  /** A grant a client received: it holds until it unlocks or the entry expires. */
  datatype Hold = Hold(key: string, entry: Entry, released: bool)

  datatype Action = TryLock(key: string, token: string, ttl: int) | CallUnlock(hold: nat)

  datatype Event = Event(now: int, action: Action)

  datatype World = World(db: Database, holds: seq<Hold>)

  /** An unlock closure exists only for a grant, and may be called again. */
  function Step(w: World, e: Event): World {
    match e.action
    case TryLock(key, token, ttl) =>
      if Present(w.db, key, e.now) then w
      else
        var entry := Acquired(token, ttl, e.now);
        World(w.db[key := entry], w.holds + [Hold(key, entry, false)])
    case CallUnlock(i) =>
      if i >= |w.holds| then w
      else
        var h := w.holds[i];
        World(Released(w.db, h.key, h.entry.token, e.now), w.holds[i := h.(released := true)])
  }

  function Run(es: seq<Event>): World {
    if es == [] then World(map[], []) else Step(Run(es[..|es| - 1]), es[|es| - 1])
  }

  predicate Clocked(es: seq<Event>) {
    forall i, j :: 0 <= i < j < |es| ==> es[i].now <= es[j].now
  }

  /** Grants on the same key carry different tokens. */
  predicate DistinctTokens(w: World) {
    forall i, j :: 0 <= i < j < |w.holds| && w.holds[i].key == w.holds[j].key ==>
      w.holds[i].entry.token != w.holds[j].entry.token
  }

  predicate Holding(w: World, i: nat, now: int)
    requires i < |w.holds|
  {
    !w.holds[i].released && Live(w.holds[i].entry, now)
  }

  /** Every live grant is what the database holds. */
  predicate Guarded(w: World, now: int) {
    forall i :: 0 <= i < |w.holds| && Holding(w, i, now) ==>
      w.holds[i].key in w.db && w.db[w.holds[i].key] == w.holds[i].entry
  }

  /** The event is an unlock that takes away a live lock granted to someone else: both
      grants are on one key and read the same token. */
  ghost predicate Robs(w: World, e: Event) {
    e.action.CallUnlock? && exists j :: RobsFrom(w, e.action.hold, j, e.now)
  }

  predicate RobsFrom(w: World, i: nat, j: nat, now: int) {
    && i < |w.holds| && j < |w.holds| && i != j && Holding(w, j, now)
    && w.holds[i].key == w.holds[j].key && w.holds[i].entry.token == w.holds[j].entry.token
  }

  /** An unlock removes another holder's live lock exactly when key and token agree. */
  lemma UnlockRobsIff(w: World, now: int, i: nat, j: nat)
    requires Guarded(w, now) && i < |w.holds| && j < |w.holds| && i != j && Holding(w, j, now)
    ensures var h, db := w.holds[j], Step(w, Event(now, CallUnlock(i))).db;
            !(h.key in db && db[h.key] == h.entry) <==> RobsFrom(w, i, j, now)
  {
  }

  /** A step keeps every live grant in the database exactly when it robs nobody. */
  lemma {:induction false} StepGuardsIff(w: World, before: int, e: Event)
    requires before <= e.now && Guarded(w, before)
    ensures Guarded(Step(w, e), e.now) <==> !Robs(w, e)
  {
    var w' := Step(w, e);
    forall i | 0 <= i < |w.holds| && Holding(w, i, e.now) ensures Holding(w, i, before) {}
    assert Guarded(w, e.now);
    if Robs(w, e) {
      var j :| RobsFrom(w, e.action.hold, j, e.now);
      UnlockRobsIff(w, e.now, e.action.hold, j);
      assert Holding(w', j, e.now);
    } else {
      forall i | 0 <= i < |w'.holds| && Holding(w', i, e.now)
        ensures w'.holds[i].key in w'.db && w'.db[w'.holds[i].key] == w'.holds[i].entry
      {
        if i < |w.holds| {
          assert Holding(w, i, e.now);
          if e.action.CallUnlock? && e.action.hold < |w.holds| { UnlockRobsIff(w, e.now, e.action.hold, i); }
        }
      }
    }
  }

  /** After a robbery the next caller gets the lock while the robbed holder still holds it. */
  lemma RobberyAdmitsAnother(w: World, e: Event, j: nat, token: string, ttl: int)
    requires Guarded(w, e.now) && e.action.CallUnlock? && RobsFrom(w, e.action.hold, j, e.now)
    ensures var w' := Step(Step(w, e), Event(e.now, TryLock(w.holds[j].key, token, ttl)));
            && |w'.holds| == |w.holds| + 1 && w'.holds[|w.holds|].key == w'.holds[j].key
            && Holding(w', j, e.now) && Holding(w', |w.holds|, e.now)
  {
  }

  ghost predicate NoRobbery(es: seq<Event>) {
    es == [] || (NoRobbery(es[..|es| - 1]) && !Robs(Run(es[..|es| - 1]), es[|es| - 1]))
  }

  ghost predicate AlwaysGuarded(es: seq<Event>) {
    es == [] || (AlwaysGuarded(es[..|es| - 1]) && Guarded(Run(es), es[|es| - 1].now))
  }

  /** Two live grants on one key are the same grant. */
  ghost predicate Exclusive(w: World, now: int) {
    forall i, j :: 0 <= i < j < |w.holds| && w.holds[i].key == w.holds[j].key ==>
      !(Holding(w, i, now) && Holding(w, j, now))
  }

  lemma StepExclusive(w: World, before: int, e: Event)
    requires before <= e.now && Guarded(w, before) && Exclusive(w, before)
    ensures Exclusive(Step(w, e), e.now)
  {
    var w' := Step(w, e);
    forall i, j | 0 <= i < j < |w'.holds| && w'.holds[i].key == w'.holds[j].key
      ensures !(Holding(w', i, e.now) && Holding(w', j, e.now))
    {
      if Holding(w', i, e.now) { assert Holding(w, i, before); }
      if j < |w.holds| && Holding(w', j, e.now) { assert Holding(w, j, before); }
    }
  }

  lemma Later(w: World, t: int, now: int)
    requires t <= now
    ensures Guarded(w, t) ==> Guarded(w, now)
    ensures Exclusive(w, t) ==> Exclusive(w, now)
  {
    forall i | 0 <= i < |w.holds| && Holding(w, i, now) ensures Holding(w, i, t) {}
  }

  /** Over a whole run every live grant is backed by the database at every step exactly
      when no unlock along the way robs anybody. */
  lemma {:induction false} GuardedIffNoRobbery(es: seq<Event>)
    requires Clocked(es)
    ensures AlwaysGuarded(es) <==> NoRobbery(es)
  {
    if es != [] {
      var init, last := es[..|es| - 1], es[|es| - 1];
      GuardedIffNoRobbery(init);
      if AlwaysGuarded(init) {
        GuardedNow(init, last.now);
        StepGuardsIff(Run(init), last.now, last);
      }
    }
  }

  lemma GuardedNow(es: seq<Event>, now: int)
    requires AlwaysGuarded(es) && (es != [] ==> es[|es| - 1].now <= now)
    ensures Guarded(Run(es), now)
  {
    if es != [] { Later(Run(es), es[|es| - 1].now, now); }
  }

  lemma {:induction false} RunExclusive(es: seq<Event>, now: int)
    requires Clocked(es) && AlwaysGuarded(es) && (es != [] ==> es[|es| - 1].now <= now)
    ensures Exclusive(Run(es), now)
  {
    if es != [] {
      var init, last := es[..|es| - 1], es[|es| - 1];
      RunExclusive(init, last.now);
      GuardedNow(init, last.now);
      StepExclusive(Run(init), last.now, last);
      Later(Run(es), last.now, now);
    }
  }

  lemma DistinctBefore(w: World, e: Event)
    requires DistinctTokens(Step(w, e))
    ensures DistinctTokens(w)
  {
    var w' := Step(w, e);
    forall i, j | 0 <= i < j < |w.holds| && w.holds[i].key == w.holds[j].key
      ensures w.holds[i].entry.token != w.holds[j].entry.token
    {
      assert w'.holds[i].entry.token == w.holds[i].entry.token && w'.holds[j].entry.token == w.holds[j].entry.token;
      assert w'.holds[i].key == w'.holds[j].key;
    }
  }

  /** Distinct tokens rule out robbery. */
  lemma {:induction false} DistinctNeverRobs(es: seq<Event>)
    requires DistinctTokens(Run(es))
    ensures NoRobbery(es)
  {
    if es != [] {
      var init, last := es[..|es| - 1], es[|es| - 1];
      DistinctBefore(Run(init), last);
      DistinctNeverRobs(init);
    }
  }

  /** At any time after any interleaving in which no unlock robs anybody (in particular when
      tokens are distinct), two live grants on one key are the same grant. */
  lemma {:induction false} MutualExclusion(es: seq<Event>, now: int, i: nat, j: nat)
    requires Clocked(es) && (NoRobbery(es) || DistinctTokens(Run(es)))
    requires es != [] ==> es[|es| - 1].now <= now
    requires i < |Run(es).holds| && j < |Run(es).holds| && Run(es).holds[i].key == Run(es).holds[j].key
    requires Holding(Run(es), i, now) && Holding(Run(es), j, now)
    ensures i == j
  {
    hide Run, NoRobbery, AlwaysGuarded, Clocked, DistinctTokens;
    if DistinctTokens(Run(es)) { DistinctNeverRobs(es); }
    GuardedIffNoRobbery(es);
    RunExclusive(es, now);
  }

  /** Calling a grant's unlock, expired or not, never takes away anyone else's lock. */
  lemma {:induction false} UnlockSparesOthers(es: seq<Event>, now: int, mine: nat, other: nat)
    requires Clocked(es) && DistinctTokens(Run(es))
    requires es != [] ==> es[|es| - 1].now <= now
    requires mine < |Run(es).holds| && other < |Run(es).holds| && mine != other && Holding(Run(es), other, now)
    ensures var w := Step(Run(es), Event(now, CallUnlock(mine)));
            var h := w.holds[other];
            Holding(w, other, now) && h.key in w.db && w.db[h.key] == h.entry
  {
    DistinctNeverRobs(es);
    GuardedIffNoRobbery(es);
    GuardedNow(es, now);
    hide Run, NoRobbery, AlwaysGuarded;
    UnlockRobsIff(Run(es), now, mine, other);
  }

  lemma CollidingTokensBreakIt(key: string, t: string, u: string)
    requires t != u
    ensures var es := [Event(0, TryLock(key, t, 10)), Event(10, TryLock(key, t, 10)),
                       Event(11, CallUnlock(0)), Event(12, TryLock(key, u, 10))];
            && Clocked(es)
            && |Run(es).holds| == 3 && Holding(Run(es), 1, 12) && Holding(Run(es), 2, 12)
  {
    var a, b := Event(0, TryLock(key, t, 10)), Event(10, TryLock(key, t, 10));
    var c, d := Event(11, CallUnlock(0)), Event(12, TryLock(key, u, 10));
    var es := [a, b, c, d];
    assert es[..3] == [a, b, c];
    assert [a, b, c][..2] == [a, b];
    assert [a, b][..1] == [a];
    assert [a][..0] == [];
    assert Run([a]) == World(map[key := Acquired(t, 10, 0)], [Hold(key, Acquired(t, 10, 0), false)]);
    assert Run([a, b]) == Step(Run([a]), b);
    assert Run([a, b]).holds == [Hold(key, Acquired(t, 10, 0), false), Hold(key, Acquired(t, 10, 10), false)];
    assert Run([a, b, c]) == Step(Run([a, b]), c);
    assert Run(es) == Step(Run([a, b, c]), d);
  }
}
