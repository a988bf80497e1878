/** The hybrid score store: a primary store of record, an unreliable cache in front of it,
    and per-name freshness times. Operations are serialised; failures of either store and
    evictions from the cache are the environment. Cache writes are synchronous. */
module HybridStore {
  import opened Common

  datatype ScoreData = ScoreData(name: string, baseScore: real, healthPenalty: real, latencyPenalty: real,
                                 errorPenalty: real, rateLimitPenalty: real, recentLatencies: seq<int>)

  type Scores = map<string, ScoreData>

  // ---- the plain map every store stands for ----

  /** Data without a name is skipped. */
  function Put(m: Scores, d: ScoreData): Scores {
    if d.name == "" then m else m[d.name := d]
  }

  function PutAll(m: Scores, ds: seq<ScoreData>): Scores {
    if ds == [] then m else Put(PutAll(m, ds[..|ds| - 1]), ds[|ds| - 1])
  }

  function Lookup(m: Scores, name: string): Option<ScoreData> {
    if name in m then Some(m[name]) else None
  }

  predicate Keyed(m: Scores) {
    forall n :: n in m ==> m[n].name == n && n != ""
  }

  function NamesOf(ds: seq<ScoreData>): set<string> {
    set i | 0 <= i < |ds| :: ds[i].name
  }

  lemma {:induction false} PutAllAgrees(a: Scores, b: Scores, ds: seq<ScoreData>, n: string)
    ensures n in NamesOf(ds) && n != "" ==> n in PutAll(a, ds) && n in PutAll(b, ds) && PutAll(a, ds)[n] == PutAll(b, ds)[n]
    ensures n !in NamesOf(ds) || n == "" ==> Lookup(PutAll(a, ds), n) == Lookup(a, n)
    ensures Keyed(a) ==> Keyed(PutAll(a, ds))
  {
    if ds != [] {
      PutAllAgrees(a, b, ds[..|ds| - 1], n);
      NamesSnoc(ds, |ds| - 1);
      assert ds[..|ds|] == ds;
    }
  }

  lemma NamesSnoc(ds: seq<ScoreData>, i: nat)
    requires i < |ds|
    ensures NamesOf(ds[..i + 1]) == NamesOf(ds[..i]) + {ds[i].name}
  {
    TakeSnoc(ds, i);
    forall n ensures n in NamesOf(ds[..i + 1]) <==> n in NamesOf(ds[..i]) + {ds[i].name} {
      if n == ds[i].name { assert ds[..i + 1][i] == ds[i]; }
      if n in NamesOf(ds[..i]) {
        var j :| 0 <= j < i && ds[..i][j].name == n;
        assert ds[..i + 1][j].name == n;
      }
    }
  }

  // ---- state and operations ----

  datatype Config = Config(cacheTTL: int, writeThrough: bool, invalidateOnWrite: bool)

  datatype Hybrid = Hybrid(primary: Scores, cache: Scores, cacheTime: map<string, int>)

  /** The result of a read, or the error of the primary store. */
  datatype Answer = Answered(data: Option<ScoreData>) | PrimaryError

  predicate Fresh(cfg: Config, s: Hybrid, name: string, now: int) {
    name in s.cacheTime && now - s.cacheTime[name] < cfg.cacheTTL
  }

  predicate Hit(cfg: Config, s: Hybrid, name: string, now: int, cacheDown: bool) {
    Fresh(cfg, s, name, now) && !cacheDown && name in s.cache
  }

  /** Cache first if fresh; otherwise the primary, whose answer repopulates the cache. `lost`
      says the cache write failed, which goes unnoticed. */
  function Read(cfg: Config, s: Hybrid, name: string, now: int, cacheDown: bool, primaryDown: bool, lost: bool)
    : (Hybrid, Answer)
  {
    if Hit(cfg, s, name, now, cacheDown) then (s, Answered(Some(s.cache[name])))
    else if primaryDown then (s, PrimaryError)
    else if name !in s.primary then (s, Answered(None))
    else (s.(cache := if lost then s.cache else Put(s.cache, s.primary[name]), cacheTime := s.cacheTime[name := now]),
          Answered(Some(s.primary[name])))
  }

  function Marks(names: set<string>, now: int): map<string, int> {
    map n | n in names :: now
  }

  function Only(m: Scores, names: set<string>): Scores {
    map n | n in m && n in names :: m[n]
  }

  /** The elements of a batch whose cache write does not fail. */
  function Kept(ds: seq<ScoreData>, lost: set<string>): seq<ScoreData> {
    if ds == [] then []
    else
      var init, last := Kept(ds[..|ds| - 1], lost), ds[|ds| - 1];
      if last.name in lost then init else init + [last]
  }

  /** Primary first, then the cache according to the mode. `stuck` are the names whose cache
      deletion fails, `lost` those whose cache write fails; neither is noticed. */
  function Write(cfg: Config, s: Hybrid, ds: seq<ScoreData>, now: int, stuck: set<string>, lost: set<string>): Hybrid {
    var names := NamesOf(ds);
    var primary := PutAll(s.primary, ds);
    if cfg.invalidateOnWrite then Hybrid(primary, s.cache - (names - stuck), s.cacheTime - names)
    else if cfg.writeThrough then
      Hybrid(primary, PutAll(s.cache, Kept(ds, lost)), s.cacheTime + Marks(names, now))
    else Hybrid(primary, s.cache, s.cacheTime - names)
  }

  function Delete(s: Hybrid, name: string, cacheDown: bool): Hybrid {
    Hybrid(s.primary - {name}, if cacheDown then s.cache else s.cache - {name}, s.cacheTime - {name})
  }

  /** Copies the primary into the cache and marks every name. When the cache reports an error,
      `failed` is what it had taken by then, and nothing is marked. */
  function Warm(s: Hybrid, now: int, failed: Option<set<string>>): Hybrid {
    match failed
    case None => Hybrid(s.primary, s.cache + s.primary, s.cacheTime + Marks(s.primary.Keys, now))
    case Some(taken) => s.(cache := s.cache + Only(s.primary, taken))
  }

  datatype Op =
    | GetScore(name: string, cacheDown: bool, primaryDown: bool, missed: bool)
    | SetScores(ds: seq<ScoreData>, stuck: set<string>, primaryDown: bool, lost: set<string>)
    | DeleteScore(name: string, cacheDown: bool, primaryDown: bool)
    | WarmCache(primaryDown: bool, failed: Option<set<string>>)
    | InvalidateAll
    | Evict(names: set<string>)                              // the cache forgets
    | OthersSet(d: ScoreData)                                // someone else writes the primary
    | OthersDelete(name: string)

  function Apply(cfg: Config, s: Hybrid, op: Op, now: int): Hybrid {
    match op
    case GetScore(name, c, p, missed) => Read(cfg, s, name, now, c, p, missed).0
    case SetScores(ds, stuck, p, lost) => if p then s else Write(cfg, s, ds, now, stuck, lost)
    case DeleteScore(name, c, p) => if p then s else Delete(s, name, c)
    case WarmCache(p, failed) => if p then s else Warm(s, now, failed)
    case InvalidateAll => s.(cacheTime := map[])
    case Evict(names) => s.(cache := s.cache - names)
    case OthersSet(d) => s.(primary := Put(s.primary, d))
    case OthersDelete(name) => s.(primary := s.primary - {name})
  }

  /** What a plain map does with the same operation. */
  function ApplyPlain(m: Scores, op: Op): Scores {
    match op
    case SetScores(ds, _, p, _) => if p then m else PutAll(m, ds)
    case DeleteScore(name, _, p) => if p then m else m - {name}
    case OthersSet(d) => Put(m, d)
    case OthersDelete(name) => m - {name}
    case _ => m
  }

  predicate Own(op: Op) { !op.OthersSet? && !op.OthersDelete? }

  datatype Timed = Timed(now: int, op: Op)

  function Run(cfg: Config, start: Hybrid, ops: seq<Timed>): Hybrid {
    if ops == [] then start
    else Apply(cfg, Run(cfg, start, ops[..|ops| - 1]), ops[|ops| - 1].op, ops[|ops| - 1].now)
  }

  function RunPlain(m: Scores, ops: seq<Timed>): Scores {
    if ops == [] then m else ApplyPlain(RunPlain(m, ops[..|ops| - 1]), ops[|ops| - 1].op)
  }

  predicate AllOwn(ops: seq<Timed>) { forall i :: 0 <= i < |ops| ==> Own(ops[i].op) }

  predicate Clocked(ops: seq<Timed>) {
    forall i, j :: 0 <= i < j < |ops| ==> ops[i].now <= ops[j].now
  }

  // ---- coherence ----

  /** The primary files data under its own name, and neither store under no name. */
  predicate Named(s: Hybrid) { Keyed(s.primary) && "" !in s.cache }

  /** A new hybrid store over any two stores: nothing is tracked yet. */
  predicate Initial(s: Hybrid) { Named(s) && s.cacheTime == map[] }

  /** Whatever is tracked as cached and still in the cache is what the primary holds. */
  ghost predicate Coherent(s: Hybrid) {
    Named(s) && forall n :: n in s.cacheTime && n in s.cache ==> Lookup(s.primary, n) == Some(s.cache[n])
  }

  /** Losing the write of `d` leaves nothing wrong behind under `n`. */
  predicate Harmless(cache: Scores, n: string, d: Option<ScoreData>) {
    n in cache ==> Some(cache[n]) == d
  }

  predicate BenignLoss(s: Hybrid, ds: seq<ScoreData>, lost: set<string>) {
    forall n :: n in lost && n in NamesOf(ds) ==> Harmless(s.cache, n, Lookup(PutAll(s.primary, ds), n))
  }

  /** Every cache write the operation loses would have met a cache holding nothing under that
      name, or the very value to be written. */
  predicate Benign(cfg: Config, s: Hybrid, op: Op, now: int) {
    match op
    case GetScore(name, c, p, missed) =>
      missed && !p && name in s.primary && !Hit(cfg, s, name, now, c) ==> Harmless(s.cache, name, Lookup(s.primary, name))
    case SetScores(ds, _, p, lost) =>
      !p && cfg.writeThrough && !cfg.invalidateOnWrite ==> BenignLoss(s, ds, lost)
    case _ => true
  }

  predicate BenignRun(cfg: Config, start: Hybrid, ops: seq<Timed>) {
    ops == [] ||
    (BenignRun(cfg, start, ops[..|ops| - 1])
     && Benign(cfg, Run(cfg, start, ops[..|ops| - 1]), ops[|ops| - 1].op, ops[|ops| - 1].now))
  }

  lemma {:induction false} KeptLookup(c: Scores, ds: seq<ScoreData>, lost: set<string>, n: string)
    ensures Lookup(PutAll(c, Kept(ds, lost)), n) == Lookup(if n in lost then c else PutAll(c, ds), n)
  {
    if ds != [] {
      var init, last := ds[..|ds| - 1], ds[|ds| - 1];
      KeptLookup(c, init, lost, n);
      PutSnoc(c, Kept(init, lost), last);
      assert PutAll(c, ds) == Put(PutAll(c, init), last);
      assert Kept(ds, lost) == if last.name in lost then Kept(init, lost) else Kept(init, lost) + [last];
      hide PutAll, Kept;
    }
  }

  lemma PutSnoc(c: Scores, ds: seq<ScoreData>, d: ScoreData)
    ensures PutAll(c, ds + [d]) == Put(PutAll(c, ds), d)
  {
    assert (ds + [d])[..|ds|] == ds;
  }

  /** What a write leaves under one name. */
  lemma WrittenAt(cfg: Config, s: Hybrid, ds: seq<ScoreData>, now: int, stuck: set<string>, lost: set<string>, n: string)
    requires Named(s)
    ensures var s' := Write(cfg, s, ds, now, stuck, lost);
            var through := cfg.writeThrough && !cfg.invalidateOnWrite;
            && Named(s')
            && (n !in NamesOf(ds) || n == "" ==>
                  Lookup(s'.primary, n) == Lookup(s.primary, n) && Lookup(s'.cache, n) == Lookup(s.cache, n))
            && (n !in NamesOf(ds) ==> (n in s'.cacheTime <==> n in s.cacheTime)
                                      && (n in s'.cacheTime ==> s'.cacheTime[n] == s.cacheTime[n]))
            && (n in NamesOf(ds) ==> (n in s'.cacheTime <==> through) && (through ==> s'.cacheTime[n] == now))
            && (n in NamesOf(ds) && cfg.invalidateOnWrite ==> n in stuck || n !in s'.cache)
            && (n in NamesOf(ds) && n != "" && through ==>
                  Lookup(s'.cache, n) == if n in lost then Lookup(s.cache, n) else Lookup(s'.primary, n))
  {
    PutAllAgrees(s.primary, s.cache, ds, n);
    PutAllAgrees(s.cache, s.primary, ds, n);
    PutAllAgrees(s.cache, s.primary, ds, "");
    KeptLookup(s.cache, ds, lost, n);
    KeptLookup(s.cache, ds, lost, "");
  }

  lemma {:induction false} WriteCoherentIff(cfg: Config, s: Hybrid, ds: seq<ScoreData>, now: int, stuck: set<string>, lost: set<string>)
    requires Coherent(s)
    ensures Coherent(Write(cfg, s, ds, now, stuck, lost)) <==>
              (cfg.writeThrough && !cfg.invalidateOnWrite ==> BenignLoss(s, ds, lost))
  {
    var s' := Write(cfg, s, ds, now, stuck, lost);
    var through := cfg.writeThrough && !cfg.invalidateOnWrite;
    WrittenAt(cfg, s, ds, now, stuck, lost, "");
    assert s'.primary == PutAll(s.primary, ds);
    forall n
      ensures n in s'.cacheTime && n in s'.cache && Lookup(s'.primary, n) != Some(s'.cache[n]) <==>
                through && n in lost && n in NamesOf(ds) && !Harmless(s.cache, n, Lookup(PutAll(s.primary, ds), n))
    {
      WrittenAt(cfg, s, ds, now, stuck, lost, n);
    }
  }

  /** One operation keeps the cache coherent exactly when its lost cache writes are benign. */
  lemma {:induction false} CoherentIffBenign(cfg: Config, s: Hybrid, op: Op, now: int)
    requires Coherent(s) && Own(op)
    ensures Coherent(Apply(cfg, s, op, now)) <==> Benign(cfg, s, op, now)
  {
    match op
    case SetScores(ds, stuck, p, lost) => if !p { WriteCoherentIff(cfg, s, ds, now, stuck, lost); }
    case GetScore(name, c, p, missed) => ReadCoherentIff(cfg, s, name, now, c, p, missed);
    case _ =>
  }

  lemma ReadCoherentIff(cfg: Config, s: Hybrid, name: string, now: int, c: bool, p: bool, missed: bool)
    requires Coherent(s)
    ensures Coherent(Read(cfg, s, name, now, c, p, missed).0) <==> Benign(cfg, s, GetScore(name, c, p, missed), now)
  {
    var s' := Read(cfg, s, name, now, c, p, missed).0;
    if s' != s { assert name in s'.cacheTime; }
  }

  lemma {:induction false} PrimaryIsPlain(cfg: Config, start: Hybrid, ops: seq<Timed>)
    ensures Run(cfg, start, ops).primary == RunPlain(start.primary, ops)
  {
    if ops != [] { PrimaryIsPlain(cfg, start, ops[..|ops| - 1]); }
  }

  lemma {:induction false} RunCoherent(cfg: Config, start: Hybrid, ops: seq<Timed>)
    requires Initial(start) && AllOwn(ops) && BenignRun(cfg, start, ops)
    ensures Coherent(Run(cfg, start, ops)) && Run(cfg, start, ops).primary == RunPlain(start.primary, ops)
  {
    PrimaryIsPlain(cfg, start, ops);
    if ops != [] {
      var init, last := ops[..|ops| - 1], ops[|ops| - 1];
      RunCoherent(cfg, start, init);
      CoherentIffBenign(cfg, Run(cfg, start, init), last.op, last.now);
    }
  }

  /** After any run of operations over any two stores, in every mode, a read answers exactly
      what a plain map would, whatever the cache evicted, failed to read or failed to delete,
      as long as the writes it lost were benign; it can only fail by passing on an error of
      the primary. */
  lemma {:induction false} ReadsArePlain(cfg: Config, start: Hybrid, ops: seq<Timed>, name: string, now: int,
                                         cacheDown: bool, primaryDown: bool, lost: bool)
    requires Initial(start) && AllOwn(ops) && BenignRun(cfg, start, ops)
    ensures var s := Run(cfg, start, ops);
            var a := Read(cfg, s, name, now, cacheDown, primaryDown, lost).1;
            && (a.Answered? ==> a.data == Lookup(RunPlain(start.primary, ops), name))
            && (a.PrimaryError? <==> primaryDown && !Hit(cfg, s, name, now, cacheDown))
  {
    RunCoherent(cfg, start, ops);
  }

  // ---- what the cache is for ----

  /** A read of `name` is served from the cache, whether or not the primary answers. */
  predicate ServedFromCache(cfg: Config, s: Hybrid, name: string, d: ScoreData, now: int) {
    && Hit(cfg, s, name, now, false)
    && forall down, lost :: Read(cfg, s, name, now, false, down, lost) == (s, Answered(Some(d)))
  }

  /** After a warm-up that succeeds, every entry of the primary is served from the cache for the
      cache's lifetime; after one that fails, no name is fresh that was not before. */
  lemma WarmServes(cfg: Config, s: Hybrid, t: int, name: string, now: int, taken: set<string>)
    ensures name in s.primary && now - t < cfg.cacheTTL ==> ServedFromCache(cfg, Warm(s, t, None), name, s.primary[name], now)
    ensures Fresh(cfg, Warm(s, t, Some(taken)), name, now) == Fresh(cfg, s, name, now)
  {
  }

  /** After a write-through write that is not lost, what was written is served from the cache for
      the cache's lifetime; in the other modes the next read of a written name asks the primary. */
  lemma {:induction false} WriteServes(cfg: Config, s: Hybrid, ds: seq<ScoreData>, t: int, stuck: set<string>, lost: set<string>,
                                       name: string, now: int)
    requires Named(s) && name in NamesOf(ds) && name != ""
    ensures var s' := Write(cfg, s, ds, t, stuck, lost);
            && name in s'.primary
            && (cfg.writeThrough && !cfg.invalidateOnWrite && name !in lost && now - t < cfg.cacheTTL ==>
                  ServedFromCache(cfg, s', name, s'.primary[name], now))
            && (cfg.invalidateOnWrite || !cfg.writeThrough ==> !Fresh(cfg, s', name, now))
            && (cfg.invalidateOnWrite && name !in stuck ==> name !in s'.cache)
  {
    WrittenAt(cfg, s, ds, t, stuck, lost, name);
    PutAllAgrees(s.primary, s.primary, ds, name);
    hide Write, PutAll;
    assert Write(cfg, s, ds, t, stuck, lost).primary == PutAll(s.primary, ds) by { WritesPrimary(cfg, s, ds, t, stuck, lost); }
  }

  lemma WritesPrimary(cfg: Config, s: Hybrid, ds: seq<ScoreData>, t: int, stuck: set<string>, lost: set<string>)
    ensures Write(cfg, s, ds, t, stuck, lost).primary == PutAll(s.primary, ds)
  {
  }

  /** Of several entries for one name in a batch, the last is kept. */
  lemma LastWins(m: Scores, ds: seq<ScoreData>, i: nat)
    requires i < |ds| && ds[i].name != "" && forall j :: i < j < |ds| ==> ds[j].name != ds[i].name
    ensures Lookup(PutAll(m, ds), ds[i].name) == Some(ds[i])
  {
    if i < |ds| - 1 { LastWins(m, ds[..|ds| - 1], i); }
  }

  /** After a read that went to the primary and whose repopulation is not lost, the same answer is
      served from the cache for the cache's lifetime. */
  lemma ReadServes(cfg: Config, s: Hybrid, name: string, t: int, cacheDown: bool, now: int)
    requires Named(s) && name in s.primary && !Hit(cfg, s, name, t, cacheDown) && now - t < cfg.cacheTTL
    ensures var (s', a) := Read(cfg, s, name, t, cacheDown, false, false);
            a == Answered(Some(s.primary[name])) && ServedFromCache(cfg, s', name, s.primary[name], now)
  {
  }

  /** After invalidating everything, or deleting a name, reads ask the primary again. */
  lemma ForgettingAsksPrimary(cfg: Config, s: Hybrid, name: string, now: int, c: bool, down: bool)
    ensures !Hit(cfg, Apply(cfg, s, InvalidateAll, now), name, now, c)
    ensures !Hit(cfg, Delete(s, name, c), name, now, down) && name !in Delete(s, name, c).primary
    ensures !c ==> name !in Delete(s, name, c).cache
  {
  }

  // ---- exactly when lost writes show ----

  /** Every read made at time `t` agrees with the plain map `m`. */
  ghost predicate PlainAt(cfg: Config, s: Hybrid, m: Scores, t: int) {
    forall name, cacheDown, primaryDown ::
      var a := Read(cfg, s, name, t, cacheDown, primaryDown, false).1;
      a.Answered? ==> a.data == Lookup(m, name)
  }

  /** Reads made right after each operation agree with the plain map. */
  ghost predicate AlwaysPlain(cfg: Config, start: Hybrid, ops: seq<Timed>) {
    ops == [] ||
    (AlwaysPlain(cfg, start, ops[..|ops| - 1])
     && PlainAt(cfg, Run(cfg, start, ops), RunPlain(start.primary, ops), ops[|ops| - 1].now))
  }

  /** Right after the first harmful loss some read is stale. */
  lemma {:induction false} HarmShows(cfg: Config, s: Hybrid, op: Op, now: int)
    requires Coherent(s) && Own(op) && cfg.cacheTTL > 0 && !Benign(cfg, s, op, now)
    ensures !PlainAt(cfg, Apply(cfg, s, op, now), Apply(cfg, s, op, now).primary, now)
  {
    var s' := Apply(cfg, s, op, now);
    var n := if op.GetScore? then op.name else
      var n :| n in op.lost && n in NamesOf(op.ds) && !Harmless(s.cache, n, Lookup(PutAll(s.primary, op.ds), n)); n;
    if op.SetScores? { WrittenAt(cfg, s, op.ds, now, op.stuck, op.lost, n); }
    assert Hit(cfg, s', n, now, false) && Lookup(s'.primary, n) != Some(s'.cache[n]);
    assert Read(cfg, s', n, now, false, false, false).1 == Answered(Some(s'.cache[n]));
  }

  lemma CoherentIsPlain(cfg: Config, s: Hybrid, t: int)
    requires Coherent(s)
    ensures PlainAt(cfg, s, s.primary, t)
  {
  }

  /** Marks are never later than the last operation. */
  lemma {:induction false} MarksArePast(cfg: Config, start: Hybrid, ops: seq<Timed>)
    requires start.cacheTime == map[] && Clocked(ops)
    ensures forall n :: n in Run(cfg, start, ops).cacheTime ==>
              ops != [] && Run(cfg, start, ops).cacheTime[n] <= ops[|ops| - 1].now
  {
    if ops != [] { MarksArePast(cfg, start, ops[..|ops| - 1]); }
  }

  /** Over a whole run on a clock that never goes back, reads are those of a plain map exactly
      when every lost cache write along the way was benign, or nothing is ever fresh. */
  lemma {:induction false} PlainIffBenign(cfg: Config, start: Hybrid, ops: seq<Timed>)
    requires Initial(start) && AllOwn(ops) && Clocked(ops)
    ensures AlwaysPlain(cfg, start, ops) <==> cfg.cacheTTL <= 0 || BenignRun(cfg, start, ops)
  {
    hide PlainAt, Apply, ApplyPlain, Benign, Coherent;
    if ops != [] {
      var init, last := ops[..|ops| - 1], ops[|ops| - 1];
      PlainIffBenign(cfg, start, init);
      PrimaryIsPlain(cfg, start, ops);
      if cfg.cacheTTL <= 0 {
        NothingFresh(cfg, start, ops);
      } else if BenignRun(cfg, start, init) {
        var s := Run(cfg, start, init);
        RunCoherent(cfg, start, init);
        CoherentIffBenign(cfg, s, last.op, last.now);
        if Benign(cfg, s, last.op, last.now) { CoherentIsPlain(cfg, Run(cfg, start, ops), last.now); }
        else { HarmShows(cfg, s, last.op, last.now); }
      }
    }
  }

  lemma NothingFresh(cfg: Config, start: Hybrid, ops: seq<Timed>)
    requires Initial(start) && Clocked(ops) && cfg.cacheTTL <= 0 && ops != []
    ensures PlainAt(cfg, Run(cfg, start, ops), Run(cfg, start, ops).primary, ops[|ops| - 1].now)
  {
    MarksArePast(cfg, start, ops);
    hide Run;
  }

  // ---- bounded staleness ----

  datatype Snapshot = Snapshot(time: int, primary: Scores)

  /** The primary after each operation, with its time. */
  function History(cfg: Config, start: Hybrid, ops: seq<Timed>): (h: seq<Snapshot>)
    ensures |h| == |ops|
  {
    if ops == [] then []
    else History(cfg, start, ops[..|ops| - 1]) + [Snapshot(ops[|ops| - 1].now, Run(cfg, start, ops).primary)]
  }

  /** The primary held `v` for `name` at some recorded time not before `since`. */
  ghost predicate HeldSince(h: seq<Snapshot>, name: string, v: ScoreData, since: int) {
    exists i :: 0 <= i < |h| && since <= h[i].time && Lookup(h[i].primary, name) == Some(v)
  }

  ghost predicate Backed(h: seq<Snapshot>, s: Hybrid) {
    Named(s) && forall n :: n in s.cacheTime && n in s.cache ==> HeldSince(h, n, s.cache[n], s.cacheTime[n])
  }

  lemma HeldLater(h: seq<Snapshot>, x: Snapshot, name: string, v: ScoreData, since: int)
    ensures HeldSince(h, name, v, since) ==> HeldSince(h + [x], name, v, since)
    ensures since <= x.time && Lookup(x.primary, name) == Some(v) ==> HeldSince(h + [x], name, v, since)
  {
    if HeldSince(h, name, v, since) {
      var i :| 0 <= i < |h| && since <= h[i].time && Lookup(h[i].primary, name) == Some(v);
      assert (h + [x])[i] == h[i];
    }
    assert (h + [x])[|h|] == x;
  }

  /** After one operation each tracked cache entry is an old one with its old mark, or
      equals what the primary now holds, marked no later than now. */
  lemma EntryOrigin(cfg: Config, s: Hybrid, op: Op, now: int, n: string)
    requires Named(s) && (forall m :: m in s.cacheTime ==> s.cacheTime[m] <= now) && Benign(cfg, s, op, now)
    ensures var s' := Apply(cfg, s, op, now);
            && Named(s')
            && (n in s'.cacheTime ==> s'.cacheTime[n] <= now)
            && (n in s'.cacheTime && n in s'.cache ==>
                  || (n in s.cacheTime && n in s.cache && s'.cache[n] == s.cache[n] && s'.cacheTime[n] == s.cacheTime[n])
                  || Lookup(s'.primary, n) == Some(s'.cache[n]))
  {
    if op.SetScores? && !op.primaryDown { WrittenAt(cfg, s, op.ds, now, op.stuck, op.lost, n); }
  }

  lemma {:induction false} RunBacked(cfg: Config, start: Hybrid, ops: seq<Timed>)
    requires Initial(start) && Clocked(ops) && BenignRun(cfg, start, ops)
    ensures Backed(History(cfg, start, ops), Run(cfg, start, ops))
  {
    if ops != [] {
      var init, last := ops[..|ops| - 1], ops[|ops| - 1];
      RunBacked(cfg, start, init);
      MarksArePast(cfg, start, init);
      var s, s', h := Run(cfg, start, init), Run(cfg, start, ops), History(cfg, start, init);
      var x := Snapshot(last.now, s'.primary);
      hide Apply, Benign;
      forall n ensures n in s'.cacheTime && n in s'.cache ==> HeldSince(h + [x], n, s'.cache[n], s'.cacheTime[n]) {
        EntryOrigin(cfg, s, last.op, last.now, n);
        if n in s'.cacheTime && n in s'.cache { HeldLater(h, x, n, s'.cache[n], s'.cacheTime[n]); }
      }
      EntryOrigin(cfg, s, last.op, last.now, "");
    }
  }

  /** With anyone writing the primary between operations, a read at time t returns what the
      primary holds right now or held for that name within the last CacheTTL; during an outage
      of the primary it is the latter, or the primary's error. */
  lemma {:induction false} BoundedStaleness(cfg: Config, start: Hybrid, ops: seq<Timed>, name: string, now: int,
                                            cacheDown: bool, primaryDown: bool, lost: bool)
    requires Initial(start) && Clocked(ops) && BenignRun(cfg, start, ops) && (ops != [] ==> ops[|ops| - 1].now <= now)
    ensures var s := Run(cfg, start, ops);
            match Read(cfg, s, name, now, cacheDown, primaryDown, lost).1
            case PrimaryError => primaryDown && !Hit(cfg, s, name, now, cacheDown)
            case Answered(data) =>
              || (!primaryDown && data == Lookup(s.primary, name))
              || (data.Some? && exists i :: 0 <= i < |ops| && now - cfg.cacheTTL < History(cfg, start, ops)[i].time <= now
                                            && Lookup(History(cfg, start, ops)[i].primary, name) == data)
  {
    var s, h := Run(cfg, start, ops), History(cfg, start, ops);
    RunBacked(cfg, start, ops);
    if Hit(cfg, s, name, now, cacheDown) {
      var i :| 0 <= i < |h| && s.cacheTime[name] <= h[i].time && Lookup(h[i].primary, name) == Some(s.cache[name]);
      HistoryTime(cfg, start, ops, i);
    }
  }

  lemma {:induction false} HistoryTime(cfg: Config, start: Hybrid, ops: seq<Timed>, i: nat)
    requires i < |ops| && Clocked(ops)
    ensures History(cfg, start, ops)[i].time == ops[i].now <= ops[|ops| - 1].now
  {
    if i < |ops| - 1 { HistoryTime(cfg, start, ops[..|ops| - 1], i); }
  }

  // ---- the stores as objects ----

  /** The in-memory store: a map behind a lock. */
  class MemoryStore {
    var scores: Scores

    constructor ()
      ensures scores == map[]
    {
      scores := map[];
    }

    method Get(name: string) returns (r: Option<ScoreData>)
      ensures r == Lookup(scores, name)
    {
      if name in scores { return Some(scores[name]); }
      return None;
    }

    method Set(d: Option<ScoreData>)
      modifies this
      ensures scores == if d.Some? then Put(old(scores), d.value) else old(scores)
    {
      if d.None? || d.value.name == "" { return; }
      scores := scores[d.value.name := d.value];
    }

    method SetMany(ds: seq<ScoreData>)
      modifies this
      ensures scores == PutAll(old(scores), ds)
    {
      for i := 0 to |ds|
        invariant scores == PutAll(old(scores), ds[..i])
      {
        TakeSnoc(ds, i);
        if ds[i].name != "" { scores := scores[ds[i].name := ds[i]]; }
      }
      assert ds[..|ds|] == ds;
    }

    method Remove(name: string)
      modifies this
      ensures scores == old(scores) - {name}
    {
      scores := scores - {name};
    }

    /** Every entry once, in no particular order. */
    method GetAll() returns (ds: seq<ScoreData>)
      requires Keyed(scores)
      ensures NamesOf(ds) == scores.Keys && Entries(scores, ds) && Distinct(ds)
    {
      ds := [];
      var left := scores.Keys;
      while left != {}
        invariant left <= scores.Keys && NamesOf(ds) == scores.Keys - left
        invariant Entries(scores, ds) && Distinct(ds)
        decreases left
      {
        var n :| n in left;
        forall i | 0 <= i < |ds| ensures ds[i].name != n { assert ds[i].name in NamesOf(ds); }
        NamesSnoc(ds + [scores[n]], |ds|);
        assert (ds + [scores[n]])[..|ds|] == ds && (ds + [scores[n]])[..|ds| + 1] == ds + [scores[n]];
        ds := ds + [scores[n]];
        left := left - {n};
      }
    }
  }

  /** Each element is the map's entry under its own name. */
  predicate Entries(m: Scores, ds: seq<ScoreData>) {
    forall i :: 0 <= i < |ds| ==> ds[i].name != "" && ds[i].name in m && m[ds[i].name] == ds[i]
  }

  predicate Distinct(ds: seq<ScoreData>) {
    forall i, j :: 0 <= i < j < |ds| ==> ds[i].name != ds[j].name
  }

  lemma {:induction false} PutAllEntries(c: Scores, m: Scores, ds: seq<ScoreData>)
    requires Entries(m, ds)
    ensures PutAll(c, ds) == c + Only(m, NamesOf(ds))
  {
    if ds != [] {
      var k := |ds| - 1;
      PutAllEntries(c, m, ds[..k]);
      NamesSnoc(ds, k);
      assert ds[..k + 1] == ds;
      assert PutAll(c, ds) == PutAll(c, ds[..k])[ds[k].name := ds[k]];
      hide PutAll, NamesOf;
      OneMoreEntry(c, m, NamesOf(ds[..k]), ds[k]);
    }
  }

  lemma OneMoreEntry(c: Scores, m: Scores, names: set<string>, d: ScoreData)
    requires d.name in m && m[d.name] == d
    ensures (c + Only(m, names))[d.name := d] == c + Only(m, names + {d.name})
  {
  }

  class HybridScoreStore {
    const config: Config
    const primary: MemoryStore
    const cache: MemoryStore
    var cacheTime: map<string, int>

    ghost predicate Valid()
      reads this, primary
    {
      primary != cache && Keyed(primary.scores)
    }

    function View(): Hybrid
      reads this, primary, cache
    {
      Hybrid(primary.scores, cache.scores, cacheTime)
    }

    constructor (config: Config, primary: MemoryStore, cache: MemoryStore)
      requires primary != cache && Keyed(primary.scores)
      ensures Valid() && View() == Hybrid(primary.scores, cache.scores, map[])
      ensures this.primary == primary && this.cache == cache
      ensures this.config == if config.cacheTTL == 0 then config.(cacheTTL := 300_000_000_000) else config
    {
      this.config := if config.cacheTTL == 0 then config.(cacheTTL := 300_000_000_000) else config;
      this.primary, this.cache, cacheTime := primary, cache, map[];
    }

    method GetScore(name: string, now: int, cacheDown: bool, primaryDown: bool, lost: bool) returns (a: Answer)
      requires Valid()
      modifies this`cacheTime, cache
      ensures Valid() && (View(), a) == Read(config, old(View()), name, now, cacheDown, primaryDown, lost)
    {
      var isFresh := name in cacheTime && now - cacheTime[name] < config.cacheTTL;
      if isFresh && !cacheDown {
        var d := cache.Get(name);
        if d.Some? { return Answered(d); }
      }
      if primaryDown { return PrimaryError; }
      var d := primary.Get(name);
      if d.Some? {
        if !lost { cache.Set(d); }
        cacheTime := cacheTime[name := now];
      }
      return Answered(d);
    }

    /** Nil data is refused; a primary error leaves everything as it was. */
    method SetScore(d: Option<ScoreData>, now: int, stuck: set<string>, primaryDown: bool, lost: bool) returns (ok: bool)
      requires Valid()
      modifies this`cacheTime, primary, cache
      ensures Valid() && ok == (d.Some? && !primaryDown)
      ensures View() == if ok then Write(config, old(View()), [d.value], now, stuck, if lost then {d.value.name} else {})
                        else old(View())
    {
      if d.None? || primaryDown { return false; }
      OneName(primary.scores, d.value);
      OneName(cache.scores, d.value);
      OneKept(d.value);
      hide PutAll, NamesOf, Put, Keyed, Kept;
      var name := d.value.name;
      primary.Set(d);
      if config.invalidateOnWrite {
        cacheTime := cacheTime - {name};
        if name !in stuck { cache.Remove(name); }
      } else if config.writeThrough {
        if !lost { cache.Set(d); }
        cacheTime := cacheTime[name := now];
      } else {
        cacheTime := cacheTime - {name};
      }
      return true;
    }

    method SetScores(ds: seq<ScoreData>, now: int, stuck: set<string>, primaryDown: bool, lost: set<string>)
      returns (ok: bool)
      requires Valid()
      modifies this`cacheTime, primary, cache
      ensures Valid() && ok == (ds == [] || !primaryDown)
      ensures View() == if ok then Write(config, old(View()), ds, now, stuck, lost) else old(View())
    {
      if ds == [] {
        assert NamesOf(ds) == {};
        return true;
      }
      if primaryDown { return false; }
      PutAllAgrees(primary.scores, cache.scores, ds, "");
      primary.SetMany(ds);
      if config.invalidateOnWrite {
        InvalidateEach(ds, stuck);
      } else if config.writeThrough {
        cache.SetMany(Kept(ds, lost));
        MarkEach(ds, now);
      } else {
        UnmarkEach(ds);
      }
      return true;
    }

    method InvalidateEach(ds: seq<ScoreData>, stuck: set<string>)
      modifies this`cacheTime, cache
      ensures cacheTime == old(cacheTime) - NamesOf(ds)
      ensures cache.scores == old(cache.scores) - (NamesOf(ds) - stuck)
    {
      for i := 0 to |ds|
        invariant cacheTime == old(cacheTime) - NamesOf(ds[..i])
        invariant cache.scores == old(cache.scores) - (NamesOf(ds[..i]) - stuck)
      {
        NamesSnoc(ds, i);
        cacheTime := cacheTime - {ds[i].name};
        if ds[i].name !in stuck { cache.Remove(ds[i].name); }
      }
      assert ds[..|ds|] == ds;
    }

    method MarkEach(ds: seq<ScoreData>, now: int)
      modifies this`cacheTime
      ensures cacheTime == old(cacheTime) + Marks(NamesOf(ds), now)
    {
      for i := 0 to |ds|
        invariant cacheTime == old(cacheTime) + Marks(NamesOf(ds[..i]), now)
      {
        NamesSnoc(ds, i);
        cacheTime := cacheTime[ds[i].name := now];
      }
      assert ds[..|ds|] == ds;
    }

    method UnmarkEach(ds: seq<ScoreData>)
      modifies this`cacheTime
      ensures cacheTime == old(cacheTime) - NamesOf(ds)
    {
      for i := 0 to |ds|
        invariant cacheTime == old(cacheTime) - NamesOf(ds[..i])
      {
        NamesSnoc(ds, i);
        cacheTime := cacheTime - {ds[i].name};
      }
      assert ds[..|ds|] == ds;
    }

    method DeleteScore(name: string, cacheDown: bool, primaryDown: bool) returns (ok: bool)
      requires Valid()
      modifies this`cacheTime, primary, cache
      ensures Valid() && ok == !primaryDown
      ensures View() == if ok then Delete(old(View()), name, cacheDown) else old(View())
    {
      if primaryDown { return false; }
      primary.Remove(name);
      if !cacheDown { cache.Remove(name); }
      cacheTime := cacheTime - {name};
      return true;
    }

    method InvalidateAll()
      modifies this`cacheTime
      ensures View() == old(View()).(cacheTime := map[])
    {
      cacheTime := map[];
    }

    /** `reach` is how many entries the cache takes before it reports an error, all of them
        perhaps. With nothing to copy the cache is not called. */
    method WarmCache(now: int, primaryDown: bool, reach: Option<nat>) returns (ok: bool, ghost failed: Option<set<string>>)
      requires Valid()
      modifies this`cacheTime, cache
      ensures Valid() && ok == (!primaryDown && (reach.None? || primary.scores == map[]))
      ensures View() == if primaryDown then old(View()) else Warm(old(View()), now, failed)
      ensures !primaryDown ==> failed.None? == ok
      ensures !primaryDown && !ok ==>
                && failed.value <= primary.scores.Keys
                && |failed.value| == if reach.value < |primary.scores| then reach.value else |primary.scores|
    {
      if primaryDown { return false, None; }
      var ds := primary.GetAll();
      DistinctCount(ds);
      WarmNothing(View(), now);
      hide *;
      if |ds| == 0 { return true, None; }
      ghost var n := if reach.Some? && reach.value < |ds| then reach.value else |ds|;
      PartNames(ds, n);
      ok := CopyAll(ds, now, reach);
      failed := if ok then None else Some(NamesOf(ds[..n]));
    }

    method CopyAll(ds: seq<ScoreData>, now: int, reach: Option<nat>) returns (ok: bool)
      requires Valid() && Entries(primary.scores, ds) && NamesOf(ds) == primary.scores.Keys
      modifies this`cacheTime, cache
      ensures Valid() && ok == reach.None?
      ensures ok ==> View() == Warm(old(View()), now, None)
      ensures !ok ==>
                var n := if reach.value < |ds| then reach.value else |ds|;
                View() == Warm(old(View()), now, Some(NamesOf(ds[..n])))
    {
      hide PutAll, NamesOf, Only, Marks, Keyed;
      if reach.Some? {
        var n := if reach.value < |ds| then reach.value else |ds|;
        PutAllEntries(old(cache.scores), primary.scores, ds[..n]);
        cache.SetMany(ds[..n]);
        return false;
      }
      LoadedAll(old(cache.scores), primary.scores, ds);
      cache.SetMany(ds);
      MarkEach(ds, now);
      return true;
    }
  }

  lemma WarmNothing(s: Hybrid, now: int)
    ensures s.primary == map[] ==> Warm(s, now, None) == s
    ensures |s.primary.Keys| == |s.primary| && (|s.primary| == 0 ==> s.primary == map[])
  {
  }

  lemma OneKept(d: ScoreData)
    ensures Kept([d], {}) == [d] && Kept([d], {d.name}) == []
    ensures forall m :: PutAll(m, []) == m
  {
    assert [d][..0] == [];
  }

  lemma {:induction false} DistinctCount(ds: seq<ScoreData>)
    requires Distinct(ds)
    ensures |NamesOf(ds)| == |ds|
  {
    if ds != [] {
      var k := |ds| - 1;
      DistinctCount(ds[..k]);
      NamesSnoc(ds, k);
      assert ds[..k + 1] == ds;
    }
  }

  lemma LoadedAll(c: Scores, m: Scores, ds: seq<ScoreData>)
    requires Entries(m, ds) && NamesOf(ds) == m.Keys
    ensures PutAll(c, ds) == c + m
  {
    hide PutAll, NamesOf;
    PutAllEntries(c, m, ds);
    assert Only(m, m.Keys) == m;
  }

  lemma PartNames(ds: seq<ScoreData>, n: nat)
    requires n <= |ds| && Distinct(ds)
    ensures NamesOf(ds[..n]) <= NamesOf(ds) && |NamesOf(ds[..n])| == n
  {
    DistinctCount(ds[..n]);
    forall x | x in NamesOf(ds[..n]) ensures x in NamesOf(ds) {
      var i :| 0 <= i < n && ds[..n][i].name == x;
      assert ds[i].name == x;
    }
  }

  lemma OneName(m: Scores, d: ScoreData)
    ensures PutAll(m, [d]) == Put(m, d) && NamesOf([d]) == {d.name} && (Keyed(m) ==> Keyed(Put(m, d)))
  {
    assert [d][..0] == [];
    assert [d][0].name in NamesOf([d]);
  }
}
