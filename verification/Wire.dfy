/** Turning a batch of events into wire envelopes, one fresh id each. */
module Wire {
  import opened Arithmetic
  import opened Common
  import opened TransportProtocol
  import opened EventIds

  datatype Labels = Labels(chain: string, network: string)

  datatype Payload =
    | Req(provider: string, operation: string, labels: Labels, ok: bool, durMS: int, attempts: int, err: string)
    | Score(kind: string, provider: string, details: ScoreDetails, rtMS: int)

  datatype Envelope = Envelope(id: string, t: int, payload: Payload)

  /** A clock reading, with the ten bytes the random source would deliver. */
  datatype RawDraw = RawDraw(ms: nat, bytes: seq<Byte>)
  type Draw = d: RawDraw | |d.bytes| == 10 witness RawDraw(0, [0, 0, 0, 0, 0, 0, 0, 0, 0, 0])

  function AsReading(d: Draw): (r: Reading)
    ensures d.ms < 0x1_0000_0000_0000 ==> InRange(r)
  {
    PowFacts();
    ValueBelow(256, d.bytes);
    Reading(d.ms, Value(256, d.bytes))
  }

  function Readings(ds: seq<Draw>): (rs: seq<Reading>)
    ensures |rs| == |ds| && forall i :: 0 <= i < |rs| ==> rs[i] == AsReading(ds[i])
  {
    seq(|ds|, i requires 0 <= i < |ds| => AsReading(ds[i]))
  }

  /** Two's-complement conversion to `span` values, as int16() and int32() do. */
  function Wrap(x: int, span: nat): int
    requires span > 0 && span % 2 == 0
  {
    (x + span / 2) % span - span / 2
  }

  /** Whole milliseconds of a duration, rounded toward zero. */
  function Milliseconds(ns: int): int {
    Quot(ns, 1_000_000)
  }

  /** An event with neither part is skipped; a request part wins over a score part. */
  function PayloadOf(e: Event, labels: Labels): Option<Payload> {
    if e.request.Some? then
      var r := e.request.value;
      Some(Req(r.provider, r.operation, labels, r.success, Wrap(Milliseconds(r.durationNs), 0x1_0000_0000),
               Wrap(r.attemptCount, 0x1_0000), r.errorClass))
    else if e.score.Some? then
      var s := e.score.value;
      Some(Score(s.kind, s.provider, s.details,
                 if s.latencyNs > 0 then Wrap(Milliseconds(s.latencyNs), 0x1_0000_0000) else 0))
    else None
  }

  /** Conversion to a narrower integer keeps the value where it fits and its remainder always. */
  lemma WrapMeaning(x: int, span: nat)
    requires span > 0 && span % 2 == 0
    ensures -(span / 2) <= Wrap(x, span) < span - span / 2
    ensures -(span / 2) <= x < span / 2 ==> Wrap(x, span) == x
    ensures exists k :: Wrap(x, span) == x + k * span
  {
    var y := x + span / 2;
    DivMod(y, span);
    assert Wrap(x, span) == x + (-(y / span)) * span;
    if -(span / 2) <= x < span / 2 { DivUnique(y, 0, y, span); }
  }

  /** Which event fields end up where: durations in whole milliseconds rounded toward zero, counts
      as they are, as far as they fit their width; a score event without latency reports none. */
  lemma PayloadMeaning(e: Event, labels: Labels)
    ensures PayloadOf(e, labels).None? <==> e.request.None? && e.score.None?
    ensures e.request.Some? ==>
              var r, p := e.request.value, PayloadOf(e, labels).value;
              && p.Req? && p.provider == r.provider && p.operation == r.operation && p.labels == labels
              && p.ok == r.success && p.err == r.errorClass
              && (-0x8000 <= r.attemptCount < 0x8000 ==> p.attempts == r.attemptCount)
              && (0 <= r.durationNs < 0x8000_0000 * 1_000_000 ==>
                    p.durMS * 1_000_000 <= r.durationNs < (p.durMS + 1) * 1_000_000)
    ensures e.request.None? && e.score.Some? ==>
              var s, p := e.score.value, PayloadOf(e, labels).value;
              && p.Score? && p.kind == s.kind && p.provider == s.provider && p.details == s.details
              && (s.latencyNs <= 0 ==> p.rtMS == 0)
              && (0 < s.latencyNs < 0x8000_0000 * 1_000_000 ==>
                    p.rtMS * 1_000_000 <= s.latencyNs < (p.rtMS + 1) * 1_000_000)
  {
    if e.request.Some? {
      WrapMeaning(e.request.value.attemptCount, 0x1_0000);
      WrapMeaning(Milliseconds(e.request.value.durationNs), 0x1_0000_0000);
    } else if e.score.Some? {
      WrapMeaning(Milliseconds(e.score.value.latencyNs), 0x1_0000_0000);
    }
  }

  /** The carried events are the batch read at exactly the positions that have a payload. */
  lemma {:induction false} CarriedPicks(es: seq<Event>, labels: Labels) returns (idx: seq<nat>)
    ensures Embeds(Carried(es), es, idx)
    ensures forall i: nat :: i in idx <==> i < |es| && PayloadOf(es[i], labels).Some?
  {
    if es == [] {
      idx := [];
    } else {
      var k := |es| - 1;
      idx := CarriedPicks(es[..k], labels);
      assert es == es[..k] + [es[k]];
      EmbedsKeep(Carried(es[..k]), es[..k], idx, es[k]);
      if PayloadOf(es[k], labels).Some? { idx := idx + [k]; }
    }
  }

  /** The events that get an envelope, in order. */
  function Carried(es: seq<Event>): (kept: seq<Event>)
    ensures |kept| <= |es|
    ensures forall k :: 0 <= k < |kept| ==> kept[k].request.Some? || kept[k].score.Some?
  {
    if es == [] then []
    else
      var init, last := Carried(es[..|es| - 1]), es[|es| - 1];
      if last.request.Some? || last.score.Some? then init + [last] else init
  }

  /** `batch` has one envelope per carried event, in order, stamped with the ids of `gens`. */
  predicate Stamps(batch: seq<Envelope>, es: seq<Event>, labels: Labels, gens: seq<Generator>) {
    var kept := Carried(es);
    && |batch| == |kept| == |gens|
    && forall k :: 0 <= k < |batch| ==>
         && batch[k].t == kept[k].capturedAt
         && Some(batch[k].payload) == PayloadOf(kept[k], labels)
         && batch[k].id == TextOf(gens[k])
  }

  method MintOne(gen: IdGenerator, d: Draw) returns (id: string)
    requires gen.Valid()
    modifies gen, gen.lastEntropy
    ensures gen.Valid() && gen.View() == Next(old(gen.View()), AsReading(d))
    ensures id == TextOf(gen.View())
  {
    id := gen.NewEventID(d.ms, d.bytes);
  }

  /** Mints the batch id, then one id per envelope, reading the clock each time. */
  method BuildBatch(es: seq<Event>, labels: Labels, gen: IdGenerator, draws: seq<Draw>)
    returns (batchID: string, batch: seq<Envelope>)
    requires gen.Valid() && |draws| == |es| + 1
    modifies gen, gen.lastEntropy
    ensures gen.Valid()
    ensures var g := Next(old(gen.View()), Readings(draws)[0]);
            && batchID == TextOf(g)
            && |batch| <= |es| && Stamps(batch, es, labels, Mint(g, Readings(draws)[1..1 + |batch|]))
  {
    hide Stamps, Mint, Next, TextOf, PayloadOf, AsReading, IdGenerator.View;
    ghost var rs := Readings(draws)[1..];
    batchID := MintOne(gen, draws[0]);
    ghost var g := gen.View();
    batch := [];
    StampsNone(es, labels, g, rs);
    for i := 0 to |es|
      invariant gen.Valid() && |batch| <= i
      invariant gen.View() == Last(g, Mint(g, rs[..|batch|]))
      invariant Stamps(batch, es[..i], labels, Mint(g, rs[..|batch|]))
    {
      var p := PayloadOf(es[i], labels);
      ghost var gens := Mint(g, rs[..|batch|]);
      if p.Some? {
        var n := |batch|;
        TakeSnoc(rs, n);
        MintSnoc(g, rs[..n], rs[n]);
        var id := MintOne(gen, draws[n + 1]);
        StampsSnoc(batch, es, i, labels, gens, Envelope(id, es[i].capturedAt, p.value), gen.View());
        batch := batch + [Envelope(id, es[i].capturedAt, p.value)];
      } else {
        StampsSkip(batch, es, i, labels, gens);
      }
    }
    assert es[..|es|] == es;
    assert Readings(draws)[1..1 + |batch|] == rs[..|batch|];
  }

  lemma StampsNone(es: seq<Event>, labels: Labels, g: Generator, rs: seq<Reading>)
    ensures Stamps([], es[..0], labels, Mint(g, rs[..0])) && Last(g, Mint(g, rs[..0])) == g
  {
  }

  lemma StampsSnoc(batch: seq<Envelope>, es: seq<Event>, i: nat, labels: Labels, gens: seq<Generator>,
                   env: Envelope, g: Generator)
    requires i < |es| && Stamps(batch, es[..i], labels, gens)
    requires PayloadOf(es[i], labels) == Some(env.payload) && env.t == es[i].capturedAt && env.id == TextOf(g)
    ensures Stamps(batch + [env], es[..i + 1], labels, gens + [g])
  {
    TakeSnoc(es, i);
    assert Carried(es[..i + 1]) == Carried(es[..i]) + [es[i]];
  }

  lemma StampsSkip(batch: seq<Envelope>, es: seq<Event>, i: nat, labels: Labels, gens: seq<Generator>)
    requires i < |es| && Stamps(batch, es[..i], labels, gens) && PayloadOf(es[i], labels).None?
    ensures Stamps(batch, es[..i + 1], labels, gens)
  {
    TakeSnoc(es, i);
  }

  /** On a steady clock the ids inside a batch increase in event order, and all of them
      are above the batch id minted just before. */
  lemma BatchIdsIncrease(batch: seq<Envelope>, es: seq<Event>, labels: Labels, g: Generator, rs: seq<Reading>)
    requires Stamps(batch, es, labels, Mint(g, rs)) && Fits(g) && Steady(g, rs)
    ensures forall i, j :: 0 <= i < j < |batch| ==> StringLess(batch[i].id, batch[j].id)
    ensures forall j :: 0 <= j < |batch| ==> StringLess(TextOf(g), batch[j].id)
  {
    hide TextOf, IdOf, StringLess, Number;
    var gens := Mint(g, rs);
    NumbersGrow(g, rs);
    LayoutIsId(g);
    forall j | 0 <= j < |batch| ensures batch[j].id == IdOf(gens[j]) { LayoutIsId(gens[j]); }
    forall i, j | 0 <= i < j < |batch| ensures StringLess(batch[i].id, batch[j].id) {
      IdOrder(gens[i], gens[j]);
    }
    forall j | 0 <= j < |batch| ensures StringLess(TextOf(g), batch[j].id) {
      IdOrder(g, gens[j]);
    }
  }
}
