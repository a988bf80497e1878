/** Event ids: a 48-bit millisecond timestamp and an 80-bit counter, base32-encoded
    (section 6 of RFC 4648) with an ascending alphabet. Ids compare as strings; the proofs
    show that the comparison is the comparison of the 128-bit numbers behind them. */
module EventIds {
  import opened Arithmetic

  type Byte = b: nat | b < 256

  const Alphabet := "0123456789ABCDEFGHJKMNPQRSTVWXYZ"

  // ---- big-endian numbers ----

  function Pow(base: nat, n: nat): nat {
    if n == 0 then 1 else base * Pow(base, n - 1)
  }

  predicate Digits(base: nat, ds: seq<nat>) {
    forall i :: 0 <= i < |ds| ==> ds[i] < base
  }

  function Value(base: nat, ds: seq<nat>): nat {
    if ds == [] then 0 else Value(base, ds[..|ds| - 1]) * base + ds[|ds| - 1]
  }

  /** The `n` low digits of `v`, most significant first. */
  function Encode(base: nat, n: nat, v: nat): (ds: seq<nat>)
    requires base > 0
    ensures |ds| == n && Digits(base, ds)
  {
    if n == 0 then [] else Encode(base, n - 1, v / base) + [v % base]
  }

  /** A smaller leading part wins whatever the last digits are. */
  lemma LeadingWins(x: nat, y: nat, c: nat, d: nat, e: nat)
    requires x < y && d < c
    ensures x * c + d < y * c + e
  {
    MulMono(x + 1, y, c);
    assert (x + 1) * c == x * c + c;
  }

  lemma ShiftIn(x: nat, p: nat, y: nat, base: nat, d: nat)
    ensures (x * p + y) * base + d == x * (base * p) + (y * base + d)
  {
    assert (x * p + y) * base == x * p * base + y * base;
    assert x * p * base == x * (base * p);
  }

  lemma {:induction false} EncodeValue(base: nat, n: nat, v: nat)
    requires base > 0 && v < Pow(base, n)
    ensures Value(base, Encode(base, n, v)) == v
  {
    if n > 0 {
      DivBelow(v, base, Pow(base, n - 1));
      EncodeValue(base, n - 1, v / base);
      var ds := Encode(base, n, v);
      assert ds[..n - 1] == Encode(base, n - 1, v / base);
      DivMod(v, base);
    }
  }

  lemma DivBelow(v: nat, base: nat, p: nat)
    requires base > 0 && v < base * p
    ensures v / base < p
  {
    DivMod(v, base);
    var q := v / base;
    if p <= q { MulMono(p, q, base); }
  }

  lemma {:induction false} ValueBelow(base: nat, ds: seq<nat>)
    requires Digits(base, ds)
    ensures Value(base, ds) < Pow(base, |ds|)
  {
    if ds != [] {
      var init := ds[..|ds| - 1];
      ValueBelow(base, init);
      LeadingWins(Value(base, init), Pow(base, |init|), base, ds[|ds| - 1], 0);
    }
  }

  lemma {:induction false} ValueConcat(base: nat, a: seq<nat>, b: seq<nat>)
    ensures Value(base, a + b) == Value(base, a) * Pow(base, |b|) + Value(base, b)
  {
    if b == [] {
      assert a + b == a;
    } else {
      var init := b[..|b| - 1];
      ValueConcat(base, a, init);
      assert (a + b)[..|a + b| - 1] == a + init;
      ShiftIn(Value(base, a), Pow(base, |init|), Value(base, init), base, b[|b| - 1]);
    }
  }

  /** Digits are determined by their number. */
  lemma {:induction false} DigitsUnique(base: nat, ds: seq<nat>)
    requires base > 0 && Digits(base, ds)
    ensures Encode(base, |ds|, Value(base, ds)) == ds
  {
    ValueBelow(base, ds);
    EncodeValue(base, |ds|, Value(base, ds));
    LexIsNumeric(base, Encode(base, |ds|, Value(base, ds)), ds);
  }

  lemma {:induction false} ValueConcatBy(base: nat, a: seq<nat>, b: seq<nat>, p: nat)
    requires Pow(base, |b|) == p
    ensures Value(base, a + b) == Value(base, a) * p + Value(base, b)
  {
    ValueConcat(base, a, b);
  }

  // ---- string order ----

  /** Strict lexicographic order on sequences of the same length. */
  predicate LexLess(a: seq<nat>, b: seq<nat>)
    requires |a| == |b|
  {
    a != [] && (LexLess(a[..|a| - 1], b[..|b| - 1])
                || (a[..|a| - 1] == b[..|b| - 1] && a[|a| - 1] < b[|b| - 1]))
  }

  /** The same order on strings, by the first character that differs. */
  ghost predicate StringLess(a: string, b: string) {
    exists k :: 0 <= k < |a| && k < |b| && a[..k] == b[..k] && a[k] < b[k]
  }

  lemma {:induction false} LexIsNumeric(base: nat, a: seq<nat>, b: seq<nat>)
    requires |a| == |b| && Digits(base, a) && Digits(base, b)
    ensures LexLess(a, b) <==> Value(base, a) < Value(base, b)
    ensures a == b <==> Value(base, a) == Value(base, b)
  {
    if a != [] {
      var n := |a| - 1;
      LexIsNumeric(base, a[..n], b[..n]);
      assert a == a[..n] + [a[n]] && b == b[..n] + [b[n]];
      var x, y := Value(base, a[..n]), Value(base, b[..n]);
      if x < y { LeadingWins(x, y, base, a[n], b[n]); }
      if y < x { LeadingWins(y, x, base, b[n], a[n]); }
    }
  }

  function ToText(ds: seq<nat>): (s: string)
    requires Digits(32, ds)
    ensures |s| == |ds|
  {
    seq(|ds|, i requires 0 <= i < |ds| => Alphabet[ds[i]])
  }

  lemma AlphabetAscends()
    ensures |Alphabet| == 32
    ensures forall i, j :: 0 <= i < j < 32 ==> Alphabet[i] < Alphabet[j]
  {
    assert forall i :: 0 <= i < 31 ==> Alphabet[i] < Alphabet[i + 1];
    forall i, j | 0 <= i < j < 32 ensures Alphabet[i] < Alphabet[j] { Ascends(i, j); }
  }

  lemma {:induction false} Ascends(i: nat, j: nat)
    requires i < j < 32 && forall i :: 0 <= i < 31 ==> Alphabet[i] < Alphabet[i + 1]
    ensures Alphabet[i] < Alphabet[j]
  {
    if i + 1 < j { Ascends(i, j - 1); }
  }

  lemma {:induction false} LexFirstDifference(a: seq<nat>, b: seq<nat>) returns (k: nat)
    requires |a| == |b| && LexLess(a, b)
    ensures k < |a| && a[..k] == b[..k] && a[k] < b[k]
  {
    var n := |a| - 1;
    if LexLess(a[..n], b[..n]) {
      k := LexFirstDifference(a[..n], b[..n]);
      assert a[..k] == a[..n][..k] && b[..k] == b[..n][..k];
    } else {
      k := n;
    }
  }

  lemma {:induction false} TextOrder(a: seq<nat>, b: seq<nat>)
    requires |a| == |b| && Digits(32, a) && Digits(32, b) && Value(32, a) < Value(32, b)
    ensures StringLess(ToText(a), ToText(b))
  {
    LexIsNumeric(32, a, b);
    AlphabetAscends();
    var k := LexFirstDifference(a, b);
    var s, t := ToText(a), ToText(b);
    forall i | 0 <= i < k ensures s[i] == t[i] { assert a[i] == a[..k][i] == b[..k][i] == b[i]; }
    assert s[..k] == t[..k];
  }

  // ---- the encoding of 16 raw bytes ----

  /** Three groups of five bytes become eight digits each; the last byte becomes two. */
  function EncodeRaw(raw: seq<nat>): (ds: seq<nat>)
    requires |raw| == 16 && Digits(256, raw)
    ensures |ds| == 26 && Digits(32, ds)
  {
    Encode(32, 8, Value(256, raw[..5])) + Encode(32, 8, Value(256, raw[5..10]))
    + Encode(32, 8, Value(256, raw[10..15])) + [raw[15] / 8, raw[15] % 8 * 4]
  }

  lemma GroupValue(group: seq<nat>)
    requires |group| == 5 && Digits(256, group)
    ensures Value(32, Encode(32, 8, Value(256, group))) == Value(256, group)
  {
    ValueBelow(256, group);
    PowFacts();
    EncodeValue(32, 8, Value(256, group));
  }

  lemma PowFacts()
    ensures Pow(256, 1) == 256 && Pow(256, 5) == Pow(32, 8) == 0x100_0000_0000
    ensures Pow(256, 6) == 0x1_0000_0000_0000 && Pow(256, 10) == 0x1_0000_0000_0000_0000_0000
    ensures Pow(32, 2) == 1024 && Pow(32, 26) == 0x4_0000_0000_0000_0000_0000_0000_0000_0000
  {
    assert Pow(256, 1) == 256 && Pow(256, 2) == 0x1_0000 && Pow(256, 3) == 0x100_0000;
    assert Pow(256, 4) == 0x1_0000_0000 && Pow(256, 5) == 0x100_0000_0000;
    assert Pow(256, 7) == 0x100_0000_0000_0000 && Pow(256, 8) == 0x1_0000_0000_0000_0000;
    assert Pow(256, 9) == 0x100_0000_0000_0000_0000;
    assert Pow(32, 1) == 32 && Pow(32, 2) == 1024 && Pow(32, 4) == 0x10_0000 && Pow(32, 6) == 0x4000_0000;
    assert Pow(32, 8) == 0x100_0000_0000 && Pow(32, 10) == 1024 * Pow(32, 8) && Pow(32, 12) == 1024 * Pow(32, 10);
    assert Pow(32, 14) == 1024 * Pow(32, 12) && Pow(32, 16) == 1024 * Pow(32, 14) && Pow(32, 18) == 1024 * Pow(32, 16);
    assert Pow(32, 20) == 1024 * Pow(32, 18) && Pow(32, 22) == 1024 * Pow(32, 20) && Pow(32, 24) == 1024 * Pow(32, 22);
    assert Pow(32, 26) == 1024 * Pow(32, 24);
  }

  /** The 130-bit number spelled by an id is four times the 128-bit number it encodes. */
  lemma EncodeRawValue(raw: seq<nat>)
    requires |raw| == 16 && Digits(256, raw)
    ensures Value(32, EncodeRaw(raw)) == 4 * Value(256, raw)
  {
    PowFacts();
    Parts(raw);
    var a, b, c, d := raw[..5], raw[5..10], raw[10..15], raw[15];
    var x, y, z := Encode(32, 8, Value(256, a)), Encode(32, 8, Value(256, b)), Encode(32, 8, Value(256, c));
    assert EncodeRaw(raw) == x + y + z + [d / 8, d % 8 * 4];
    hide *;
    GroupsAgree(a, b, c);
    LastByte(d);
    ValueConcatBy(256, a + b + c, [d], 256);
    ValueConcatBy(32, x + y + z, [d / 8, d % 8 * 4], 1024);
  }

  lemma Parts(raw: seq<nat>)
    requires |raw| == 16 && Digits(256, raw)
    ensures raw == raw[..5] + raw[5..10] + raw[10..15] + [raw[15]]
    ensures Digits(256, raw[..5]) && Digits(256, raw[5..10]) && Digits(256, raw[10..15])
    ensures raw[15] < 256
  {
  }

  lemma {:induction false} GroupsAgree(a: seq<nat>, b: seq<nat>, c: seq<nat>)
    requires |a| == |b| == |c| == 5 && Digits(256, a) && Digits(256, b) && Digits(256, c)
    ensures Value(32, Encode(32, 8, Value(256, a)) + Encode(32, 8, Value(256, b)) + Encode(32, 8, Value(256, c))) ==
            Value(256, a + b + c)
  {
    PowFacts();
    hide Pow, Value, Encode;
    var x, y, z := Encode(32, 8, Value(256, a)), Encode(32, 8, Value(256, b)), Encode(32, 8, Value(256, c));
    ValueConcatBy(256, a, b, 0x100_0000_0000);
    ValueConcatBy(256, a + b, c, 0x100_0000_0000);
    ValueConcatBy(32, x, y, 0x100_0000_0000);
    ValueConcatBy(32, x + y, z, 0x100_0000_0000);
    GroupValue(a);
    GroupValue(b);
    GroupValue(c);
  }

  lemma LastByte(b: nat)
    requires b < 256
    ensures Value(32, [b / 8, b % 8 * 4]) == 4 * b && Value(256, [b]) == b
  {
    var w := [b / 8, b % 8 * 4];
    assert w[..1] == [b / 8] && w[..1][..0] == [] && [b][..0] == [];
    assert Value(32, w[..1]) == b / 8;
    assert b == b / 8 * 8 + b % 8;
  }

  // ---- the generator ----

  const MaxEntropy: nat := 0xFFFF_FFFF_FFFF_FFFF_FFFF

  datatype Generator = Generator(lastMS: nat, entropy: nat)

  /** A clock reading with the ten random bytes drawn if the millisecond is new. */
  datatype Reading = Reading(ms: nat, drawn: nat)

  predicate InRange(r: Reading) {
    r.ms < 0x1_0000_0000_0000 && r.drawn < 0x1_0000_0000_0000_0000_0000
  }

  function Next(g: Generator, r: Reading): Generator {
    if r.ms == g.lastMS then g.(entropy := if g.entropy == MaxEntropy then 0 else g.entropy + 1)
    else Generator(r.ms, r.drawn)
  }

  /** The 128-bit number an id stands for. */
  function Number(g: Generator): nat {
    g.lastMS * 0x1_0000_0000_0000_0000_0000 + g.entropy
  }

  /** The timestamp fits its 48 bits, the counter its 80. */
  predicate Fits(g: Generator) {
    g.lastMS < 0x1_0000_0000_0000 && g.entropy < 0x1_0000_0000_0000_0000_0000
  }

  /** The id as a reference definition: the number, two zero bits, 26 base32 digits. */
  function IdOf(g: Generator): (id: string)
    ensures |id| == 26
  {
    ToText(Encode(32, 26, 4 * Number(g)))
  }

  /** The sixteen bytes as laid out; a later timestamp loses its high bits. */
  function RawBytes(g: Generator): (raw: seq<nat>)
    ensures |raw| == 16 && Digits(256, raw)
  {
    Encode(256, 6, g.lastMS) + Encode(256, 10, g.entropy)
  }

  /** The text the code produces, for any timestamp. */
  function TextOf(g: Generator): (id: string)
    ensures |id| == 26
  {
    ToText(EncodeRaw(RawBytes(g)))
  }

  lemma RawNumber(g: Generator)
    requires Fits(g)
    ensures Value(256, RawBytes(g)) == Number(g)
  {
    PowFacts();
    EncodeValue(256, 6, g.lastMS);
    EncodeValue(256, 10, g.entropy);
    ValueConcatBy(256, Encode(256, 6, g.lastMS), Encode(256, 10, g.entropy), 0x1_0000_0000_0000_0000_0000);
  }

  /** Grouping the bytes by fives spells the reference id. */
  lemma LayoutIsId(g: Generator)
    requires Fits(g)
    ensures TextOf(g) == IdOf(g)
  {
    RawNumber(g);
    EncodeRawValue(RawBytes(g));
    DigitsUnique(32, EncodeRaw(RawBytes(g)));
  }

  /** Ids compare as strings exactly as their numbers do. */
  lemma IdOrder(g: Generator, h: Generator)
    requires Fits(g) && Fits(h)
    ensures StringLess(IdOf(g), IdOf(h)) <==> Number(g) < Number(h)
    ensures IdOf(g) == IdOf(h) <==> Number(g) == Number(h)
  {
    var a, b := Encode(32, 26, 4 * Number(g)), Encode(32, 26, 4 * Number(h));
    PowFacts();
    EncodeValue(32, 26, 4 * Number(g));
    EncodeValue(32, 26, 4 * Number(h));
    if Number(g) < Number(h) { TextOrder(a, b); NotBothLess(ToText(a), ToText(b)); }
    if Number(h) < Number(g) { TextOrder(b, a); NotBothLess(ToText(b), ToText(a)); }
  }

  lemma NotBothLess(s: string, t: string)
    requires StringLess(s, t)
    ensures !StringLess(t, s) && s != t
  {
    var k :| 0 <= k < |s| && k < |t| && s[..k] == t[..k] && s[k] < t[k];
    forall j | 0 <= j < |t| && j < |s| && t[j] < s[j] ensures t[..j] != s[..j] {
      if k < j { assert s[..j][k] != t[..j][k]; }
    }
  }

  /** One call: the new id is above the previous one exactly when the clock moved forward,
      or stood still with the counter not at its last value. */
  lemma NextIdGreater(g: Generator, r: Reading)
    requires Fits(g) && InRange(r)
    ensures StringLess(IdOf(g), IdOf(Next(g, r))) <==>
            g.lastMS < r.ms || (g.lastMS == r.ms && g.entropy < MaxEntropy)
  {
    IdOrder(g, Next(g, r));
  }

  /** An id carries its millisecond and, in a new millisecond, the bytes drawn; within one it
      carries the previous number plus one. Different contents give different ids. */
  lemma NextMeaning(g: Generator, r: Reading, h: Generator)
    ensures Next(g, r).lastMS == r.ms
    ensures r.ms != g.lastMS ==> Next(g, r).entropy == r.drawn
    ensures r.ms == g.lastMS && g.entropy < MaxEntropy ==> Number(Next(g, r)) == Number(g) + 1
    ensures Fits(g) && Fits(h) ==> (IdOf(g) == IdOf(h) <==> g == h)
  {
    if Fits(g) && Fits(h) {
      IdOrder(g, h);
      if IdOf(g) == IdOf(h) { NumberParts(g, h); }
    }
  }

  lemma NumberParts(g: Generator, h: Generator)
    requires Fits(g) && Fits(h) && Number(g) == Number(h)
    ensures g == h
  {
    DivUnique(Number(g), g.lastMS, g.entropy, 0x1_0000_0000_0000_0000_0000);
    DivUnique(Number(h), h.lastMS, h.entropy, 0x1_0000_0000_0000_0000_0000);
  }

  /** The generator after each of a series of calls. */
  function Mint(g: Generator, rs: seq<Reading>): (gens: seq<Generator>)
    ensures |gens| == |rs|
    decreases |rs|
  {
    if rs == [] then [] else [Next(g, rs[0])] + Mint(Next(g, rs[0]), rs[1..])
  }

  function Last(g: Generator, gens: seq<Generator>): Generator {
    if gens == [] then g else gens[|gens| - 1]
  }

  lemma {:induction false} MintSnoc(g: Generator, rs: seq<Reading>, r: Reading)
    ensures Mint(g, rs + [r]) == Mint(g, rs) + [Next(Last(g, Mint(g, rs)), r)]
    decreases |rs|
  {
    if rs == [] {
      assert Mint(Next(g, r), []) == [];
    } else {
      MintSnoc(Next(g, rs[0]), rs[1..], r);
      assert (rs + [r])[1..] == rs[1..] + [r];
    }
  }

  /** Readings of a clock that never goes back, inside the 48-bit range, on which the
      80-bit counter never wraps. */
  predicate Steady(g: Generator, rs: seq<Reading>)
    decreases |rs|
  {
    rs == []
    || (&& InRange(rs[0]) && g.lastMS <= rs[0].ms
        && (g.lastMS == rs[0].ms ==> g.entropy < MaxEntropy)
        && Steady(Next(g, rs[0]), rs[1..]))
  }

  lemma {:induction false} NumbersGrow(g: Generator, rs: seq<Reading>)
    requires Fits(g) && Steady(g, rs)
    ensures forall k :: 0 <= k < |rs| ==> Fits(Mint(g, rs)[k]) && Number(g) < Number(Mint(g, rs)[k])
    ensures forall i, j :: 0 <= i < j < |rs| ==> Number(Mint(g, rs)[i]) < Number(Mint(g, rs)[j])
    decreases |rs|
  {
    if rs != [] {
      var h := Next(g, rs[0]);
      NumbersGrow(h, rs[1..]);
      var gens, rest := Mint(g, rs), Mint(h, rs[1..]);
      assert gens[0] == h && forall k :: 0 < k < |rs| ==> gens[k] == rest[k - 1];
      assert Number(g) < Number(h);
    }
  }

  /** Over any such run every later id is strictly above every earlier one. */
  lemma {:induction false} IdsStrictlyIncrease(g: Generator, rs: seq<Reading>, i: nat, j: nat)
    requires Fits(g) && Steady(g, rs) && i < j < |rs|
    ensures StringLess(IdOf(Mint(g, rs)[i]), IdOf(Mint(g, rs)[j])) && StringLess(IdOf(g), IdOf(Mint(g, rs)[j]))
  {
    NumbersGrow(g, rs);
    IdOrder(Mint(g, rs)[i], Mint(g, rs)[j]);
    IdOrder(g, Mint(g, rs)[j]);
  }

  // ---- the mutable generator ----

  class IdGenerator {
    var lastMS: nat
    const lastEntropy: array<Byte>

    ghost predicate Valid()
      reads this
    {
      lastEntropy.Length == 10
    }

    ghost function View(): Generator
      requires Valid()
      reads this, lastEntropy
    {
      Generator(lastMS, Value(256, lastEntropy[..]))
    }

    constructor ()
      ensures Valid() && fresh(lastEntropy) && View() == Generator(0, 0)
    {
      lastMS := 0;
      lastEntropy := new Byte[10](_ => 0);
      new;
      ZeroValue(lastEntropy[..]);
    }

    /** The carry loop adds one to the ten bytes read as a big-endian number. */
    method IncrementEntropy()
      requires Valid()
      modifies lastEntropy
      ensures View() == Next(old(View()), Reading(old(lastMS), 0))
    {
      ghost var before := lastEntropy[..];
      var i := 9;
      while i >= 0
        invariant -1 <= i <= 9
        invariant lastEntropy[..i + 1] == before[..i + 1]
        invariant forall k :: i < k < 10 ==> before[k] == 255 && lastEntropy[k] == 0
        decreases i
      {
        var b: nat := lastEntropy[i];
        lastEntropy[i] := (b + 1) % 256;
        if lastEntropy[i] != 0 { break; }
        i := i - 1;
      }
      if i >= 0 {
        CarryValue(before, lastEntropy[..], i);
        PowFacts();
        ValueBelow(256, lastEntropy[..]);
      } else {
        WrapValue(before, lastEntropy[..]);
      }
    }

    /** `ms` is the clock; `entropy` is what the random source would fill in. */
    method NewEventID(ms: nat, entropy: seq<Byte>) returns (id: string)
      requires Valid() && |entropy| == 10
      modifies this, lastEntropy
      ensures Valid() && View() == Next(old(View()), Reading(ms, Value(256, entropy)))
      ensures id == TextOf(View())
      ensures Fits(View()) ==> id == IdOf(View())
    {
      if ms == lastMS {
        IncrementEntropy();
      } else {
        forall i | 0 <= i < 10 { lastEntropy[i] := entropy[i]; }
        assert lastEntropy[..] == entropy;
        lastMS := ms;
      }
      var stamp: seq<nat> := [ms / 0x100_0000_0000 % 256, ms / 0x1_0000_0000 % 256, ms / 0x100_0000 % 256,
                              ms / 0x1_0000 % 256, ms / 0x100 % 256, ms % 256];
      var raw: seq<nat> := stamp + lastEntropy[..];
      StampBytes(ms);
      DigitsUnique(256, lastEntropy[..]);
      if Fits(View()) { LayoutIsId(View()); }
      id := ToText(EncodeRaw(raw));
    }
  }

  lemma {:induction false} ZeroValue(ds: seq<nat>)
    requires forall i :: 0 <= i < |ds| ==> ds[i] == 0
    ensures Value(256, ds) == 0
  {
    if ds != [] { ZeroValue(ds[..|ds| - 1]); }
  }

  /** Trailing 255s turned to 0, and one more on the byte before them. */
  lemma {:induction false} CarryValue(before: seq<nat>, after: seq<nat>, i: nat)
    requires |before| == |after| && i < |before|
    requires before[..i] == after[..i] && after[i] == before[i] + 1
    requires forall k :: i < k < |before| ==> before[k] == 255 && after[k] == 0
    ensures Value(256, after) == Value(256, before) + 1
  {
    var n := |before| - 1;
    if i < n {
      assert before[..n][..i] == before[..i] && after[..n][..i] == after[..i];
      CarryValue(before[..n], after[..n], i);
    }
  }

  /** All ten bytes were 255. */
  lemma WrapValue(before: seq<nat>, after: seq<nat>)
    requires |before| == |after| == 10
    requires forall k :: 0 <= k < 10 ==> before[k] == 255 && after[k] == 0
    ensures Value(256, before) == MaxEntropy && Value(256, after) == 0
  {
    PowFacts();
    TailCarry(before, after);
  }

  lemma {:induction false} TailCarry(before: seq<nat>, after: seq<nat>)
    requires |before| == |after|
    requires forall k :: 0 <= k < |before| ==> before[k] == 255 && after[k] == 0
    ensures Value(256, before) + 1 == Pow(256, |before|) && Value(256, after) == 0
  {
    if before != [] { TailCarry(before[..|before| - 1], after[..|after| - 1]); }
  }

  /** Shifting and truncating to bytes yields the six low base-256 digits. */
  lemma StampBytes(ms: nat)
    ensures Encode(256, 6, ms) ==
            [ms / 0x100_0000_0000 % 256, ms / 0x1_0000_0000 % 256, ms / 0x100_0000 % 256,
             ms / 0x1_0000 % 256, ms / 0x100 % 256, ms % 256]
  {
    var a, b, c, d, e := ms / 0x100, ms / 0x1_0000, ms / 0x100_0000, ms / 0x1_0000_0000, ms / 0x100_0000_0000;
    assert a / 256 == b && b / 256 == c && c / 256 == d && d / 256 == e;
    assert Encode(256, 1, e) == [e % 256] by { assert Encode(256, 0, e / 256) == []; }
    assert Encode(256, 2, d) == [e % 256, d % 256];
    assert Encode(256, 3, c) == [e % 256, d % 256, c % 256];
    assert Encode(256, 4, b) == [e % 256, d % 256, c % 256, b % 256];
    assert Encode(256, 5, a) == [e % 256, d % 256, c % 256, b % 256, a % 256];
  }
}
