/** The transport object itself: `buf` and `inflight` are windows on shared backing arrays,
    as Go slices are, and every method is proved against the two-sequence model of
    TransportProtocol. What the proofs need beyond it is that appending to `buf` never
    writes into the window still being serialised. */
module Transport {
  import opened Common
  import opened TransportProtocol

  datatype Slice = Slice(arr: array?<Event>, off: nat, len: nat, cap: nat)

  const NilSlice := Slice(null, 0, 0, 0)

  ghost predicate Fits(s: Slice) {
    s.len <= s.cap && (if s.arr == null then s.cap == 0 else s.off + s.cap <= s.arr.Length)
  }

  ghost function Elems(s: Slice): (es: seq<Event>)
    requires Fits(s)
    reads s.arr
    ensures |es| == s.len
  {
    if s.arr == null then [] else s.arr[s.off..s.off + s.len]
  }

  function From(s: Slice, lo: nat): (r: Slice)
    requires lo <= s.len <= s.cap
  {
    Slice(s.arr, s.off + lo, s.len - lo, s.cap - lo)
  }

  lemma FromElems(s: Slice, lo: nat)
    requires Fits(s) && lo <= s.len
    ensures Fits(From(s, lo)) && Elems(From(s, lo)) == Elems(s)[lo..]
  {
  }

  lemma HeadElems(s: Slice, n: nat)
    requires Fits(s) && n <= s.len
    ensures Fits(Slice(s.arr, s.off, n, n)) && Elems(Slice(s.arr, s.off, n, n)) == Elems(s)[..n]
  {
  }

  /** On a shared array, window `a` ends (capacity included) before window `b` begins. */
  ghost predicate Before(a: Slice, b: Slice) {
    a.arr == b.arr && a.arr != null ==> a.off + a.cap <= b.off
  }

  /** The built-in append: in place when there is spare capacity, else into a new array of
      some larger capacity. A window that ends before `s` begins keeps its elements. */
  method Append(s: Slice, e: Event, ghost batch: Slice) returns (r: Slice)
    requires Fits(s) && Fits(batch) && Before(batch, s)
    modifies s.arr
    ensures Fits(r) && Elems(r) == old(Elems(s)) + [e]
    ensures Before(batch, r) && Elems(batch) == old(Elems(batch))
    ensures r.arr == s.arr || fresh(r.arr)
  {
    if s.len < s.cap {
      s.arr[s.off + s.len] := e;
      r := s.(len := s.len + 1);
    } else {
      var room: nat :| room > s.len;
      var a := new Event[room];
      forall i | 0 <= i < s.len { a[i] := s.arr[s.off + i]; }
      a[s.len] := e;
      r := Slice(a, 0, s.len + 1, room);
    }
  }

  /** Copies two windows, one after the other, into a new array. */
  method Concat(a: Slice, b: Slice) returns (r: Slice)
    requires Fits(a) && Fits(b)
    ensures Fits(r) && fresh(r.arr) && Elems(r) == Elems(a) + Elems(b)
  {
    var n := a.len + b.len;
    var combined := new Event[n];
    forall i | 0 <= i < a.len { combined[i] := a.arr[a.off + i]; }
    forall i | 0 <= i < b.len { combined[a.len + i] := b.arr[b.off + i]; }
    r := Slice(combined, 0, n, n);
  }

  method CountStale(s: Slice, cutoff: int) returns (n: nat)
    requires Fits(s)
    ensures n == StaleCount(Elems(s), cutoff)
  {
    n := 0;
    while n < s.len && s.arr[s.off + n].capturedAt < cutoff
      invariant n <= s.len
      invariant forall i :: 0 <= i < n ==> Elems(s)[i].capturedAt < cutoff
    {
      n := n + 1;
    }
    StaleCountUnique(Elems(s), cutoff, n);
  }

  // ---- specification of whole operations ----

  function PushAll(o: Options, s: Shared, es: seq<Event>): Shared
    requires Usable(o)
  {
    if es == [] then s else PushTo(o, PushAll(o, s, es[..|es| - 1]), es[|es| - 1])
  }

  /** `between(i)` is what producers push just before element `i` of the batch is read. */
  function PushRounds(o: Options, s: Shared, between: nat -> seq<Event>, n: nat): Shared
    requires Usable(o)
    decreases n
  {
    if n == 0 then s else PushAll(o, PushRounds(o, s, between, n - 1), between(n - 1))
  }

  function Settled(o: Options, s: Shared, r: Reply): Shared
    requires Usable(o)
  {
    match Classify(r)
    case Accepted => Discard(s)
    case Retryable => ReturnToHead(o, s)
    case KeyRejected(c) => MakeTerminal(Discard(CountDropped(s, |s.inflight|)), c)
    case Poison => Discard(CountDropped(s, |s.inflight|))
  }

  /** One flush, with what producers push while the batch is read and while it is on the wire. */
  function Flushed(o: Options, s: Shared, between: nat -> seq<Event>, during: seq<Event>, r: Reply): Shared
    requires Usable(o)
  {
    var t := TakeBatch(o, s);
    if s.terminalErr.Some? || t.inflight == [] then s
    else Settled(o, PushAll(o, PushRounds(o, t, between, |t.inflight|), during), r)
  }

  /** What producers push round by round, in order. */
  function RoundEvents(between: nat -> seq<Event>, n: nat): seq<Event> {
    if n == 0 then [] else RoundEvents(between, n - 1) + between(n - 1)
  }

  /** The transport with its past: what the cloud accepted and what was pushed. */
  datatype History = History(shared: Shared, delivered: seq<Event>, pushed: seq<Event>)

  function PushHistory(o: Options, h: History, es: seq<Event>): History
    requires Usable(o)
  {
    h.(shared := PushAll(o, h.shared, es), pushed := h.pushed + es)
  }

  function FlushHistory(o: Options, h: History, between: nat -> seq<Event>, during: seq<Event>, r: Reply): History
    requires Usable(o)
  {
    var batch := TakeBatch(o, h.shared).inflight;
    if h.shared.terminalErr.Some? || batch == [] then h
    else
      History(Flushed(o, h.shared, between, during, r),
              if Classify(r).Accepted? then h.delivered + batch else h.delivered,
              h.pushed + RoundEvents(between, |batch|) + during)
  }

  /** What producers push during one round of the shutdown drain: before the emptiness check,
      before the flush, while the batch is read and while it is on the wire. */
  datatype Pushing = Pushing(arriving: seq<Event>, waiting: seq<Event>, between: nat -> seq<Event>, during: seq<Event>)

  /** The drain's surroundings. Once the deadline has passed no request is accepted any more. */
  datatype DrainEnv = DrainEnv(pushes: nat -> Pushing, replies: nat -> Reply, deadline: nat)

  function ReplyAt(env: DrainEnv, i: nat): (r: Reply)
    ensures i >= env.deadline ==> !Classify(r).Accepted?
  {
    if i < env.deadline || !Classify(env.replies(i)).Accepted? then env.replies(i) else PostFailed
  }

  function Left(env: DrainEnv, i: nat): nat { if i < env.deadline then env.deadline - i else 0 }

  /** One round of the drain that found something pending, up to the settled reply. */
  function DrainRound(o: Options, h: History, env: DrainEnv, i: nat): History
    requires Usable(o)
  {
    var p := env.pushes(i);
    FlushHistory(o, PushHistory(o, h, p.waiting), p.between, p.during, ReplyAt(env, i))
  }

  /** The shutdown drain from a state with no batch on the wire. */
  function Drained(o: Options, h: History, env: DrainEnv, i: nat): History
    requires Usable(o)
    decreases Left(env, i)
  {
    var s := PushHistory(o, h, env.pushes(i).arriving);
    var next := DrainRound(o, s, env, i);
    if s.shared.buf == [] then s
    else if Classify(ReplyAt(env, i)).Accepted? && s.shared.terminalErr.None? then Drained(o, next, env, i + 1)
    else if next.shared.terminalErr.Some? then next
    else next.(shared := next.shared.(drainErr := Some(|s.shared.buf|)))
  }

  class HttpTransport {
    const opts: Options
    var buf: Slice
    var inflight: Slice
    var terminalErr: Option<int>
    var drainErr: Option<nat>
    var dropped: nat
    ghost var delivered: seq<Event>
    ghost var pushed: seq<Event>

    /** Both windows lie inside their arrays, and on a shared array the batch ends before
        the buffer begins. */
    ghost predicate Valid()
      reads this
    {
      && Usable(opts) && Fits(buf) && Fits(inflight)
      && Before(inflight, buf)
    }

    ghost function View(): Shared
      requires Valid()
      reads this, buf.arr, inflight.arr
    {
      Shared(Elems(buf), Elems(inflight), terminalErr, drainErr, dropped)
    }

    ghost function Past(): History
      requires Valid()
      reads this, buf.arr, inflight.arr
    {
      History(View(), delivered, pushed)
    }

    constructor (o: Options)
      ensures Valid() && opts == WithDefaults(o)
      ensures Past() == Start
    {
      opts := WithDefaults(o);
      buf, inflight := NilSlice, NilSlice;
      terminalErr, drainErr, dropped := None, None, 0;
      delivered, pushed := [], [];
    }

    /** Never blocks and never touches the batch on the wire, even when append writes in
        place on the array both windows share. */
    method Push(e: Event) returns (needsFlush: bool)
      requires Valid()
      modifies this`buf, this`dropped, this`pushed, buf.arr
      ensures Valid() && View() == PushTo(opts, old(View()), e) && pushed == old(pushed) + [e]
      ensures fresh(buf.arr) || buf.arr == old(buf.arr)
      ensures needsFlush <==> old(terminalErr).None? && |View().buf| >= opts.batchSize
    {
      hide Elems;
      pushed := pushed + [e];
      if terminalErr.Some? {
        dropped := dropped + 1;
        return false;
      }
      var head := buf;
      if buf.len >= opts.bufferSize {
        FromElems(buf, 1);
        head := From(buf, 1);
        dropped := dropped + 1;
      }
      buf := Append(head, e, inflight);
      needsFlush := buf.len >= opts.batchSize;
    }

    method PushEach(es: seq<Event>)
      requires Valid()
      modifies this`buf, this`dropped, this`pushed, buf.arr
      ensures Valid() && View() == PushAll(opts, old(View()), es) && pushed == old(pushed) + es
      ensures fresh(buf.arr) || buf.arr == old(buf.arr)
    {
      for i := 0 to |es|
        invariant Valid() && View() == PushAll(opts, old(View()), es[..i]) && pushed == old(pushed) + es[..i]
        invariant fresh(buf.arr) || buf.arr == old(buf.arr)
      {
        var _ := Push(es[i]);
        TakeSnoc(es, i);
      }
      assert es[..|es|] == es;
    }

    method PruneStale(now: int)
      requires Valid()
      modifies this`buf, this`dropped
      ensures Valid() && View() == PruneAt(opts, old(View()), now)
      ensures buf.arr == old(buf.arr)
    {
      hide Elems, StaleCount;
      var drop := CountStale(buf, now - opts.eventTTL);
      assert Elems(buf)[0..] == Elems(buf);
      if drop > 0 {
        FromElems(buf, drop);
        buf := From(buf, drop);
        dropped := dropped + drop;
      }
    }

    method TakeInflight()
      requires Valid()
      modifies this`buf, this`inflight
      ensures Valid() && View() == TakeBatch(opts, old(View()))
      ensures buf.arr == old(buf.arr) && (inflight == old(inflight) || inflight.arr == buf.arr)
    {
      if inflight.len != 0 { return; }
      var n := if buf.len > opts.batchSize then opts.batchSize else buf.len;
      if n == 0 { return; }
      HeadElems(buf, n);
      FromElems(buf, n);
      inflight := Slice(buf.arr, buf.off, n, n);
      buf := From(buf, n);
    }

    method DiscardInflight()
      requires Valid()
      modifies this`inflight
      ensures Valid() && View() == Discard(old(View()))
      ensures inflight.arr == null
    {
      inflight := NilSlice;
    }

    /** Copies both windows into a fresh array; later appends cannot reach the old one. */
    method ReturnInflightToHead()
      requires Valid()
      modifies this`buf, this`inflight, this`dropped
      ensures Valid() && View() == ReturnToHead(opts, old(View()))
      ensures fresh(buf.arr) || buf.arr == old(buf.arr)
      ensures old(inflight.len) != 0 ==> inflight.arr == null
      ensures old(inflight.len) == 0 ==> inflight == old(inflight)
    {
      if inflight.len == 0 { return; }
      var combined := Concat(inflight, buf);
      var drop := if combined.len > opts.bufferSize then combined.len - opts.bufferSize else 0;
      FromElems(combined, drop);
      buf := From(combined, drop);
      dropped := dropped + drop;
      inflight := NilSlice;
    }

    method SetTerminal(status: int)
      requires Valid()
      modifies this`buf, this`inflight, this`dropped, this`terminalErr
      ensures Valid() && View() == MakeTerminal(old(View()), status)
      ensures buf == old(buf) || buf.arr == null
      ensures inflight == old(inflight) || inflight.arr == null
    {
      if terminalErr.Some? { return; }
      terminalErr := Some(status);
      dropped := dropped + buf.len + inflight.len;
      buf, inflight := NilSlice, NilSlice;
    }

    /** Reads the batch element by element without the lock while producers keep pushing:
        the body is the batch as it was taken. */
    method ReadBatch(between: nat -> seq<Event>) returns (body: seq<Event>)
      requires Valid()
      modifies this`buf, this`dropped, this`pushed, buf.arr
      ensures Valid() && View() == PushRounds(opts, old(View()), between, old(inflight.len))
      ensures pushed == old(pushed) + RoundEvents(between, old(inflight.len))
      ensures body == old(View().inflight)
      ensures fresh(buf.arr) || buf.arr == old(buf.arr)
    {
      ghost var start := View();
      body := [];
      assert PushRounds(opts, start, between, 0) == start && RoundEvents(between, 0) == [];
      hide PushRounds, RoundEvents, PushAll, Elems;
      for i := 0 to inflight.len
        invariant Valid() && View() == PushRounds(opts, start, between, i)
        invariant pushed == old(pushed) + RoundEvents(between, i)
        invariant body == start.inflight[..i]
        invariant fresh(buf.arr) || buf.arr == old(buf.arr)
      {
        PushRoundsKeepsInflight(opts, start, between, i);
        RoundStep(opts, start, between, i);
        var e := PushThenRead(between(i), i);
        Regroup(old(pushed), RoundEvents(between, i), between(i));
        TakeSnoc(start.inflight, i);
        body := body + [e];
      }
      assert start.inflight[..inflight.len] == start.inflight;
    }

    method PushThenRead(es: seq<Event>, i: nat) returns (e: Event)
      requires Valid() && i < inflight.len
      modifies this`buf, this`dropped, this`pushed, buf.arr
      ensures Valid() && View() == PushAll(opts, old(View()), es) && pushed == old(pushed) + es
      ensures e == old(View().inflight)[i]
      ensures fresh(buf.arr) || buf.arr == old(buf.arr)
    {
      PushEach(es);
      PushAllKeepsInflight(opts, old(View()), es);
      e := inflight.arr[inflight.off + i];
      assert e == Elems(inflight)[i];
    }

    method Settle(r: Reply)
      requires Valid()
      modifies this`buf, this`inflight, this`dropped, this`terminalErr, this`delivered
      ensures Valid() && View() == Settled(opts, old(View()), r)
      ensures delivered == if Classify(r).Accepted? then old(delivered) + old(View().inflight) else old(delivered)
      ensures buf.arr == null || fresh(buf.arr) || buf.arr == old(buf.arr)
      ensures inflight.arr == null || inflight == old(inflight)
    {
      hide ReturnToHead, MakeTerminal, Elems, Classify;
      match Classify(r)
      case Accepted =>
        delivered := delivered + Elems(inflight);
        DiscardInflight();
      case Retryable =>
        ReturnInflightToHead();
      case KeyRejected(c) =>
        dropped := dropped + inflight.len;
        DiscardInflight();
        SetTerminal(c);
      case Poison =>
        dropped := dropped + inflight.len;
        DiscardInflight();
    }

    /** `body` is what was serialised; `sent` reports a 2xx reply, `failed` an error. */
    method FlushOnce(between: nat -> seq<Event>, during: seq<Event>, reply: Reply)
      returns (sent: bool, failed: bool, body: seq<Event>)
      requires Valid()
      modifies this, buf.arr
      ensures Valid() && Past() == FlushHistory(opts, old(Past()), between, during, reply)
      ensures body == (if old(terminalErr).Some? then [] else TakeBatch(opts, old(View())).inflight)
      ensures sent <==> body != [] && reply.Status? && 200 <= reply.code < 300
      ensures failed <==> body != [] && !sent
      ensures buf.arr == null || fresh(buf.arr) || buf.arr == old(buf.arr)
    {
      hide PushAll, PushRounds, RoundEvents, Settled, Classify, Elems, Fits, Before;
      if terminalErr.Some? { return false, false, []; }
      TakeInflight();
      if inflight.len == 0 {
        assert Past() == old(Past());
        return false, false, [];
      }
      ghost var taken := View();
      body := ReadBatch(between);
      ghost var read := View();
      PushRoundsKeepsInflight(opts, taken, between, |taken.inflight|);
      PushEach(during);
      PushAllKeepsInflight(opts, read, during);
      Settle(reply);
      AcceptedMeans2xx(reply);
      sent := Classify(reply).Accepted?;
      failed := !sent;
    }

    /** One turn of the loop: prune, then flush, with producers pushing in between too. */
    method LoopTurn(now: int, waiting: seq<Event>, between: nat -> seq<Event>, during: seq<Event>, reply: Reply)
      requires Valid()
      modifies this, buf.arr
      ensures Valid() && Past() == Used(opts, old(Past()), Turn(now, waiting, between, during, reply))
    {
      hide FlushHistory, PruneAt, PushAll, Elems;
      PruneStale(now);
      PushEach(waiting);
      var _, _, _ := FlushOnce(between, during, reply);
    }

    /** Shutdown, with producers pushing at any moment of it. The deadline bounds the loop, and
        without pushes so does what is pending: see QuietDrainIsBounded. */
    method DrainAndExit(env: DrainEnv) returns (ghost requests: nat)
      requires Valid() && inflight.len == 0
      modifies this, buf.arr
      ensures Valid() && inflight.len == 0
      ensures Past() == Drained(opts, old(Past()), env, 0) && requests == Requests(opts, old(Past()), env, 0)
    {
      hide Elems, Classify, DrainRound, FlushHistory;
      var round := 0;
      requests := 0;
      while true
        invariant Valid() && inflight.len == 0
        invariant Drained(opts, Past(), env, round) == Drained(opts, old(Past()), env, 0)
        invariant requests + Requests(opts, Past(), env, round) == Requests(opts, old(Past()), env, 0)
        invariant buf.arr == null || fresh(buf.arr) || buf.arr == old(buf.arr)
        decreases Left(env, round)
      {
        PushEach(env.pushes(round).arriving);
        var pending := buf.len + inflight.len;
        if pending == 0 { return; }
        var sent := DrainOnce(env, round);
        requests := requests + 1;
        if sent {
          round := round + 1;
          continue;
        }
        if terminalErr.Some? { return; }
        drainErr := Some(pending);
        return;
      }
    }

    /** The flush of one drain round. */
    method DrainOnce(env: DrainEnv, round: nat) returns (sent: bool)
      requires Valid() && inflight.len == 0 && buf.len > 0
      modifies this, buf.arr
      ensures Valid() && inflight.len == 0 && Past() == DrainRound(opts, old(Past()), env, round)
      ensures sent <==> old(terminalErr).None? && Classify(ReplyAt(env, round)).Accepted?
      ensures buf.arr == null || fresh(buf.arr) || buf.arr == old(buf.arr)
    {
      hide Elems, Classify;
      ghost var s := View();
      PushEach(env.pushes(round).waiting);
      PendingStays(opts, s, env.pushes(round).waiting);
      ghost var h := Past();
      var p := env.pushes(round);
      NothingInFlight(opts, h, p.between, p.during, ReplyAt(env, round));
      AcceptedMeans2xx(ReplyAt(env, round));
      var failed, body;
      sent, failed, body := FlushOnce(p.between, p.during, ReplyAt(env, round));
    }

    method Stop() returns (r: StopResult)
      requires Valid()
      ensures r == StopVerdict(View())
    {
      if terminalErr.Some? { return KeyWasRejected(terminalErr.value); }
      if drainErr.Some? { return Undelivered(drainErr.value); }
      return Delivered;
    }
  }

  // ---- lemmas about the specifications ----

  lemma StaleCountUnique(buf: seq<Event>, cutoff: int, n: nat)
    requires n <= |buf| && (forall i :: 0 <= i < n ==> buf[i].capturedAt < cutoff)
    requires n < |buf| ==> buf[n].capturedAt >= cutoff
    ensures StaleCount(buf, cutoff) == n
  {
  }

  lemma {:induction false} PushAllKeepsInflight(o: Options, s: Shared, es: seq<Event>)
    requires Usable(o)
    ensures PushAll(o, s, es).inflight == s.inflight
  {
    if es != [] { PushAllKeepsInflight(o, s, es[..|es| - 1]); }
  }

  lemma {:induction false} PushRoundsKeepsInflight(o: Options, s: Shared, between: nat -> seq<Event>, n: nat)
    requires Usable(o)
    ensures PushRounds(o, s, between, n).inflight == s.inflight
    decreases n
  {
    if n > 0 {
      PushRoundsKeepsInflight(o, s, between, n - 1);
      PushAllKeepsInflight(o, PushRounds(o, s, between, n - 1), between(n - 1));
    }
  }

  lemma RoundStep(o: Options, s: Shared, between: nat -> seq<Event>, n: nat)
    requires Usable(o)
    ensures PushRounds(o, s, between, n + 1) == PushAll(o, PushRounds(o, s, between, n), between(n))
    ensures RoundEvents(between, n + 1) == RoundEvents(between, n) + between(n)
  {
  }

  /** Any number of pushes leaves the newest events that fit and counts the others. */
  lemma {:induction false} PushAllMeaning(o: Options, s: Shared, es: seq<Event>)
    requires Usable(o) && s.terminalErr.None? && |s.buf| <= o.bufferSize
    ensures var s' := PushAll(o, s, es);
            && s'.buf == Newest(s.buf + es, o.bufferSize) && s'.terminalErr.None?
            && s'.dropped == s.dropped + |s.buf| + |es| - |s'.buf|
  {
    if es == [] {
      assert s.buf + es == s.buf;
    } else {
      var k := |es| - 1;
      PushAllMeaning(o, s, es[..k]);
      var mid := PushAll(o, s, es[..k]);
      OverflowKeepsNewest(o, mid, es[k]);
      assert s.buf + es == s.buf + es[..k] + [es[k]];
      NewestTwice(s.buf + es[..k], es[k], o.bufferSize);
      hide PushAll, Newest;
      assert PushAll(o, s, es) == PushTo(o, mid, es[k]);
    }
  }

  lemma NewestTwice(es: seq<Event>, e: Event, n: nat)
    requires n > 0
    ensures Newest(Newest(es, n) + [e], n) == Newest(es + [e], n)
    ensures |Newest(es, n)| <= n
  {
  }

  lemma AcceptedMeans2xx(r: Reply)
    ensures Classify(r).Accepted? <==> r.Status? && 200 <= r.code < 300
  {
  }

  /** What the transport holds when the reply to a batch arrives. */
  function AtReply(o: Options, s: Shared, between: nat -> seq<Event>, during: seq<Event>): Shared
    requires Usable(o)
  {
    var t := TakeBatch(o, s);
    PushAll(o, PushRounds(o, t, between, |t.inflight|), during)
  }

  /** What each reply does with a batch. A 2xx delivers it. A 429, a 5xx, or a request that
      could not be built or posted puts it back in front, and the newest that fit stay. A 401 or
      403 ends delivery and drops all that is pending. Anything else drops the batch alone. */
  lemma {:induction false} FlushByStatus(o: Options, h: History, between: nat -> seq<Event>, during: seq<Event>, r: Reply)
    requires Usable(o) && h.shared.inflight == [] && h.shared.terminalErr.None? && h.shared.buf != []
    ensures var f, w := FlushHistory(o, h, between, during, r), AtReply(o, h.shared, between, during);
            var batch := TakeBatch(o, h.shared).inflight;
            && batch != [] && w.inflight == batch && f.shared.inflight == [] && f.shared.drainErr == h.shared.drainErr
            && (r.Status? && 200 <= r.code < 300 ==>
                  && f.delivered == h.delivered + batch && f.shared.buf == w.buf
                  && f.shared.dropped == w.dropped && f.shared.terminalErr.None?)
            && (!(r.Status? && 200 <= r.code < 300) ==> f.delivered == h.delivered)
            && (r.BuildFailed? || r.PostFailed? || (r.Status? && (r.code == 429 || r.code >= 500)) ==>
                  && f.shared.buf == Newest(batch + w.buf, o.bufferSize) && f.shared.terminalErr.None?
                  && f.shared.dropped == w.dropped + |batch| + |w.buf| - |f.shared.buf|)
            && (r.Status? && (r.code == 401 || r.code == 403) ==>
                  && f.shared.terminalErr == Some(r.code) && f.shared.buf == []
                  && f.shared.dropped == w.dropped + |batch| + |w.buf|)
            && (r.SerialiseFailed? ||
                (r.Status? && (r.code < 200 || 300 <= r.code < 500) && r.code != 429 && r.code != 401 && r.code != 403) ==>
                  && f.shared.buf == w.buf && f.shared.terminalErr.None? && f.shared.dropped == w.dropped + |batch|)
  {
    hide PushAll, PushRounds, RoundEvents;
    var t := TakeBatch(o, h.shared);
    var read := PushRounds(o, t, between, |t.inflight|);
    PushRoundsKeepsInflight(o, t, between, |t.inflight|);
    RoundsStay(o, t, between, |t.inflight|);
    PendingStays(o, read, during);
  }

  lemma {:induction false} RoundsStay(o: Options, s: Shared, between: nat -> seq<Event>, n: nat)
    requires Usable(o)
    ensures PushRounds(o, s, between, n).terminalErr == s.terminalErr && PushRounds(o, s, between, n).drainErr == s.drainErr
    decreases n
  {
    if n > 0 {
      RoundsStay(o, s, between, n - 1);
      PendingStays(o, PushRounds(o, s, between, n - 1), between(n - 1));
    }
  }

  /** Pushes neither start nor end the terminal state, and leave something pending. */
  lemma {:induction false} PendingStays(o: Options, s: Shared, es: seq<Event>)
    requires Usable(o)
    ensures var s' := PushAll(o, s, es);
            s'.inflight == s.inflight && s'.terminalErr == s.terminalErr && s'.drainErr == s.drainErr
            && (s.buf != [] ==> s'.buf != [])
  {
    if es != [] { PendingStays(o, s, es[..|es| - 1]); }
  }

  /** A flush leaves no batch on the wire. */
  lemma NothingInFlight(o: Options, h: History, between: nat -> seq<Event>, during: seq<Event>, r: Reply)
    requires Usable(o) && h.shared.inflight == []
    ensures FlushHistory(o, h, between, during, r).shared.inflight == []
    ensures h.shared.buf != [] && h.shared.terminalErr.None? ==> TakeBatch(o, h.shared).inflight != []
  {
    hide PushAll, PushRounds, Classify;
  }

  lemma {:induction false} QuietRounds(o: Options, s: Shared, between: nat -> seq<Event>, n: nat)
    requires Usable(o) && forall k: nat :: between(k) == []
    ensures PushRounds(o, s, between, n) == s && RoundEvents(between, n) == []
    decreases n
  {
    if n > 0 { QuietRounds(o, s, between, n - 1); }
  }

  /** `d` is a split of the buffered events into delivered, lost and still-buffered parts. */
  predicate Accounts(h: History, d: History) {
    var k := |d.delivered| - |h.delivered|;
    var lost := d.shared.dropped - h.shared.dropped;
    && 0 <= k <= |h.shared.buf| && lost >= 0 && d.pushed == h.pushed
    && k + lost + |d.shared.buf| == |h.shared.buf|
    && d.delivered == h.delivered + h.shared.buf[..k]
    && d.shared.buf == h.shared.buf[k + lost..]
  }

  /** The history after a batch of a quiet drain was accepted. */
  function Sent(o: Options, h: History): History
    requires Usable(o)
  {
    var t := TakeBatch(o, h.shared);
    h.(shared := Discard(t), delivered := h.delivered + t.inflight)
  }

  lemma AccountsAfterBatch(o: Options, h: History, d: History)
    requires Usable(o) && h.shared.inflight == [] && Accounts(Sent(o, h), d)
    ensures Accounts(h, d)
  {
    var t := TakeBatch(o, h.shared);
    var buf, n := h.shared.buf, |t.inflight|;
    var k := |d.delivered| - |h.delivered| - n;
    var lost := d.shared.dropped - h.shared.dropped;
    assert buf[..n] + buf[n..][..k] == buf[..n + k];
    assert buf[n..][k + lost..] == buf[n + k + lost..];
    Regroup(h.delivered, buf[..n], buf[n..][..k]);
  }

  /** A batch taken from a quiet transport and not accepted. */
  lemma FailedBatch(o: Options, s: Shared, r: Reply)
    requires Usable(o) && s.inflight == [] && s.terminalErr.None? && |s.buf| <= o.bufferSize
    requires !Classify(r).Accepted?
    ensures var t := TakeBatch(o, s);
            var after := Settled(o, t, r);
            && after.inflight == [] && after.drainErr == s.drainErr
            && after.terminalErr.Some? == Classify(r).KeyRejected?
            && match Classify(r)
               case Retryable => after.buf == s.buf && after.dropped == s.dropped
               case KeyRejected(_) => after.buf == [] && after.dropped == s.dropped + |s.buf|
               case _ => after.buf == t.buf && after.dropped == s.dropped + |t.inflight|
  {
    var t := TakeBatch(o, s);
    assert t.inflight + t.buf == s.buf;
  }

  /** Nobody pushes. */
  ghost predicate QuietRound(p: Pushing) {
    p.arriving == [] && p.waiting == [] && p.during == [] && forall k: nat :: p.between(k) == []
  }

  ghost predicate Quiet(env: DrainEnv) {
    forall i: nat :: QuietRound(env.pushes(i))
  }

  /** A drain round nobody pushes into is take then settle. */
  lemma QuietDrainRound(o: Options, h: History, env: DrainEnv, i: nat)
    requires Usable(o) && Quiet(env) && h.shared.inflight == [] && h.shared.terminalErr.None? && h.shared.buf != []
    ensures PushHistory(o, h, env.pushes(i).arriving) == h
    ensures var t := TakeBatch(o, h.shared);
            DrainRound(o, h, env, i) ==
              h.(shared := Settled(o, t, ReplyAt(env, i)),
                 delivered := if Classify(ReplyAt(env, i)).Accepted? then h.delivered + t.inflight else h.delivered)
  {
    hide Settled, Classify;
    assert QuietRound(env.pushes(i));
    var p, t := env.pushes(i), TakeBatch(o, h.shared);
    assert h.pushed + [] == h.pushed;
    QuietRounds(o, t, p.between, |t.inflight|);
    assert t.inflight != [];
  }

  lemma AcceptedStep(o: Options, h: History, env: DrainEnv, i: nat)
    requires Usable(o) && Quiet(env) && h.shared.inflight == [] && h.shared.terminalErr.None? && h.shared.buf != []
    requires Classify(ReplyAt(env, i)).Accepted?
    ensures Drained(o, h, env, i) == Drained(o, Sent(o, h), env, i + 1)
  {
    QuietDrainRound(o, h, env, i);
    hide DrainRound, PushHistory, ReplyAt;
  }

  lemma RefusedStep(o: Options, h: History, env: DrainEnv, i: nat)
    requires Usable(o) && Quiet(env) && h.shared.inflight == [] && h.shared.terminalErr.None? && h.shared.buf != []
    requires !Classify(ReplyAt(env, i)).Accepted?
    ensures var after := Settled(o, TakeBatch(o, h.shared), ReplyAt(env, i));
            Drained(o, h, env, i) ==
              h.(shared := if after.terminalErr.Some? then after else after.(drainErr := Some(|h.shared.buf|)))
    ensures !StopVerdict(Drained(o, h, env, i).shared).Delivered?
  {
    QuietDrainRound(o, h, env, i);
    hide DrainRound, PushHistory, ReplyAt, Settled, Classify;
  }

  lemma NothingPending(o: Options, h: History, env: DrainEnv, i: nat)
    requires Usable(o) && Quiet(env) && h.shared.buf == []
    ensures Drained(o, h, env, i) == h
  {
    assert QuietRound(env.pushes(i));
    assert h.pushed + [] == h.pushed;
    hide DrainRound, ReplyAt;
  }

  /** What Stop reports after a quiet drain whose first request is not accepted: the rejected
      key, or how many events were pending. */
  lemma RefusedVerdict(o: Options, h: History, env: DrainEnv, i: nat)
    requires Usable(o) && Quiet(env) && h.shared.inflight == [] && h.shared.terminalErr.None? && h.shared.buf != []
    requires var r := ReplyAt(env, i); !(r.Status? && 200 <= r.code < 300)
    ensures var r, v := ReplyAt(env, i), StopVerdict(Drained(o, h, env, i).shared);
            v == if r.Status? && (r.code == 401 || r.code == 403) then KeyWasRejected(r.code)
                 else Undelivered(|h.shared.buf|)
  {
    RefusedStep(o, h, env, i);
    hide Drained, Quiet, ReplyAt;
  }

  /** What a quiet drain leaves behind: the accepted events are a prefix of the buffer, what
      remains buffered is a suffix, and everything between is counted as dropped. */
  lemma {:induction false} DrainAccounts(o: Options, h: History, env: DrainEnv, i: nat)
    requires Usable(o) && Quiet(env) && h.shared.inflight == [] && h.shared.terminalErr.None?
    requires |h.shared.buf| <= o.bufferSize
    ensures Accounts(h, Drained(o, h, env, i))
    decreases |h.shared.buf|
  {
    hide Quiet, Drained, Classify;
    if h.shared.buf == [] {
      NothingPending(o, h, env, i);
    } else if Classify(ReplyAt(env, i)).Accepted? {
      AcceptedStep(o, h, env, i);
      DrainAccounts(o, Sent(o, h), env, i + 1);
      AccountsAfterBatch(o, h, Drained(o, h, env, i));
    } else {
      RefusedStep(o, h, env, i);
      FailedBatch(o, h.shared, ReplyAt(env, i));
    }
  }

  /** The `n` replies from number `i` on are acceptances. */
  predicate AllAccepted(env: DrainEnv, i: nat, n: nat)
    decreases n
  {
    n == 0 || (Classify(ReplyAt(env, i)).Accepted? && AllAccepted(env, i + 1, n - 1))
  }

  /** After a quiet drain Stop's verdict is nil exactly when every batch of the buffer met an
      acceptance before the deadline, and then every buffered event was delivered and none
      dropped. */
  lemma {:induction false} DrainVerdict(o: Options, h: History, env: DrainEnv, i: nat)
    requires Usable(o) && Quiet(env) && h.shared.inflight == [] && |h.shared.buf| <= o.bufferSize
    requires h.shared.terminalErr.None? && h.shared.drainErr.None?
    ensures var d := Drained(o, h, env, i);
            && (StopVerdict(d.shared).Delivered? <==> AllAccepted(env, i, Batches(o, |h.shared.buf|)))
            && (StopVerdict(d.shared).Delivered? ==>
                  d.delivered == h.delivered + h.shared.buf && d.shared.dropped == h.shared.dropped)
    decreases |h.shared.buf|
  {
    if h.shared.buf == [] {
      NothingPending(o, h, env, i);
      assert h.delivered + h.shared.buf == h.delivered;
    } else {
      BatchesStep(o, h.shared);
      var t := TakeBatch(o, h.shared);
      var rest := Sent(o, h);
      Regroup(h.delivered, t.inflight, t.buf);
      hide TakeBatch, Classify, Batches, Settled, Drained, StopVerdict, Quiet;
      if Classify(ReplyAt(env, i)).Accepted? {
        AcceptedStep(o, h, env, i);
        DrainVerdict(o, rest, env, i + 1);
      } else {
        RefusedStep(o, h, env, i);
      }
    }
  }

  /** How many requests a drain makes. */
  function Requests(o: Options, h: History, env: DrainEnv, i: nat): nat
    requires Usable(o)
    decreases Left(env, i)
  {
    var s := PushHistory(o, h, env.pushes(i).arriving);
    if s.shared.buf == [] then 0
    else if Classify(ReplyAt(env, i)).Accepted? && s.shared.terminalErr.None?
    then 1 + Requests(o, DrainRound(o, s, env, i), env, i + 1)
    else 1
  }

  lemma {:induction false} BatchesAtMost(o: Options, n: nat)
    requires Usable(o)
    ensures Batches(o, n) <= n
  {
    if n > o.batchSize { BatchesAtMost(o, n - o.batchSize); }
  }

  lemma RequestsStep(o: Options, h: History, env: DrainEnv, i: nat)
    requires Usable(o) && Quiet(env) && h.shared.inflight == [] && h.shared.terminalErr.None? && h.shared.buf != []
    ensures Requests(o, h, env, i) ==
              if Classify(ReplyAt(env, i)).Accepted? then 1 + Requests(o, Sent(o, h), env, i + 1) else 1
  {
    QuietDrainRound(o, h, env, i);
    hide DrainRound, PushHistory, ReplyAt;
  }

  /** Without concurrent pushes a drain ends by what is pending, whatever the deadline: it makes
      at most as many requests as the buffer has batches. */
  lemma {:induction false} QuietDrainIsBounded(o: Options, h: History, env: DrainEnv, i: nat)
    requires Usable(o) && Quiet(env) && h.shared.inflight == [] && h.shared.terminalErr.None?
    ensures Requests(o, h, env, i) <= Batches(o, |h.shared.buf|) <= |h.shared.buf|
    decreases |h.shared.buf|
  {
    BatchesAtMost(o, |h.shared.buf|);
    if h.shared.buf == [] {
      assert QuietRound(env.pushes(i));
    } else {
      BatchesStep(o, h.shared);
      RequestsStep(o, h, env, i);
      hide Requests, Quiet, Batches, Classify;
      if Classify(ReplyAt(env, i)).Accepted? { QuietDrainIsBounded(o, Sent(o, h), env, i + 1); }
    }
  }

  /** A deadline that leaves room for the pending batches plays no part: a later one gives the
      same drain. */
  lemma {:induction false} DeadlineIsIdle(o: Options, h: History, env: DrainEnv, later: nat, i: nat)
    requires Usable(o) && Quiet(env) && h.shared.inflight == [] && h.shared.terminalErr.None?
    requires i + Batches(o, |h.shared.buf|) <= env.deadline <= later
    ensures Drained(o, h, env, i) == Drained(o, h, env.(deadline := later), i)
    decreases |h.shared.buf|
  {
    var env' := env.(deadline := later);
    assert Quiet(env');
    if h.shared.buf == [] {
      NothingPending(o, h, env, i);
      NothingPending(o, h, env', i);
    } else {
      BatchesStep(o, h.shared);
      assert i < env.deadline && ReplyAt(env, i) == ReplyAt(env', i);
      hide Drained, Quiet, Batches, Classify, ReplyAt, Settled;
      if Classify(ReplyAt(env, i)).Accepted? {
        AcceptedStep(o, h, env, i);
        AcceptedStep(o, h, env', i);
        DeadlineIsIdle(o, Sent(o, h), env, later, i + 1);
      } else {
        RefusedStep(o, h, env, i);
        RefusedStep(o, h, env', i);
      }
    }
  }

  lemma Regroup(a: seq<Event>, b: seq<Event>, c: seq<Event>)
    ensures (a + b) + c == a + (b + c)
  {
  }

  /** How many requests deliver `n` events. */
  function Batches(o: Options, n: nat): nat
    requires Usable(o)
  {
    if n == 0 then 0 else if n <= o.batchSize then 1 else 1 + Batches(o, n - o.batchSize)
  }

  lemma BatchesStep(o: Options, s: Shared)
    requires Usable(o) && s.inflight == [] && s.buf != []
    ensures Batches(o, |s.buf|) == 1 + Batches(o, |TakeBatch(o, s).buf|)
    ensures TakeBatch(o, s).inflight + TakeBatch(o, s).buf == s.buf
    ensures Discard(TakeBatch(o, s)) == s.(buf := TakeBatch(o, s).buf) && |TakeBatch(o, s).buf| < |s.buf|
  {
  }

  // ---- the object's operations are interleavings of the protocol ----

  /** What the protocol's state says about an object. */
  function PastOf(s: State): History { History(s.shared, s.acked, s.pushed) }

  lemma {:induction false} RunAppend(o: Options, s: State, a: seq<Label>, b: seq<Label>)
    requires Usable(o) && Possible(o, s, a) && Possible(o, Run(o, s, a), b)
    ensures Possible(o, s, a + b) && Run(o, s, a + b) == Run(o, Run(o, s, a), b)
    decreases |a|
  {
    if a == [] {
      assert a + b == b;
    } else {
      RunAppend(o, Step(o, s, a[0]), a[1..], b);
      assert (a + b)[1..] == a[1..] + b;
    }
  }

  lemma RunOne(o: Options, s: State, a: seq<Label>, l: Label)
    requires Usable(o) && Possible(o, s, a) && Enabled(Run(o, s, a), l)
    ensures Possible(o, s, a + [l]) && Run(o, s, a + [l]) == Step(o, Run(o, s, a), l)
  {
    var last, s' := [l], Run(o, s, a);
    var s1 := Step(o, s', l);
    assert last[1..] == [] && Run(o, s1, []) == s1;
    FollowOne(o, s', s1, last);
    RunAppend(o, s, a, last);
  }

  lemma {:induction false} PushesRun(o: Options, s: State, es: seq<Event>) returns (ls: seq<Label>)
    requires Usable(o)
    ensures Possible(o, s, ls)
    ensures Run(o, s, ls) == s.(shared := PushAll(o, s.shared, es), pushed := s.pushed + es)
  {
    if es == [] {
      ls := [];
      assert s.pushed + es == s.pushed;
    } else {
      var k := |es| - 1;
      var init := PushesRun(o, s, es[..k]);
      RunOne(o, s, init, Push(es[k]));
      assert s.pushed + es == s.pushed + es[..k] + [es[k]];
      ls := init + [Push(es[k])];
    }
  }

  lemma {:induction false} RoundsRun(o: Options, s: State, between: nat -> seq<Event>, n: nat) returns (ls: seq<Label>)
    requires Usable(o)
    ensures Possible(o, s, ls)
    ensures Run(o, s, ls) == s.(shared := PushRounds(o, s.shared, between, n), pushed := s.pushed + RoundEvents(between, n))
    decreases n
  {
    if n == 0 {
      ls := [];
      assert s.pushed + [] == s.pushed;
    } else {
      var init := RoundsRun(o, s, between, n - 1);
      var last := PushesRun(o, Run(o, s, init), between(n - 1));
      RunAppend(o, s, init, last);
      Regroup(s.pushed, RoundEvents(between, n - 1), between(n - 1));
      ls := init + last;
    }
  }

  lemma SettleRun(o: Options, s: State, r: Reply) returns (ls: seq<Label>)
    requires Usable(o) && s.phase.Posting?
    ensures Possible(o, s, ls)
    ensures var s' := Run(o, s, ls);
            && s'.shared == Settled(o, s.shared, r) && s'.pushed == s.pushed && s'.mark == s.mark
            && s'.acked == (if Classify(r).Accepted? then s.acked + s.shared.inflight else s.acked)
            && s'.phase == if Classify(r).Accepted? then AfterSent(s.phase.drain) else Failing(s.phase.drain)
  {
    var s1 := Step(o, s, Respond(r));
    var s2 := Step(o, s1, TransportProtocol.Settle);
    ls := [Respond(r), TransportProtocol.Settle];
    if Classify(r).KeyRejected? {
      ls := ls + [RejectKey];
      FollowOne(o, s2, Step(o, s2, RejectKey), ls[2..]);
      FollowOne(o, s1, Step(o, s2, RejectKey), ls[1..]);
      FollowOne(o, s, Step(o, s2, RejectKey), ls);
    } else {
      FollowOne(o, s1, s2, ls[1..]);
      FollowOne(o, s, s2, ls);
    }
  }

  /** Where a flush leaves the loop. */
  function AfterFlush(o: Options, s: Shared, drain: Option<nat>, r: Reply): Phase
    requires Usable(o)
  {
    if s.terminalErr.Some? || TakeBatch(o, s).inflight == [] then Idle(drain)
    else if Classify(r).Accepted? then AfterSent(drain) else Failing(drain)
  }

  /** The object's flush, with whatever producers push meanwhile, is one of the protocol's
      interleavings: same buffers, same deliveries, same pushes, and a phase to go on from. */
  lemma {:induction false} FlushIsInterleaving(o: Options, s: State, between: nat -> seq<Event>, during: seq<Event>, r: Reply)
    returns (ls: seq<Label>)
    requires Usable(o) && s.phase.Checking? && s.shared.inflight == []
    ensures Possible(o, s, ls)
    ensures PastOf(Run(o, s, ls)) == FlushHistory(o, PastOf(s), between, during, r)
    ensures Run(o, s, ls).phase == AfterFlush(o, s.shared, s.phase.drain, r) && Run(o, s, ls).mark == s.mark
  {
    var s1 := Step(o, s, CheckTerminal);
    if s.shared.terminalErr.Some? {
      ls := [CheckTerminal];
      FollowOne(o, s, s1, ls);
      return;
    }
    var s2 := Step(o, s1, Take);
    var taking := [CheckTerminal, Take];
    FollowOne(o, s1, s2, taking[1..]);
    FollowOne(o, s, s2, taking);
    if s2.shared.inflight == [] {
      ls := taking;
      assert s2.shared.buf == s.shared.buf;
      return;
    }
    ls := FlushTail(o, s2, between, during, r);
    RunAppend(o, s, taking, ls);
    ls := taking + ls;
  }

  /** From the taken batch to the settled reply. */
  lemma FlushTail(o: Options, s: State, between: nat -> seq<Event>, during: seq<Event>, r: Reply) returns (ls: seq<Label>)
    requires Usable(o) && s.phase.Posting?
    ensures Possible(o, s, ls)
    ensures var s', n := Run(o, s, ls), |s.shared.inflight|;
            && s'.shared == Settled(o, PushAll(o, PushRounds(o, s.shared, between, n), during), r)
            && s'.pushed == s.pushed + RoundEvents(between, n) + during && s'.mark == s.mark
            && s'.acked == (if Classify(r).Accepted? then s.acked + s.shared.inflight else s.acked)
            && s'.phase == if Classify(r).Accepted? then AfterSent(s.phase.drain) else Failing(s.phase.drain)
  {
    hide Settled, Classify, PushAll, PushRounds, RoundEvents, Step, Possible, Run;
    var n := |s.shared.inflight|;
    var rounds := RoundsRun(o, s, between, n);
    var s1 := Run(o, s, rounds);
    PushRoundsKeepsInflight(o, s.shared, between, n);
    var pushes := PushesRun(o, s1, during);
    var s2 := Run(o, s1, pushes);
    PushAllKeepsInflight(o, s1.shared, during);
    RunAppend(o, s, rounds, pushes);
    var settling := SettleRun(o, s2, r);
    RunAppend(o, s, rounds + pushes, settling);
    ls := rounds + pushes + settling;
  }

  // ---- whole lives of an object ----

  datatype Use =
    | PushOne(e: Event)
    | Turn(now: int, waiting: seq<Event>, between: nat -> seq<Event>, during: seq<Event>, reply: Reply)

  const Start := History(Init.shared, [], [])

  function Used(o: Options, h: History, u: Use): History
    requires Usable(o)
  {
    match u
    case PushOne(e) => PushHistory(o, h, [e])
    case Turn(now, waiting, between, during, reply) =>
      FlushHistory(o, PushHistory(o, h.(shared := PruneAt(o, h.shared, now)), waiting), between, during, reply)
  }

  function UsedAll(o: Options, uses: seq<Use>): History
    requires Usable(o)
  {
    if uses == [] then Start else Used(o, UsedAll(o, uses[..|uses| - 1]), uses[|uses| - 1])
  }

  lemma UseIsInterleaving(o: Options, s: State, u: Use) returns (ls: seq<Label>)
    requires Usable(o) && Inv(o, s) && s.phase.Waiting?
    ensures Possible(o, s, ls) && PastOf(Run(o, s, ls)) == Used(o, PastOf(s), u) && Run(o, s, ls).phase.Waiting?
  {
    assert s.shared.inflight == [];
    hide Inv;
    match u
    case PushOne(e) =>
      ls := PushesRun(o, s, [e]);
    case Turn(now, waiting, between, during, reply) =>
      var s1 := Step(o, s, Prune(now));
      var wait := PushesRun(o, s1, waiting);
      PushAllKeepsInflight(o, s1.shared, waiting);
      hide FlushHistory, Run, Possible, PushAll;
      var flush := FlushIsInterleaving(o, Run(o, s1, wait), between, during, reply);
      RunAppend(o, s1, wait, flush);
      Prepend(o, s, Prune(now), s1, wait + flush);
      ls := [Prune(now)] + (wait + flush);
      var s2 := Run(o, s, ls);
      var back := if s2.phase.Failing? then ReportFailure else Recheck;
      if !s2.phase.Waiting? {
        RunOne(o, s, ls, back);
        ls := ls + [back];
      }
  }

  lemma {:induction false} UsesAreInterleaving(o: Options, uses: seq<Use>) returns (ls: seq<Label>)
    requires Usable(o)
    ensures Possible(o, Init, ls) && PastOf(Run(o, Init, ls)) == UsedAll(o, uses) && Run(o, Init, ls).phase.Waiting?
  {
    if uses == [] {
      ls := [];
    } else {
      var init := UsesAreInterleaving(o, uses[..|uses| - 1]);
      hide Run, Possible, Inv, Used;
      InitInv(o);
      RunKeeps(o, Init, init);
      var last := UseIsInterleaving(o, Run(o, Init, init), uses[|uses| - 1]);
      RunAppend(o, Init, init, last);
      ls := init + last;
    }
  }

  /** The drain, with whatever producers push during it, is an interleaving that ends the loop;
      a nil verdict means its last act was an emptiness check that saw everything pushed. */
  lemma {:induction false} DrainIsInterleaving(o: Options, s: State, env: DrainEnv, i: nat) returns (ls: seq<Label>)
    requires Usable(o) && Inv(o, s) && s.phase.Draining?
    ensures Possible(o, s, ls) && PastOf(Run(o, s, ls)) == Drained(o, PastOf(s), env, i) && Run(o, s, ls).phase.Exited?
    ensures var s' := Run(o, s, ls);
            StopVerdict(s'.shared).Delivered? ==> s'.mark == Some((|s'.pushed|, s'.shared.dropped))
    decreases Left(env, i)
  {
    hide Inv, Run, Possible, DrainRound, Classify;
    var p := env.pushes(i);
    var arrive := PushesRun(o, s, p.arriving);
    RunKeeps(o, s, arrive);
    var s1 := Run(o, s, arrive);
    DrainingIsEmpty(o, s1);
    RunOne(o, s, arrive, CheckPending);
    ls := arrive + [CheckPending];
    if s1.shared.buf != [] {
      var round := DrainRoundRun(o, Run(o, s, ls), env, i);
      RunAppend(o, s, ls, round);
      RunKeeps(o, s, ls + round);
      ls := ls + round;
      var s2 := Run(o, s, ls);
      if s2.phase.Draining? {
        var rest := DrainIsInterleaving(o, s2, env, i + 1);
        RunAppend(o, s, ls, rest);
        ls := ls + rest;
      } else {
        RunOne(o, s, ls, ReportFailure);
        ls := ls + [ReportFailure];
      }
    }
  }

  lemma DrainingIsEmpty(o: Options, s: State)
    requires Inv(o, s) && s.phase.Draining?
    ensures s.shared.inflight == [] && s.shared.drainErr.None? && (s.shared.terminalErr.Some? ==> s.shared.buf == [])
  {
  }

  lemma DrainRoundRun(o: Options, s: State, env: DrainEnv, i: nat) returns (ls: seq<Label>)
    requires Usable(o) && s.phase.Checking? && s.phase.drain.Some?
    requires s.shared.inflight == [] && s.shared.buf != [] && s.shared.terminalErr.None?
    ensures Possible(o, s, ls) && PastOf(Run(o, s, ls)) == DrainRound(o, PastOf(s), env, i)
    ensures Run(o, s, ls).phase == if Classify(ReplyAt(env, i)).Accepted? then Draining else Failing(s.phase.drain)
  {
    var p := env.pushes(i);
    var wait := PushesRun(o, s, p.waiting);
    var s1 := Run(o, s, wait);
    PendingStays(o, s.shared, p.waiting);
    NothingInFlight(o, PastOf(s1), p.between, p.during, ReplyAt(env, i));
    hide Run, Possible, Classify, FlushHistory, PushAll;
    var flush := FlushIsInterleaving(o, s1, p.between, p.during, ReplyAt(env, i));
    RunAppend(o, s, wait, flush);
    ls := wait + flush;
  }

  /** An object used in any way and then shut down, with producers pushing all along: what was
      delivered, what is pending and what was dropped account for every push, in order. */
  lemma {:induction false} ObjectIsSafe(o: Options, uses: seq<Use>, env: DrainEnv)
    requires Usable(o)
    ensures var h := UsedAll(o, uses);
            && Subsequence(h.delivered + h.shared.inflight + h.shared.buf, h.pushed) && h.shared.inflight == []
            && |h.pushed| == |h.delivered| + h.shared.dropped + |h.shared.buf| && |h.shared.buf| <= o.bufferSize
    ensures var d := Drained(o, UsedAll(o, uses), env, 0);
            && Subsequence(d.delivered + d.shared.inflight + d.shared.buf, d.pushed) && d.shared.inflight == []
            && |d.pushed| == |d.delivered| + d.shared.dropped + |d.shared.buf| && |d.shared.buf| <= o.bufferSize
            && (StopVerdict(d.shared).Delivered? ==>
                  d.shared.buf == [] && (d.delivered == d.pushed <==> d.shared.dropped == 0))
  {
    hide Run, Possible, UsedAll, Drained, Step;
    var ls := UsesAreInterleaving(o, uses);
    WaitingIsSafe(o, ls);
    RunOne(o, Init, ls, StopSeen);
    InitInv(o);
    RunKeeps(o, Init, ls + [StopSeen]);
    StopKeepsPast(o, Run(o, Init, ls));
    var s := Run(o, Init, ls + [StopSeen]);
    var drain := DrainIsInterleaving(o, s, env, 0);
    RunAppend(o, Init, ls + [StopSeen], drain);
    ExitedIsSafe(o, ls + [StopSeen] + drain);
  }

  lemma StopKeepsPast(o: Options, s: State)
    requires Usable(o) && s.phase.Waiting?
    ensures PastOf(Step(o, s, StopSeen)) == PastOf(s) && Step(o, s, StopSeen).phase.Draining?
  {
  }

  lemma WaitingIsSafe(o: Options, ls: seq<Label>)
    requires Usable(o) && Possible(o, Init, ls) && Run(o, Init, ls).phase.Waiting?
    ensures var h := PastOf(Run(o, Init, ls));
            && Subsequence(h.delivered + h.shared.inflight + h.shared.buf, h.pushed) && h.shared.inflight == []
            && |h.pushed| == |h.delivered| + h.shared.dropped + |h.shared.buf| && |h.shared.buf| <= o.bufferSize
  {
    hide Run, Possible;
    InitInv(o);
    RunKeeps(o, Init, ls);
  }

  lemma ExitedIsSafe(o: Options, ls: seq<Label>)
    requires Usable(o) && Possible(o, Init, ls) && Run(o, Init, ls).phase.Exited?
    requires var s := Run(o, Init, ls);
             StopVerdict(s.shared).Delivered? ==> s.mark == Some((|s.pushed|, s.shared.dropped))
    ensures var h := PastOf(Run(o, Init, ls));
            && Subsequence(h.delivered + h.shared.inflight + h.shared.buf, h.pushed) && h.shared.inflight == []
            && |h.pushed| == |h.delivered| + h.shared.dropped + |h.shared.buf| && |h.shared.buf| <= o.bufferSize
            && (StopVerdict(h.shared).Delivered? ==>
                  h.shared.buf == [] && (h.delivered == h.pushed <==> h.shared.dropped == 0))
  {
    hide Run, Possible;
    InitInv(o);
    RunKeeps(o, Init, ls);
    var s := Run(o, Init, ls);
    if StopVerdict(s.shared).Delivered? {
      NilVerdictMeaning(o, ls);
      assert s.pushed[..|s.pushed|] == s.pushed;
    }
  }
}
