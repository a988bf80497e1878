/** The telemetry transport as a protocol: producers push at any moment while one loop
    prunes, takes a batch, posts it and settles the reply. Each step is one critical
    section of the transport's mutex (or one reply from the network), so a sequence of
    labels is one interleaving. */
module TransportProtocol {
  import opened Common

  datatype RequestEvent = RequestEvent(provider: string, operation: string, success: bool,
                                       durationNs: int, attemptCount: int, errorClass: string)

  /** The fields of a score event that are only carried along. */
  datatype ScoreDetails = ScoreDetails(eventType: string, scoreType: string, operation: string, store: string,
                                       oldValue: real, newValue: real, score: real, success: bool,
                                       cacheHit: bool, rank: int, totalProviders: int, storeErr: string)
  datatype ScoreEvent = ScoreEvent(provider: string, kind: string, latencyNs: int, details: ScoreDetails)
  datatype Event = Event(capturedAt: int, request: Option<RequestEvent>, score: Option<ScoreEvent>)

  datatype Options = Options(batchSize: int, bufferSize: int, eventTTL: int)

  predicate Usable(o: Options) {
    o.batchSize >= 1 && o.bufferSize >= 1
  }

  const DefaultBatchSize := 200
  const DefaultBufferSize := 10_000
  const DefaultEventTTL := 600_000_000_000  // ten minutes in nanoseconds

  /** Every transport is built from options that went through this. */
  function WithDefaults(o: Options): (r: Options)
    ensures Usable(r) && r.eventTTL > 0
    ensures (o.batchSize > 0 ==> r.batchSize == o.batchSize) && (o.bufferSize > 0 ==> r.bufferSize == o.bufferSize)
    ensures o.eventTTL > 0 ==> r.eventTTL == o.eventTTL
    ensures r.batchSize in {o.batchSize, 200} && r.bufferSize in {o.bufferSize, 10_000}
    ensures r.eventTTL in {o.eventTTL, 10 * 60 * 1_000_000_000}
  {
    Options(if o.batchSize <= 0 then DefaultBatchSize else o.batchSize,
            if o.bufferSize <= 0 then DefaultBufferSize else o.bufferSize,
            if o.eventTTL <= 0 then DefaultEventTTL else o.eventTTL)
  }

  // ---- the state guarded by the mutex, and its critical sections ----

  datatype Shared = Shared(buf: seq<Event>, inflight: seq<Event>,
                           terminalErr: Option<int>,   // status that rejected the API key
                           drainErr: Option<nat>,      // events pending when the drain failed
                           dropped: nat)

  function PushTo(o: Options, s: Shared, e: Event): Shared
    requires Usable(o)
  {
    if s.terminalErr.Some? then s.(dropped := s.dropped + 1)
    else if |s.buf| >= o.bufferSize then s.(buf := s.buf[1..] + [e], dropped := s.dropped + 1)
    else s.(buf := s.buf + [e])
  }

  /** How many events at the head were captured before the cutoff. */
  function StaleCount(buf: seq<Event>, cutoff: int): (n: nat)
    ensures n <= |buf|
    ensures forall i :: 0 <= i < n ==> buf[i].capturedAt < cutoff
    ensures n < |buf| ==> buf[n].capturedAt >= cutoff
  {
    if buf == [] || buf[0].capturedAt >= cutoff then 0 else 1 + StaleCount(buf[1..], cutoff)
  }

  function PruneAt(o: Options, s: Shared, now: int): Shared {
    var n := StaleCount(s.buf, now - o.eventTTL);
    s.(buf := s.buf[n..], dropped := s.dropped + n)
  }

  function TakeBatch(o: Options, s: Shared): Shared
    requires Usable(o)
  {
    if s.inflight != [] then s
    else
      var n := if |s.buf| > o.batchSize then o.batchSize else |s.buf|;
      s.(inflight := s.buf[..n], buf := s.buf[n..])
  }

  function Discard(s: Shared): Shared { s.(inflight := []) }

  function CountDropped(s: Shared, n: nat): Shared { s.(dropped := s.dropped + n) }

  function ReturnToHead(o: Options, s: Shared): Shared
    requires Usable(o)
  {
    if s.inflight == [] then s
    else
      var combined := s.inflight + s.buf;
      var drop := if |combined| > o.bufferSize then |combined| - o.bufferSize else 0;
      s.(buf := combined[drop..], inflight := [], dropped := s.dropped + drop)
  }

  function MakeTerminal(s: Shared, status: int): Shared {
    if s.terminalErr.Some? then s
    else Shared([], [], Some(status), s.drainErr, s.dropped + |s.buf| + |s.inflight|)
  }

  /** The last `n` elements, or all if there are fewer. */
  function Newest(es: seq<Event>, n: nat): seq<Event> {
    if |es| > n then es[|es| - n..] else es
  }

  /** Overflow takes the oldest events: whatever was pending, a push or a returned batch leaves
      the newest that fit, and counts the rest. */
  lemma OverflowKeepsNewest(o: Options, s: Shared, e: Event)
    requires Usable(o) && |s.buf| <= o.bufferSize && s.terminalErr.None?
    ensures PushTo(o, s, e).buf == Newest(s.buf + [e], o.bufferSize)
    ensures PushTo(o, s, e).dropped - s.dropped == |s.buf| + 1 - |PushTo(o, s, e).buf|
    ensures ReturnToHead(o, s).buf == Newest(s.inflight + s.buf, o.bufferSize)
    ensures ReturnToHead(o, s).dropped - s.dropped == |s.inflight| + |s.buf| - |ReturnToHead(o, s).buf|
  {
    assert [] + s.buf == s.buf;
    if |s.buf| == o.bufferSize { assert (s.buf + [e])[1..] == s.buf[1..] + [e]; }
  }

  /** Pruning drops the events at the head that have outlived their time to live, down to the
      first that has not, and counts them. */
  lemma PruneMeaning(o: Options, s: Shared, now: int)
    ensures var s' := PruneAt(o, s, now);
            var n := |s.buf| - |s'.buf|;
            && 0 <= n && s'.buf == s.buf[n..] && s' == s.(buf := s.buf[n..], dropped := s.dropped + n)
            && (forall i :: 0 <= i < n ==> now - s.buf[i].capturedAt > o.eventTTL)
            && (s'.buf != [] ==> now - s'.buf[0].capturedAt <= o.eventTTL)
  {
  }

  /** A batch is the oldest buffered events, as many as fit and as there are. */
  lemma BatchMeaning(o: Options, s: Shared)
    requires Usable(o) && s.inflight == []
    ensures var t := TakeBatch(o, s);
            && t.inflight + t.buf == s.buf && t == s.(inflight := t.inflight, buf := t.buf)
            && |t.inflight| <= o.batchSize && (t.buf != [] ==> |t.inflight| == o.batchSize)
  {
  }

  // ---- replies ----

  datatype Reply = SerialiseFailed | BuildFailed | PostFailed | Status(code: int)
  datatype Verdict = Accepted | Retryable | KeyRejected(status: int) | Poison

  function Classify(r: Reply): Verdict {
    match r
    case SerialiseFailed => Poison
    case BuildFailed => Retryable
    case PostFailed => Retryable
    case Status(c) =>
      if 200 <= c < 300 then Accepted
      else if c == 429 || c >= 500 then Retryable
      else if c == 401 || c == 403 then KeyRejected(c)
      else Poison
  }

  predicate Drops(v: Verdict) { v.KeyRejected? || v.Poison? }

  // ---- the loop ----

  /** Where the loop goroutine stands. `drain` is None in the steady loop, and the number
      of events seen pending when the shutdown drain started this flush. */
  datatype Phase =
    | Waiting
    | Checking(drain: Option<nat>)
    | Taking(drain: Option<nat>)
    | Posting(drain: Option<nat>)
    | Settling(drain: Option<nat>, verdict: Verdict)  // a dropping verdict is already counted
    | Rejecting(drain: Option<nat>, status: int)
    | Failing(drain: Option<nat>)
    | Idle(drain: Option<nat>)                        // the flush found nothing to do
    | Draining
    | Exited

  datatype Label =
    | Push(e: Event)
    | Prune(now: int)
    | StopSeen
    | CheckTerminal
    | Take
    | Respond(reply: Reply)
    | Settle
    | RejectKey
    | ReportFailure
    | Recheck
    | CheckPending

  /** The transport plus its history: everything pushed, everything the cloud accepted,
      how many requests went out, and (pushed, dropped) at the drain's last emptiness check. */
  datatype State = State(shared: Shared, phase: Phase, pushed: seq<Event>, acked: seq<Event>,
                         posts: nat, mark: Option<(nat, nat)>)

  const Init := State(Shared([], [], None, None, 0), Waiting, [], [], 0, None)

  predicate Enabled(s: State, l: Label) {
    match l
    case Push(_) => true
    case Prune(_) => s.phase.Waiting?
    case StopSeen => s.phase.Waiting?
    case CheckTerminal => s.phase.Checking?
    case Take => s.phase.Taking?
    case Respond(_) => s.phase.Posting?
    case Settle => s.phase.Settling?
    case RejectKey => s.phase.Rejecting?
    case ReportFailure => s.phase.Failing?
    case Recheck => s.phase.Idle?
    case CheckPending => s.phase.Draining?
  }

  function AfterSent(drain: Option<nat>): Phase {
    if drain.Some? then Draining else Waiting
  }

  function SettleStep(o: Options, s: State): State
    requires Usable(o) && s.phase.Settling?
  {
    var d := s.phase.drain;
    match s.phase.verdict
    case Accepted => s.(acked := s.acked + s.shared.inflight, shared := Discard(s.shared), phase := AfterSent(d))
    case Retryable => s.(shared := ReturnToHead(o, s.shared), phase := Failing(d))
    case KeyRejected(c) => s.(shared := Discard(s.shared), phase := Rejecting(d, c))
    case Poison => s.(shared := Discard(s.shared), phase := Failing(d))
  }

  function Step(o: Options, s: State, l: Label): State
    requires Usable(o) && Enabled(s, l)
  {
    var sh := s.shared;
    match l
    case Push(e) => s.(shared := PushTo(o, sh, e), pushed := s.pushed + [e])
    case Prune(now) => s.(shared := PruneAt(o, sh, now), phase := Checking(None))
    case StopSeen => s.(phase := Draining)
    case CheckTerminal =>
      s.(phase := if sh.terminalErr.Some? then Idle(s.phase.drain) else Taking(s.phase.drain))
    case Take =>
      var sh' := TakeBatch(o, sh);
      s.(shared := sh', phase := if sh'.inflight == [] then Idle(s.phase.drain) else Posting(s.phase.drain))
    case Respond(r) =>
      var v := Classify(r);
      s.(shared := if Drops(v) then CountDropped(sh, |sh.inflight|) else sh,
         phase := Settling(s.phase.drain, v),
         posts := if r.SerialiseFailed? || r.BuildFailed? then s.posts else s.posts + 1)
    case Settle => SettleStep(o, s)
    case RejectKey =>
      s.(shared := MakeTerminal(sh, s.phase.status), phase := Failing(s.phase.drain))
    case ReportFailure =>
      if s.phase.drain.None? then s.(phase := Waiting)
      else if sh.terminalErr.Some? then s.(phase := Exited)
      else s.(shared := sh.(drainErr := Some(s.phase.drain.value)), phase := Exited)
    case Recheck =>
      s.(phase := if s.phase.drain.None? then Waiting else if sh.terminalErr.Some? then Exited else Draining)
    case CheckPending =>
      var pending := |sh.buf| + |sh.inflight|;
      if pending == 0 then s.(phase := Exited, mark := Some((|s.pushed|, sh.dropped)))
      else s.(phase := Checking(Some(pending)))
  }

  /** `ls` is an interleaving that can happen from `s`. */
  predicate Possible(o: Options, s: State, ls: seq<Label>)
    requires Usable(o)
    decreases |ls|
  {
    ls == [] || (Enabled(s, ls[0]) && Possible(o, Step(o, s, ls[0]), ls[1..]))
  }

  function Run(o: Options, s: State, ls: seq<Label>): State
    requires Usable(o) && Possible(o, s, ls)
    decreases |ls|
  {
    if ls == [] then s else Run(o, Step(o, s, ls[0]), ls[1..])
  }

  // ---- the invariant ----

  /** Acknowledged events, the batch on the wire and the buffer, in that order, are what
      was pushed with some positions deleted. */
  ghost predicate InOrder(s: State) {
    Subsequence(s.acked + s.shared.inflight + s.shared.buf, s.pushed)
  }

  /** Events of the batch on the wire that are not yet in the dropped counter. */
  function Unsettled(s: State): nat {
    if s.phase.Settling? && Drops(s.phase.verdict) then 0 else |s.shared.inflight|
  }

  predicate Conserved(s: State) {
    |s.pushed| == |s.acked| + s.shared.dropped + Unsettled(s) + |s.shared.buf|
  }

  predicate Bounded(o: Options, s: State) {
    |s.shared.buf| <= o.bufferSize && |s.shared.inflight| <= o.batchSize
  }

  predicate PhaseOk(s: State) {
    && (s.shared.inflight != [] <==> s.phase.Posting? || s.phase.Settling?)
    && (s.shared.terminalErr.Some? ==>
          s.shared.buf == [] && s.shared.inflight == [] && !s.phase.Taking? && !s.phase.Rejecting?)
    && (s.shared.drainErr.Some? ==> s.phase.Exited?)
    && (s.mark.Some? ==> s.phase.Exited?)
    && (s.phase.Exited? ==> s.shared.terminalErr.Some? || s.shared.drainErr.Some? || s.mark.Some?)
  }

  /** What the drain's last emptiness check saw: nothing pending, every loss counted. */
  ghost predicate MarkOk(s: State) {
    s.mark.Some? ==>
      && s.shared.drainErr.None?
      && s.mark.value.0 <= |s.pushed|
      && s.mark.value.1 <= s.shared.dropped
      && |s.acked| + s.mark.value.1 == s.mark.value.0
      && Subsequence(s.acked, s.pushed[..s.mark.value.0])
  }

  ghost predicate Inv(o: Options, s: State) {
    Bounded(o, s) && PhaseOk(s) && Conserved(s) && InOrder(s) && MarkOk(s)
  }

  lemma InitInv(o: Options)
    requires Usable(o)
    ensures Inv(o, Init)
  {
    assert Embeds(Init.acked + Init.shared.inflight + Init.shared.buf, Init.pushed, []);
  }

  lemma PushKeeps(o: Options, s: State, e: Event)
    requires Usable(o) && Inv(o, s)
    ensures Inv(o, Step(o, s, Push(e)))
  {
    var s' := Step(o, s, Push(e));
    var sh := s.shared;
    var base := s.acked + sh.inflight + sh.buf;
    if sh.terminalErr.Some? {
      SubsequenceWiden(base, s.pushed, e);
    } else {
      SubsequenceAppend(base, s.pushed, e);
      if |sh.buf| >= o.bufferSize {
        var a := s.acked + sh.inflight;
        assert base + [e] == a + [sh.buf[0]] + (sh.buf[1..] + [e]);
        SubsequenceCut(a, [sh.buf[0]], sh.buf[1..] + [e], s'.pushed);
        assert a + (sh.buf[1..] + [e]) == s'.acked + s'.shared.inflight + s'.shared.buf;
      } else {
        assert base + [e] == s'.acked + s'.shared.inflight + s'.shared.buf;
      }
    }
    if s.mark.Some? { assert s'.pushed[..s.mark.value.0] == s.pushed[..s.mark.value.0]; }
  }

  lemma PruneKeeps(o: Options, s: State, now: int)
    requires Usable(o) && Inv(o, s) && s.phase.Waiting?
    ensures Inv(o, Step(o, s, Prune(now)))
  {
    var sh := s.shared;
    var n := StaleCount(sh.buf, now - o.eventTTL);
    var a := s.acked + sh.inflight;
    assert a + sh.buf == a + sh.buf[..n] + sh.buf[n..];
    SubsequenceCut(a, sh.buf[..n], sh.buf[n..], s.pushed);
  }

  lemma TakeKeeps(o: Options, s: State)
    requires Usable(o) && Inv(o, s) && s.phase.Taking?
    ensures Inv(o, Step(o, s, Take))
  {
    var s' := Step(o, s, Take);
    assert s'.shared.inflight + s'.shared.buf == s.shared.buf;
    assert s'.acked + s'.shared.inflight + s'.shared.buf == s.acked + s.shared.inflight + s.shared.buf;
  }

  lemma SettleKeeps(o: Options, s: State)
    requires Usable(o) && Inv(o, s) && s.phase.Settling?
    ensures Inv(o, Step(o, s, Settle))
  {
    var s' := Step(o, s, Settle);
    var sh := s.shared;
    var all := s.acked + sh.inflight + sh.buf;
    match s.phase.verdict
    case Accepted =>
      assert all == s'.acked + s'.shared.inflight + s'.shared.buf;
    case Retryable =>
      var combined := sh.inflight + sh.buf;
      var drop := if |combined| > o.bufferSize then |combined| - o.bufferSize else 0;
      assert all == s.acked + combined[..drop] + combined[drop..];
      SubsequenceCut(s.acked, combined[..drop], combined[drop..], s.pushed);
      assert s.acked + combined[drop..] == s'.acked + s'.shared.inflight + s'.shared.buf;
    case _ =>
      SubsequenceCut(s.acked, sh.inflight, sh.buf, s.pushed);
      assert s.acked + sh.buf == s'.acked + s'.shared.inflight + s'.shared.buf;
  }

  lemma RejectKeeps(o: Options, s: State)
    requires Usable(o) && Inv(o, s) && s.phase.Rejecting?
    ensures Inv(o, Step(o, s, RejectKey))
  {
    var sh := s.shared;
    assert s.acked + sh.inflight + sh.buf == s.acked + (sh.inflight + sh.buf) + [];
    SubsequenceCut(s.acked, sh.inflight + sh.buf, [], s.pushed);
    assert s.acked + [] == s.acked + [] + [];
  }

  lemma CheckPendingKeeps(o: Options, s: State)
    requires Usable(o) && Inv(o, s) && s.phase.Draining?
    ensures Inv(o, Step(o, s, CheckPending))
  {
    assert s.pushed[..|s.pushed|] == s.pushed;
    if s.shared.buf == [] && s.shared.inflight == [] {
      assert s.acked + s.shared.inflight + s.shared.buf == s.acked;
    }
  }

  lemma StepKeeps(o: Options, s: State, l: Label)
    requires Usable(o) && Inv(o, s) && Enabled(s, l)
    ensures Inv(o, Step(o, s, l))
  {
    match l
    case Push(e) => PushKeeps(o, s, e);
    case Prune(now) => PruneKeeps(o, s, now);
    case Take => TakeKeeps(o, s);
    case Settle => SettleKeeps(o, s);
    case RejectKey => RejectKeeps(o, s);
    case CheckPending => CheckPendingKeeps(o, s);
    case _ =>
  }

  lemma {:induction false} RunKeeps(o: Options, s: State, ls: seq<Label>)
    requires Usable(o) && Inv(o, s) && Possible(o, s, ls)
    ensures Inv(o, Run(o, s, ls))
    decreases |ls|
  {
    if ls != [] {
      StepKeeps(o, s, ls[0]);
      RunKeeps(o, Step(o, s, ls[0]), ls[1..]);
    }
  }

  /** Safety of every interleaving: nothing reordered, nothing duplicated, every event
      accounted for, and the buffer within its bound. */
  lemma EveryInterleavingIsSafe(o: Options, ls: seq<Label>)
    requires Usable(o) && Possible(o, Init, ls)
    ensures var s := Run(o, Init, ls);
            && Subsequence(s.acked + s.shared.inflight + s.shared.buf, s.pushed)
            && |s.pushed| == |s.acked| + s.shared.dropped + Unsettled(s) + |s.shared.buf|
            && |s.shared.buf| <= o.bufferSize
            && |s.shared.inflight| <= o.batchSize
  {
    InitInv(o);
    RunKeeps(o, Init, ls);
  }

  // ---- terminal state ----

  function Pushes(ls: seq<Label>): nat {
    if ls == [] then 0 else (if ls[0].Push? then 1 else 0) + Pushes(ls[1..])
  }

  /** Once the key is rejected the transport stays silent and empty whatever follows:
      no further request is made, and every later push is a drop. */
  lemma {:induction false} TerminalIsSticky(o: Options, s: State, ls: seq<Label>)
    requires Usable(o) && Inv(o, s) && s.shared.terminalErr.Some? && Possible(o, s, ls)
    ensures var s' := Run(o, s, ls);
            && s'.shared.terminalErr == s.shared.terminalErr
            && s'.shared.buf == [] && s'.shared.inflight == []
            && s'.posts == s.posts && s'.acked == s.acked
            && s'.shared.dropped == s.shared.dropped + Pushes(ls)
    decreases |ls|
  {
    hide Inv, Step;
    if ls != [] {
      StepKeeps(o, s, ls[0]);
      TerminalStep(o, s, ls[0]);
      TerminalIsSticky(o, Step(o, s, ls[0]), ls[1..]);
    } else {
      TerminalIsEmpty(o, s);
    }
  }

  lemma TerminalIsEmpty(o: Options, s: State)
    requires Inv(o, s) && s.shared.terminalErr.Some?
    ensures s.shared.buf == [] && s.shared.inflight == []
  {
  }

  lemma TerminalStep(o: Options, s: State, l: Label)
    requires Usable(o) && Inv(o, s) && s.shared.terminalErr.Some? && Enabled(s, l)
    ensures var s' := Step(o, s, l);
            && s'.shared.terminalErr == s.shared.terminalErr
            && s'.posts == s.posts && s'.acked == s.acked
            && s'.shared.dropped == s.shared.dropped + if l.Push? then 1 else 0
  {
    TerminalIsEmpty(o, s);
    assert PhaseOk(s);
    hide Inv, MarkOk, InOrder;
  }

  // ---- shutdown verdict ----

  /** What Stop returns once the loop has exited. */
  datatype StopResult = Delivered | KeyWasRejected(status: int) | Undelivered(pending: nat)

  function StopVerdict(s: Shared): StopResult {
    if s.terminalErr.Some? then KeyWasRejected(s.terminalErr.value)
    else if s.drainErr.Some? then Undelivered(s.drainErr.value)
    else Delivered
  }

  /** A nil verdict means the drain's last emptiness check found nothing pending; the
      events pushed before it are the acknowledged ones plus the counted losses, and all
      of them were acknowledged exactly when no loss had been counted. */
  lemma NilVerdictMeaning(o: Options, ls: seq<Label>)
    requires Usable(o) && Possible(o, Init, ls)
    requires Run(o, Init, ls).phase.Exited? && StopVerdict(Run(o, Init, ls).shared).Delivered?
    ensures var s := Run(o, Init, ls);
            && s.mark.Some? && s.mark.value.0 <= |s.pushed|
            && |s.acked| + s.mark.value.1 == s.mark.value.0
            && Subsequence(s.acked, s.pushed[..s.mark.value.0])
            && (s.acked == s.pushed[..s.mark.value.0] <==> s.mark.value.1 == 0)
            && (s.shared.dropped == 0 ==> s.acked == s.pushed[..s.mark.value.0])
  {
    InitInv(o);
    RunKeeps(o, Init, ls);
    var s := Run(o, Init, ls);
    SubsequenceLength(s.acked, s.pushed[..s.mark.value.0]);
  }

  /** "nil means every recorded event was handed to the cloud" is too strong: one overflow
      drop before a clean shutdown still ends in nil. */
  lemma NilVerdictCanHideLoss(a: Event, b: Event)
    requires a != b
    ensures var o := Options(1, 1, 1);
            var ls := [Push(a), Push(b), StopSeen, CheckPending, CheckTerminal, Take,
                       Respond(Status(200)), Settle, CheckPending];
            && Possible(o, Init, ls)
            && var s := Run(o, Init, ls);
            && s.phase.Exited? && StopVerdict(s.shared).Delivered?
            && s.pushed == [a, b] && s.acked == [b]
  {
    var o := Options(1, 1, 1);
    var full, held := Shared([b], [], None, None, 1), Shared([], [b], None, None, 1);
    var s2 := State(full, Waiting, [a, b], [], 0, None);
    var s6 := State(held, Posting(Some(1)), [a, b], [], 0, None);
    var rest := [Respond(Status(200)), Settle, CheckPending];
    LossEnds(a, b, s6, rest);
    Prepend(o, s2.(phase := Taking(Some(1))), Take, s6, rest);
    Prepend(o, s2.(phase := Checking(Some(1))), CheckTerminal, s2.(phase := Taking(Some(1))), [Take] + rest);
    Prepend(o, s2.(phase := Draining), CheckPending, s2.(phase := Checking(Some(1))), [CheckTerminal] + ([Take] + rest));
    LossBegins(a, b, s2);
    var tail := [CheckPending] + ([CheckTerminal] + ([Take] + rest));
    Prepend(o, s2, StopSeen, s2.(phase := Draining), tail);
    Prepend(o, Step(o, Init, Push(a)), Push(b), s2, [StopSeen] + tail);
    Prepend(o, Init, Push(a), Step(o, Init, Push(a)), [Push(b)] + ([StopSeen] + tail));
    assert [Push(a)] + ([Push(b)] + ([StopSeen] + tail)) ==
           [Push(a), Push(b), StopSeen, CheckPending, CheckTerminal, Take, Respond(Status(200)), Settle, CheckPending];
  }

  lemma LossBegins(a: Event, b: Event, s2: State)
    requires s2 == State(Shared([b], [], None, None, 1), Waiting, [a, b], [], 0, None)
    ensures Step(Options(1, 1, 1), Step(Options(1, 1, 1), Init, Push(a)), Push(b)) == s2
  {
  }

  lemma LossEnds(a: Event, b: Event, s: State, ls: seq<Label>)
    requires s == State(Shared([], [b], None, None, 1), Posting(Some(1)), [a, b], [], 0, None)
    requires ls == [Respond(Status(200)), Settle, CheckPending]
    ensures var o := Options(1, 1, 1);
            && Possible(o, s, ls)
            && Run(o, s, ls) == State(Shared([], [], None, None, 1), Exited, [a, b], [b], 1, Some((2, 1)))
  {
    var o := Options(1, 1, 1);
    var s1 := Step(o, s, ls[0]);
    var s2 := Step(o, s1, Settle);
    var s3 := Step(o, s2, CheckPending);
    FollowOne(o, s2, s3, ls[2..]);
    FollowOne(o, s1, s3, ls[1..]);
    FollowOne(o, s, s3, ls);
  }

  lemma Prepend(o: Options, s: State, l: Label, next: State, ls: seq<Label>)
    requires Usable(o) && Enabled(s, l) && Step(o, s, l) == next && Possible(o, next, ls)
    ensures Possible(o, s, [l] + ls) && Run(o, s, [l] + ls) == Run(o, next, ls)
  {
    assert ([l] + ls)[1..] == ls;
  }

  /** Prepends one step to a run. */
  lemma FollowOne(o: Options, s: State, end: State, ls: seq<Label>)
    requires Usable(o) && ls != [] && Enabled(s, ls[0])
    requires Possible(o, Step(o, s, ls[0]), ls[1..]) && Run(o, Step(o, s, ls[0]), ls[1..]) == end
    ensures Possible(o, s, ls) && Run(o, s, ls) == end
  {
  }
}
