/** What single steps of the device protocol give and leave behind, in the terms of the store and
    the operations alone. */
module DeviceSteps {
  import opened Wrappers
  import opened ClearanceSpec
  import opened DeviceProtocol
  import opened DeviceInvariants
  import opened DeviceTheorems

  /** The step adds one call, for the source, and leaves the other calls, the lock and the loops. */
  ghost predicate AddsCall(s: State, t: State, k: Key) {
    && |t.calls| == |s.calls| + 1 && t.calls[..|s.calls|] == s.calls && t.calls[|s.calls|].key == k
    && t.holder == s.holder && t.warm == s.warm && t.loop == s.loop && t.gate == s.gate
    && |s.ops| <= |t.ops| <= |s.ops| + 1 && t.ops[..|s.ops|] == s.ops
  }

  /** The new call has ended with this. */
  predicate AnsweredAtOnce(s: State, t: State, x: Option<Clearance>)
    requires |t.calls| > |s.calls|
  {
    var pc := t.calls[|s.calls|].pc;
    pc == Ended(Given(x, if x.Some? then Lookup(s.store.expiresAt, t.calls[|s.calls|].key) else None), s.clock)
    && t.ops == s.ops && t.store == s.store && t.inflight == s.inflight
  }

  /** The new call waits for a solve of its source that is not over, shared with all who ask for it. */
  predicate WaitsForSolve(s: State, t: State, p: Snapshot)
    requires |t.calls| > |s.calls|
  {
    var call := t.calls[|s.calls|];
    && call.pc.Awaiting? && KnownOp(t, call.pc.op) && SnapshotOf(call.kind) == p && call.kind.Get?
    && var op := t.ops[call.pc.op];
       && op.kind.SolveOp? && op.key == call.key && op.shared && !op.defer && !Over(op.pc)
       && t.inflight == s.inflight[call.key := call.pc.op]
       && (call.pc.op < |s.ops| ==> t.ops == s.ops && call.key in s.inflight)
  }

  /** In every reached state: an unforced call for a clearance is given what is held, at once and
      changing nothing. With nothing held it is given nothing for a source the device does not
      solve, for one that holds its page, or if it is a mere peek; and otherwise, and only then,
      it waits for a solve of the source, with nothing to fall back on. */
  lemma UnforcedCall(s: State, c: Config, startup: bool, es: seq<Event>, k: Key, solveIfMissing: bool)
    requires Reached(s, c, startup, es)
    ensures var t := Apply(s, c, CallGet(k, false, solveIfMissing));
            && AddsCall(s, t, k) && t.store == s.store
            && (k in s.store.held ==> AnsweredAtOnce(s, t, Some(s.store.held[k])))
            && (k !in s.store.held && (k !in c.challenge || k in c.warmLast || !solveIfMissing) ==>
                  AnsweredAtOnce(s, t, None))
            && (k !in s.store.held && k in c.challenge && k !in c.warmLast && solveIfMissing ==>
                  WaitsForSolve(s, t, Snapshot(None, None)))
  {
    ReachedInv(s, c, startup, es);
    if Joinable(s, k) {
      assert s.inflight[k := s.inflight[k]] == s.inflight;
    }
  }

  predicate InWindow(s: State, k: Key) {
    s.clock < if k in s.store.blockUntil then s.store.blockUntil[k] else 0
  }

  predicate StillGood(s: State, k: Key) {
    k in s.store.held && (k in s.store.expiresAt ==> s.clock < s.store.expiresAt[k])
  }

  function Discarded(s: State, k: Key): Store {
    Store(s.store.held - {k}, s.store.expiresAt - {k}, s.store.blockUntil)
  }

  lemma ForcedServes(s: State, c: Config, k: Key, m: bool)
    requires k in c.challenge && k !in c.warmLast && InWindow(s, k) && StillGood(s, k)
    ensures var t := Apply(s, c, CallGet(k, true, m)); AddsCall(s, t, k) && AnsweredAtOnce(s, t, Some(s.store.held[k]))
  {
  }

  lemma ForcedSolves(s: State, c: Config, k: Key, m: bool)
    requires RegistryOk(s.ops, s.inflight) && OpsOk(s.ops, c, s.minted)
    requires k in c.challenge && k !in c.warmLast && !(InWindow(s, k) && StillGood(s, k))
    ensures var t := Apply(s, c, CallGet(k, true, m));
            && AddsCall(s, t, k) && t.store == Discarded(s, k)
            && WaitsForSolve(s, t, Snapshot(Lookup(s.store.held, k), Lookup(s.store.expiresAt, k)))
  {
    var p := Snapshot(Lookup(s.store.held, k), Lookup(s.store.expiresAt, k));
    var u := s.(store := Discarded(s, k));
    assert Apply(s, c, CallGet(k, true, m)) == AwaitShared(u, Get(true, p), k);
    SharedWaits(u, c, true, k, p);
  }

  lemma SharedWaits(s: State, c: Config, force: bool, k: Key, p: Snapshot)
    requires RegistryOk(s.ops, s.inflight) && OpsOk(s.ops, c, s.minted)
    ensures var t := AwaitShared(s, Get(force, p), k); AddsCall(s, t, k) && WaitsForSolve(s, t, p) && t.store == s.store
  {
    if Joinable(s, k) {
      assert s.inflight[k := s.inflight[k]] == s.inflight && OpOk(s.ops[s.inflight[k]], c, s.minted);
    }
  }

  lemma ForcedEvals(s: State, c: Config, k: Key, m: bool)
    requires k in c.challenge && k in c.warmLast
    ensures var t := Apply(s, c, CallGet(k, true, m));
            AddsCall(s, t, k) && t.store == Discarded(s, k) && WaitsForEval(s, t)
  {
  }

  /** The new call, of a page holder, waits for an eval of its own that asks for the clearance. */
  predicate WaitsForEval(s: State, t: State)
    requires |t.calls| > |s.calls|
  {
    var call := t.calls[|s.calls|];
    && call.kind.Holder? && call.pc == Awaiting(|s.ops|) && |t.ops| == |s.ops| + 1 && t.inflight == s.inflight
    && t.ops[|s.ops|] == Op(EvalOp(true), call.key, false, false, 1, Queued, 0, 0)
  }

  /** In every reached state: a forced call is given what is held exactly inside a block window and
      ahead of its expiry. Otherwise it has discarded that, and waits for a solve of the source
      with what it discarded, or for a page holder for an eval of its own. */
  lemma ForcedCall(s: State, c: Config, startup: bool, es: seq<Event>, k: Key, m: bool)
    requires Reached(s, c, startup, es) && k in c.challenge
    ensures var t := Apply(s, c, CallGet(k, true, m));
            && AddsCall(s, t, k)
            && (k !in c.warmLast && InWindow(s, k) && StillGood(s, k) ==> AnsweredAtOnce(s, t, Some(s.store.held[k])))
            && (k !in c.warmLast && !(InWindow(s, k) && StillGood(s, k)) ==>
                  && WaitsForSolve(s, t, Snapshot(Lookup(s.store.held, k), Lookup(s.store.expiresAt, k)))
                  && t.store == Discarded(s, k))
            && (k in c.warmLast ==> WaitsForEval(s, t) && t.store == Discarded(s, k))
  {
    ReachedInv(s, c, startup, es);
    if k in c.warmLast {
      ForcedEvals(s, c, k, m);
    } else if InWindow(s, k) && StillGood(s, k) {
      ForcedServes(s, c, k, m);
    } else {
      ForcedSolves(s, c, k, m);
    }
  }

  // ------------------------------------------------------------ the end of a call

  /** What call `i` has ended with. */
  predicate EndedWith(s: State, i: nat, r: Result, at: Time) {
    KnownCall(s, i) && s.calls[i].pc == Ended(r, at)
  }

  /** The clearance is held in the place of what was, and its expiry tracked: its own, or the end
      of the source's configured lifetime where that is sooner or all there is. */
  predicate TakesOver(s: Store, t: Store, c: Config, k: Key, x: Clearance, expiry: Option<Time>, now: Time) {
    var cap := if k in c.lifetime then Some(now + c.lifetime[k]) else None;
    var sooner := if expiry.None? || (cap.Some? && cap.value < expiry.value) then cap else expiry;
    && t.held == s.held[k := x] && t.blockUntil == s.blockUntil
    && t.expiresAt == if sooner.Some? then s.expiresAt[k := sooner.value] else s.expiresAt - {k}
  }

  /** A call for a clearance that waited for a solve: it is given what the solve brought; if that
      ran into a block window, what it had discarded, while that is ahead of its expiry, which is
      held again; else what is held by then, while that is; and otherwise it raises. */
  lemma SolvedCallEnds(s: State, c: Config, i: nat)
    requires CanResume(s, i) && s.calls[i].kind.Get?
    ensures var call, o, t := s.calls[i], s.ops[s.calls[i].pc.op].pc.outcome, Apply(s, c, CallResume(i));
            var p := call.kind.snapshot;
            var usable := p.clearance.Some? && (p.expiry.Some? ==> s.clock < p.expiry.value);
            && (o.Minted? && o.clearance.Some? ==>
                  && TakesOver(s.store, t.store, c, call.key, o.clearance.value, o.expiry, s.clock)
                  && EndedWith(t, i, Given(o.clearance, Lookup(t.store.expiresAt, call.key)), s.clock))
            && (o.Blocked? && usable ==>
                  && t.store.held == s.store.held[call.key := p.clearance.value]
                  && t.store.blockUntil == s.store.blockUntil
                  && t.store.expiresAt
                     == (if p.expiry.Some? then s.store.expiresAt[call.key := p.expiry.value] else s.store.expiresAt)
                  && EndedWith(t, i, Given(p.clearance, p.expiry), s.clock))
            && (o.Blocked? && !usable ==>
                  && t.store == s.store
                  && EndedWith(t, i, if StillGood(s, call.key)
                                     then Given(Some(s.store.held[call.key]), Lookup(s.store.expiresAt, call.key))
                                     else Raised(Blocked), s.clock))
            && (o.Deferred? || o.Failed? ==> t.store == s.store && EndedWith(t, i, Raised(o), s.clock))
  {
  }

  /** Any other call. A page holder's forced call and a prime never raise, and keep a clearance if
      their eval brought one; a refresh raises, and keeps the clearance if its solve brought one;
      and a plain eval never touches the store. */
  lemma OtherCallEnds(s: State, c: Config, i: nat)
    requires CanResume(s, i) && !s.calls[i].kind.Get?
    ensures var call, o, t := s.calls[i], s.ops[s.calls[i].pc.op].pc.outcome, Apply(s, c, CallResume(i));
            && (if !call.kind.Plain? && o.Minted? && o.clearance.Some?
                then TakesOver(s.store, t.store, c, call.key, o.clearance.value, o.expiry, s.clock)
                else t.store == s.store)
            && EndedWith(t, i, if call.kind.Plain? then (if o.Minted? then Given(None, None) else Raised(o))
                               else if o.Minted? then Given(o.clearance, None)
                               else if call.kind.Refresh? then Raised(o) else Given(None, None), s.clock)
  {
  }

  // ------------------------------------------------------- the end of an attempt

  /** A failed POST gives the lock back. A solve that failed as slowly as the sidecar polls is over
      and opens its source's window, for the whole backoff; one that failed faster is tried again
      while it may; an eval is not. */
  lemma FailedPost(s: State, c: Config, o: nat)
    requires Can(s, c, OpStep(o, ReplyFail))
    ensures var op, t := s.ops[o], Apply(s, c, OpStep(o, ReplyFail));
            var slow := op.kind.SolveOp? && s.clock - op.pc.since >= c.threshold;
            && t.holder == None
            && t.ops[o].pc == (if slow then Finished(Blocked)
                               else if op.kind.SolveOp? && op.attempt < c.maxAttempts then RetrySleep
                               else Finished(Failed))
            && t.store == s.store.(blockUntil := if slow then s.store.blockUntil[op.key := s.clock + c.backoff]
                                                 else s.store.blockUntil)
  {
  }

  /** A POST that works gives the lock back, and its operation is over with what it brought: a new
      clearance, for a solve or for an eval that asked for one and got it. A solve also lifts its
      source's block window. */
  lemma GoodPost(s: State, c: Config, o: nat, expiry: Option<Time>, extracted: bool)
    requires Can(s, c, OpStep(o, ReplyOk(expiry, extracted)))
    ensures var op, t := s.ops[o], Apply(s, c, OpStep(o, ReplyOk(expiry, extracted)));
            var brings := op.kind.SolveOp? || (op.kind.extracts && extracted);
            && t.holder == None && t.minted == s.minted + 1
            && t.ops[o].pc == Finished(if brings then Minted(Some(s.minted), expiry) else Minted(None, None))
            && t.store == s.store.(blockUntil := if op.kind.SolveOp? then s.store.blockUntil - {op.key}
                                                 else s.store.blockUntil)
  {
  }

  /** Waiting for the lock: once had, the operation POSTs, or gives way to a lease if it may; not
      had in time, a solve is tried again while it may, and an eval is not. An operation that waits
      to be tried again takes its place in the queue. */
  lemma LockHadOrNot(s: State, c: Config, o: nat, got: bool)
    requires KnownOp(s, o)
    ensures Can(s, c, OpStep(o, Acquire)) ==>
              var t := Apply(s, c, OpStep(o, Acquire));
              if s.ops[o].defer && s.gate.foreground > 0 then t.ops[o].pc == Finished(Deferred) && t.holder == None
              else t.ops[o].pc == Posting(s.clock, 1) && t.holder == Some(o)
    ensures Can(s, c, OpStep(o, AcquireTimeout(got))) ==>
              var t := Apply(s, c, OpStep(o, AcquireTimeout(got)));
              && t.holder == s.holder && t.store == s.store
              && t.ops[o].pc == if s.ops[o].kind.SolveOp? && s.ops[o].attempt < c.maxAttempts then RetrySleep
                                else Finished(Failed)
    ensures Can(s, c, OpStep(o, RetryWake)) ==>
              var t := Apply(s, c, OpStep(o, RetryWake));
              t.ops[o].pc == Queued && t.ops[o].attempt == s.ops[o].attempt + 1
  {
  }

  // ---------------------------------------------------------------- the loops

  /** A refresh tick comes to a tracked source: it starts a solve of it, deferring to the
      foreground, exactly when no page holds it, it is not solved on demand, it is not in a block
      window, and its expiry was no further off than `lead` when the tick began; else it goes on. */
  lemma RefreshSolvesExactlyWhen(s: State, c: Config, now: Time, k: Key, expiry: Time, rest: seq<(Key, Time)>)
    requires s.loop == Ticking(now, [(k, expiry)] + rest)
    ensures Can(s, c, RefreshStep)
    ensures var t := Apply(s, c, RefreshStep);
            && t.store == s.store && t.holder == s.holder && t.inflight == s.inflight
            && if k !in c.warmLast && k !in c.onDemand && !InWindow(s, k) && expiry - now <= c.lead then
                 && t.loop == AwaitRefresh(|s.calls|, now, rest)
                 && t.ops == s.ops + [Op(SolveOp, k, true, false, 1, Queued, 0, 0)]
                 && t.calls == s.calls + [Call(Refresh, k, true, s.minted, Awaiting(|s.ops|))]
               else t.loop == Ticking(now, rest) && t.ops == s.ops && t.calls == s.calls
  {
    assert ([(k, expiry)] + rest)[1..] == rest;
  }

  /** After its solve a tick goes on with the rest, unless the solve gave way, which ends it; with
      nothing left it is over; and none begins while somebody has a lease. */
  lemma RefreshGoesOn(s: State, c: Config, todo: seq<(Key, Time)>)
    ensures s.loop.AwaitRefresh? && Can(s, c, RefreshStep) ==>
              var call := s.calls[s.loop.call];
              Apply(s, c, RefreshStep)
              == s.(loop := if call.pc.Ended? && call.pc.result == Raised(Deferred) then Resting
                            else Ticking(s.loop.now, s.loop.todo))
    ensures s.loop.Ticking? && s.loop.todo == [] ==>
              Can(s, c, RefreshStep) && Apply(s, c, RefreshStep) == s.(loop := Resting)
    ensures Can(s, c, RefreshTick(todo)) ==>
              Apply(s, c, RefreshTick(todo)) == if s.gate.foreground > 0 then s else s.(loop := Ticking(s.clock, todo))
  {
  }

  /** `warm` comes to a source in its first pass: it asks for its clearance, deferring, exactly when
      no page holds it and it is not solved on demand; in its second pass it primes exactly those a
      page holds that are not; and so on to the end of both. */
  lemma WarmVisits(s: State, c: Config, k: Key, rest: seq<Key>)
    ensures s.warm == Solving([k] + rest) ==>
              var t := Apply(s, c, WarmStep);
              if k in c.warmLast || k in c.onDemand then t == s.(warm := Solving(rest))
              else t.warm == AwaitSolve(|s.calls|, rest) && |t.calls| == |s.calls| + 1 && t.calls[|s.calls|].key == k
                   && t.calls[|s.calls|].defer && t.calls[|s.calls|].kind.Get?
    ensures s.warm == Priming([k] + rest) ==>
              var t := Apply(s, c, WarmStep);
              if k !in c.warmLast || k in c.onDemand then t == s.(warm := Priming(rest))
              else t.warm == AwaitPrime(|s.calls|, rest)
                   && t.ops == s.ops + [Op(EvalOp(true), k, false, false, 1, Queued, 0, 0)]
                   && t.calls == s.calls + [Call(Prime, k, false, s.minted, Awaiting(|s.ops|))]
    ensures s.warm == NotStarted ==>
              Apply(s, c, WarmStep) == s.(warm := Solving(c.challenge), gate := s.gate.(armed := true))
    ensures s.warm == Solving([]) ==> Apply(s, c, WarmStep) == s.(warm := Priming(c.challenge))
    ensures s.warm == Priming([]) ==>
              Apply(s, c, WarmStep) == s.(warm := WarmOver(true), gate := s.gate.(complete := true))
  {
    assert ([k] + rest)[1..] == rest;
  }

  /** Stopping `warm` cancels what it waits for, opens the gate all the same and reports nothing more. */
  lemma WarmStops(s: State, c: Config)
    requires Can(s, c, WarmStop)
    ensures var t := Apply(s, c, WarmStop);
            && t.warm == WarmOver(false) && t.gate == s.gate.(complete := true) && t.failed == s.failed
            && t.store == s.store
            && (s.warm.AwaitSolve? || s.warm.AwaitPrime? ==>
                  (CanCancel(s, s.warm.call) ==> t.calls[s.warm.call].pc.Cancelled?))
            && |t.calls| == |s.calls|
            && forall i | 0 <= i < |s.calls| ::
                 t.calls[i] == s.calls[i]
                 || (t.calls[i].pc.Cancelled? && (s.warm.AwaitSolve? || s.warm.AwaitPrime?) && s.warm.call == i)
  {
  }

  /** Cancelling a caller ends its call. Its own operation is given up and gives back the lock if it
      has it; a shared one, the store and all others stay as they are. */
  lemma CallerCancelled(s: State, c: Config, i: nat)
    requires Can(s, c, CallCancel(i))
    ensures var t := Apply(s, c, CallCancel(i));
            var o := s.calls[i].pc.op;
            && t.calls == s.calls[i := s.calls[i].(pc := Cancelled)] && t.store == s.store && t.inflight == s.inflight
            && (s.ops[o].shared ==> t.ops == s.ops && t.holder == s.holder)
            && (!s.ops[o].shared ==>
                  && (if Over(s.ops[o].pc) then t.ops[o] == s.ops[o] else t.ops[o].pc == Abandoned)
                  && t.holder == (if s.holder == Some(o) then None else s.holder)
                  && forall q | 0 <= q < |s.ops| && q != o :: t.ops[q] == s.ops[q])
  {
  }

  /** A foreground sequence takes its lease at once, unless the gate is armed and not yet open, when
      it waits; it takes it when it is let go or loses patience; and it gives it back once. */
  lemma Sessions(s: State, c: Config, e: SessionEvent)
    requires Can(s, c, Session(e))
    ensures var g, t := s.gate, Apply(s, c, Session(e));
            var waits := e.Arrive? && g.armed && !g.complete;
            && t == s.(gate := t.gate)
            && t.gate.foreground == g.foreground + (if e.Leave? then -1 else if e.GiveUp? || waits then 0 else 1)
            && t.gate.waiting == g.waiting + (if waits then 1 else if e.Wake? || e.Timeout? || e.GiveUp? then -1 else 0)
            && t.gate.timeouts == g.timeouts + (if e.Timeout? then 1 else 0)
            && t.gate.armed == g.armed && t.gate.complete == g.complete
  {
  }

  /** A plain eval and a prime each add a call that waits for an eval of its own, which asks for the
      clearance in a prime's case only. */
  lemma EvalAndPrimeCalls(s: State, c: Config, k: Key)
    ensures var t := Apply(s, c, CallEval(k));
            && t.calls == s.calls + [Call(Plain, k, false, s.minted, Awaiting(|s.ops|))]
            && t.ops == s.ops + [Op(EvalOp(false), k, false, false, 1, Queued, 0, 0)]
            && t.store == s.store && t.holder == s.holder && t.inflight == s.inflight
    ensures Can(s, c, CallPrime(k)) ==>
              var t := Apply(s, c, CallPrime(k));
              && t.calls == s.calls + [Call(Prime, k, false, s.minted, Awaiting(|s.ops|))]
              && t.ops == s.ops + [Op(EvalOp(true), k, false, false, 1, Queued, 0, 0)]
              && t.store == s.store && t.holder == s.holder && t.inflight == s.inflight
  {
  }

  /** A finished task's callback frees its key's slot where it is still its own, and no other. */
  lemma CallbackFreesOwn(s: State, c: Config, o: nat)
    requires Can(s, c, OpCallback(o))
    ensures var t := Apply(s, c, OpCallback(o));
            && t == s.(inflight := t.inflight)
            && forall k :: k in t.inflight <==> k in s.inflight && !(k == s.ops[o].key && s.inflight[k] == o)
    ensures var t := Apply(s, c, OpCallback(o)); forall k | k in t.inflight :: t.inflight[k] == s.inflight[k]
  {
  }

  /** Stopping a tick cancels the solve it waits for, and the tick is over. */
  lemma RefreshStops(s: State, c: Config)
    requires Can(s, c, RefreshStop)
    ensures var t := Apply(s, c, RefreshStop);
            && t.loop == Resting && t.store == s.store && t.inflight == s.inflight && |t.calls| == |s.calls|
            && (s.loop.AwaitRefresh? && CanCancel(s, s.loop.call) ==> t.calls[s.loop.call].pc.Cancelled?)
            && forall i | 0 <= i < |s.calls| ::
                 t.calls[i] == s.calls[i] || (t.calls[i].pc.Cancelled? && s.loop.AwaitRefresh? && s.loop.call == i)
  {
  }

  /** A busy sidecar: the operation keeps the lock, and with it the time it took it, and POSTs
      again after a pause, once more each time while attempts are left. */
  lemma BusyRetries(s: State, c: Config, o: nat)
    ensures Can(s, c, OpStep(o, Busy)) ==>
              var t := Apply(s, c, OpStep(o, Busy));
              && s.ops[o].pc.posts < c.busyAttempts && t.holder == s.holder
              && t.ops[o] == s.ops[o].(pc := BusySleep(s.ops[o].pc.since, s.ops[o].pc.posts))
    ensures Can(s, c, OpStep(o, BusyWake)) ==>
              var t := Apply(s, c, OpStep(o, BusyWake));
              && t.holder == s.holder
              && t.ops[o] == s.ops[o].(pc := Posting(s.ops[o].pc.since, s.ops[o].pc.posts + 1))
  {
  }
}
