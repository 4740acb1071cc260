/** What the gateway's device protocol promises, over every run from the start. */
module DeviceTheorems {
  import opened Wrappers
  import opened ClearanceSpec
  import opened DeviceProtocol
  import opened DeviceInvariants

  /** A state some run reaches. */
  ghost predicate Reached(s: State, c: Config, startup: bool, es: seq<Event>) {
    Run(Start(startup), c, es) && After(Start(startup), c, es) == s
  }

  lemma ReachedInv(s: State, c: Config, startup: bool, es: seq<Event>)
    requires Reached(s, c, startup, es)
    ensures Inv(s, c)
  {
    InvStart(c, startup);
    InvAfter(Start(startup), c, es);
  }

  // ------------------------------------------------------ the device lock

  /** At most one POST is in flight; the lock is released exactly once for each time it was
      taken, whichever way the operation went, but for the one hold that may go on; and one hold
      makes at most the busy attempts of POSTs. */
  lemma OneAtTheSidecar(s: State, c: Config, startup: bool, es: seq<Event>, o: nat, q: nat)
    requires Reached(s, c, startup, es) && KnownOp(s, o) && KnownOp(s, q)
    ensures s.ops[o].pc.Posting? && s.ops[q].pc.Posting? ==> o == q
    ensures s.ops[o].acquired == s.ops[o].released + if s.holder == Some(o) then 1 else 0
    ensures Over(s.ops[o].pc) ==> s.ops[o].acquired == s.ops[o].released
    ensures s.ops[o].pc.Posting? ==> s.ops[o].pc.posts <= AtLeastOne(c.busyAttempts)
    ensures s.ops[o].attempt <= AtLeastOne(c.maxAttempts)
  {
    ReachedInv(s, c, startup, es);
    assert OpOk(s.ops[o], c, s.minted);
  }

  /** An operation makes the first POST of an attempt. */
  predicate FirstPost(s: State, t: State, o: nat) {
    KnownOp(s, o) && KnownOp(t, o) && !Holding(s.ops[o].pc) && t.ops[o].pc.Posting?
  }

  lemma OldOpsStay(s: State, c: Config, e: Event, o: nat)
    requires Can(s, c, e) && KnownOp(s, o) && !(e.OpStep? && e.op == o)
    ensures KnownOp(Apply(s, c, e), o)
    ensures Apply(s, c, e).ops[o].pc == s.ops[o].pc || Apply(s, c, e).ops[o].pc == Abandoned
  {
    if e.CallGet? {
      GetKeepsOps(s, c, e.key, e.force, e.solveIfMissing, false, o);
    } else if e.WarmStep? {
      WarmKeepsOps(s, c, o);
    }
  }

  lemma GetKeepsOps(s: State, c: Config, k: Key, force: bool, solveIfMissing: bool, defer: bool, o: nat)
    requires KnownOp(s, o)
    ensures var t := GetCall(s, c, k, force, solveIfMissing, defer); KnownOp(t, o) && t.ops[o] == s.ops[o]
  {
  }

  lemma WarmKeepsOps(s: State, c: Config, o: nat)
    requires CanWarm(s) && KnownOp(s, o)
    ensures KnownOp(WarmNext(s, c), o) && WarmNext(s, c).ops[o] == s.ops[o]
  {
  }

  /** No deferrable solve makes the first POST of an attempt while a foreground lease is held. */
  lemma DeferrableYields(s: State, c: Config, e: Event, o: nat)
    requires Can(s, c, e) && FirstPost(s, Apply(s, c, e), o) && s.ops[o].defer
    ensures s.gate.foreground == 0 && e == OpStep(o, Acquire)
  {
    if !(e.OpStep? && e.op == o) {
      OldOpsStay(s, c, e, o);
    }
  }

  /** An operation makes a POST, its first or a further one. */
  predicate MakesPost(s: State, t: State, o: nat) {
    KnownOp(s, o) && KnownOp(t, o) && t.ops[o].pc.Posting? && t.ops[o].pc != s.ops[o].pc
  }

  /** Every POST of a deferrable operation, exactly: on taking the lock while no lease is held,
      or again to a busy sidecar, under the held lock, whatever lease was taken meanwhile. */
  lemma DeferrablePostsExactlyWhen(s: State, c: Config, e: Event, o: nat)
    requires Can(s, c, e) && KnownOp(s, o) && s.ops[o].defer
    ensures MakesPost(s, Apply(s, c, e), o)
       <==> (e == OpStep(o, Acquire) && s.gate.foreground == 0) || e == OpStep(o, BusyWake)
  {
    if !(e.OpStep? && e.op == o) {
      OldOpsStay(s, c, e, o);
    }
  }

  // ------------------------------------------------------- single flight

  /** Whatever callers are cancelled, at most one shared solve of a key is live. */
  lemma OneSharedSolve(s: State, c: Config, startup: bool, es: seq<Event>, o: nat, q: nat)
    requires Reached(s, c, startup, es) && KnownOp(s, o) && KnownOp(s, q)
    requires s.ops[o].shared && s.ops[q].shared && !Over(s.ops[o].pc) && !Over(s.ops[q].pc)
    ensures s.ops[o].key == s.ops[q].key ==> o == q
    ensures s.ops[o].key in s.inflight && s.inflight[s.ops[o].key] == o
  {
    ReachedInv(s, c, startup, es);
  }

  /** A finished task's callback never removes the slot of another task: the slots it leaves
      alone are all but its own. */
  lemma CallbackKeepsOthers(s: State, c: Config, o: nat, k: Key)
    requires Can(s, c, OpCallback(o)) && k in s.inflight && s.inflight[k] != o
    ensures var t := Apply(s, c, OpCallback(o)); k in t.inflight && t.inflight[k] == s.inflight[k]
  {
  }

  /** Cancelling a caller leaves a shared solve, its slot and the other callers as they were. */
  lemma CancelSparesTheHerd(s: State, c: Config, i: nat)
    requires Can(s, c, CallCancel(i)) && s.ops[s.calls[i].pc.op].shared
    ensures var t := Apply(s, c, CallCancel(i));
            && t.ops == s.ops && t.inflight == s.inflight && t.holder == s.holder && t.store == s.store
            && |t.calls| == |s.calls| && forall j | 0 <= j < |s.calls| && j != i :: t.calls[j] == s.calls[j]
  {
  }

  /** A caller that does not ask to defer never receives the deferral; and only operations that
      do not defer enter the registry. */
  lemma ForegroundNeverDeferred(s: State, c: Config, startup: bool, es: seq<Event>, i: nat)
    requires Reached(s, c, startup, es) && KnownCall(s, i) && !s.calls[i].defer
    ensures s.calls[i].pc.Ended? ==> s.calls[i].pc.result != Raised(Deferred)
    ensures forall k | k in s.inflight :: s.inflight[k] < |s.ops| && !s.ops[s.inflight[k]].defer
  {
    ReachedInv(s, c, startup, es);
    assert CallOk(s.calls[i], s.ops, c, s.minted, s.clock);
    forall k | k in s.inflight
      ensures s.inflight[k] < |s.ops| && !s.ops[s.inflight[k]].defer
    {
      assert OpOk(s.ops[s.inflight[k]], c, s.minted);
    }
  }

  // ----------------------------------------------------------- clearances

  /** In every reachable state: what is tracked is held, and for a source with a configured
      lifetime it lapses within that lifetime from now. */
  lemma TrackedIsHeld(s: State, c: Config, startup: bool, es: seq<Event>, k: Key)
    requires Reached(s, c, startup, es) && k in s.store.expiresAt
    ensures k in s.store.held && k in c.challenge
    ensures k in c.lifetime ==> s.store.expiresAt[k] <= s.clock + c.lifetime[k]
  {
    ReachedInv(s, c, startup, es);
  }

  /** What a forced call gives: a clearance minted since it began, or one with no tracked expiry
      or an expiry still ahead. None only for a source that is not solved. */
  lemma ForcedGivesGood(s: State, c: Config, startup: bool, es: seq<Event>, i: nat)
    requires Reached(s, c, startup, es) && KnownCall(s, i) && s.calls[i].pc.Ended? && s.calls[i].pc.result.Given?
    requires s.calls[i].kind.Get? && s.calls[i].kind.force && s.calls[i].key in c.challenge
    ensures var r := s.calls[i].pc.result;
            r.clearance.Some? && (r.clearance.value >= s.calls[i].since || r.expiry.None?
              || r.expiry.value > s.calls[i].pc.at)
  {
    ReachedInv(s, c, startup, es);
    assert CallOk(s.calls[i], s.ops, c, s.minted, s.clock);
  }

  /** A forced call on a page holder never raises, and gives what its own eval brought, if
      anything. */
  lemma PageHolderGivesOwn(s: State, c: Config, startup: bool, es: seq<Event>, i: nat)
    requires Reached(s, c, startup, es) && KnownCall(s, i) && s.calls[i].pc.Ended? && s.calls[i].kind.Holder?
    ensures s.calls[i].pc.result.Given?
    ensures s.calls[i].pc.result.clearance.Some? ==> s.calls[i].pc.result.clearance.value >= s.calls[i].since
  {
    ReachedInv(s, c, startup, es);
    assert CallOk(s.calls[i], s.ops, c, s.minted, s.clock);
  }

  /** A call that ends brings the clearance of its operation. */
  predicate Brings(s: State, i: nat, x: Clearance) {
    CanResume(s, i) && s.ops[s.calls[i].pc.op].pc.outcome.Minted?
      && s.ops[s.calls[i].pc.op].pc.outcome.clearance == Some(x)
  }

  /** A call ends in a block window with a clearance that it had itself discarded, and may use. */
  predicate PutsBack(s: State, i: nat, x: Clearance) {
    && CanResume(s, i) && s.ops[s.calls[i].pc.op].pc.outcome.Blocked?
    && s.calls[i].kind.Get? && s.calls[i].kind.snapshot.clearance == Some(x)
      && Usable(s.calls[i].kind.snapshot, s.clock)
  }

  /** How a clearance comes to be held that was not: a call brings it fresh from its operation,
      or a call whose solve was blocked puts back what it had discarded. So a call that fails
      for any other reason never puts the rejected clearance back. */
  lemma HeldAnewOnlyIf(s: State, c: Config, e: Event, k: Key, x: Clearance)
    requires Can(s, c, e)
    requires Lookup(s.store.held, k) != Some(x) && Lookup(Apply(s, c, e).store.held, k) == Some(x)
    ensures e.CallResume? && s.calls[e.call].key == k && (Brings(s, e.call, x) || PutsBack(s, e.call, x))
  {
    match e
    case CallResume(i) => ResumeHolds(s, c, i, k, x);
    case CallGet(key, force, solveIfMissing) => GetHoldsNothingNew(s, c, key, force, solveIfMissing, false, k);
    case WarmStep => WarmHoldsNothingNew(s, c, k);
    case OpStep(o, event) => OpHoldsNothingNew(s, c, o, event);
    case _ =>
  }

  lemma ResumeHolds(s: State, c: Config, i: nat, k: Key, x: Clearance)
    requires CanResume(s, i)
    requires Lookup(s.store.held, k) != Some(x) && Lookup(Resume(s, c, i).store.held, k) == Some(x)
    ensures s.calls[i].key == k && (Brings(s, i, x) || PutsBack(s, i, x))
  {
  }

  lemma GetHoldsNothingNew(s: State, c: Config, key: Key, force: bool, solveIfMissing: bool, defer: bool, k: Key)
    ensures var t := GetCall(s, c, key, force, solveIfMissing, defer);
            Lookup(t.store.held, k) == Lookup(s.store.held, k) || Lookup(t.store.held, k) == None
  {
  }

  lemma WarmHoldsNothingNew(s: State, c: Config, k: Key)
    requires CanWarm(s)
    ensures Lookup(WarmNext(s, c).store.held, k) == Lookup(s.store.held, k)
            || Lookup(WarmNext(s, c).store.held, k) == None
  {
  }

  lemma OpHoldsNothingNew(s: State, c: Config, o: nat, e: OpEvent)
    requires CanOp(s, c, o, e)
    ensures ApplyOp(s, c, o, e).store.held == s.store.held
  {
  }

  /** What a call brings is held from then on, to lapse when its own expiry or the configured
      lifetime says; no other source's clearance changes. */
  lemma BroughtIsHeld(s: State, c: Config, i: nat, x: Clearance, other: Key)
    requires Brings(s, i, x) && !s.calls[i].kind.Plain? && other != s.calls[i].key
    ensures var t := Resume(s, c, i).store;
            var k := s.calls[i].key;
            && Lookup(t.held, k) == Some(x)
            && Lookup(t.expiresAt, k) == Effective(c, k, s.ops[s.calls[i].pc.op].pc.outcome.expiry, s.clock)
            && Lookup(t.held, other) == Lookup(s.store.held, other)
            && Lookup(t.expiresAt, other) == Lookup(s.store.expiresAt, other)
  {
  }

  /** A step starts a solve of the source: operation `o` is a new one. */
  predicate Starts(s: State, t: State, o: nat, k: Key) {
    !KnownOp(s, o) && KnownOp(t, o) && t.ops[o].kind.SolveOp? && t.ops[o].key == k
  }

  /** Inside a block window no step starts a solve of the source while a held clearance of it is
      still good; and the refresh, none at all. */
  lemma BlockedNotHammered(s: State, c: Config, e: Event, o: nat, k: Key)
    requires Can(s, c, e) && Starts(s, Apply(s, c, e), o, k) && InBlockWindow(s.store, k, s.clock)
    ensures !HeldIsValid(s.store, k, s.clock) && !e.RefreshStep?
  {
    match e
    case CallGet(key, force, solveIfMissing) => GetStarts(s, c, key, force, solveIfMissing, false, o, k);
    case WarmStep =>
      if s.warm.Solving? && s.warm.rest != [] {
        GetStarts(s, c, s.warm.rest[0], false, true, true, o, k);
      }
    case _ =>
  }

  lemma GetStarts(s: State, c: Config, key: Key, force: bool, solveIfMissing: bool, defer: bool, o: nat, k: Key)
    ensures var t := GetCall(s, c, key, force, solveIfMissing, defer);
            Starts(s, t, o, k) && InBlockWindow(s.store, k, s.clock) ==> key == k && !HeldIsValid(s.store, k, s.clock)
  {
  }

  /** A failed POST opens the source's block window exactly when it was a solve that took as long
      as the sidecar polls; and a solve that succeeds closes it. */
  lemma WindowOpensAndCloses(s: State, c: Config, o: nat, expiry: Option<Time>, extracted: bool)
    requires CanOp(s, c, o, ReplyFail) && s.ops[o].kind.SolveOp? && c.backoff > 0 && s.clock >= 0
    ensures var t := ApplyOp(s, c, o, ReplyFail);
            && (t.ops[o].pc == Finished(Blocked) <==> s.clock - s.ops[o].pc.since >= c.threshold)
            && (t.ops[o].pc == Finished(Blocked) ==> InBlockWindow(t.store, s.ops[o].key, t.clock))
            && (t.ops[o].pc != Finished(Blocked) ==> t.store == s.store)
    ensures !InBlockWindow(ApplyOp(s, c, o, ReplyOk(expiry, extracted)).store, s.ops[o].key, s.clock)
  {
  }

  // --------------------------------------------------------- page holders

  /** No run solves a source that holds its page, or one that is not solved at all, whether for
      a request, at startup or in a refresh. */
  lemma PageHoldersNeverSolved(s: State, c: Config, startup: bool, es: seq<Event>, o: nat)
    requires Reached(s, c, startup, es) && KnownOp(s, o) && s.ops[o].kind.SolveOp?
    ensures s.ops[o].key in c.challenge && s.ops[o].key !in c.warmLast
  {
    ReachedInv(s, c, startup, es);
    assert OpOk(s.ops[o], c, s.minted);
  }

  // --------------------------------------------------------------- startup

  /** In a startup run in which no wait at the gate has run out, no foreground lease is taken
      before `warm` is over; so up to then no solve has deferred, and no caller been told so. */
  lemma NoLeaseBeforeWarm(s: State, c: Config, es: seq<Event>)
    requires Reached(s, c, true, es) && s.gate.timeouts == 0 && !s.warm.WarmOver?
    ensures s.gate.foreground == 0
    ensures forall o | 0 <= o < |s.ops| :: s.ops[o].pc != Finished(Deferred)
    ensures forall i | 0 <= i < |s.calls| && s.calls[i].pc.Ended? :: s.calls[i].pc.result != Raised(Deferred)
  {
    ReachedInv(s, c, true, es);
    StartupStays(Start(true), c, es);
  }

  lemma {:induction false} StartupStays(s: State, c: Config, es: seq<Event>)
    requires Run(s, c, es)
    ensures After(s, c, es).gate.startup == s.gate.startup
    decreases |es|
  {
    if es != [] {
      StartupStaysOnce(s, c, es[0]);
      StartupStays(Apply(s, c, es[0]), c, es[1..]);
    }
  }

  lemma StartupStaysOnce(s: State, c: Config, e: Event)
    requires Can(s, c, e)
    ensures Apply(s, c, e).gate.startup == s.gate.startup
  {
    match e
    case CallGet(k, force, solveIfMissing) => GetKeepsWarm(s, c, k, force, solveIfMissing, false);
    case WarmStep =>
      if s.warm.Solving? && s.warm.rest != [] {
        GetKeepsWarm(s, c, s.warm.rest[0], false, true, true);
      }
    case _ =>
  }
}
