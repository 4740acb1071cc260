/** Where clearances are while calls wait with what they discarded: what a put-back through a
    block window can and cannot replace. */
module DeviceLedger {
  import opened Wrappers

  import opened ClearanceSpec
  import opened DeviceProtocol
  import opened DeviceInvariants
  import opened DeviceTheorems

  // -------------------------------------------------------- first come order

  /** No call has yet to be woken by an operation that brought something. */
  ghost predicate NoneToWake(s: State) {
    forall i | 0 <= i < |s.calls| && CanResume(s, i) :: !s.ops[s.calls[i].pc.op].pc.outcome.Minted?
  }

  predicate IsReply(e: Event) {
    e.OpStep? && (e.event.ReplyOk? || e.event.ReplyFail?)
  }

  /** What the event loop's first-come order adds to what can happen, asked for in this module
      alone. The callers of one task are woken one right after another. And they have been woken
      before the sidecar can reply to the next POST: that is sent only once the lock has passed
      on, and its reply has to be polled for, while the callers are ready by then. */
  ghost predicate InTurn(s: State, e: Event) {
    && (s.waking.Some? ==>
          e.Pass? || (e.CallResume? && KnownCall(s, e.call) && s.calls[e.call].pc == Awaiting(s.waking.value)))
    && (IsReply(e) ==> NoneToWake(s))
  }

  /** A run whose every step comes in turn. */
  ghost predicate RunInTurn(s: State, c: Config, es: seq<Event>): (r: bool)
    ensures r ==> Run(s, c, es)
    decreases |es|
  {
    es != [] ==> Can(s, c, es[0]) && InTurn(s, es[0]) && RunInTurn(Apply(s, c, es[0]), c, es[1..])
  }

  // ------------------------------------------------------------- the ledger

  predicate Waits(s: State, i: nat) {
    KnownCall(s, i) && s.calls[i].pc.Awaiting?
  }

  /** Call `i` waits, and would put back `y`. */
  predicate Keeps(s: State, i: nat, y: Clearance) {
    Waits(s, i) && SnapshotOf(s.calls[i].kind).clearance == Some(y)
  }

  /** What is held and what is kept was minted before. */
  ghost predicate Minted(s: State) {
    && (forall k | k in s.store.held :: s.store.held[k] < s.minted)
    && (forall i: nat, y: Clearance | Keeps(s, i, y) :: y < s.minted)
  }

  /** A clearance that is kept is not held, and nobody else keeps it. */
  ghost predicate KeptOnce(s: State) {
    && (forall i: nat, y: Clearance | Keeps(s, i, y) :: Lookup(s.store.held, s.calls[i].key) != Some(y))
    && (forall i: nat, j: nat, y: Clearance | Keeps(s, i, y) && Keeps(s, j, y) && s.calls[i].key == s.calls[j].key ::
      i == j)
  }

  /** A clearance still to be brought is newer than what is held of its source; but for the
      callers woken after the first, who bring what is held already. */
  ghost predicate NewerThanHeld(s: State) {
    forall i: nat, x: Clearance | Brings(s, i, x) && s.calls[i].key in s.store.held ::
      s.store.held[s.calls[i].key] < x
      || (s.store.held[s.calls[i].key] == x && s.waking == Some(s.calls[i].pc.op))
  }

  /** And it is newer than all that is kept of its source. */
  ghost predicate NewerThanKept(s: State) {
    forall i: nat, x: Clearance, j: nat, y: Clearance | Brings(s, i, x) && Keeps(s, j, y)
      && s.calls[i].key == s.calls[j].key ::
      y < x
  }

  /** All that is still to be brought comes from one operation. */
  ghost predicate OneBrings(s: State) {
    forall i: nat, x: Clearance, j: nat, y: Clearance | Brings(s, i, x) && Brings(s, j, y) ::
      s.calls[i].pc.op == s.calls[j].pc.op
  }

  /** What is held of a source, unless it was itself put back, is newer than all that is kept. */
  ghost predicate HeldIsNewer(s: State) {
    forall j: nat, y: Clearance | Keeps(s, j, y) && s.calls[j].key in s.store.held && s.calls[j].key !in s.restored ::
      s.store.held[s.calls[j].key] > y
  }

  ghost predicate Ledger(s: State) {
    Minted(s) && KeptOnce(s) && NewerThanHeld(s) && NewerThanKept(s) && OneBrings(s) && HeldIsNewer(s)
  }

  // ------------------------------------------------ steps that bring nothing

  /** From one state to the next nothing comes to be held, kept or ready to be brought; some of
      it may go. */
  ghost predicate Shrinks(s: State, t: State) {
    && s.minted <= t.minted && t.waking == s.waking
    && (forall k | k in t.store.held ::
          k in s.store.held && t.store.held[k] == s.store.held[k] && (k in s.restored ==> k in t.restored))
    && (forall i: nat, y: Clearance | Keeps(t, i, y) :: Keeps(s, i, y) && t.calls[i].key == s.calls[i].key)
    && (forall i: nat, x: Clearance | Brings(t, i, x) ::
          Brings(s, i, x) && t.calls[i].key == s.calls[i].key && t.calls[i].pc.op == s.calls[i].pc.op)
  }

  lemma LedgerShrinks(s: State, t: State)
    requires Ledger(s) && Shrinks(s, t)
    ensures Ledger(t)
  {
  }

  lemma ShrinksTwice(s: State, t: State, u: State)
    requires Shrinks(s, t) && Shrinks(t, u)
    ensures Shrinks(s, u)
  {
  }

  /** Calls wait for operations there are. */
  ghost predicate CallsInRange(s: State) {
    forall i: nat | Waits(s, i) :: KnownOp(s, s.calls[i].pc.op)
  }

  lemma OpShrinks(s: State, c: Config, o: nat, e: OpEvent)
    requires CanOp(s, c, o, e) && !e.ReplyOk?
    ensures Shrinks(s, ApplyOp(s, c, o, e))
  {
  }

  lemma CancelShrinks(s: State, i: nat)
    ensures Shrinks(s, CancelIfCan(s, i))
  {
  }

  lemma OwnShrinks(s: State, kind: CallKind, k: Key, defer: bool, op: OpKind)
    requires SnapshotOf(kind).clearance.None? && CallsInRange(s)
    ensures Shrinks(s, AwaitOwn(s, kind, k, defer, op))
  {
  }

  lemma SharedShrinks(s: State, kind: CallKind, k: Key)
    requires SnapshotOf(kind).clearance.None? && CallsInRange(s)
    ensures Shrinks(s, AwaitShared(s, kind, k))
  {
  }

  lemma DiscardShrinks(s: State, c: Config, k: Key, force: bool, solveIfMissing: bool)
    ensures Shrinks(s, s.(store := BeginStore(s.store, c, k, force, solveIfMissing, s.clock)))
  {
  }

  /** A call that discards nothing it would put back. */
  lemma GetShrinks(s: State, c: Config, k: Key, force: bool, solveIfMissing: bool, defer: bool)
    requires CallsInRange(s)
    requires var b := Begin(s.store, c, k, force, solveIfMissing, s.clock); b.Solve? ==> b.snapshot.clearance.None?
    ensures Shrinks(s, GetCall(s, c, k, force, solveIfMissing, defer))
  {
    var t := s.(store := BeginStore(s.store, c, k, force, solveIfMissing, s.clock));
    DiscardShrinks(s, c, k, force, solveIfMissing);
    match Begin(s.store, c, k, force, solveIfMissing, s.clock)
    case Answer(_) => ShrinksTwice(s, t, GetCall(s, c, k, force, solveIfMissing, defer));
    case Eval =>
      OwnShrinks(t, Holder, k, false, EvalOp(true));
      ShrinksTwice(s, t, AwaitOwn(t, Holder, k, false, EvalOp(true)));
    case Solve(p) =>
      if defer {
        OwnShrinks(t, Get(force, p), k, true, SolveOp);
        ShrinksTwice(s, t, AwaitOwn(t, Get(force, p), k, true, SolveOp));
      } else {
        SharedShrinks(t, Get(force, p), k);
        ShrinksTwice(s, t, AwaitShared(t, Get(force, p), k));
      }
  }

  lemma WarmShrinks(s: State, c: Config)
    requires CanWarm(s) && CallsInRange(s)
    ensures Shrinks(s, WarmNext(s, c))
  {
    if s.warm.Solving? && s.warm.rest != [] {
      GetShrinks(s, c, s.warm.rest[0], false, true, true);
    } else if s.warm.Priming? && s.warm.rest != [] {
      OwnShrinks(s, Prime, s.warm.rest[0], false, EvalOp(true));
    }
  }

  lemma RefreshShrinks(s: State, c: Config)
    requires CanRefresh(s) && CallsInRange(s)
    ensures Shrinks(s, RefreshNext(s, c))
  {
    if s.loop.Ticking? && s.loop.todo != [] {
      OwnShrinks(s, Refresh, s.loop.todo[0].0, true, SolveOp);
    }
  }

  // ------------------------------------------------------ a clearance comes

  lemma LedgerReply(s: State, c: Config, o: nat, expiry: Option<Time>, extracted: bool)
    requires CanOp(s, c, o, ReplyOk(expiry, extracted)) && NoneToWake(s) && Ledger(s)
    ensures Ledger(ApplyOp(s, c, o, ReplyOk(expiry, extracted)))
  {
    var t := ApplyOp(s, c, o, ReplyOk(expiry, extracted));
    assert forall i: nat, y: Clearance | Keeps(t, i, y) :: Keeps(s, i, y);
    forall i: nat, x: Clearance | Brings(t, i, x)
      ensures t.calls[i].pc.op == o && x == s.minted
    {
    }
  }

  // --------------------------------------------------- a clearance is kept

  /** A new call has discarded what was held of its source, and keeps it. */
  ghost predicate Discards(s: State, t: State, k: Key, y: Clearance) {
    && s.waking.None? && t.waking.None? && t.minted == s.minted && t.restored == s.restored
    && Lookup(s.store.held, k) == Some(y) && t.store.held == s.store.held - {k}
    && (forall i: nat, z: Clearance | Keeps(t, i, z) ::
          (Keeps(s, i, z) && t.calls[i].key == s.calls[i].key) || (i == |s.calls| && z == y && t.calls[i].key == k))
    && (forall i: nat, x: Clearance | Brings(t, i, x) ::
          Brings(s, i, x) && t.calls[i].key == s.calls[i].key && t.calls[i].pc.op == s.calls[i].pc.op)
  }

  lemma LedgerDiscards(s: State, t: State, k: Key, y: Clearance)
    requires Ledger(s) && Discards(s, t, k, y)
    ensures Ledger(t)
  {
  }

  lemma ForceDiscards(s: State, c: Config, k: Key, solveIfMissing: bool, y: Clearance)
    requires s.waking.None? && CallsInRange(s)
    requires var b := Begin(s.store, c, k, true, solveIfMissing, s.clock); b.Solve? && b.snapshot.clearance == Some(y)
    ensures Discards(s, GetCall(s, c, k, true, solveIfMissing, false), k, y)
  {
  }

  // ------------------------------------------------------- a caller is woken

  /** A call waits for an operation of its own source. */
  ghost predicate OwnKeys(s: State) {
    forall i: nat | Waits(s, i) :: KnownOp(s, s.calls[i].pc.op) && s.ops[s.calls[i].pc.op].key == s.calls[i].key
  }

  /** Waking call `i` leaves all others waiting as they were, and those of its operation next. */
  ghost predicate Woken(s: State, t: State, i: nat)
    requires CanResume(s, i)
  {
    && t.minted == s.minted && t.ops == s.ops && |t.calls| == |s.calls|
    && (forall j: nat | j < |s.calls| && j != i :: t.calls[j] == s.calls[j])
    && !Waits(t, i)
    && (forall j: nat | Waits(t, j) && t.calls[j].pc.op == s.calls[i].pc.op :: t.waking == Some(s.calls[i].pc.op))
  }

  lemma ResumeWakes(s: State, c: Config, i: nat)
    requires CanResume(s, i)
    ensures Woken(s, Resume(s, c, i), i)
  {
  }

  /** The first caller of an operation brings its clearance, or the next brings it again. */
  lemma LedgerBrings(s: State, t: State, i: nat, x: Clearance)
    requires Ledger(s) && OwnKeys(s) && Brings(s, i, x) && x < s.minted && Woken(s, t, i)
    requires t.store.held == s.store.held[s.calls[i].key := x] && t.restored == s.restored - {s.calls[i].key}
    ensures Ledger(t)
  {
    assert forall j: nat, y: Clearance | Keeps(t, j, y) :: Keeps(s, j, y) && j != i;
    forall j: nat, y: Clearance | Brings(t, j, y)
      ensures Brings(s, j, y) && t.calls[j].pc.op == s.calls[i].pc.op && y == x
      ensures t.calls[j].key == s.calls[i].key && t.waking == Some(t.calls[j].pc.op)
    {
      assert j != i && Waits(t, j) && Waits(s, j) && Waits(s, i);
      assert Brings(s, j, y);
    }
  }

  /** A caller puts back what it kept: it was in no other hand. */
  lemma LedgerPutsBack(s: State, t: State, i: nat, y: Clearance)
    requires Ledger(s) && PutsBack(s, i, y) && Woken(s, t, i) && InTurn(s, CallResume(i))
    requires t.store.held == s.store.held[s.calls[i].key := y] && t.restored == s.restored + {s.calls[i].key}
    ensures Ledger(t)
  {
    assert Keeps(s, i, y);
    assert forall j: nat, z: Clearance | Keeps(t, j, z) :: Keeps(s, j, z) && j != i;
    assert forall j: nat, x: Clearance | Brings(t, j, x) :: Brings(s, j, x) && s.calls[j].pc.op != s.calls[i].pc.op;
  }

  /** A caller is woken and changes nothing that is held. */
  lemma LedgerSame(s: State, t: State, i: nat)
    requires Ledger(s) && CanResume(s, i) && Woken(s, t, i) && InTurn(s, CallResume(i))
    requires t.store.held == s.store.held && t.restored == s.restored
    ensures Ledger(t)
  {
    assert forall j: nat, z: Clearance | Keeps(t, j, z) :: Keeps(s, j, z) && j != i;
    assert forall j: nat, x: Clearance | Brings(t, j, x) :: Brings(s, j, x) && j != i && Waits(t, j);
  }

  lemma LedgerResume(s: State, c: Config, i: nat)
    requires Ledger(s) && OwnKeys(s) && OpsOk(s.ops, c, s.minted) && CanResume(s, i) && InTurn(s, CallResume(i))
    ensures Ledger(Resume(s, c, i))
  {
    var call, o := s.calls[i], s.ops[s.calls[i].pc.op].pc.outcome;
    var t := Resume(s, c, i);
    ResumeWakes(s, c, i);
    if o.Minted? && o.clearance.Some? && !call.kind.Plain? {
      assert OpOk(s.ops[call.pc.op], c, s.minted);
      LedgerBrings(s, t, i, o.clearance.value);
    } else if PutsBackThen(s, call, o) {
      LedgerPutsBack(s, t, i, call.kind.snapshot.clearance.value);
    } else {
      LedgerSame(s, t, i);
    }
  }

  // --------------------------------------------------------------- all steps

  lemma CallsHaveOps(s: State, c: Config)
    requires Inv(s, c)
    ensures CallsInRange(s) && OwnKeys(s)
  {
    assert forall i: nat | Waits(s, i) :: CallOk(s.calls[i], s.ops, c, s.minted, s.clock);
  }

  lemma LedgerGet(s: State, c: Config, k: Key, force: bool, solveIfMissing: bool)
    requires Ledger(s) && CallsInRange(s) && s.waking.None?
    ensures Ledger(GetCall(s, c, k, force, solveIfMissing, false))
  {
    var b := Begin(s.store, c, k, force, solveIfMissing, s.clock);
    var t := GetCall(s, c, k, force, solveIfMissing, false);
    if b.Solve? && b.snapshot.clearance.Some? {
      ForceDiscards(s, c, k, solveIfMissing, b.snapshot.clearance.value);
      LedgerDiscards(s, t, k, b.snapshot.clearance.value);
    } else {
      GetShrinks(s, c, k, force, solveIfMissing, false);
      LedgerShrinks(s, t);
    }
  }

  lemma WarmStopShrinks(s: State)
    ensures Shrinks(s, WarmAbort(s))
  {
    if s.warm.AwaitSolve? || s.warm.AwaitPrime? {
      CancelShrinks(s, s.warm.call);
    }
  }

  lemma RefreshStopShrinks(s: State)
    ensures Shrinks(s, RefreshAbort(s))
  {
    if s.loop.AwaitRefresh? {
      CancelShrinks(s, s.loop.call);
    }
  }

  lemma LoopsShrink(s: State, c: Config, e: Event)
    requires Can(s, c, e) && CallsInRange(s)
    requires e.WarmStep? || e.WarmStop? || e.RefreshTick? || e.RefreshStep? || e.RefreshStop?
    ensures Shrinks(s, Apply(s, c, e))
  {
    match e
    case WarmStep => WarmShrinks(s, c);
    case WarmStop => WarmStopShrinks(s);
    case RefreshStep => RefreshShrinks(s, c);
    case RefreshStop => RefreshStopShrinks(s);
    case _ =>
  }

  lemma CallsShrink(s: State, c: Config, e: Event)
    requires Can(s, c, e) && CallsInRange(s)
    requires e.CallEval? || e.CallPrime? || e.CallCancel? || e.Session? || e.Pass? || e.OpCallback?
    ensures Shrinks(s, Apply(s, c, e))
  {
    match e
    case CallEval(k) => OwnShrinks(s, Plain, k, false, EvalOp(false));
    case CallPrime(k) => OwnShrinks(s, Prime, k, false, EvalOp(true));
    case CallCancel(i) => CancelShrinks(s, i);
    case _ =>
  }

  /** What a step that is neither a reply, a wake nor a request for a clearance does. */
  lemma StepShrinks(s: State, c: Config, e: Event)
    requires Can(s, c, e) && CallsInRange(s)
    requires !e.CallResume? && !e.CallGet? && !(e.OpStep? && e.event.ReplyOk?)
    ensures Shrinks(s, Apply(s, c, e))
  {
    if e.OpStep? {
      OpShrinks(s, c, e.op, e.event);
    } else if e.CallEval? || e.CallPrime? || e.CallCancel? || e.Session? || e.Pass? || e.OpCallback? {
      CallsShrink(s, c, e);
    } else {
      LoopsShrink(s, c, e);
    }
  }

  lemma LedgerKept(s: State, c: Config, e: Event)
    requires Inv(s, c) && Can(s, c, e) && InTurn(s, e) && Ledger(s)
    ensures Ledger(Apply(s, c, e))
  {
    CallsHaveOps(s, c);
    if e.CallResume? {
      LedgerResume(s, c, e.call);
    } else if e.CallGet? {
      LedgerGet(s, c, e.key, e.force, e.solveIfMissing);
    } else if e.OpStep? && e.event.ReplyOk? {
      LedgerReply(s, c, e.op, e.event.expiry, e.event.extracted);
    } else {
      StepShrinks(s, c, e);
      LedgerShrinks(s, Apply(s, c, e));
    }
  }

  lemma {:induction false} LedgerAfter(s: State, c: Config, es: seq<Event>)
    requires Inv(s, c) && Ledger(s) && RunInTurn(s, c, es)
    ensures Ledger(After(s, c, es))
    decreases |es|
  {
    if es != [] {
      InvKept(s, c, es[0]);
      LedgerKept(s, c, es[0]);
      LedgerAfter(Apply(s, c, es[0]), c, es[1..]);
    }
  }

  /** In every run in turn, a put-back replaces another clearance exactly when its source has one held at
      that moment; and that one is newer, unless it was itself put back during the wait. */
  lemma PutBackReplacesExactlyWhen(s: State, c: Config, startup: bool, es: seq<Event>, i: nat, x: Clearance)
    requires Reached(s, c, startup, es) && RunInTurn(Start(startup), c, es) && PutsBack(s, i, x)
    ensures var k := s.calls[i].key;
            && Lookup(Resume(s, c, i).store.held, k) == Some(x)
            && Lookup(s.store.held, k) != Some(x)
            && ((exists y: Clearance :: Lookup(s.store.held, k) == Some(y) && y != x) <==> k in s.store.held)
            && (k in s.store.held && k !in s.restored ==> s.store.held[k] > x)
  {
    InvStart(c, startup);
    LedgerAfter(Start(startup), c, es);
    assert Keeps(s, i, x);
  }
}
