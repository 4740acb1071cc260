/** What every step of the gateway's device protocol keeps. */
module DeviceInvariants {
  import opened Wrappers
  import opened ClearanceSpec
  import opened DeviceProtocol

  // -------------------------------------------------------------- the lock

  /** The device lock is held by exactly the operation that is at the sidecar, and each
      operation has released it once for each time it took it, but for a hold that goes on. */
  ghost predicate LockOk(ops: seq<Op>, holder: Option<nat>) {
    && (holder.Some? ==> holder.value < |ops|)
    && forall o | 0 <= o < |ops| ::
      && (Holding(ops[o].pc) <==> holder == Some(o))
      && ops[o].acquired == ops[o].released + if Holding(ops[o].pc) then 1 else 0
  }

  lemma LockKeptByOp(s: State, c: Config, o: nat, e: OpEvent)
    requires CanOp(s, c, o, e) && LockOk(s.ops, s.holder)
    ensures LockOk(ApplyOp(s, c, o, e).ops, ApplyOp(s, c, o, e).holder)
  {
  }

  lemma LockKeptByNew(ops: seq<Op>, holder: Option<nat>, op: Op)
    requires LockOk(ops, holder) && op.pc.Queued? && op.acquired == op.released
    ensures LockOk(ops + [op], holder)
  {
  }

  lemma LockKeptByCancel(s: State, i: nat)
    requires CanCancel(s, i) && LockOk(s.ops, s.holder)
    ensures LockOk(CancelCall(s, i).ops, CancelCall(s, i).holder)
  {
  }

  // -------------------------------------------------------- single flight

  /** A shared solve that is not over is in the registry under its key, and the registry holds
      nothing but shared operations under their own keys. */
  ghost predicate RegistryOk(ops: seq<Op>, inflight: map<Key, nat>) {
    && (forall o | 0 <= o < |ops| && ops[o].shared && !Over(ops[o].pc) ::
          ops[o].key in inflight && inflight[ops[o].key] == o)
    && (forall k | k in inflight :: inflight[k] < |ops| && ops[inflight[k]].shared && ops[inflight[k]].key == k)
  }

  lemma RegistryKeptByOp(s: State, c: Config, o: nat, e: OpEvent)
    requires CanOp(s, c, o, e) && RegistryOk(s.ops, s.inflight)
    ensures RegistryOk(ApplyOp(s, c, o, e).ops, s.inflight)
  {
  }

  lemma RegistryKeptByCallback(s: State, o: nat)
    requires KnownOp(s, o) && Over(s.ops[o].pc) && RegistryOk(s.ops, s.inflight)
    ensures RegistryOk(s.ops, Callback(s, o).inflight)
  {
  }

  lemma RegistryKeptByOwn(ops: seq<Op>, inflight: map<Key, nat>, op: Op)
    requires RegistryOk(ops, inflight) && !op.shared
    ensures RegistryOk(ops + [op], inflight)
  {
  }

  lemma RegistryKeptByShared(s: State, kind: CallKind, k: Key)
    requires RegistryOk(s.ops, s.inflight)
    ensures RegistryOk(AwaitShared(s, kind, k).ops, AwaitShared(s, kind, k).inflight)
  {
  }

  lemma RegistryKeptByCancel(s: State, i: nat)
    requires CanCancel(s, i) && RegistryOk(s.ops, s.inflight)
    ensures RegistryOk(CancelCall(s, i).ops, s.inflight)
  {
  }

  // ------------------------------------------------------- what operations are

  /** Only solved sources that hold no page are ever solved; a shared operation is a solve that
      does not defer and is never abandoned; only one that may defer has deferred; and a solve
      that succeeded brought a clearance, older than the next. */
  ghost predicate OpOk(op: Op, c: Config, minted: Clearance) {
    && (op.kind.SolveOp? ==> op.key in c.challenge && op.key !in c.warmLast)
    && (op.shared ==> op.kind.SolveOp? && !op.defer && !op.pc.Abandoned?)
    && (op.pc.Finished? ==>
          && (op.pc.outcome.Deferred? ==> op.defer)
          && (op.pc.outcome.Blocked? ==> op.kind.SolveOp?)
          && (op.pc.outcome.Minted? && op.kind.SolveOp? ==> op.pc.outcome.clearance.Some?)
          && (op.pc.outcome.Minted? && op.pc.outcome.clearance.Some? ==> op.pc.outcome.clearance.value < minted))
    && 1 <= op.attempt && (op.attempt > 1 ==> op.attempt <= c.maxAttempts)
  }

  ghost predicate OpsOk(ops: seq<Op>, c: Config, minted: Clearance) {
    forall o | 0 <= o < |ops| :: OpOk(ops[o], c, minted)
  }

  /** Only what has taken an attempt is waiting to try again. */
  ghost predicate RetriesOk(ops: seq<Op>, c: Config) {
    forall o | 0 <= o < |ops| && ops[o].pc.RetrySleep? :: ops[o].kind.SolveOp? && ops[o].attempt < c.maxAttempts
  }

  function AtLeastOne(n: nat): nat {
    if n == 0 then 1 else n
  }

  /** One hold of the lock makes at most the busy attempts of POSTs. */
  ghost predicate PostsOk(ops: seq<Op>, c: Config) {
    forall o | 0 <= o < |ops| ::
      && (ops[o].pc.Posting? ==> 1 <= ops[o].pc.posts <= AtLeastOne(c.busyAttempts))
      && (ops[o].pc.BusySleep? ==> 1 <= ops[o].pc.posts < c.busyAttempts)
  }

  lemma PostsKeptByOp(s: State, c: Config, o: nat, e: OpEvent)
    requires CanOp(s, c, o, e) && PostsOk(s.ops, c)
    ensures PostsOk(ApplyOp(s, c, o, e).ops, c)
  {
  }

  lemma RetriesKeptByOp(s: State, c: Config, o: nat, e: OpEvent)
    requires CanOp(s, c, o, e) && RetriesOk(s.ops, c)
    ensures RetriesOk(ApplyOp(s, c, o, e).ops, c)
  {
  }

  lemma OpsKeptByOp(s: State, c: Config, o: nat, e: OpEvent)
    requires CanOp(s, c, o, e) && OpsOk(s.ops, c, s.minted) && RetriesOk(s.ops, c)
    ensures OpsOk(ApplyOp(s, c, o, e).ops, c, ApplyOp(s, c, o, e).minted)
  {
  }

  lemma OpsKeptByCancel(s: State, c: Config, i: nat)
    requires CanCancel(s, i) && OpsOk(s.ops, c, s.minted)
    ensures OpsOk(CancelCall(s, i).ops, c, s.minted)
  {
  }

  // ----------------------------------------------------------- what calls are

  predicate Fits(kind: CallKind, op: OpKind) {
    match kind
    case Get(_, _) => op.SolveOp?
    case Refresh => op.SolveOp?
    case Plain => op == EvalOp(false)
    case _ => op == EvalOp(true)
  }

  /** A waiting call waits for an operation of its key that defers if and only if it does, and
      that, if it has brought a clearance, brought it after the call began. */
  ghost predicate WaitOk(call: Call, op: Op, c: Config, now: Time) {
    && op.key == call.key && op.defer == call.defer && Fits(call.kind, op.kind)
    && (!call.kind.Plain? ==> call.key in c.challenge)
    && (op.pc.Finished? && op.pc.outcome.Minted? && op.pc.outcome.clearance.Some? ==>
          op.pc.outcome.clearance.value >= call.since)
    && SoundSnapshot(SnapshotOf(call.kind), c, call.key, now)
  }

  /** What a call ended with. */
  ghost predicate EndOk(call: Call, r: Result, at: Time, c: Config) {
    && (r == Raised(Deferred) ==> call.defer)
    && (call.kind.Get? && call.kind.force && call.key in c.challenge && r.Given? ==>
          r.clearance.Some? && (r.clearance.value >= call.since || (r.expiry.Some? ==> r.expiry.value > at)))
    && (call.kind.Holder? ==> r.Given? && (r.clearance.Some? ==> r.clearance.value >= call.since))
  }

  ghost predicate CallOk(call: Call, ops: seq<Op>, c: Config, minted: Clearance, now: Time) {
    && call.since <= minted
    && (call.pc.Awaiting? ==> call.pc.op < |ops| && WaitOk(call, ops[call.pc.op], c, now))
    && (call.pc.Ended? ==> EndOk(call, call.pc.result, call.pc.at, c))
  }

  ghost predicate CallsOk(calls: seq<Call>, ops: seq<Op>, c: Config, minted: Clearance, now: Time) {
    forall i | 0 <= i < |calls| :: CallOk(calls[i], ops, c, minted, now)
  }

  lemma CallsKeptByMore(calls: seq<Call>, ops: seq<Op>, op: Op, c: Config, minted: Clearance, now: Time)
    requires CallsOk(calls, ops, c, minted, now)
    ensures CallsOk(calls, ops + [op], c, minted, now)
  {
  }

  lemma CallsKeptByOp(s: State, c: Config, o: nat, e: OpEvent)
    requires CanOp(s, c, o, e) && CallsOk(s.calls, s.ops, c, s.minted, s.clock)
    ensures var t := ApplyOp(s, c, o, e); CallsOk(t.calls, t.ops, c, t.minted, t.clock)
  {
  }

  lemma CallsKeptByCancel(s: State, c: Config, i: nat)
    requires CanCancel(s, i) && CallsOk(s.calls, s.ops, c, s.minted, s.clock)
    ensures var t := CancelCall(s, i); CallsOk(t.calls, t.ops, c, t.minted, t.clock)
  {
  }

  lemma CallsKeptByAdd(s: State, call: Call, c: Config)
    requires CallsOk(s.calls, s.ops, c, s.minted, s.clock) && CallOk(call, s.ops, c, s.minted, s.clock)
    ensures CallsOk(s.calls + [call], s.ops, c, s.minted, s.clock)
  {
  }

  /** How a call that waited ends. */
  lemma EndsWell(s: State, c: Config, call: Call, op: Op)
    requires op.pc.Finished? && OpOk(op, c, s.minted) && WaitOk(call, op, c, s.clock)
    ensures EndOk(call, ResultOf(s, c, call, op.pc.outcome), s.clock, c)
  {
  }

  lemma CallsKeptByResume(s: State, c: Config, i: nat)
    requires CanResume(s, i) && CallsOk(s.calls, s.ops, c, s.minted, s.clock) && OpsOk(s.ops, c, s.minted)
    ensures var t := Resume(s, c, i); CallsOk(t.calls, t.ops, c, t.minted, t.clock)
  {
  }

  // ------------------------------------------------------- the startup gate

  ghost predicate NoneDeferred(ops: seq<Op>, calls: seq<Call>) {
    && (forall o | 0 <= o < |ops| :: ops[o].pc != Finished(Deferred))
    && (forall i | 0 <= i < |calls| && calls[i].pc.Ended? :: calls[i].pc.result != Raised(Deferred))
  }

  /** The gate stays shut until `warm` is over; and in a startup run in which no wait at it has
      run out, nobody has a lease until then, and so nothing has deferred. */
  ghost predicate GateOk(g: Gate, warm: Warm, ops: seq<Op>, calls: seq<Call>) {
    && (warm.WarmOver? <==> g.complete)
    && (g.startup && !g.complete && g.timeouts == 0 ==> g.armed && g.foreground == 0 && NoneDeferred(ops, calls))
  }

  lemma GateKeptByOp(s: State, c: Config, o: nat, e: OpEvent)
    requires CanOp(s, c, o, e) && GateOk(s.gate, s.warm, s.ops, s.calls)
    ensures GateOk(s.gate, s.warm, ApplyOp(s, c, o, e).ops, s.calls)
  {
  }

  lemma GateKeptBySession(g: Gate, e: SessionEvent, warm: Warm, ops: seq<Op>, calls: seq<Call>)
    requires CanSession(g, e) && GateOk(g, warm, ops, calls)
    ensures GateOk(ApplySession(g, e), warm, ops, calls)
  {
  }

  lemma GateKeptByCancel(s: State, i: nat)
    requires CanCancel(s, i) && GateOk(s.gate, s.warm, s.ops, s.calls)
    ensures var t := CancelCall(s, i); GateOk(t.gate, t.warm, t.ops, t.calls)
  {
  }

  lemma GateKeptByResume(s: State, c: Config, i: nat)
    requires CanResume(s, i) && GateOk(s.gate, s.warm, s.ops, s.calls)
    ensures var t := Resume(s, c, i); GateOk(t.gate, t.warm, t.ops, t.calls)
  {
  }

  // -------------------------------------------------------------- the loops

  /** `warm` and the refresh tick go over solved sources. */
  ghost predicate LoopsOk(warm: Warm, loop: Loop, c: Config) {
    && (warm.Solving? || warm.AwaitSolve? || warm.Priming? || warm.AwaitPrime? ==>
      forall k | k in warm.rest :: k in c.challenge)
    && (!loop.Resting? ==> forall p | p in loop.todo :: p.0 in c.challenge)
  }

  ghost predicate Inv(s: State, c: Config) {
    && LockOk(s.ops, s.holder)
    && RegistryOk(s.ops, s.inflight)
    && OpsOk(s.ops, c, s.minted) && RetriesOk(s.ops, c) && PostsOk(s.ops, c)
    && CallsOk(s.calls, s.ops, c, s.minted, s.clock)
    && Sound(s.store, c, s.clock)
    && GateOk(s.gate, s.warm, s.ops, s.calls)
    && LoopsOk(s.warm, s.loop, c)
  }

  lemma InvStart(c: Config, startup: bool)
    ensures Inv(Start(startup), c)
  {
  }

  lemma InvKeptByOp(s: State, c: Config, o: nat, e: OpEvent)
    requires CanOp(s, c, o, e) && Inv(s, c)
    ensures Inv(ApplyOp(s, c, o, e), c)
  {
    LockKeptByOp(s, c, o, e);
    RegistryKeptByOp(s, c, o, e);
    RetriesKeptByOp(s, c, o, e);
    PostsKeptByOp(s, c, o, e);
    OpsKeptByOp(s, c, o, e);
    CallsKeptByOp(s, c, o, e);
    GateKeptByOp(s, c, o, e);
    SoundAfterOp(s, c, o, e);
  }

  lemma SoundAfterOp(s: State, c: Config, o: nat, e: OpEvent)
    requires CanOp(s, c, o, e) && Sound(s.store, c, s.clock)
    ensures Sound(ApplyOp(s, c, o, e).store, c, s.clock)
  {
  }

  lemma InvKeptByCallback(s: State, c: Config, o: nat)
    requires KnownOp(s, o) && Over(s.ops[o].pc) && Inv(s, c)
    ensures Inv(Callback(s, o), c)
  {
  }

  lemma InvKeptByCancel(s: State, c: Config, i: nat)
    requires CanCancel(s, i) && Inv(s, c)
    ensures Inv(CancelCall(s, i), c)
  {
    LockKeptByCancel(s, i);
    RegistryKeptByCancel(s, i);
    OpsKeptByCancel(s, c, i);
    CallsKeptByCancel(s, c, i);
    GateKeptByCancel(s, i);
    RetriesKeptByCancel(s, c, i);
  }

  lemma RetriesKeptByCancel(s: State, c: Config, i: nat)
    requires CanCancel(s, i) && RetriesOk(s.ops, c) && PostsOk(s.ops, c)
    ensures RetriesOk(CancelCall(s, i).ops, c) && PostsOk(CancelCall(s, i).ops, c)
  {
  }

  lemma InvKeptByResume(s: State, c: Config, i: nat)
    requires CanResume(s, i) && Inv(s, c)
    ensures Inv(Resume(s, c, i), c)
  {
    CallsKeptByResume(s, c, i);
    GateKeptByResume(s, c, i);
    SoundAfterCall(s, c, i);
  }

  lemma SoundAfterCall(s: State, c: Config, i: nat)
    requires CanResume(s, i) && Sound(s.store, c, s.clock) && CallsOk(s.calls, s.ops, c, s.minted, s.clock)
    ensures Sound(Resume(s, c, i).store, c, s.clock)
  {
  }

  /** An operation of a caller's own, of a key and kind that fit it. */
  lemma InvKeptByOwn(s: State, c: Config, kind: CallKind, k: Key, defer: bool, op: OpKind)
    requires Inv(s, c) && Fits(kind, op)
    requires (!kind.Plain? ==> k in c.challenge) && (op.SolveOp? ==> k in c.challenge && k !in c.warmLast)
    requires SoundSnapshot(SnapshotOf(kind), c, k, s.clock)
    ensures Inv(AwaitOwn(s, kind, k, defer, op), c)
  {
    var mine := NewOp(op, k, defer, false);
    var call := Call(kind, k, defer, s.minted, Awaiting(|s.ops|));
    var ops := s.ops + [mine];
    LockKeptByNew(s.ops, s.holder, mine);
    RegistryKeptByOwn(s.ops, s.inflight, mine);
    CallsKeptByMore(s.calls, s.ops, mine, c, s.minted, s.clock);
    CallsKeptByAdd(s.(ops := ops), call, c);
  }

  /** A solve that callers of its key share. */
  lemma InvKeptByShared(s: State, c: Config, kind: CallKind, k: Key)
    requires Inv(s, c) && kind.Get? && k in c.challenge && k !in c.warmLast
    requires SoundSnapshot(SnapshotOf(kind), c, k, s.clock)
    ensures Inv(AwaitShared(s, kind, k), c)
  {
    RegistryKeptByShared(s, kind, k);
    if Joinable(s, k) {
      var o := s.inflight[k];
      assert OpOk(s.ops[o], c, s.minted) && !Over(s.ops[o].pc);
      CallsKeptByAdd(s, Call(kind, k, false, s.minted, Awaiting(o)), c);
    } else {
      var op := NewOp(SolveOp, k, false, true);
      LockKeptByNew(s.ops, s.holder, op);
      CallsKeptByMore(s.calls, s.ops, op, c, s.minted, s.clock);
      CallsKeptByAdd(s.(ops := s.ops + [op]), Call(kind, k, false, s.minted, Awaiting(|s.ops|)), c);
    }
  }

  lemma InvKeptByGet(s: State, c: Config, k: Key, force: bool, solveIfMissing: bool, defer: bool)
    requires Inv(s, c)
    ensures Inv(GetCall(s, c, k, force, solveIfMissing, defer), c)
  {
    BeginSound(s.store, c, k, force, solveIfMissing, s.clock);
    var t := s.(store := BeginStore(s.store, c, k, force, solveIfMissing, s.clock));
    assert Inv(t, c);
    match Begin(s.store, c, k, force, solveIfMissing, s.clock)
    case Answer(x) =>
      var call := Call(Get(force, NOTHING), k, defer, s.minted, Ended(Given(x, Lookup(s.store.expiresAt, k)), s.clock));
      AnswerOk(s, c, k, force, solveIfMissing, defer);
      CallsKeptByAdd(t, call, c);
    case Eval => InvKeptByOwn(t, c, Holder, k, false, EvalOp(true));
    case Solve(snapshot) =>
      if defer {
        InvKeptByOwn(t, c, Get(force, snapshot), k, true, SolveOp);
      } else {
        InvKeptByShared(t, c, Get(force, snapshot), k);
      }
  }

  lemma AnswerOk(s: State, c: Config, k: Key, force: bool, solveIfMissing: bool, defer: bool)
    requires Begin(s.store, c, k, force, solveIfMissing, s.clock).Answer?
    ensures var x := Begin(s.store, c, k, force, solveIfMissing, s.clock).clearance;
            CallOk(Call(Get(force, NOTHING), k, defer, s.minted,
              Ended(Given(x, Lookup(s.store.expiresAt, k)), s.clock)),
                   s.ops, c, s.minted, s.clock)
  {
  }

  lemma InvKeptByPass(s: State, c: Config, ticks: nat)
    requires Inv(s, c)
    ensures Inv(s.(clock := s.clock + ticks), c)
  {
  }

  lemma InvKeptBySession(s: State, c: Config, e: SessionEvent)
    requires Inv(s, c) && CanSession(s.gate, e)
    ensures Inv(s.(gate := ApplySession(s.gate, e)), c)
  {
  }

  /** `warm` moves on, short of its end. */
  lemma InvKeptByWarmPc(s: State, c: Config, warm: Warm)
    requires Inv(s, c) && !warm.WarmOver? && !s.warm.WarmOver? && LoopsOk(warm, s.loop, c)
    ensures Inv(s.(warm := warm), c)
  {
  }

  lemma GetKeepsWarm(s: State, c: Config, k: Key, force: bool, solveIfMissing: bool, defer: bool)
    ensures var t := GetCall(s, c, k, force, solveIfMissing, defer);
            t.warm == s.warm && t.loop == s.loop && t.gate == s.gate
  {
  }

  lemma InvKeptByWarmStep(s: State, c: Config)
    requires Inv(s, c) && CanWarm(s)
    ensures Inv(WarmNext(s, c), c)
  {
    if s.warm.Solving? && s.warm.rest != [] {
      WarmSolves(s, c);
    } else if s.warm.Priming? && s.warm.rest != [] {
      WarmPrimes(s, c);
    }
  }

  lemma WarmSolves(s: State, c: Config)
    requires Inv(s, c) && s.warm.Solving? && s.warm.rest != []
    ensures Inv(WarmNext(s, c), c)
  {
    var k, rest := s.warm.rest[0], s.warm.rest[1..];
    if k in c.warmLast || k in c.onDemand {
      InvKeptByWarmPc(s, c, Solving(rest));
    } else {
      InvKeptByGet(s, c, k, false, true, true);
      GetKeepsWarm(s, c, k, false, true, true);
      InvKeptByWarmPc(GetCall(s, c, k, false, true, true), c, AwaitSolve(|s.calls|, rest));
    }
  }

  lemma WarmPrimes(s: State, c: Config)
    requires Inv(s, c) && s.warm.Priming? && s.warm.rest != []
    ensures Inv(WarmNext(s, c), c)
  {
    var k, rest := s.warm.rest[0], s.warm.rest[1..];
    if k !in c.warmLast || k in c.onDemand {
      InvKeptByWarmPc(s, c, Priming(rest));
    } else {
      InvKeptByOwn(s, c, Prime, k, false, EvalOp(true));
      InvKeptByWarmPc(AwaitOwn(s, Prime, k, false, EvalOp(true)), c, AwaitPrime(|s.calls|, rest));
    }
  }

  lemma InvKeptByWarmEnd(s: State, c: Config, returned: bool)
    requires Inv(s, c)
    ensures Inv(WarmEnd(s, returned), c)
  {
  }

  lemma InvKeptByCancelIfCan(s: State, c: Config, i: nat)
    requires Inv(s, c)
    ensures Inv(CancelIfCan(s, i), c)
  {
    if CanCancel(s, i) {
      InvKeptByCancel(s, c, i);
    }
  }

  lemma InvKeptByWarmStop(s: State, c: Config)
    requires Inv(s, c)
    ensures Inv(WarmAbort(s), c)
  {
    match s.warm
    case AwaitSolve(i, _) =>
      InvKeptByCancelIfCan(s, c, i);
      InvKeptByWarmEnd(CancelIfCan(s, i), c, false);
    case AwaitPrime(i, _) =>
      InvKeptByCancelIfCan(s, c, i);
      InvKeptByWarmEnd(CancelIfCan(s, i), c, false);
    case _ => InvKeptByWarmEnd(s, c, false);
  }

  lemma InvKeptByLoopPc(s: State, c: Config, loop: Loop)
    requires Inv(s, c) && LoopsOk(s.warm, loop, c)
    ensures Inv(s.(loop := loop), c)
  {
  }

  lemma InvKeptByRefreshTick(s: State, c: Config, todo: seq<(Key, Time)>)
    requires Inv(s, c) && Lists(todo, s.store.expiresAt)
    ensures Inv(s.(loop := Ticking(s.clock, todo)), c)
  {
  }

  lemma InvKeptByRefreshStep(s: State, c: Config)
    requires Inv(s, c) && CanRefresh(s)
    ensures Inv(RefreshNext(s, c), c)
  {
    if s.loop.Ticking? && s.loop.todo != [] && Due(s, c, s.loop.now, s.loop.todo[0]) {
      RefreshSolves(s, c);
    }
  }

  lemma RefreshSolves(s: State, c: Config)
    requires Inv(s, c) && s.loop.Ticking? && s.loop.todo != [] && Due(s, c, s.loop.now, s.loop.todo[0])
    ensures Inv(RefreshNext(s, c), c)
  {
    var k, rest := s.loop.todo[0].0, s.loop.todo[1..];
    assert s.loop.todo[0] in s.loop.todo;
    InvKeptByOwn(s, c, Refresh, k, true, SolveOp);
    InvKeptByLoopPc(AwaitOwn(s, Refresh, k, true, SolveOp), c, AwaitRefresh(|s.calls|, s.loop.now, rest));
  }

  lemma InvKeptByRefreshStop(s: State, c: Config)
    requires Inv(s, c)
    ensures Inv(RefreshAbort(s), c)
  {
    if s.loop.AwaitRefresh? {
      InvKeptByCancelIfCan(s, c, s.loop.call);
      InvKeptByLoopPc(CancelIfCan(s, s.loop.call), c, Resting);
    } else {
      InvKeptByLoopPc(s, c, Resting);
    }
  }

  /** Every step of the protocol keeps all of this. */
  lemma InvKept(s: State, c: Config, e: Event)
    requires Inv(s, c) && Can(s, c, e)
    ensures Inv(Apply(s, c, e), c)
  {
    match e
    case Pass(ticks) => InvKeptByPass(s, c, ticks);
    case OpStep(o, event) => InvKeptByOp(s, c, o, event);
    case OpCallback(o) => InvKeptByCallback(s, c, o);
    case CallGet(k, force, solveIfMissing) => InvKeptByGet(s, c, k, force, solveIfMissing, false);
    case CallEval(k) => InvKeptByOwn(s, c, Plain, k, false, EvalOp(false));
    case CallPrime(k) => InvKeptByOwn(s, c, Prime, k, false, EvalOp(true));
    case CallResume(i) => InvKeptByResume(s, c, i);
    case CallCancel(i) => InvKeptByCancel(s, c, i);
    case Session(session) => InvKeptBySession(s, c, session);
    case WarmStep => InvKeptByWarmStep(s, c);
    case WarmStop => InvKeptByWarmStop(s, c);
    case RefreshTick(todo) =>
      if s.gate.foreground == 0 {
        InvKeptByRefreshTick(s, c, todo);
      }
    case RefreshStep => InvKeptByRefreshStep(s, c);
    case RefreshStop => InvKeptByRefreshStop(s, c);
  }

  lemma {:induction false} InvAfter(s: State, c: Config, es: seq<Event>)
    requires Inv(s, c) && Run(s, c, es)
    ensures Inv(After(s, c, es), c)
    decreases |es|
  {
    if es != [] {
      InvKept(s, c, es[0]);
      InvAfter(Apply(s, c, es[0]), c, es[1..]);
    }
  }
}
