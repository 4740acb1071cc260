/** The gateway's side of one device, as a step machine: `_device_op`, `device_session`, the
    startup gate, `warm`, `get_clearance`, the single flight of solves, the solve retries and
    the refresh tick of src/manga_gateway/framework/android_solver.py. What a coroutine does
    between two waits is one step; any other coroutine may run at each wait. */
module DeviceProtocol {
  import opened Wrappers
  import opened ClearanceSpec

  // ------------------------------------------------------------------ state

  /** A device operation: the solve of a source, with its retries, or one eval, which may ask
      for the clearance its page holds. */
  datatype OpKind = SolveOp | EvalOp(extracts: bool)

  /** Waiting for the device lock; holding it with a POST in flight, or between two POSTs to a
      busy sidecar; waiting to try again; or over. `since` is when the lock was had. */
  datatype OpPc =
    | Queued
    | Posting(since: Time, posts: nat)
    | BusySleep(since: Time, posts: nat)
    | RetrySleep
    | Finished(outcome: Outcome)
    | Abandoned

  /** `shared` operations are tasks of their own that no caller's cancellation reaches; the
      others run inside their one caller. */
  datatype Op = Op(kind: OpKind, key: Key, defer: bool, shared: bool, attempt: nat, pc: OpPc,
                   acquired: nat, released: nat)

  datatype CallKind = Get(force: bool, snapshot: Snapshot) | Holder | Prime | Plain | Refresh

  datatype CallPc = Awaiting(op: nat) | Ended(result: Result, at: Time) | Cancelled

  /** A caller of the solver. `since` is the next clearance to be minted when it began. */
  datatype Call = Call(kind: CallKind, key: Key, defer: bool, since: Clearance, pc: CallPc)

  /** The startup gate and the foreground lease: `startup` says that the gate was armed before
      anything else ran, and `timeouts` counts gate waits that ran out. */
  datatype Gate = Gate(startup: bool, armed: bool, complete: bool, waiting: nat, foreground: nat, timeouts: nat)

  datatype Warm =
    | NotStarted
    | Solving(rest: seq<Key>)
    | AwaitSolve(call: nat, rest: seq<Key>)
    | Priming(rest: seq<Key>)
    | AwaitPrime(call: nat, rest: seq<Key>)
    | WarmOver(returned: bool)

  datatype Loop =
    | Resting
    | Ticking(now: Time, todo: seq<(Key, Time)>)
    | AwaitRefresh(call: nat, now: Time, todo: seq<(Key, Time)>)

  /** `failed` is what `warm` reports; `restored` are the keys whose held clearance was put back
      through a block window; `waking` is the operation whose callers are being woken. */
  datatype State = State(
    clock: Time,
    minted: Clearance,
    holder: Option<nat>,
    ops: seq<Op>,
    inflight: map<Key, nat>,
    calls: seq<Call>,
    store: Store,
    gate: Gate,
    warm: Warm,
    failed: seq<Key>,
    loop: Loop,
    restored: set<Key>,
    waking: Option<nat>)

  function Start(startup: bool): State {
    State(0, 0, None, [], map[], [], Store(map[], map[], map[]),
          Gate(startup, startup, false, 0, 0, 0), NotStarted, [], Resting, {}, None)
  }

  // ----------------------------------------------------- device operations

  datatype OpEvent =
    | Acquire
    | AcquireTimeout(got: bool)
    | Busy
    | BusyWake
    | ReplyOk(expiry: Option<Time>, extracted: bool)
    | ReplyFail
    | RetryWake

  predicate Holding(p: OpPc) {
    p.Posting? || p.BusySleep?
  }

  predicate Over(p: OpPc) {
    p.Finished? || p.Abandoned?
  }

  predicate KnownOp(s: State, o: nat) {
    o < |s.ops|
  }

  predicate CanOp(s: State, c: Config, o: nat, e: OpEvent) {
    && KnownOp(s, o)
    && var pc := s.ops[o].pc;
       match e
       case Acquire => pc.Queued? && s.holder.None?
       case AcquireTimeout(got) => pc.Queued? && (got ==> s.holder.None?)
       case Busy => pc.Posting? && pc.posts < c.busyAttempts
       case BusyWake => pc.BusySleep?
       case ReplyOk(_, _) => pc.Posting?
       case ReplyFail => pc.Posting?
       case RetryWake => pc.RetrySleep?
  }

  /** A failure that is no block window: a solve is tried again while it may be. */
  function FastFailure(op: Op, c: Config): OpPc {
    if op.kind.SolveOp? && op.attempt < c.maxAttempts then RetrySleep else Finished(Failed)
  }

  /** A failed POST that took as long as the sidecar polls is a block window. */
  predicate LooksBlocked(s: State, c: Config, op: Op) {
    op.kind.SolveOp? && op.pc.Posting? && s.clock - op.pc.since >= c.threshold
  }

  /** What a successful reply brings. */
  function Brought(s: State, op: Op, expiry: Option<Time>, extracted: bool): Outcome {
    if op.kind.SolveOp? || (op.kind.extracts && extracted) then Minted(Some(s.minted), expiry) else Minted(None, None)
  }

  predicate MustDefer(s: State, op: Op) {
    op.defer && s.gate.foreground > 0
  }

  function OpAfter(s: State, c: Config, op: Op, e: OpEvent): Op {
    match e
    case Acquire =>
      if MustDefer(s, op) then op.(acquired := op.acquired + 1, released := op.released + 1, pc := Finished(Deferred))
      else op.(acquired := op.acquired + 1, pc := Posting(s.clock, 1))
    case AcquireTimeout(got) =>
      var n := if got then 1 else 0;
      op.(acquired := op.acquired + n, released := op.released + n, pc := FastFailure(op, c))
    case Busy => if op.pc.Posting? then op.(pc := BusySleep(op.pc.since, op.pc.posts)) else op
    case BusyWake => if op.pc.BusySleep? then op.(pc := Posting(op.pc.since, op.pc.posts + 1)) else op
    case ReplyOk(expiry, extracted) =>
      op.(released := op.released + 1, pc := Finished(Brought(s, op, expiry, extracted)))
    case ReplyFail =>
      op.(released := op.released + 1, pc := if LooksBlocked(s, c, op) then Finished(Blocked) else FastFailure(op, c))
    case RetryWake => op.(attempt := op.attempt + 1, pc := Queued)
  }

  function HolderAfter(s: State, op: Op, o: nat, e: OpEvent): Option<nat> {
    match e
    case Acquire => if MustDefer(s, op) then None else Some(o)
    case ReplyOk(_, _) => None
    case ReplyFail => None
    case _ => s.holder
  }

  function StoreAfterOp(s: State, c: Config, op: Op, e: OpEvent): Store {
    match e
    case ReplyOk(_, _) => if op.kind.SolveOp? then ClearBlockWindow(s.store, op.key) else s.store
    case ReplyFail => if LooksBlocked(s, c, op) then MarkBlockWindow(s.store, c, op.key, s.clock) else s.store
    case _ => s.store
  }

  function ApplyOp(s: State, c: Config, o: nat, e: OpEvent): State
    requires CanOp(s, c, o, e)
  {
    var op := s.ops[o];
    s.(ops := s.ops[o := OpAfter(s, c, op, e)],
       holder := HolderAfter(s, op, o, e),
       store := StoreAfterOp(s, c, op, e),
       minted := if e.ReplyOk? then s.minted + 1 else s.minted)
  }

  /** The done-callback of a shared operation clears the slot of its key only while that slot
      is its own. */
  function Callback(s: State, o: nat): State
    requires KnownOp(s, o)
  {
    var k := s.ops[o].key;
    if k in s.inflight && s.inflight[k] == o then s.(inflight := s.inflight - {k}) else s
  }

  // ------------------------------------------------------------------ calls

  predicate KnownCall(s: State, i: nat) {
    i < |s.calls|
  }

  function AddCall(s: State, kind: CallKind, k: Key, defer: bool, pc: CallPc): State {
    s.(calls := s.calls + [Call(kind, k, defer, s.minted, pc)])
  }

  function NewOp(kind: OpKind, k: Key, defer: bool, shared: bool): Op {
    Op(kind, k, defer, shared, 1, Queued, 0, 0)
  }

  /** A call that runs an operation of its own. */
  function AwaitOwn(s: State, kind: CallKind, k: Key, defer: bool, op: OpKind): State {
    var t := AddCall(s, kind, k, defer, Awaiting(|s.ops|));
    t.(ops := t.ops + [NewOp(op, k, defer, false)])
  }

  /** The key's shared solve, if it is not over. */
  predicate Joinable(s: State, k: Key) {
    k in s.inflight && KnownOp(s, s.inflight[k]) && !Over(s.ops[s.inflight[k]].pc)
  }

  /** A call that shares the key's one solve, which it starts when there is none. */
  function AwaitShared(s: State, kind: CallKind, k: Key): State {
    if Joinable(s, k) then AddCall(s, kind, k, false, Awaiting(s.inflight[k]))
    else
      var t := AddCall(s, kind, k, false, Awaiting(|s.ops|));
      t.(ops := t.ops + [NewOp(SolveOp, k, false, true)], inflight := t.inflight[k := |s.ops|])
  }

  /** `get_clearance` up to its wait. */
  function GetCall(s: State, c: Config, k: Key, force: bool, solveIfMissing: bool, defer: bool): State {
    var t := s.(store := BeginStore(s.store, c, k, force, solveIfMissing, s.clock));
    match Begin(s.store, c, k, force, solveIfMissing, s.clock)
    case Answer(x) => AddCall(t, Get(force, NOTHING), k, defer, Ended(Given(x, Lookup(s.store.expiresAt, k)), s.clock))
    case Eval => AwaitOwn(t, Holder, k, false, EvalOp(true))
    case Solve(snapshot) =>
      if defer then AwaitOwn(t, Get(force, snapshot), k, true, SolveOp) else AwaitShared(t, Get(force, snapshot), k)
  }

  /** What a call works on once its operation is over. */
  function SnapshotOf(kind: CallKind): Snapshot {
    if kind.Get? then kind.snapshot else NOTHING
  }

  function ResultOf(s: State, c: Config, call: Call, o: Outcome): Result {
    match call.kind
    case Get(_, p) => Conclude(s.store, c, call.key, p, o, s.clock)
    case Plain => if o.Minted? then Given(None, None) else Raised(o)
    case Refresh => if o.Minted? then Given(o.clearance, None) else Raised(o)
    case _ => if o.Minted? then Given(o.clearance, None) else Given(None, None)
  }

  function StoreAfterCall(s: State, c: Config, call: Call, o: Outcome): Store {
    if call.kind.Plain? || (!call.kind.Get? && !o.Minted?) then s.store
    else ConcludeStore(s.store, c, call.key, SnapshotOf(call.kind), o, s.clock)
  }

  predicate CanResume(s: State, i: nat) {
    KnownCall(s, i) && s.calls[i].pc.Awaiting? && KnownOp(s, s.calls[i].pc.op) && s.ops[s.calls[i].pc.op].pc.Finished?
  }

  /** The call ends in a block window and puts back what it had discarded. */
  predicate PutsBackThen(s: State, call: Call, o: Outcome) {
    call.kind.Get? && o.Blocked? && Usable(call.kind.snapshot, s.clock)
  }

  function RestoredAfter(s: State, call: Call, o: Outcome): set<Key> {
    if PutsBackThen(s, call, o) then s.restored + {call.key}
    else if !call.kind.Plain? && o.Minted? && o.clearance.Some? then s.restored - {call.key}
    else s.restored
  }

  /** Another call waits for the same operation. */
  predicate Shared(s: State, i: nat)
    requires CanResume(s, i)
  {
    exists j | 0 <= j < |s.calls| && j != i :: s.calls[j].pc == s.calls[i].pc
  }

  /** The call's operation is over: it changes the store and ends. */
  function Resume(s: State, c: Config, i: nat): State
    requires CanResume(s, i)
  {
    var call := s.calls[i];
    var o := s.ops[call.pc.op].pc.outcome;
    s.(calls := s.calls[i := call.(pc := Ended(ResultOf(s, c, call, o), s.clock))],
       store := StoreAfterCall(s, c, call, o),
       restored := RestoredAfter(s, call, o),
       waking := if Shared(s, i) then Some(call.pc.op) else None)
  }

  predicate CanCancel(s: State, i: nat) {
    KnownCall(s, i) && s.calls[i].pc.Awaiting? && KnownOp(s, s.calls[i].pc.op)
  }

  function Drop(op: Op): Op {
    if op.shared || Over(op.pc) then op
    else op.(pc := Abandoned, released := op.released + if Holding(op.pc) then 1 else 0)
  }

  /** A cancelled caller takes its own operation with it, lock and all; a shared one goes on. */
  function CancelCall(s: State, i: nat): State
    requires CanCancel(s, i)
  {
    var o := s.calls[i].pc.op;
    s.(calls := s.calls[i := s.calls[i].(pc := Cancelled)],
       ops := s.ops[o := Drop(s.ops[o])],
       holder := if !s.ops[o].shared && s.holder == Some(o) then None else s.holder)
  }

  // --------------------------------------------------- sessions and loops

  datatype SessionEvent = Arrive | Wake | Timeout | Leave | GiveUp

  predicate CanSession(g: Gate, e: SessionEvent) {
    match e
    case Arrive => true
    case Wake => g.waiting > 0 && g.complete
    case Timeout => g.waiting > 0
    case Leave => g.foreground > 0
    case GiveUp => g.waiting > 0
  }

  /** `device_session`: a foreground sequence waits at the armed gate before it takes a lease. */
  function ApplySession(g: Gate, e: SessionEvent): Gate
    requires CanSession(g, e)
  {
    match e
    case Arrive => if !g.armed || g.complete then g.(foreground := g.foreground + 1) else g.(waiting := g.waiting + 1)
    case Wake => g.(waiting := g.waiting - 1, foreground := g.foreground + 1)
    case Timeout => g.(waiting := g.waiting - 1, foreground := g.foreground + 1, timeouts := g.timeouts + 1)
    case Leave => g.(foreground := g.foreground - 1)
    case GiveUp => g.(waiting := g.waiting - 1)
  }

  predicate CallOver(s: State, i: nat) {
    KnownCall(s, i) && !s.calls[i].pc.Awaiting?
  }

  predicate CanWarm(s: State) {
    match s.warm
    case AwaitSolve(i, _) => CallOver(s, i)
    case AwaitPrime(i, _) => CallOver(s, i)
    case WarmOver(_) => false
    case _ => true
  }

  /** A call that raised anything but a deferral. */
  predicate FailedCall(call: Call) {
    call.pc.Ended? && call.pc.result.Raised? && !call.pc.result.cause.Deferred?
  }

  function WarmEnd(s: State, returned: bool): State {
    s.(warm := WarmOver(returned), gate := s.gate.(complete := true))
  }

  /** The next stretch of `warm`: solve every source that holds no page and is not on demand,
      deferring to the foreground, and note those that failed; then prime the page holders; then
      open the gate. */
  function WarmNext(s: State, c: Config): State
    requires CanWarm(s)
  {
    match s.warm
    case NotStarted => s.(warm := Solving(c.challenge), gate := s.gate.(armed := true))
    case Solving(rest) =>
      if rest == [] then s.(warm := Priming(c.challenge))
      else if rest[0] in c.warmLast || rest[0] in c.onDemand then s.(warm := Solving(rest[1..]))
      else GetCall(s, c, rest[0], false, true, true).(warm := AwaitSolve(|s.calls|, rest[1..]))
    case AwaitSolve(i, rest) =>
      s.(warm := Solving(rest), failed := s.failed + if FailedCall(s.calls[i]) then [s.calls[i].key] else [])
    case Priming(rest) =>
      if rest == [] then WarmEnd(s, true)
      else if rest[0] !in c.warmLast || rest[0] in c.onDemand then s.(warm := Priming(rest[1..]))
      else AwaitOwn(s, Prime, rest[0], false, EvalOp(true)).(warm := AwaitPrime(|s.calls|, rest[1..]))
    case AwaitPrime(_, rest) => s.(warm := Priming(rest))
  }

  function CancelIfCan(s: State, i: nat): State {
    if CanCancel(s, i) then CancelCall(s, i) else s
  }

  /** `warm` is cancelled or raises: it reports nothing, and the gate opens all the same. */
  function WarmAbort(s: State): State {
    match s.warm
    case AwaitSolve(i, _) => WarmEnd(CancelIfCan(s, i), false)
    case AwaitPrime(i, _) => WarmEnd(CancelIfCan(s, i), false)
    case _ => WarmEnd(s, false)
  }

  /** A tick goes over the expiries tracked when it began, in some order. */
  ghost predicate Lists(todo: seq<(Key, Time)>, expiresAt: map<Key, Time>) {
    && (forall p | p in todo :: p.0 in expiresAt && expiresAt[p.0] == p.1)
    && (forall k | k in expiresAt :: (k, expiresAt[k]) in todo)
  }

  predicate Due(s: State, c: Config, now: Time, p: (Key, Time)) {
    p.0 !in c.onDemand && p.0 !in c.warmLast && !InBlockWindow(s.store, p.0, s.clock) && p.1 - now <= c.lead
  }

  predicate CanRefresh(s: State) {
    match s.loop
    case Resting => false
    case Ticking(_, _) => true
    case AwaitRefresh(i, _, _) => CallOver(s, i)
  }

  predicate EndedDeferred(s: State, i: nat) {
    KnownCall(s, i) && s.calls[i].pc.Ended? && s.calls[i].pc.result == Raised(Deferred)
  }

  /** The next stretch of a refresh tick: solve what is due, deferring to the foreground; a
      deferral ends the tick, any other failure does not. */
  function RefreshNext(s: State, c: Config): State
    requires CanRefresh(s)
  {
    match s.loop
    case Ticking(now, todo) =>
      if todo == [] then s.(loop := Resting)
      else if !Due(s, c, now, todo[0]) then s.(loop := Ticking(now, todo[1..]))
      else AwaitOwn(s, Refresh, todo[0].0, true, SolveOp).(loop := AwaitRefresh(|s.calls|, now, todo[1..]))
    case AwaitRefresh(i, now, todo) =>
      if EndedDeferred(s, i) then s.(loop := Resting) else s.(loop := Ticking(now, todo))
  }

  function RefreshAbort(s: State): State {
    if s.loop.AwaitRefresh? then CancelIfCan(s, s.loop.call).(loop := Resting) else s.(loop := Resting)
  }

  // ------------------------------------------------------------------- runs

  datatype Event =
    | Pass(ticks: nat)
    | OpStep(op: nat, event: OpEvent)
    | OpCallback(op: nat)
    | CallGet(key: Key, force: bool, solveIfMissing: bool)
    | CallEval(key: Key)
    | CallPrime(key: Key)
    | CallResume(call: nat)
    | CallCancel(call: nat)
    | Session(session: SessionEvent)
    | WarmStep
    | WarmStop
    | RefreshTick(todo: seq<(Key, Time)>)
    | RefreshStep
    | RefreshStop

  ghost predicate Can(s: State, c: Config, e: Event) {
    match e
    case OpStep(o, event) => CanOp(s, c, o, event)
    case OpCallback(o) => KnownOp(s, o) && Over(s.ops[o].pc)
    case CallPrime(k) => k in c.challenge && k in c.warmLast
    case CallResume(i) => CanResume(s, i)
    case CallCancel(i) => CanCancel(s, i)
    case Session(session) => CanSession(s.gate, session)
    case WarmStep => CanWarm(s)
    case WarmStop => !s.warm.NotStarted? && !s.warm.WarmOver?
    case RefreshTick(todo) => s.loop.Resting? && (s.gate.foreground == 0 ==> Lists(todo, s.store.expiresAt))
    case RefreshStep => CanRefresh(s)
    case RefreshStop => !s.loop.Resting?
    case _ => true
  }

  ghost function Apply(s: State, c: Config, e: Event): State
    requires Can(s, c, e)
  {
    match e
    case Pass(ticks) => s.(clock := s.clock + ticks)
    case OpStep(o, event) => ApplyOp(s, c, o, event)
    case OpCallback(o) => Callback(s, o)
    case CallGet(k, force, solveIfMissing) => GetCall(s, c, k, force, solveIfMissing, false)
    case CallEval(k) => AwaitOwn(s, Plain, k, false, EvalOp(false))
    case CallPrime(k) => AwaitOwn(s, Prime, k, false, EvalOp(true))
    case CallResume(i) => Resume(s, c, i)
    case CallCancel(i) => CancelCall(s, i)
    case Session(session) => s.(gate := ApplySession(s.gate, session))
    case WarmStep => WarmNext(s, c)
    case WarmStop => WarmAbort(s)
    case RefreshTick(todo) => if s.gate.foreground > 0 then s else s.(loop := Ticking(s.clock, todo))
    case RefreshStep => RefreshNext(s, c)
    case RefreshStop => RefreshAbort(s)
  }

  ghost predicate Run(s: State, c: Config, es: seq<Event>)
    decreases |es|
  {
    es != [] ==> Can(s, c, es[0]) && Run(Apply(s, c, es[0]), c, es[1..])
  }

  ghost function After(s: State, c: Config, es: seq<Event>): State
    requires Run(s, c, es)
    decreases |es|
  {
    if es == [] then s else After(Apply(s, c, es[0]), c, es[1..])
  }
}
