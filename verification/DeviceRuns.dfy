/** Runs from the start in which the device protocol does what one might not expect. Each of
    them also keeps to the first-come order of `DeviceLedger.InTurn`. */
module DeviceRuns {
  import opened Wrappers

  import opened ClearanceSpec
  import opened DeviceProtocol
  import opened DeviceInvariants
  import opened DeviceTheorems
  import opened DeviceWarm
  import opened DeviceLedger

  ghost predicate Leads(s: State, c: Config, e: Event, t: State) {
    Can(s, c, e) && InTurn(s, e) && Apply(s, c, e) == t
  }

  lemma RunCons(s: State, c: Config, e: Event, t: State, es: seq<Event>)
    requires Leads(s, c, e, t) && RunInTurn(t, c, es)
    ensures RunInTurn(s, c, [e] + es) && After(s, c, [e] + es) == After(t, c, es)
  {
    assert ([e] + es)[1..] == es;
  }

  /** Some continuation in turn leads from one state to the other. */
  ghost predicate Goes(s: State, c: Config, t: State) {
    exists es :: RunInTurn(s, c, es) && After(s, c, es) == t
  }

  lemma GoesNowhere(s: State, c: Config)
    ensures Goes(s, c, s)
  {
    assert RunInTurn(s, c, []) && After(s, c, []) == s;
  }

  lemma GoesOn(s: State, c: Config, e: Event, t: State, u: State)
    requires Leads(s, c, e, t) && Goes(t, c, u)
    ensures Goes(s, c, u)
  {
    var es :| RunInTurn(t, c, es) && After(t, c, es) == u;
    RunCons(s, c, e, t, es);
  }

  // ------------------------------------------- why the gate's patience counts

  /** A state in which `warm` waits for its first solve, with `rest` still to go. */
  function WarmWaiting(k: Key, rest: seq<Key>, op: Op, holder: Option<nat>, g: Gate): State {
    Start(true).(ops := [op], holder := holder, calls := [Call(Get(false, NOTHING), k, true, 0, Awaiting(0))],
                 warm := AwaitSolve(0, rest), gate := g)
  }

  function WarmOp(k: Key, pc: OpPc, acquired: nat, released: nat): Op {
    Op(SolveOp, k, true, false, 1, pc, acquired, released)
  }

  const SHUT := Gate(true, true, false, 0, 0, 0)
  const LEASED := Gate(true, true, false, 0, 1, 1)

  lemma WarmAsks(c: Config, k: Key, rest: seq<Key>)
    requires Eager(c, k)
    ensures Leads(Start(true).(warm := Solving([k] + rest)), c, WarmStep,
                  WarmWaiting(k, rest, WarmOp(k, Queued, 0, 0), None, SHUT))
  {
    var s := Start(true).(warm := Solving([k] + rest));
    assert ([k] + rest)[1..] == rest;
    assert Begin(s.store, c, k, false, true, s.clock) == Solve(NOTHING);
    assert s.calls + [Call(Get(false, NOTHING), k, true, 0, Awaiting(0))]
      == [Call(Get(false, NOTHING), k, true, 0, Awaiting(0))];
    assert s.ops + [NewOp(SolveOp, k, true, false)] == [NewOp(SolveOp, k, true, false)];
  }

  /** `warm` comes to its first solve, whatever it has to skip before. */
  lemma {:induction false} SkipsToEager(c: Config, keys: seq<Key>) returns (k: Key, rest: seq<Key>)
    requires exists j :: j in keys && Eager(c, j)
    requires forall j | j in keys :: j in c.challenge
    ensures Eager(c, k)
    ensures Goes(Start(true).(warm := Solving(keys)), c, WarmWaiting(k, rest, WarmOp(k, Queued, 0, 0), None, SHUT))
    decreases |keys|
  {
    var s := Start(true).(warm := Solving(keys));
    if Eager(c, keys[0]) {
      k, rest := keys[0], keys[1..];
      assert [k] + rest == keys;
      WarmAsks(c, k, rest);
      GoesNowhere(WarmWaiting(k, rest, WarmOp(k, Queued, 0, 0), None, SHUT), c);
    } else {
      k, rest := SkipsToEager(c, keys[1..]);
      assert Leads(s, c, WarmStep, Start(true).(warm := Solving(keys[1..])));
    }
    GoesOn(s, c, WarmStep, if Eager(c, keys[0]) then WarmWaiting(k, rest, WarmOp(k, Queued, 0, 0), None, SHUT)
                           else Start(true).(warm := Solving(keys[1..])),
           WarmWaiting(k, rest, WarmOp(k, Queued, 0, 0), None, SHUT));
  }

  lemma WarmStarts(c: Config) returns (k: Key, rest: seq<Key>)
    requires exists j :: Eager(c, j)
    ensures Eager(c, k) && Goes(Start(true), c, WarmWaiting(k, rest, WarmOp(k, Queued, 0, 0), None, SHUT))
  {
    k, rest := SkipsToEager(c, c.challenge);
    GoesOn(Start(true), c, WarmStep, Start(true).(warm := Solving(c.challenge)),
           WarmWaiting(k, rest, WarmOp(k, Queued, 0, 0), None, SHUT));
  }

  /** A sequence arrives at the shut gate and loses patience. */
  lemma PatienceRunsOut(c: Config, k: Key, rest: seq<Key>, op: Op, holder: Option<nat>)
    ensures Leads(WarmWaiting(k, rest, op, holder, SHUT), c, Session(Arrive),
                  WarmWaiting(k, rest, op, holder, SHUT.(waiting := 1)))
    ensures Leads(WarmWaiting(k, rest, op, holder, SHUT.(waiting := 1)), c, Session(Timeout),
                  WarmWaiting(k, rest, op, holder, LEASED))
  {
  }

  lemma GetsLease(c: Config, k: Key, rest: seq<Key>, op: Op, holder: Option<nat>, end: State)
    requires Goes(WarmWaiting(k, rest, op, holder, LEASED), c, end)
    ensures Goes(WarmWaiting(k, rest, op, holder, SHUT), c, end)
  {
    PatienceRunsOut(c, k, rest, op, holder);
    GoesOn(WarmWaiting(k, rest, op, holder, SHUT.(waiting := 1)), c, Session(Timeout),
           WarmWaiting(k, rest, op, holder, LEASED), end);
    GoesOn(WarmWaiting(k, rest, op, holder, SHUT), c, Session(Arrive),
           WarmWaiting(k, rest, op, holder, SHUT.(waiting := 1)), end);
  }

  /** For any gateway whose `warm` solves anything, once one wait at the gate runs out a solve of
      `warm` may be deferred. */
  lemma TimeoutLetsWarmDefer(c: Config) returns (k: Key, rest: seq<Key>)
    requires exists j :: Eager(c, j)
    ensures Eager(c, k) && Goes(Start(true), c, WarmWaiting(k, rest, WarmOp(k, Finished(Deferred), 1, 1), None, LEASED))
  {
    k, rest := WarmStarts(c);
    var end := WarmWaiting(k, rest, WarmOp(k, Finished(Deferred), 1, 1), None, LEASED);
    GoesNowhere(end, c);
    assert Leads(WarmWaiting(k, rest, WarmOp(k, Queued, 0, 0), None, LEASED), c, OpStep(0, Acquire), end);
    GoesOn(WarmWaiting(k, rest, WarmOp(k, Queued, 0, 0), None, LEASED), c, OpStep(0, Acquire), end, end);
    GetsLease(c, k, rest, WarmOp(k, Queued, 0, 0), None, end);
    GoesTwice(Start(true), c, WarmWaiting(k, rest, WarmOp(k, Queued, 0, 0), None, SHUT), end);
  }

  lemma {:induction false} RunTwice(s: State, c: Config, es: seq<Event>, more: seq<Event>)
    requires RunInTurn(s, c, es) && RunInTurn(After(s, c, es), c, more)
    ensures RunInTurn(s, c, es + more) && After(s, c, es + more) == After(After(s, c, es), c, more)
    decreases |es|
  {
    if es == [] {
      assert es + more == more;
    } else {
      assert (es + more)[0] == es[0] && (es + more)[1..] == es[1..] + more;
      RunTwice(Apply(s, c, es[0]), c, es[1..], more);
    }
  }

  lemma GoesTwice(s: State, c: Config, t: State, u: State)
    requires Goes(s, c, t) && Goes(t, c, u)
    ensures Goes(s, c, u)
  {
    var es :| RunInTurn(s, c, es) && After(s, c, es) == t;
    var more :| RunInTurn(t, c, more) && After(t, c, more) == u;
    RunTwice(s, c, es, more);
  }

  // ----------------------------------------- a deferrable POST under a lease

  lemma BusySteps(c: Config, k: Key, rest: seq<Key>)
    requires c.busyAttempts >= 2
    ensures Leads(WarmWaiting(k, rest, WarmOp(k, Queued, 0, 0), None, SHUT), c, OpStep(0, Acquire),
                  WarmWaiting(k, rest, WarmOp(k, Posting(0, 1), 1, 0), Some(0), SHUT))
    ensures Leads(WarmWaiting(k, rest, WarmOp(k, Posting(0, 1), 1, 0), Some(0), LEASED), c, OpStep(0, Busy),
                  WarmWaiting(k, rest, WarmOp(k, BusySleep(0, 1), 1, 0), Some(0), LEASED))
    ensures Leads(WarmWaiting(k, rest, WarmOp(k, BusySleep(0, 1), 1, 0), Some(0), LEASED), c, OpStep(0, BusyWake),
                  WarmWaiting(k, rest, WarmOp(k, Posting(0, 2), 1, 0), Some(0), LEASED))
  {
  }

  /** For any gateway whose `warm` solves anything and which retries a busy sidecar: `warm` takes
      the lock with nobody leasing the device; a sequence loses patience and gets its lease; and
      `warm`'s solve, though deferrable, POSTs again to the busy sidecar under that lease. */
  lemma BusyRetryUnderLease(c: Config) returns (k: Key, rest: seq<Key>)
    requires (exists j :: Eager(c, j)) && c.busyAttempts >= 2
    ensures var before := WarmWaiting(k, rest, WarmOp(k, BusySleep(0, 1), 1, 0), Some(0), LEASED);
            && Goes(Start(true), c, before) && before.ops[0].defer && before.gate.foreground > 0
            && Can(before, c, OpStep(0, BusyWake)) && MakesPost(before, Apply(before, c, OpStep(0, BusyWake)), 0)
  {
    k, rest := WarmStarts(c);
    BusySteps(c, k, rest);
    var asleep := WarmWaiting(k, rest, WarmOp(k, BusySleep(0, 1), 1, 0), Some(0), LEASED);
    var posting := WarmOp(k, Posting(0, 1), 1, 0);
    GoesNowhere(asleep, c);
    GoesOn(WarmWaiting(k, rest, posting, Some(0), LEASED), c, OpStep(0, Busy), asleep, asleep);
    GetsLease(c, k, rest, posting, Some(0), asleep);
    GoesOn(WarmWaiting(k, rest, WarmOp(k, Queued, 0, 0), None, SHUT), c, OpStep(0, Acquire),
           WarmWaiting(k, rest, posting, Some(0), SHUT), asleep);
    GoesTwice(Start(true), c, WarmWaiting(k, rest, WarmOp(k, Queued, 0, 0), None, SHUT), asleep);
  }

  // ---------------------------------------------- what a put-back can replace

  /** A gateway with one source, an eager one without a configured lifetime. */
  predicate OneSource(c: Config, k: Key) {
    && c.challenge == [k] && k !in c.warmLast && k !in c.onDemand && k !in c.lifetime
    && c.threshold <= 5 && c.lead >= 500
  }

  function SharedOp(k: Key, pc: OpPc, acquired: nat, released: nat): Op {
    Op(SolveOp, k, false, true, 1, pc, acquired, released)
  }

  function OwnOp(k: Key, pc: OpPc, acquired: nat, released: nat): Op {
    Op(SolveOp, k, true, false, 1, pc, acquired, released)
  }

  function Holds(k: Key, x: Clearance): Store {
    Store(map[k := x], map[k := 500], map[])
  }

  const EMPTY := Store(map[], map[], map[])

  // The first clearance is minted and held.

  function Asked(k: Key): State {
    Start(false).(ops := [SharedOp(k, Queued, 0, 0)], inflight := map[k := 0],
                  calls := [Call(Get(false, NOTHING), k, false, 0, Awaiting(0))])
  }

  function Posted(k: Key): State {
    Asked(k).(ops := [SharedOp(k, Posting(0, 1), 1, 0)], holder := Some(0))
  }

  function Brought0(k: Key): State {
    Asked(k).(ops := [SharedOp(k, Finished(DoneWith(0)), 1, 1)], minted := 1)
  }

  function DoneWith(x: Clearance): Outcome {
    Outcome.Minted(Some(x), Some(500))
  }

  function Held0(k: Key): State {
    Brought0(k).(calls := [Call(Get(false, NOTHING), k, false, 0, Ended(Given(Some(0), Some(500)), 0))],
                 store := Holds(k, 0))
  }

  lemma FirstAsk(c: Config, k: Key)
    requires OneSource(c, k)
    ensures Leads(Start(false), c, CallGet(k, false, true), Asked(k))
    ensures Leads(Asked(k), c, OpStep(0, Acquire), Posted(k))
  {
  }

  lemma FirstMint(c: Config, k: Key)
    requires OneSource(c, k)
    ensures Leads(Posted(k), c, OpStep(0, ReplyOk(Some(500), false)), Brought0(k))
    ensures Leads(Brought0(k), c, CallResume(0), Held0(k))
  {
  }

  // The refresh comes to renew it; meanwhile a forced call discards it; and the refresh brings
  // and holds a second one.

  function Ticked(k: Key): State {
    Held0(k).(loop := Ticking(0, [(k, 500)]))
  }

  function Refreshing(k: Key): State {
    Held0(k).(ops := [SharedOp(k, Finished(DoneWith(0)), 1, 1), OwnOp(k, Queued, 0, 0)],
              calls := Held0(k).calls + [Call(Refresh, k, true, 1, Awaiting(1))],
              loop := AwaitRefresh(1, 0, []))
  }

  function Forced(k: Key, own: OpPc, acquired: nat, released: nat): State {
    Refreshing(k).(ops := [SharedOp(k, Finished(DoneWith(0)), 1, 1), OwnOp(k, own, acquired, released),
                          SharedOp(k, Queued, 0, 0)],
                   inflight := map[k := 2], store := EMPTY,
                   calls := Refreshing(k).calls
                     + [Call(Get(true, Snapshot(Some(0), Some(500))), k, false, 1, Awaiting(2))])
  }

  function Held1(k: Key): State {
    Forced(k, Finished(DoneWith(1)), 1, 1).(
      minted := 2, store := Holds(k, 1),
      calls := Held0(k).calls + [Call(Refresh, k, true, 1, Ended(Given(Some(1), None), 0)),
                                 Call(Get(true, Snapshot(Some(0), Some(500))), k, false, 1, Awaiting(2))])
  }

  lemma Renewing(c: Config, k: Key)
    requires OneSource(c, k)
    ensures Leads(Held0(k), c, RefreshTick([(k, 500)]), Ticked(k))
    ensures Leads(Ticked(k), c, RefreshStep, Refreshing(k))
  {
    assert Ticked(k).loop.todo[1..] == [];
  }

  lemma Forcing(c: Config, k: Key)
    requires OneSource(c, k)
    ensures Leads(Refreshing(k), c, CallGet(k, true, true), Forced(k, Queued, 0, 0))
  {
    assert map[k := 0 as Clearance] - {k} == map[] && map[k := 500 as Time] - {k} == map[];
  }

  lemma RefreshPosts(c: Config, k: Key)
    requires OneSource(c, k)
    ensures Leads(Forced(k, Queued, 0, 0), c, OpStep(1, Acquire),
                  Forced(k, Posting(0, 1), 1, 0).(holder := Some(1)))
  {
  }

  lemma RefreshMints(c: Config, k: Key)
    requires OneSource(c, k)
    ensures Leads(Forced(k, Posting(0, 1), 1, 0).(holder := Some(1)), c, OpStep(1, ReplyOk(Some(500), false)),
                  Forced(k, Finished(DoneWith(1)), 1, 1).(minted := 2))
  {
  }

  lemma RefreshHolds(c: Config, k: Key)
    requires OneSource(c, k)
    ensures Leads(Forced(k, Finished(DoneWith(1)), 1, 1).(minted := 2), c, CallResume(1), Held1(k))
  {
  }

  // Then the forced call's own solve runs into a block window.

  function Blocking(s: State, k: Key, pc: OpPc, acquired: nat, released: nat): State
    requires |s.ops| == 3
  {
    s.(ops := [s.ops[0], s.ops[1], SharedOp(k, pc, acquired, released)])
  }

  function BlockedAt(s: State, c: Config, k: Key): State
    requires |s.ops| == 3
  {
    Blocking(s, k, Finished(Blocked), 1, 1).(clock := 5, store := s.store.(blockUntil := map[k := 5 + c.backoff]))
  }

  /** From any such state: the third operation is had, waits, and fails as a block. */
  lemma Blocks(s: State, c: Config, k: Key)
    requires OneSource(c, k) && |s.ops| == 3 && s.ops[2] == SharedOp(k, Queued, 0, 0) && s.holder.None?
    requires s.waking.None? && NoneToWake(s) && s.clock == 0 && s.store.blockUntil == map[]
    requires forall i | 0 <= i < |s.calls| && s.calls[i].pc.Awaiting? :: s.calls[i].pc.op == 2
    ensures Goes(s, c, BlockedAt(s, c, k))
  {
    var end := BlockedAt(s, c, k);
    var posting := Blocking(s, k, Posting(0, 1), 1, 0).(holder := Some(2));
    BlockSteps(s, c, k);
    GoesNowhere(end, c);
    GoesOn(posting.(clock := 5), c, OpStep(2, ReplyFail), end, end);
    GoesOn(posting, c, Pass(5), posting.(clock := 5), end);
    GoesOn(s, c, OpStep(2, Acquire), posting, end);
  }

  lemma BlockSteps(s: State, c: Config, k: Key)
    requires OneSource(c, k) && |s.ops| == 3 && s.ops[2] == SharedOp(k, Queued, 0, 0) && s.holder.None?
    requires s.waking.None? && s.clock == 0 && s.store.blockUntil == map[]
    requires forall i | 0 <= i < |s.calls| && s.calls[i].pc.Awaiting? :: s.calls[i].pc.op == 2
    ensures var posting := Blocking(s, k, Posting(0, 1), 1, 0).(holder := Some(2));
            && Leads(s, c, OpStep(2, Acquire), posting)
            && Leads(posting, c, Pass(5), posting.(clock := 5))
            && Leads(posting.(clock := 5), c, OpStep(2, ReplyFail), BlockedAt(s, c, k))
  {
  }

  /** A newer clearance lost. The refresh has held clearance 1 while a forced call waited with
      clearance 0; its solve is blocked, and it puts 0 back in the place of 1. */
  lemma NewerIsReplaced(c: Config, k: Key)
    requires OneSource(c, k)
    ensures var s := BlockedAt(Held1(k), c, k);
            && Goes(Start(false), c, s) && Can(s, c, CallResume(2)) && InTurn(s, CallResume(2)) && PutsBack(s, 2, 0)
            && s.store.held == map[k := 1] && Apply(s, c, CallResume(2)).store.held == map[k := 0]
  {
    ToBlocked(c, k);
  }

  lemma ToBlocked(c: Config, k: Key)
    requires OneSource(c, k)
    ensures Goes(Start(false), c, BlockedAt(Held1(k), c, k))
  {
    Blocks(Held1(k), c, k);
    ToHeld1(c, k);
    GoesTwice(Start(false), c, Held1(k), BlockedAt(Held1(k), c, k));
  }

  lemma ToHeld1(c: Config, k: Key)
    requires OneSource(c, k)
    ensures Goes(Start(false), c, Held1(k))
  {
    var end := Held1(k);
    FirstAsk(c, k);
    FirstMint(c, k);
    Renewing(c, k);
    Forcing(c, k);
    RefreshPosts(c, k);
    RefreshMints(c, k);
    RefreshHolds(c, k);
    GoesNowhere(end, c);
    GoesOn(Forced(k, Finished(DoneWith(1)), 1, 1).(minted := 2), c, CallResume(1), end, end);
    GoesOn(Forced(k, Posting(0, 1), 1, 0).(holder := Some(1)), c, OpStep(1, ReplyOk(Some(500), false)),
           Forced(k, Finished(DoneWith(1)), 1, 1).(minted := 2), end);
    GoesOn(Forced(k, Queued, 0, 0), c, OpStep(1, Acquire), Forced(k, Posting(0, 1), 1, 0).(holder := Some(1)), end);
    GoesOn(Refreshing(k), c, CallGet(k, true, true), Forced(k, Queued, 0, 0), end);
    GoesOn(Ticked(k), c, RefreshStep, Refreshing(k), end);
    GoesOn(Held0(k), c, RefreshTick([(k, 500)]), Ticked(k), end);
    GoesOn(Brought0(k), c, CallResume(0), Held0(k), end);
    GoesOn(Posted(k), c, OpStep(0, ReplyOk(Some(500), false)), Brought0(k), end);
    GoesOn(Asked(k), c, OpStep(0, Acquire), Posted(k), end);
    GoesOn(Start(false), c, CallGet(k, false, true), Asked(k), end);
  }

  // A second forced call discards clearance 1 and joins the same solve.

  function ForcedTwice(k: Key): State {
    Held1(k).(store := EMPTY,
              calls := Held1(k).calls + [Call(Get(true, Snapshot(Some(1), Some(500))), k, false, 2, Awaiting(2))])
  }

  function OldIsBack(c: Config, k: Key): State {
    BlockedAt(ForcedTwice(k), c, k).(
      store := Store(map[k := 0], map[k := 500], map[k := 5 + c.backoff]),
      calls := Held0(k).calls + [Call(Refresh, k, true, 1, Ended(Given(Some(1), None), 0)),
                                 Call(Get(true, Snapshot(Some(0), Some(500))), k, false, 1,
                                   Ended(Given(Some(0), Some(500)), 5)),
                                 Call(Get(true, Snapshot(Some(1), Some(500))), k, false, 2, Awaiting(2))],
      restored := {k}, waking := Some(2))
  }

  lemma ForcingTwice(c: Config, k: Key)
    requires OneSource(c, k)
    ensures Leads(Held1(k), c, CallGet(k, true, true), ForcedTwice(k))
  {
    assert map[k := 1 as Clearance] - {k} == map[] && map[k := 500 as Time] - {k} == map[];
  }

  lemma FirstPutBack(c: Config, k: Key)
    requires OneSource(c, k)
    ensures Leads(BlockedAt(ForcedTwice(k), c, k), c, CallResume(2), OldIsBack(c, k))
  {
    var s, t := BlockedAt(ForcedTwice(k), c, k), OldIsBack(c, k);
    assert s.calls[3].pc == s.calls[2].pc && Shared(s, 2);
    assert Resume(s, c, 2).store == t.store;
    assert Resume(s, c, 2).calls == t.calls;
  }

  lemma ToOldIsBack(c: Config, k: Key)
    requires OneSource(c, k)
    ensures Goes(Start(false), c, OldIsBack(c, k))
  {
    var s := OldIsBack(c, k);
    ToHeld1(c, k);
    ForcingTwice(c, k);
    Blocks(ForcedTwice(k), c, k);
    FirstPutBack(c, k);
    GoesNowhere(s, c);
    GoesOn(BlockedAt(ForcedTwice(k), c, k), c, CallResume(2), s, s);
    GoesTwice(ForcedTwice(k), c, BlockedAt(ForcedTwice(k), c, k), s);
    GoesOn(Held1(k), c, CallGet(k, true, true), ForcedTwice(k), s);
    GoesTwice(Start(false), c, Held1(k), s);
  }

  /** What a put-back replaces need not be newer: of two forced calls that share a blocked solve
      the first puts clearance 0 back, and the second then puts 1 in the place of it. */
  lemma OlderIsReplaced(c: Config, k: Key)
    requires OneSource(c, k)
    ensures var s := OldIsBack(c, k);
            && Goes(Start(false), c, s) && Can(s, c, CallResume(3)) && InTurn(s, CallResume(3)) && PutsBack(s, 3, 1)
            && s.store.held == map[k := 0] && k in s.restored && Apply(s, c, CallResume(3)).store.held == map[k := 1]
  {
    ToOldIsBack(c, k);
  }
}
