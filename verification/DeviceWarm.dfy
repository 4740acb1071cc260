/** What `warm` promises: what it reports, and that it lets everybody go. */
module DeviceWarm {
  import opened ClearanceSpec
  import opened DeviceProtocol
  import opened DeviceInvariants
  import opened DeviceTheorems

  // ------------------------------------------------------------- its calls

  /** A call of `warm` for a source it solves: nobody else's call for a clearance defers. */
  predicate WarmCall(call: Call) {
    call.kind.Get? && call.defer
  }

  /** Calls are only ever added, and one that is over stays as it is. */
  ghost predicate CallsGrow(calls: seq<Call>, more: seq<Call>) {
    && |calls| <= |more|
    && forall i | 0 <= i < |calls| ::
         && more[i].kind == calls[i].kind && more[i].key == calls[i].key && more[i].defer == calls[i].defer
         && (!calls[i].pc.Awaiting? ==> more[i] == calls[i])
  }

  ghost predicate NoneOfWarm(calls: seq<Call>, more: seq<Call>) {
    forall i | |calls| <= i < |more| :: !WarmCall(more[i])
  }

  lemma CallsGrowAtGet(s: State, c: Config, k: Key, force: bool, solveIfMissing: bool, defer: bool)
    ensures var t := GetCall(s, c, k, force, solveIfMissing, defer);
            && CallsGrow(s.calls, t.calls) && |t.calls| == |s.calls| + 1 && t.failed == s.failed
            && t.calls[|s.calls|].key == k
            && (!defer ==> !WarmCall(t.calls[|s.calls|]))
            && (defer && k !in c.warmLast ==> WarmCall(t.calls[|s.calls|]))
  {
  }

  lemma CallsGrowAtWarm(s: State, c: Config)
    requires CanWarm(s)
    ensures CallsGrow(s.calls, WarmNext(s, c).calls)
  {
    if s.warm.Solving? && s.warm.rest != [] {
      CallsGrowAtGet(s, c, s.warm.rest[0], false, true, true);
    }
  }

  lemma CallsGrowAtCancel(s: State, i: nat)
    ensures CallsGrow(s.calls, CancelIfCan(s, i).calls) && CancelIfCan(s, i).failed == s.failed
    ensures |CancelIfCan(s, i).calls| == |s.calls|
  {
  }

  lemma CallsGrowAt(s: State, c: Config, e: Event)
    requires Can(s, c, e)
    ensures CallsGrow(s.calls, Apply(s, c, e).calls)
    ensures !e.WarmStep? ==> NoneOfWarm(s.calls, Apply(s, c, e).calls)
  {
    match e
    case CallGet(k, force, solveIfMissing) => CallsGrowAtGet(s, c, k, force, solveIfMissing, false);
    case WarmStep => CallsGrowAtWarm(s, c);
    case WarmStop => CallsGrowAtCancel(s, if s.warm.AwaitSolve? || s.warm.AwaitPrime? then s.warm.call else 0);
    case RefreshStop => CallsGrowAtCancel(s, if s.loop.AwaitRefresh? then s.loop.call else 0);
    case CallResume(i) => CallsGrowAtResume(s, c, i);
    case RefreshStep => CallsGrowAtRefresh(s, c);
    case _ =>
  }

  lemma CallsGrowAtResume(s: State, c: Config, i: nat)
    requires CanResume(s, i)
    ensures CallsGrow(s.calls, Resume(s, c, i).calls) && |Resume(s, c, i).calls| == |s.calls|
  {
  }

  lemma CallsGrowAtRefresh(s: State, c: Config)
    requires CanRefresh(s)
    ensures CallsGrow(s.calls, RefreshNext(s, c).calls) && NoneOfWarm(s.calls, RefreshNext(s, c).calls)
  {
  }

  /** Only `warm` reports, and only it moves itself on; others can but stop it. */
  lemma OthersDoNotReport(s: State, c: Config, e: Event)
    requires Can(s, c, e) && !e.WarmStep?
    ensures Apply(s, c, e).failed == s.failed
    ensures Apply(s, c, e).warm == s.warm || (!s.warm.WarmOver? && Apply(s, c, e).warm == WarmOver(false))
  {
  }

  // ------------------------------------------------------------- its report

  /** A source that `warm` solves: one that holds no page and is not on demand. */
  predicate Eager(c: Config, k: Key) {
    k in c.challenge && k !in c.warmLast && k !in c.onDemand
  }

  predicate WarmFailed(call: Call, k: Key) {
    call.key == k && WarmCall(call) && FailedCall(call)
  }

  /** Whatever is reported has failed. */
  ghost predicate ReportOk(failed: seq<Key>, calls: seq<Call>, c: Config) {
    forall k | k in failed :: Eager(c, k) && exists i :: 0 <= i < |calls| && WarmFailed(calls[i], k)
  }

  predicate AwaitedByWarm(warm: Warm, i: int) {
    warm.AwaitSolve? && warm.call == i
  }

  /** Unless `warm` was stopped, its only call not over is the one it waits for, and all others
      that failed are reported. */
  ghost predicate AllReported(warm: Warm, failed: seq<Key>, calls: seq<Call>) {
    warm != WarmOver(false) ==>
      forall i | 0 <= i < |calls| && WarmCall(calls[i]) && !AwaitedByWarm(warm, i) ::
        !calls[i].pc.Awaiting? && (FailedCall(calls[i]) ==> calls[i].key in failed)
  }

  ghost predicate WarmWaitsOk(warm: Warm, calls: seq<Call>, c: Config) {
    warm.AwaitSolve? ==> warm.call < |calls| && WarmCall(calls[warm.call]) && Eager(c, calls[warm.call].key)
  }

  lemma ReportGrows(failed: seq<Key>, calls: seq<Call>, more: seq<Call>, c: Config)
    requires ReportOk(failed, calls, c) && CallsGrow(calls, more)
    ensures ReportOk(failed, more, c)
  {
  }

  ghost predicate ReportInv(s: State, c: Config) {
    && ReportOk(s.failed, s.calls, c) && AllReported(s.warm, s.failed, s.calls)
    && WarmWaitsOk(s.warm, s.calls, c) && LoopsOk(s.warm, s.loop, c)
  }

  lemma ReportKeptByWarm(s: State, c: Config)
    requires CanWarm(s) && ReportInv(s, c)
    ensures var t := WarmNext(s, c); ReportOk(t.failed, t.calls, c) && WarmWaitsOk(t.warm, t.calls, c)
  {
    CallsGrowAtWarm(s, c);
    ReportGrows(s.failed, s.calls, WarmNext(s, c).calls, c);
    if s.warm.Solving? && s.warm.rest != [] {
      CallsGrowAtGet(s, c, s.warm.rest[0], false, true, true);
    } else if s.warm.AwaitSolve? && FailedCall(s.calls[s.warm.call]) {
      assert WarmFailed(s.calls[s.warm.call], s.calls[s.warm.call].key);
    }
  }

  lemma AllReportedByWarm(s: State, c: Config)
    requires CanWarm(s) && ReportInv(s, c)
    ensures var t := WarmNext(s, c); AllReported(t.warm, t.failed, t.calls)
  {
    if s.warm.Solving? && s.warm.rest != [] {
      CallsGrowAtGet(s, c, s.warm.rest[0], false, true, true);
    }
  }

  lemma AllReportedByOthers(s: State, t: State)
    requires AllReported(s.warm, s.failed, s.calls) && CallsGrow(s.calls, t.calls) && NoneOfWarm(s.calls, t.calls)
    requires t.failed == s.failed && (t.warm == s.warm || t.warm == WarmOver(false))
    ensures AllReported(t.warm, t.failed, t.calls)
  {
  }

  lemma ReportKept(s: State, c: Config, e: Event)
    requires Can(s, c, e) && Inv(s, c) && ReportInv(s, c)
    ensures ReportInv(Apply(s, c, e), c)
  {
    InvKept(s, c, e);
    if e.WarmStep? {
      ReportKeptByWarm(s, c);
      AllReportedByWarm(s, c);
    } else {
      OthersDoNotReport(s, c, e);
      CallsGrowAt(s, c, e);
      ReportGrows(s.failed, s.calls, Apply(s, c, e).calls, c);
      AllReportedByOthers(s, Apply(s, c, e));
    }
  }

  lemma {:induction false} ReportAfter(s: State, c: Config, es: seq<Event>)
    requires Run(s, c, es) && Inv(s, c) && ReportInv(s, c)
    ensures ReportInv(After(s, c, es), c)
    decreases |es|
  {
    if es != [] {
      InvKept(s, c, es[0]);
      ReportKept(s, c, es[0]);
      ReportAfter(Apply(s, c, es[0]), c, es[1..]);
    }
  }

  /** What `warm` reports, when it returns, is exactly the keys of its calls that raised something
      other than a deferral. Those are sources it solves: page holders and on-demand sources are
      never reported; and nothing is reported, even before its end, that has not failed. */
  lemma WarmReportsFailures(s: State, c: Config, startup: bool, es: seq<Event>, k: Key)
    requires Reached(s, c, startup, es)
    ensures k in s.failed ==> Eager(c, k) && exists i :: 0 <= i < |s.calls| && WarmFailed(s.calls[i], k)
    ensures s.warm == WarmOver(true) ==>
              (k in s.failed <==> exists i :: 0 <= i < |s.calls| && WarmFailed(s.calls[i], k))
  {
    InvStart(c, startup);
    ReportAfter(Start(startup), c, es);
  }

  // --------------------------------------------------------- letting all go

  lemma WarmOverStaysOnce(s: State, c: Config, e: Event)
    requires Inv(s, c) && Can(s, c, e) && s.warm.WarmOver?
    ensures var t := Apply(s, c, e);
            t.warm == s.warm && t.gate.complete && t.gate.waiting <= s.gate.waiting && t.failed == s.failed
  {
    OthersDoNotReport(s, c, e);
    match e
    case CallGet(k, force, solveIfMissing) => GetKeepsWarm(s, c, k, force, solveIfMissing, false);
    case RefreshStop => CallsGrowAtCancel(s, if s.loop.AwaitRefresh? then s.loop.call else 0);
    case _ =>
  }

  lemma {:induction false} WarmOverStays(s: State, c: Config, es: seq<Event>)
    requires Inv(s, c) && Run(s, c, es) && s.warm.WarmOver?
    ensures var t := After(s, c, es);
            t.warm == s.warm && t.gate.complete && t.gate.waiting <= s.gate.waiting
    decreases |es|
  {
    if es != [] {
      InvKept(s, c, es[0]);
      WarmOverStaysOnce(s, c, es[0]);
      WarmOverStays(Apply(s, c, es[0]), c, es[1..]);
    }
  }

  /** However `warm` ended, it has released all waiting sequences for good: in every continuation
      it stays over, no further sequence ever waits, one that arrives takes its lease at once,
      and one that still waits may go on. Before its end nobody goes on but by losing patience. */
  lemma WarmReleasesAll(s: State, c: Config, startup: bool, es: seq<Event>, more: seq<Event>)
    requires Reached(s, c, startup, es) && Run(s, c, more)
    ensures s.gate.waiting > 0 ==> (CanSession(s.gate, Wake) <==> s.warm.WarmOver?)
    ensures s.warm.WarmOver? ==>
              var g := After(s, c, more).gate;
              && After(s, c, more).warm == s.warm && g.waiting <= s.gate.waiting
              && (g.waiting > 0 ==> CanSession(g, Wake))
              && ApplySession(g, Arrive) == g.(foreground := g.foreground + 1)
  {
    ReachedInv(s, c, startup, es);
    if s.warm.WarmOver? {
      WarmOverStays(s, c, more);
    }
  }
}
