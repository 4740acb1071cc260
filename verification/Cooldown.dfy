/** The per-source failure backoff of src/manga_gateway/framework/cooldown.py, driven by the
    branches of src/manga_gateway/framework/fanout.py. */
module CooldownSpec {
  import opened Wrappers

  datatype Config = Config(base: int, max: int) {
    predicate Enabled() { base > 0 && max > 0 }

    /** The cooldown opened by the k-th consecutive failure. */
    function Backoff(k: nat): int
      requires k >= 2
    {
      var d := base * Pow2(k - 2);
      if d < max then d else max
    }

    /** The cooldowns of failures 2..n together: sum of min(base * 2^(k-2), max). */
    function TotalBackoff(n: nat): int {
      if n < 2 then 0 else TotalBackoff(n - 1) + Backoff(n)
    }
  }

  function Pow2(n: nat): nat { if n == 0 then 1 else 2 * Pow2(n - 1) }

  /** The two dictionaries of the cooldown. */
  datatype Cool = Cool(until: map<string, real>, streak: map<string, nat>) {
    function Streak(key: string): nat { if key in streak then streak[key] else 0 }

    function Fail(cfg: Config, key: string, now: real): Cool {
      if !cfg.Enabled() then this
      else
        var n := Streak(key) + 1;
        Cool(if n < 2 then until else until[key := now + cfg.Backoff(n) as real], streak[key := n])
    }

    function Succeed(cfg: Config, key: string): Cool {
      if !cfg.Enabled() then this else Cool(until - {key}, streak - {key})
    }

    predicate Blocks(cfg: Config, key: string, now: real) {
      cfg.Enabled() && key in until && now < until[key]
    }

    /** Asking also forgets a lapsed expiry, but never the streak. */
    function Ask(cfg: Config, key: string, now: real): Cool {
      if cfg.Enabled() && key in until && until[key] <= now then Cool(until - {key}, streak) else this
    }
  }

  // -------------------------------------------------------------- whole runs

  /** A call of the upstream: when it was made, and after how many failures. */
  datatype Called = Called(at: real, after: nat)

  /** What has happened to one source since success was last recorded for it: its calls, and when
      it failed. */
  datatype History = History(calls: seq<Called>, failures: seq<real>) {
    function Call(now: real): History { this.(calls := calls + [Called(now, |failures|)]) }
  }

  /** `running` holds the sources whose upstream call is under way. */
  datatype State = State(now: real, cool: Cool, running: set<string>, history: map<string, History>) {
    function Of(key: string): History { if key in history then history[key] else History([], []) }
  }

  /** Fan-outs do not overlap on a source: it is visited again only when its last visit is over.
      Visits of different sources interleave freely. A visit that `FailsLate` has its success
      recorded first, and then fails: its run was good and collecting its warnings was not. A
      visit that `Stops` is cancelled, and neither is recorded. */
  datatype Event =
    | Tick(dt: real)
    | Visit(key: string)
    | Fails(key: string)
    | FailsLate(key: string)
    | Succeeds(key: string)
    | Stops(key: string)

  predicate Possible(s: State, e: Event) {
    match e
    case Tick(dt) => dt >= 0.0
    case Visit(key) => key !in s.running
    case Fails(key) => key in s.running
    case FailsLate(key) => key in s.running
    case Succeeds(key) => key in s.running
    case Stops(key) => key in s.running
  }

  function Apply(cfg: Config, s: State, e: Event): State {
    match e
    case Tick(dt) => s.(now := s.now + dt)
    case Visit(key) =>
      var asked := s.(cool := s.cool.Ask(cfg, key, s.now));
      if s.cool.Blocks(cfg, key, s.now) then asked
      else asked.(running := s.running + {key}, history := s.history[key := s.Of(key).Call(s.now)])
    case Fails(key) =>
      s.(cool := s.cool.Fail(cfg, key, s.now), running := s.running - {key},
         history := s.history[key := s.Of(key).(failures := s.Of(key).failures + [s.now])])
    case FailsLate(key) =>
      s.(cool := s.cool.Succeed(cfg, key).Fail(cfg, key, s.now), running := s.running - {key},
         history := s.history[key := Renewed(s.Of(key), s.now)])
    case Succeeds(key) =>
      s.(cool := s.cool.Succeed(cfg, key), running := s.running - {key}, history := s.history[key := History([], [])])
    case Stops(key) => s.(running := s.running - {key})
  }

  /** A success wipes the history but for the call it belongs to, which then fails. */
  function Renewed(h: History, now: real): History {
    History([Called(if h.calls == [] then now else h.calls[|h.calls| - 1].at, 0)], [now])
  }

  function Run(cfg: Config, s: State, events: seq<Event>): Option<State>
    decreases |events|
  {
    if events == [] then Some(s)
    else if Possible(s, events[0]) then Run(cfg, Apply(cfg, s, events[0]), events[1..])
    else None
  }

  function Initial(now: real): State { State(now, Cool(map[], map[]), {}, map[]) }

  /** How long after the n-th failure the next call must wait. */
  function Wait(cfg: Config, n: nat): int { if n < 2 then 0 else cfg.Backoff(n) }

  /** The cooldown's dictionaries say exactly what the history of the source says. */
  ghost predicate Consistent(cfg: Config, s: State, key: string) {
    var h := s.Of(key);
    var n := |h.failures|;
    && s.cool.Streak(key) == n
    && (n > 0 ==> h.failures[n - 1] <= s.now)
    && (key in s.cool.until ==>
          key !in s.running && n >= 2 && s.cool.until[key] == h.failures[n - 1] + cfg.Backoff(n) as real)
    && (key !in s.cool.until && n > 0 ==> h.failures[n - 1] + Wait(cfg, n) as real <= s.now)
    && (key in s.running ==> h.calls != [] && UnderWay(h, h.calls[|h.calls| - 1], s.now))
    && Apart(cfg, h)
  }

  predicate UnderWay(h: History, c: Called, now: real) {
    c.after == |h.failures| && c.at <= now
  }

  /** A call waits out the last failure before it. */
  predicate WaitsOut(cfg: Config, failures: seq<real>, c: Called) {
    c.after <= |failures| && (c.after > 0 ==> failures[c.after - 1] + Wait(cfg, c.after) as real <= c.at)
  }

  /** Every call waits out the failure before it, and so does the next failure. */
  ghost predicate Apart(cfg: Config, h: History) {
    && (forall i | 0 <= i < |h.calls| :: WaitsOut(cfg, h.failures, h.calls[i]))
    && (forall i, j | 0 <= i < j < |h.failures| && j == i + 1 :: h.failures[i] + Wait(cfg, j) as real <= h.failures[j])
  }

  lemma ConsistentVisit(cfg: Config, s: State, key: string)
    requires cfg.Enabled() && Consistent(cfg, s, key) && key !in s.running
    ensures Consistent(cfg, Apply(cfg, s, Visit(key)), key)
  {
  }

  lemma ConsistentFails(cfg: Config, s: State, key: string)
    requires cfg.Enabled() && Consistent(cfg, s, key) && key in s.running
    ensures Consistent(cfg, Apply(cfg, s, Fails(key)), key)
  {
    ApartFails(cfg, s.Of(key), s.now);
  }

  lemma ApartFails(cfg: Config, h: History, now: real)
    requires Apart(cfg, h) && h.calls != [] && UnderWay(h, h.calls[|h.calls| - 1], now)
    ensures Apart(cfg, h.(failures := h.failures + [now]))
  {
    var h' := h.(failures := h.failures + [now]);
    forall i | 0 <= i < |h'.calls| ensures WaitsOut(cfg, h'.failures, h'.calls[i]) {
      assert WaitsOut(cfg, h.failures, h.calls[i]);
    }
    assert WaitsOut(cfg, h.failures, h.calls[|h.calls| - 1]);
  }

  lemma ConsistentFailsLate(cfg: Config, s: State, key: string)
    requires cfg.Enabled() && Consistent(cfg, s, key) && key in s.running
    ensures Consistent(cfg, Apply(cfg, s, FailsLate(key)), key)
  {
    assert Apply(cfg, s, FailsLate(key)).Of(key) == Renewed(s.Of(key), s.now);
  }

  lemma ConsistentKept(cfg: Config, s: State, e: Event, key: string)
    requires cfg.Enabled() && Consistent(cfg, s, key) && Possible(s, e)
    ensures Consistent(cfg, Apply(cfg, s, e), key)
  {
    match e
    case Tick(_) =>
    case Visit(k) => if k == key { ConsistentVisit(cfg, s, key); } else { OtherSource(cfg, s, e, key); }
    case Fails(k) => if k == key { ConsistentFails(cfg, s, key); } else { OtherSource(cfg, s, e, key); }
    case FailsLate(k) => if k == key { ConsistentFailsLate(cfg, s, key); } else { OtherSource(cfg, s, e, key); }
    case Succeeds(k) =>
      if k == key { assert Apply(cfg, s, e).Of(key) == History([], []); } else { OtherSource(cfg, s, e, key); }
    case Stops(k) => if k != key { OtherSource(cfg, s, e, key); }
  }

  /** Source-wide, and no wider: an event of one source says nothing about another. */
  lemma OtherSource(cfg: Config, s: State, e: Event, key: string)
    requires Possible(s, e) && !e.Tick? && e.key != key
    ensures var s' := Apply(cfg, s, e);
            && s'.now == s.now && s'.Of(key) == s.Of(key) && s'.cool.Streak(key) == s.cool.Streak(key)
            && (key in s'.running <==> key in s.running)
            && (key in s'.cool.until <==> key in s.cool.until)
            && (key in s.cool.until ==> s'.cool.until[key] == s.cool.until[key])
  {
  }

  lemma {:induction false} AlwaysConsistent(cfg: Config, s: State, events: seq<Event>, key: string)
    requires cfg.Enabled() && Consistent(cfg, s, key)
    ensures var r := Run(cfg, s, events); r.Some? ==> Consistent(cfg, r.value, key)
    decreases |events|
  {
    if events != [] && Possible(s, events[0]) {
      ConsistentKept(cfg, s, events[0], key);
      AlwaysConsistent(cfg, Apply(cfg, s, events[0]), events[1..], key);
    }
  }

  lemma {:induction false} FailuresWaitOut(cfg: Config, h: History, n: nat)
    requires Apart(cfg, h) && 0 < n <= |h.failures|
    ensures h.failures[0] + cfg.TotalBackoff(n - 1) as real <= h.failures[n - 1]
  {
    if n > 1 {
      FailuresWaitOut(cfg, h, n - 1);
      var i := n - 2;
      assert h.failures[i] + Wait(cfg, i + 1) as real <= h.failures[i + 1];
    }
  }

  /** In every run, late failures and cancelled visits included: a call of a source that has
      failed n times since success was last recorded for it comes no earlier than its last failure
      plus the cooldown that one opened, and so no earlier than its first failure plus all the
      cooldowns its failures 2..n opened. */
  lemma FailingSourceBacksOff(cfg: Config, start: real, events: seq<Event>, key: string, i: nat)
    requires cfg.Enabled()
    ensures var r := Run(cfg, Initial(start), events);
            r.Some? && i < |r.value.Of(key).calls| && r.value.Of(key).calls[i].after > 0 ==>
              var failures, c := r.value.Of(key).failures, r.value.Of(key).calls[i];
              && c.after <= |failures|
              && failures[c.after - 1] + Wait(cfg, c.after) as real <= c.at
              && failures[0] + cfg.TotalBackoff(c.after) as real <= c.at
  {
    AlwaysConsistent(cfg, Initial(start), events, key);
    var r := Run(cfg, Initial(start), events);
    if r.Some? && i < |r.value.Of(key).calls| && r.value.Of(key).calls[i].after > 0 {
      var h := r.value.Of(key);
      assert WaitsOut(cfg, h.failures, h.calls[i]);
      FailuresWaitOut(cfg, h, h.calls[i].after);
    }
  }

  /** Which end of a visit opens a window, exactly: one that fails before success is recorded, of
      a source that had failed before. A late failure always leaves a first failure and no window,
      and a cancelled visit the streak it found and no window: the one it may have found had lapsed. */
  lemma WindowOpensExactlyWhen(cfg: Config, s: State, e: Event, key: string)
    requires cfg.Enabled() && Consistent(cfg, s, key)
    requires e == Fails(key) || e == FailsLate(key) || e == Succeeds(key) || e == Stops(key)
    requires Possible(s, e)
    ensures var t := Apply(cfg, s, e).cool;
            && (t.Blocks(cfg, key, s.now) <==> e.Fails? && s.cool.Streak(key) >= 1)
            && t.Streak(key) == (match e
                                 case Fails(_) => s.cool.Streak(key) + 1
                                 case Stops(_) => s.cool.Streak(key)
                                 case FailsLate(_) => 1
                                 case _ => 0)
            && (!e.Fails? ==> key !in t.until)
  {
    match e
    case Fails(_) =>
      FailBlocks(cfg, s.cool, key, s.now);
      if s.cool.Streak(key) == 0 {
        assert key !in s.cool.until;
      }
    case _ =>
  }

  lemma FailBlocks(cfg: Config, c: Cool, key: string, now: real)
    requires cfg.Enabled()
    ensures var t := c.Fail(cfg, key, now);
            && t.Streak(key) == c.Streak(key) + 1
            && (c.Streak(key) >= 1 ==> t.Blocks(cfg, key, now))
            && (c.Streak(key) == 0 ==> t.until == c.until)
  {
    var n := c.Streak(key) + 1;
    if n >= 2 {
      BackoffIsPositive(cfg, n);
      var d := cfg.Backoff(n);
      assert c.Fail(cfg, key, now).until[key] == now + d as real;
    }
  }

  /** The second failure in a row opens a window of `base`, each further one of twice the last, and
      none of more than `max`. */
  lemma BackoffDoubles(cfg: Config, k: nat)
    requires cfg.Enabled() && k >= 2
    ensures cfg.Backoff(2) == if cfg.base < cfg.max then cfg.base else cfg.max
    ensures cfg.Backoff(k + 1) == if 2 * cfg.Backoff(k) < cfg.max then 2 * cfg.Backoff(k) else cfg.max
    ensures 0 < cfg.Backoff(k) <= cfg.max
  {
    var d := cfg.base * Pow2(k - 2);
    BackoffIsPositive(cfg, k);
    assert cfg.base * Pow2(k - 1) == 2 * d by { assert Pow2(k - 1) == 2 * Pow2(k - 2); }
  }

  /** With the default half minute and five minutes: 30, 60, 120, 240, 300 and so on. */
  lemma DefaultBackoffs(k: nat)
    requires k >= 6
    ensures var cfg := Config(30, 300);
            && cfg.Backoff(2) == 30 && cfg.Backoff(3) == 60 && cfg.Backoff(4) == 120 && cfg.Backoff(5) == 240
            && cfg.Backoff(k) == 300
            && cfg.TotalBackoff(1) == 0 && cfg.TotalBackoff(4) == 210
    decreases k
  {
    var cfg := Config(30, 300);
    BackoffDoubles(cfg, 2);
    BackoffDoubles(cfg, 3);
    BackoffDoubles(cfg, 4);
    BackoffDoubles(cfg, 5);
    if k > 6 {
      DefaultBackoffs(k - 1);
      BackoffDoubles(cfg, k - 1);
    }
    assert cfg.TotalBackoff(4) == cfg.TotalBackoff(3) + 120 == cfg.TotalBackoff(2) + 180;
  }

  lemma BackoffIsPositive(cfg: Config, k: nat)
    requires cfg.Enabled() && k >= 2
    ensures cfg.Backoff(k) > 0
  {
    Pow2Positive(k - 2);
    PositiveProduct(cfg.base, Pow2(k - 2));
  }

  lemma PositiveProduct(a: int, b: int)
    requires a > 0 && b > 0
    ensures a * b > 0
  {
  }

  lemma {:induction false} Pow2Positive(n: nat)
    ensures Pow2(n) >= 1
  {
    if n > 0 {
      Pow2Positive(n - 1);
    }
  }

  /** Runs in which no early failure of the source comes right after a failure of it. */
  ghost predicate NoTwoInARow(events: seq<Event>, key: string, failed: bool)
    decreases |events|
  {
    events != [] ==>
      match events[0]
      case Fails(k) =>
        if k == key then !failed && NoTwoInARow(events[1..], key, true) else NoTwoInARow(events[1..], key, failed)
      case FailsLate(k) => NoTwoInARow(events[1..], key, k == key || failed)
      case Succeeds(k) => NoTwoInARow(events[1..], key, k != key && failed)
      case _ => NoTwoInARow(events[1..], key, failed)
  }

  /** A source that fails, even at every visit, but always late, never cools down: it is called
      at every visit. More generally no window ever opens while an early failure never follows a
      failure without a success recorded between them. */
  lemma {:induction false} LateFailuresNeverCool(cfg: Config, s: State, events: seq<Event>, key: string)
    requires cfg.Enabled() && Consistent(cfg, s, key) && key !in s.cool.until
    requires s.cool.Streak(key) <= 1 && NoTwoInARow(events, key, s.cool.Streak(key) == 1)
    ensures var r := Run(cfg, s, events);
            r.Some? ==> key !in r.value.cool.until && !r.value.cool.Blocks(cfg, key, r.value.now)
    decreases |events|
  {
    if events != [] && Possible(s, events[0]) {
      var e := events[0];
      ConsistentKept(cfg, s, e, key);
      NoWindowYet(cfg, s, e, key);
      LateFailuresNeverCool(cfg, Apply(cfg, s, e), events[1..], key);
    }
  }

  lemma NoWindowYet(cfg: Config, s: State, e: Event, key: string)
    requires cfg.Enabled() && key !in s.cool.until && s.cool.Streak(key) <= 1 && Possible(s, e)
    requires e == Fails(key) ==> s.cool.Streak(key) == 0
    ensures var t := Apply(cfg, s, e).cool;
            && key !in t.until
            && t.Streak(key) == (if e == Fails(key) || e == FailsLate(key) then 1
                                 else if e == Succeeds(key) then 0 else s.cool.Streak(key))
  {
  }

  /** A cancelled visit leaves nothing to wait out: where one visit may call, a second one right
      after it, the first cancelled, calls as well. */
  lemma StoppedVisitFreesNext(cfg: Config, s: State, key: string)
    requires cfg.Enabled() && key !in s.running && !s.cool.Blocks(cfg, key, s.now)
    ensures var r := Run(cfg, s, [Visit(key), Stops(key), Visit(key)]);
            var c := Called(s.now, |s.Of(key).failures|);
            r.Some? && r.value.Of(key) == s.Of(key).(calls := s.Of(key).calls + [c, c])
  {
    var s1 := Apply(cfg, s, Visit(key));
    var s2 := Apply(cfg, s1, Stops(key));
    var s3 := Apply(cfg, s2, Visit(key));
    var all := [Visit(key), Stops(key), Visit(key)];
    assert all[1..] == [Stops(key), Visit(key)] && all[1..][1..] == [Visit(key)] && [Visit(key)][1..] == [];
    assert Run(cfg, s3, []) == Some(s3);
    assert Run(cfg, s2, [Visit(key)]) == Some(s3);
    assert Run(cfg, s1, [Stops(key), Visit(key)]) == Some(s3);
  }

  /** A skipped visit changes neither streak nor open window; a success clears both; and a source
      is skipped exactly while its window is open. */
  lemma SkipsAndSuccesses(cfg: Config, s: State, key: string)
    requires cfg.Enabled() && Consistent(cfg, s, key)
    ensures key !in s.running && s.cool.Blocks(cfg, key, s.now) ==> Apply(cfg, s, Visit(key)) == s
    ensures key !in s.running && !s.cool.Blocks(cfg, key, s.now) ==> key in Apply(cfg, s, Visit(key)).running
    ensures key !in s.running ==> (s.cool.Blocks(cfg, key, s.now) <==>
              |s.Of(key).failures| >= 2
                && s.now < s.Of(key).failures[|s.Of(key).failures| - 1] + cfg.Backoff(|s.Of(key).failures|) as real)
    ensures key in s.running ==>
              var s' := Apply(cfg, s, Succeeds(key)); s'.cool.Streak(key) == 0 && key !in s'.cool.until
  {
  }
}
