/** The concurrent fan-out of src/manga_gateway/framework/fanout.py over the failure cooldown. */
module FanOuts {
  import opened Wrappers
  import opened CooldownSpec

  class SourceFailureCooldown {
    const cfg: Config
    var until: map<string, real>
    var streak: map<string, nat>

    constructor (base: int, max: int)
      ensures cfg == Config(base, max) && View() == Cool(map[], map[])
    {
      cfg := Config(base, max);
      until, streak := map[], map[];
    }

    ghost function View(): Cool reads this { Cool(until, streak) }

    method RecordFailure(key: string, now: real)
      modifies this
      ensures View() == old(View()).Fail(cfg, key, now)
      ensures cfg.base <= 0 || cfg.max <= 0 ==> View() == old(View())
      ensures cfg.base > 0 && cfg.max > 0 ==>
                var n := if key in old(streak) then old(streak[key]) + 1 else 1;
                && streak == old(streak)[key := n]
                && until == if n < 2 then old(until) else old(until)[key := now + cfg.Backoff(n) as real]
    {
      if !(cfg.base > 0 && cfg.max > 0) {
        return;
      }
      var n := 1;
      if key in streak {
        n := streak[key] + 1;
      }
      streak := streak[key := n];
      if n < 2 {
        return;
      }
      var duration := cfg.base * Pow2(n - 2);
      if duration > cfg.max {
        duration := cfg.max;
      }
      until := until[key := now + duration as real];
    }

    method RecordSuccess(key: string)
      modifies this
      ensures View() == old(View()).Succeed(cfg, key)
      ensures if cfg.base > 0 && cfg.max > 0 then streak == old(streak) - {key} && until == old(until) - {key}
              else View() == old(View())
    {
      if !(cfg.base > 0 && cfg.max > 0) {
        return;
      }
      streak := streak - {key};
      until := until - {key};
    }

    method InCooldown(key: string, now: real) returns (live: bool)
      modifies this
      ensures live == old(View()).Blocks(cfg, key, now)
      ensures View() == old(View()).Ask(cfg, key, now)
      ensures live <==> cfg.base > 0 && cfg.max > 0 && key in old(until) && now < old(until[key])
      ensures streak == old(streak)
      ensures until == if cfg.base > 0 && cfg.max > 0 && key in old(until) && old(until[key]) <= now
                       then old(until) - {key} else old(until)
    {
      if !(cfg.base > 0 && cfg.max > 0) || key !in until {
        return false;
      }
      if now < until[key] {
        return true;
      }
      until := until - {key};
      live := false;
    }
  }

  // ------------------------------------------------------- what a source does

  datatype Failure =
    | TimedOut
    | SourceError(code: string, message: string)
    | HttpStatus(status: int)
    | Transport(name: string)
    | Unexpected

  /** The warning collector: absent, a list, or itself failing. */
  datatype Soft = NoCollector | Soft(warnings: seq<(string, string)>) | SoftFailed(failure: Failure)

  datatype Outcome<R> = Rows(rows: seq<R>, soft: Soft) | Threw(failure: Failure)

  datatype Warning = Warning(key: string, code: string, message: string)

  function WarningFor(key: string, f: Failure, text: Failure -> string): Warning {
    match f
    case SourceError(code, message) => Warning(key, code, message)
    case _ => Warning(key, "source_unavailable", text(f))
  }

  function SoftWarnings(key: string, ws: seq<(string, string)>): seq<Warning> {
    seq(|ws|, i requires 0 <= i < |ws| => Warning(key, ws[i].0, ws[i].1))
  }

  function SkipWarning(key: string): Warning {
    Warning(key, "source_unavailable", "upstream unavailable (cooldown)")
  }

  /** What one source contributes: its rows, its warnings, and what the cooldown is told. An
      empty list of rows is a success; a collector that fails turns a success into a failure. */
  datatype Share<R> = Share(rows: seq<R>, warnings: seq<Warning>, succeeded: bool, failed: bool)

  function ShareOf<R>(key: string, o: Outcome<R>, text: Failure -> string): Share<R> {
    match o
    case Threw(f) => Share([], [WarningFor(key, f, text)], false, true)
    case Rows(rows, NoCollector) => Share(rows, [], true, false)
    case Rows(rows, Soft(ws)) => Share(rows, SoftWarnings(key, ws), true, false)
    case Rows(_, SoftFailed(f)) => Share([], [WarningFor(key, f, text)], true, true)
  }

  // ------------------------------------------------ one source of the cooldown

  /** The part of the cooldown that belongs to one source. */
  datatype Slot = Slot(streak: nat, until: Option<real>)

  ghost function SlotOf(c: Cool, key: string): Slot {
    Slot(c.Streak(key), if key in c.until then Some(c.until[key]) else None)
  }

  /** The cooldown of one source after that source was asked for at `start` and ended at `end`. */
  ghost function Told<R>(cfg: Config, c: Cool, key: string, start: real, end: real, o: Outcome<R>,
      text: Failure -> string): Cool {
    var asked := c.Ask(cfg, key, start);
    if c.Blocks(cfg, key, start) then asked else Reported(cfg, asked, key, end, ShareOf(key, o, text))
  }

  /** The cooldown once a source's share is known: a success is told before a failure. */
  ghost function Reported<R>(cfg: Config, c: Cool, key: string, end: real, share: Share<R>): Cool {
    var c1 := if share.succeeded then c.Succeed(cfg, key) else c;
    if share.failed then c1.Fail(cfg, key, end) else c1
  }

  lemma ReportedOthers<R>(cfg: Config, c: Cool, key: string, end: real, share: Share<R>, other: string)
    requires key != other
    ensures SlotOf(Reported(cfg, c, key, end, share), other) == SlotOf(c, other)
  {
  }

  lemma ReportedSlot<R>(cfg: Config, c: Cool, d: Cool, key: string, end: real, share: Share<R>)
    requires SlotOf(c, key) == SlotOf(d, key)
    ensures SlotOf(Reported(cfg, c, key, end, share), key) == SlotOf(Reported(cfg, d, key, end, share), key)
  {
  }

  /** A source whose warnings cannot be collected is left with a first failure and no window,
      however often it failed before: its success was recorded first. */
  lemma LateFailureLeavesFirst<R>(cfg: Config, c: Cool, key: string, start: real, end: real, o: Outcome<R>,
                                  text: Failure -> string)
    requires cfg.Enabled() && !c.Blocks(cfg, key, start) && o.Rows? && o.soft.SoftFailed?
    ensures SlotOf(Told(cfg, c, key, start, end, o, text), key) == Slot(1, None)
  {
  }

  // --------------------------------------- what each outcome shows and tells

  /** The warning a failure gives: the source's own code and message, or that it is unavailable. */
  predicate WarnsOf(w: Warning, key: string, f: Failure, text: Failure -> string) {
    if f.SourceError? then w == Warning(key, f.code, f.message)
    else w.key == key && w.code == "source_unavailable" && w.message == text(f)
  }

  predicate WindowOpen(slot: Slot, at: real) {
    slot.until.Some? && at < slot.until.value
  }

  /** A run that is not skipped. One that raised gives no rows and one warning; its streak is one
      more than before, and a window is open at its end, for the backoff of that many failures,
      exactly when it had failed before. One that worked gives its rows and its collected warnings,
      in order, and clears streak and window; unless collecting them failed, which is a first
      failure without rows. */
  ghost predicate EndsLike<R>(cfg: Config, streak: nat, after: Slot, v: Visit<R>, rows: seq<R>, ws: seq<Warning>,
                              text: Failure -> string) {
    match v.outcome
    case Threw(f) =>
      && rows == [] && |ws| == 1 && WarnsOf(ws[0], v.key, f, text)
      && (cfg.Enabled() ==>
            && after.streak == streak + 1 && (WindowOpen(after, v.end) <==> streak >= 1)
            && after.until == if streak >= 1 then Some(v.end + cfg.Backoff(streak + 1) as real) else None)
    case Rows(got, NoCollector) => rows == got && ws == [] && (cfg.Enabled() ==> after == Slot(0, None))
    case Rows(got, Soft(collected)) =>
      && rows == got && |ws| == |collected|
      && (forall j | 0 <= j < |ws| :: ws[j] == Warning(v.key, collected[j].0, collected[j].1))
      && (cfg.Enabled() ==> after == Slot(0, None))
    case Rows(_, SoftFailed(f)) =>
      && rows == [] && |ws| == 1 && WarnsOf(ws[0], v.key, f, text) && (cfg.Enabled() ==> after == Slot(1, None))
  }

  /** And a whole visit: skipped inside an open window, which stays as it is; else it ends like that. */
  ghost predicate VisitedLike<R>(cfg: Config, before: Cool, after: Slot, v: Visit<R>, rows: seq<R>, ws: seq<Warning>,
                                 text: Failure -> string) {
    if cfg.Enabled() && WindowOpen(SlotOf(before, v.key), v.start) then
      && rows == [] && ws == [Warning(v.key, "source_unavailable", "upstream unavailable (cooldown)")]
      && after == SlotOf(before, v.key)
    else EndsLike(cfg, before.Streak(v.key), after, v, rows, ws, text)
  }

  /** What is told of a run that has begun, so that no window of its source is left. */
  lemma ReportedEnds<R>(cfg: Config, c: Cool, v: Visit<R>, text: Failure -> string)
    requires cfg.Enabled() ==> v.key !in c.until
    ensures var share := ShareOf(v.key, v.outcome, text);
            EndsLike(cfg, c.Streak(v.key), SlotOf(Reported(cfg, c, v.key, v.end, share), v.key), v, share.rows,
                     share.warnings, text)
  {
    if cfg.Enabled() {
      FailBlocks(cfg, c, v.key, v.end);
    }
  }

  lemma FinalVisits<R>(cfg: Config, before: Cool, v: Visit<R>, text: Failure -> string)
    ensures var f := Final(cfg, before, v, text); VisitedLike(cfg, before, f.slot, v, f.rows, f.warnings, text)
  {
    if !before.Blocks(cfg, v.key, v.start) {
      ReportedEnds(cfg, before.Ask(cfg, v.key, v.start), v, text);
    }
  }

  lemma SlotsIndependent(cfg: Config, c: Cool, key: string, other: string, now: real)
    requires key != other
    ensures SlotOf(c.Ask(cfg, key, now), other) == SlotOf(c, other)
    ensures SlotOf(c.Succeed(cfg, key), other) == SlotOf(c, other)
    ensures SlotOf(c.Fail(cfg, key, now), other) == SlotOf(c, other)
  {
  }

  /** What the cooldown does to a source depends on that source's slot only. */
  lemma SlotDecides(cfg: Config, c: Cool, d: Cool, key: string, now: real)
    requires SlotOf(c, key) == SlotOf(d, key)
    ensures c.Blocks(cfg, key, now) == d.Blocks(cfg, key, now)
    ensures SlotOf(c.Ask(cfg, key, now), key) == SlotOf(d.Ask(cfg, key, now), key)
    ensures SlotOf(c.Succeed(cfg, key), key) == SlotOf(d.Succeed(cfg, key), key)
    ensures SlotOf(c.Fail(cfg, key, now), key) == SlotOf(d.Fail(cfg, key, now), key)
  {
  }

  // ------------------------------------------------------------ the fan-out

  /** A source being visited: its key, what its run comes to, and when it starts and ends. */
  datatype Visit<R> = Visit(key: string, outcome: Outcome<R>, start: real, end: real)

  /** The child tasks interleave: each begins once and then, unless it skips, ends once. */
  datatype Step = Begin(i: nat) | End(i: nat)

  ghost predicate Schedule(steps: seq<Step>, n: nat) {
    && (forall k | 0 <= k < |steps| :: steps[k].i < n)
    && (forall j, k | 0 <= j < k < |steps| :: steps[j] != steps[k])
    && (forall k | 0 <= k < |steps| && steps[k].End? :: Begin(steps[k].i) in steps[..k])
    && (forall i: nat | i < n :: Begin(i) in steps && End(i) in steps)
  }

  datatype Phase = Waiting | Skipped | Running | Over

  /** What the shared results and the cooldown show of one source. */
  datatype Seen<R> = Seen(rows: seq<R>, warnings: seq<Warning>, slot: Slot)

  ghost function Expected<R>(cfg: Config, before: Cool, v: Visit<R>, phase: Phase, text: Failure -> string): Seen<R> {
    match phase
    case Waiting => Seen([], [], SlotOf(before, v.key))
    case Skipped => Seen([], [SkipWarning(v.key)], SlotOf(before.Ask(cfg, v.key, v.start), v.key))
    case Running => Seen([], [], SlotOf(before.Ask(cfg, v.key, v.start), v.key))
    case Over =>
      var share := ShareOf(v.key, v.outcome, text);
      Seen(share.rows, share.warnings, SlotOf(Told(cfg, before, v.key, v.start, v.end, v.outcome, text), v.key))
  }

  function OfSource(ws: seq<Warning>, key: string): seq<Warning> {
    if ws == [] then []
    else OfSource(ws[..|ws| - 1], key) + if ws[|ws| - 1].key == key then [ws[|ws| - 1]] else []
  }

  lemma {:induction false} OfSourceAppend(ws: seq<Warning>, more: seq<Warning>, key: string, owner: string)
    requires forall w | w in more :: w.key == owner
    ensures OfSource(ws + more, key) == OfSource(ws, key) + if key == owner then more else []
  {
    if more == [] {
      assert ws + more == ws;
    } else {
      var m := |more| - 1;
      assert (ws + more)[..|ws + more| - 1] == ws + more[..m];
      OfSourceAppend(ws, more[..m], key, owner);
      assert more == more[..m] + [more[m]];
    }
  }

  lemma ShareWarnsForItself<R>(key: string, o: Outcome<R>, text: Failure -> string)
    ensures forall w | w in ShareOf(key, o, text).warnings :: w.key == key
  {
  }

  function Joined<R>(lists: seq<seq<R>>): seq<R> {
    if lists == [] then [] else Joined(lists[..|lists| - 1]) + lists[|lists| - 1]
  }

  /** Joining keeps the order of the lists and of their elements. */
  lemma {:induction false} JoinedConcat<R>(a: seq<seq<R>>, b: seq<seq<R>>)
    ensures Joined(a + b) == Joined(a) + Joined(b)
    ensures forall list: seq<R> :: Joined([list]) == list
  {
    forall list: seq<R>
      ensures Joined([list]) == list
    {
      assert [list][..0] == [] && Joined<R>([]) == [];
    }
    if b == [] {
      assert a + b == a;
    } else {
      var n := |b| - 1;
      JoinedConcat(a, b[..n]);
      assert (a + b)[..|a + b| - 1] == a + b[..n];
    }
  }

  class FanOutRun<R> {
    const visits: seq<Visit<R>>
    const cooldown: SourceFailureCooldown
    const text: Failure -> string
    var warnings: seq<Warning>
    var rows: seq<seq<R>>
    var phases: seq<Phase>

    constructor (visits: seq<Visit<R>>, cooldown: SourceFailureCooldown, text: Failure -> string)
      ensures this.visits == visits && this.cooldown == cooldown && this.text == text
      ensures warnings == [] && rows == seq(|visits|, _ => []) && phases == seq(|visits|, _ => Waiting)
    {
      this.visits, this.cooldown, this.text := visits, cooldown, text;
      warnings, rows, phases := [], seq(|visits|, _ => []), seq(|visits|, _ => Waiting);
    }

    ghost predicate Shaped() reads this {
      && |rows| == |phases| == |visits|
      && forall i, j | 0 <= i < j < |visits| :: visits[i].key != visits[j].key
    }

    ghost function Shown(i: nat): Seen<R>
      reads this, cooldown
      requires Shaped() && i < |visits|
    {
      Seen(rows[i], OfSource(warnings, visits[i].key), SlotOf(cooldown.View(), visits[i].key))
    }

    /** Everything shown of source `i` is its own doing, at the phase it has reached. */
    ghost predicate AsExpected(before: Cool, i: nat)
      reads this, cooldown
      requires Shaped() && i < |visits|
    {
      Shown(i) == Expected(cooldown.cfg, before, visits[i], phases[i], text)
    }

    /** `_guarded` up to its first await: skip a source in cooldown, else start its run. */
    method Begin(i: nat)
      requires Shaped() && i < |visits| && phases[i] == Waiting
      modifies this, cooldown
      ensures Shaped()
      ensures phases == old(phases)[i :=
                if old(cooldown.View()).Blocks(cooldown.cfg, visits[i].key, visits[i].start) then Skipped else Running]
      ensures rows == old(rows)
      ensures warnings == old(warnings) + if phases[i] == Skipped then [SkipWarning(visits[i].key)] else []
      ensures cooldown.View() == old(cooldown.View()).Ask(cooldown.cfg, visits[i].key, visits[i].start)
    {
      var v := visits[i];
      var live := cooldown.InCooldown(v.key, v.start);
      if live {
        warnings := warnings + [SkipWarning(v.key)];
        phases := phases[i := Skipped];
      } else {
        phases := phases[i := Running];
      }
    }

    /** The rest of `_guarded` once the run of source `i` is over; nothing for a skipped one. */
    method End(i: nat)
      requires Shaped() && i < |visits|
      modifies this, cooldown
      ensures Shaped()
      ensures phases == old(phases)[i := if old(phases[i]) == Running then Over else old(phases[i])]
      ensures old(phases[i]) != Running ==>
                rows == old(rows) && warnings == old(warnings) && cooldown.View() == old(cooldown.View())
      ensures old(phases[i]) == Running ==>
                var v := visits[i];
                var share := ShareOf(v.key, v.outcome, text);
                && rows == old(rows)[i := share.rows] && warnings == old(warnings) + share.warnings
                && cooldown.View() == Reported(cooldown.cfg, old(cooldown.View()), v.key, v.end, share)
      ensures old(phases[i]) == Running && (cooldown.cfg.Enabled() ==> visits[i].key !in old(cooldown.View()).until) ==>
                && |old(warnings)| <= |warnings| && warnings[..|old(warnings)|] == old(warnings)
                && EndsLike(cooldown.cfg, old(cooldown.View()).Streak(visits[i].key),
                            SlotOf(cooldown.View(), visits[i].key), visits[i], rows[i],
                            warnings[|old(warnings)|..], text)
    {
      if phases[i] != Running {
        return;
      }
      phases := phases[i := Over];
      var v := visits[i];
      if cooldown.cfg.Enabled() ==> v.key !in cooldown.until {
        ReportedEnds(cooldown.cfg, cooldown.View(), v, text);
      }
      var failure := Unexpected;
      match v.outcome {
        case Threw(f) => failure := f;
        case Rows(got, soft) =>
          cooldown.RecordSuccess(v.key);
          match soft {
            case NoCollector =>
              rows := rows[i := got];
              return;
            case Soft(ws) =>
              warnings := warnings + SoftWarnings(v.key, ws);
              rows := rows[i := got];
              return;
            case SoftFailed(f) => failure := f;
          }
      }
      warnings := warnings + [WarningFor(v.key, failure, text)];
      rows := rows[i := []];
      cooldown.RecordFailure(v.key, v.end);
    }

    method BeginAsExpected(i: nat, ghost before: Cool)
      requires Shaped() && i < |visits| && phases[i] == Waiting
      requires forall j: nat | j < |visits| :: AsExpected(before, j)
      modifies this, cooldown
      ensures Shaped()
      ensures phases == old(phases)[i :=
                if before.Blocks(cooldown.cfg, visits[i].key, visits[i].start) then Skipped else Running]
      ensures forall j: nat | j < |visits| :: AsExpected(before, j)
      ensures forall w | w in warnings :: w in old(warnings) || w.key == visits[i].key
    {
      ghost var cool, ws := cooldown.View(), warnings;
      assert AsExpected(before, i);
      SlotDecides(cooldown.cfg, cool, before, visits[i].key, visits[i].start);
      Begin(i);
      ghost var more := warnings[|ws|..];
      assert warnings == ws + more;
      forall j: nat | j < |visits|
        ensures AsExpected(before, j)
      {
        assert old(AsExpected(before, j));
        OfSourceAppend(ws, more, visits[j].key, visits[i].key);
        if j != i {
          SlotsIndependent(cooldown.cfg, cool, visits[i].key, visits[j].key, visits[i].start);
        }
      }
    }

    method EndAsExpected(i: nat, ghost before: Cool)
      requires Shaped() && i < |visits|
      requires forall j: nat | j < |visits| :: AsExpected(before, j)
      requires phases[i] == Running ==> !before.Blocks(cooldown.cfg, visits[i].key, visits[i].start)
      modifies this, cooldown
      ensures Shaped()
      ensures phases == old(phases)[i := if old(phases[i]) == Running then Over else old(phases[i])]
      ensures forall j: nat | j < |visits| :: AsExpected(before, j)
      ensures forall w | w in warnings :: w in old(warnings) || w.key == visits[i].key
    {
      ghost var cool, ws, running := cooldown.View(), warnings, phases[i] == Running;
      ghost var v := visits[i];
      ghost var share := ShareOf(v.key, v.outcome, text);
      ghost var asked := before.Ask(cooldown.cfg, v.key, v.start);
      ShareWarnsForItself(v.key, v.outcome, text);
      assert AsExpected(before, i);
      assert running ==> SlotOf(cool, v.key) == SlotOf(asked, v.key);
      End(i);
      if running {
        ReportedSlot(cooldown.cfg, cool, asked, v.key, v.end, share);
        forall j: nat | j < |visits|
          ensures AsExpected(before, j)
        {
          assert old(AsExpected(before, j));
          OfSourceAppend(ws, share.warnings, visits[j].key, v.key);
          if j != i {
            ReportedOthers(cooldown.cfg, cool, v.key, v.end, share, visits[j].key);
          }
        }
      } else {
        forall j: nat | j < |visits|
          ensures AsExpected(before, j)
        {
          assert old(AsExpected(before, j));
        }
      }
    }
  }

  /** How a source's visit ends, whatever the others do. */
  ghost function FinalPhase<R>(cfg: Config, before: Cool, v: Visit<R>): Phase {
    if before.Blocks(cfg, v.key, v.start) then Skipped else Over
  }

  /** What source `i` shows when the fan-out is over; it depends on that source alone. */
  ghost function Final<R>(cfg: Config, before: Cool, v: Visit<R>, text: Failure -> string): Seen<R> {
    Expected(cfg, before, v, FinalPhase(cfg, before, v), text)
  }

  /** The whole fan-out. For any interleaving of the child tasks, each source's rows, warnings
      and cooldown are its own doing alone, and the rows are joined in the order of the sources. */
  method FanOut<R>(visits: seq<Visit<R>>, cooldown: SourceFailureCooldown, text: Failure -> string, steps: seq<Step>)
    returns (releases: seq<R>, warnings: seq<Warning>, ghost parts: seq<seq<R>>)
    requires Distinct(visits) && Schedule(steps, |visits|)
    modifies cooldown
    ensures |parts| == |visits| && releases == Joined(parts) && WarnsOfVisits(warnings, visits)
    ensures forall i: nat | i < |visits| ::
              VisitedLike(cooldown.cfg, old(cooldown.View()), SlotOf(cooldown.View(), visits[i].key), visits[i],
                          parts[i], OfSource(warnings, visits[i].key), text)
    ensures releases == Joined(seq(|visits|, i requires 0 <= i < |visits| =>
              Final(cooldown.cfg, old(cooldown.View()), visits[i], text).rows))
    ensures forall i: nat | i < |visits| ::
              var f := Final(cooldown.cfg, old(cooldown.View()), visits[i], text);
              OfSource(warnings, visits[i].key) == f.warnings && SlotOf(cooldown.View(), visits[i].key) == f.slot
  {
    ghost var before := cooldown.View();
    var run := new FanOutRun(visits, cooldown, text);
    RunAll(run, steps, before);
    releases := [];
    for i := 0 to |visits|
      invariant releases == Joined(run.rows[..i])
    {
      assert run.rows[..i + 1][..i] == run.rows[..i];
      releases := releases + run.rows[i];
    }
    warnings := run.warnings;
    ghost var want := seq(|visits|, i requires 0 <= i < |visits| => Final(cooldown.cfg, before, visits[i], text).rows);
    parts := want;
    assert run.rows[..|visits|] == want by {
      forall i: nat | i < |visits| ensures run.rows[i] == want[i] {
        assert run.Shown(i) == Final(cooldown.cfg, before, visits[i], text);
      }
    }
    forall i: nat | i < |visits|
      ensures OfSource(warnings, visits[i].key) == Final(cooldown.cfg, before, visits[i], text).warnings
      ensures SlotOf(cooldown.View(), visits[i].key) == Final(cooldown.cfg, before, visits[i], text).slot
    {
      assert run.Shown(i) == Final(cooldown.cfg, before, visits[i], text);
    }
    forall i: nat | i < |visits|
      ensures VisitedLike(cooldown.cfg, before, SlotOf(cooldown.View(), visits[i].key), visits[i], parts[i],
                          OfSource(warnings, visits[i].key), text)
    {
      FinalVisits(cooldown.cfg, before, visits[i], text);
    }
  }

  ghost predicate Distinct<R>(visits: seq<Visit<R>>) {
    forall i, j | 0 <= i < j < |visits| :: visits[i].key != visits[j].key
  }

  /** A source with this slot is not skipped in a visit, nor in a later one when it raises in the first. */
  ghost predicate RunsInBoth<R>(cfg: Config, slot: Slot, v: Visit<R>, next: Visit<R>) {
    && !WindowOpen(slot, v.start)
    && (slot.streak >= 1 ==> v.end + cfg.Backoff(slot.streak + 1) as real <= next.start)
  }

  lemma RunsAgain<R>(cfg: Config, before: Cool, after: Slot, v: Visit<R>, next: Visit<R>, rows: seq<R>,
                     ws: seq<Warning>, text: Failure -> string)
    requires cfg.Enabled() && v.outcome.Threw? && RunsInBoth(cfg, SlotOf(before, v.key), v, next)
    requires VisitedLike(cfg, before, after, v, rows, ws, text)
    ensures !WindowOpen(after, next.start) && after.streak == before.Streak(v.key) + 1
  {
  }

  /** Three fan-outs of which one source raises in the first two, and is not skipped in the second:
      the third, if it comes to it at the moment the second ended for it, skips it. */
  method ThirdIsSkipped<R>(first: seq<Visit<R>>, second: seq<Visit<R>>, third: seq<Visit<R>>, i: nat,
                           cooldown: SourceFailureCooldown, text: Failure -> string, steps: seq<seq<Step>>)
    returns (warnings: seq<Warning>, ghost parts: seq<seq<R>>)
    requires Distinct(first) && Distinct(second) && Distinct(third) && |steps| == 3
    requires Schedule(steps[0], |first|) && Schedule(steps[1], |second|) && Schedule(steps[2], |third|)
    requires i < |first| && i < |second| && i < |third| && first[i].key == second[i].key == third[i].key
    requires first[i].outcome.Threw? && second[i].outcome.Threw? && third[i].start == second[i].end
    requires cooldown.cfg.Enabled()
    requires RunsInBoth(cooldown.cfg, SlotOf(cooldown.View(), first[i].key), first[i], second[i])
    modifies cooldown
    ensures |parts| == |third| && parts[i] == []
    ensures OfSource(warnings, third[i].key)
         == [Warning(third[i].key, "source_unavailable", "upstream unavailable (cooldown)")]
    ensures SlotOf(cooldown.View(), third[i].key).streak == old(SlotOf(cooldown.View(), third[i].key).streak) + 2
  {
    ghost var cfg, c0 := cooldown.cfg, cooldown.View();
    var _, w1, p1 := FanOut(first, cooldown, text, steps[0]);
    ghost var c1 := cooldown.View();
    RunsAgain(cfg, c0, SlotOf(c1, second[i].key), first[i], second[i], p1[i], OfSource(w1, first[i].key), text);
    var _, w2, p2 := FanOut(second, cooldown, text, steps[1]);
    ghost var c2 := cooldown.View();
    RaisedVisit(cfg, c1, SlotOf(c2, second[i].key), second[i], p2[i], OfSource(w2, second[i].key), text);
    var _, w3, p3 := FanOut(third, cooldown, text, steps[2]);
    warnings, parts := w3, p3;
    SkippedVisit(cfg, c2, SlotOf(cooldown.View(), third[i].key), third[i], p3[i], OfSource(w3, third[i].key), text);
  }

  lemma RaisedVisit<R>(cfg: Config, before: Cool, after: Slot, v: Visit<R>, rows: seq<R>, ws: seq<Warning>,
                       text: Failure -> string)
    requires cfg.Enabled() && v.outcome.Threw? && !WindowOpen(SlotOf(before, v.key), v.start)
    requires VisitedLike(cfg, before, after, v, rows, ws, text)
    ensures var streak := before.Streak(v.key);
            && after.streak == streak + 1 && (WindowOpen(after, v.end) <==> streak >= 1)
            && after.until == if streak >= 1 then Some(v.end + cfg.Backoff(streak + 1) as real) else None
  {
  }

  lemma SkippedVisit<R>(cfg: Config, before: Cool, after: Slot, v: Visit<R>, rows: seq<R>, ws: seq<Warning>,
                        text: Failure -> string)
    requires cfg.Enabled() && WindowOpen(SlotOf(before, v.key), v.start)
    requires VisitedLike(cfg, before, after, v, rows, ws, text)
    ensures rows == [] && ws == [Warning(v.key, "source_unavailable", "upstream unavailable (cooldown)")]
    ensures after == SlotOf(before, v.key)
  {
  }

  /** Every warning is some visited source's. */
  ghost predicate WarnsOfVisits<R>(ws: seq<Warning>, visits: seq<Visit<R>>) {
    forall w | w in ws :: exists i :: 0 <= i < |visits| && visits[i].key == w.key
  }

  /** After the steps `done` every source is at its phase, and shows what it should there. */
  ghost predicate InStep<R>(run: FanOutRun<R>, done: seq<Step>, before: Cool)
    reads run, run.cooldown
  {
    && run.Shaped()
    && (forall i: nat | i < |run.visits| :: run.AsExpected(before, i))
    && WarnsOfVisits(run.warnings, run.visits)
    && forall i: nat | i < |run.visits| ::
         run.phases[i] == PhaseAfter(run.cooldown.cfg, before, run.visits[i], done, i)
  }

  method RunAll<R>(run: FanOutRun<R>, steps: seq<Step>, ghost before: Cool)
    requires run.Shaped() && run.cooldown.View() == before
    requires run.warnings == [] && forall i | 0 <= i < |run.visits| :: run.rows[i] == [] && run.phases[i] == Waiting
    requires Schedule(steps, |run.visits|)
    modifies run, run.cooldown
    ensures run.Shaped() && WarnsOfVisits(run.warnings, run.visits)
    ensures forall i: nat | i < |run.visits| ::
              run.Shown(i) == Final(run.cooldown.cfg, before, run.visits[i], run.text)
  {
    for k := 0 to |steps|
      invariant InStep(run, steps[..k], before)
    {
      RunStep(run, steps, k, before);
    }
    assert steps[..|steps|] == steps;
    forall i: nat | i < |run.visits|
      ensures run.Shown(i) == Final(run.cooldown.cfg, before, run.visits[i], run.text)
    {
      assert Begin(i) in steps && End(i) in steps;
      assert run.AsExpected(before, i);
    }
  }

  method RunStep<R>(run: FanOutRun<R>, steps: seq<Step>, k: nat, ghost before: Cool)
    requires Schedule(steps, |run.visits|) && k < |steps| && InStep(run, steps[..k], before)
    modifies run, run.cooldown
    ensures InStep(run, steps[..k + 1], before)
  {
    assert steps[..k + 1] == steps[..k] + [steps[k]];
    PhaseMoves(run.cooldown.cfg, before, run.visits, steps, k);
    var i := steps[k].i;
    if steps[k].Begin? {
      run.BeginAsExpected(i, before);
    } else {
      run.EndAsExpected(i, before);
    }
  }

  lemma PhaseMoves<R>(cfg: Config, before: Cool, visits: seq<Visit<R>>, steps: seq<Step>, k: nat)
    requires Schedule(steps, |visits|) && k < |steps|
    ensures forall j: nat | j < |visits| && j != steps[k].i ::
              PhaseAfter(cfg, before, visits[j], steps[..k] + [steps[k]], j)
                == PhaseAfter(cfg, before, visits[j], steps[..k], j)
    ensures var i := steps[k].i;
            var was, now := PhaseAfter(cfg, before, visits[i], steps[..k], i),
              PhaseAfter(cfg, before, visits[i], steps[..k] + [steps[k]], i);
            if steps[k].Begin? then
              was == Waiting && now == if before.Blocks(cfg, visits[i].key, visits[i].start) then Skipped else Running
            else
              was != Waiting && now == (if was == Running then Over else was)
              && (was == Running ==> !before.Blocks(cfg, visits[i].key, visits[i].start))
  {
  }

  /** The phase of source `i` after some of the steps. */
  ghost function PhaseAfter<R>(cfg: Config, before: Cool, v: Visit<R>, steps: seq<Step>, i: nat): Phase {
    if Begin(i) !in steps then Waiting
    else if before.Blocks(cfg, v.key, v.start) then Skipped
    else if End(i) in steps then Over else Running
  }
}
