/** The tap loop of `AndroidSolvePipeline._tap_until_cleared` in android_solver/service.py:
    poll for the clearance, hold still while a tap is being verified, else tap again, but
    never too soon. Clock readings and probe results are arbitrary. */
module TapLoop {
  import opened Wrappers

  type Cookie = string

  /** What one turn of the loop reads: the clock at the loop test, at the tap decision and
      after the tap; the cancel flag; the extracted clearance (none when the poll failed); the
      verification banner (false when the probe failed); what looking for the checkbox came to;
      and whether tapping it raised. */
  datatype Reading = Reading(top: real, cancelled: bool, cookie: Option<Cookie>, verifying: bool,
                             decide: real, spot: Spot, tapRaised: bool, after: real)

  /** Nothing, the checkbox, or that the screen could not be read or searched. */
  datatype Spot = Nowhere | Located | LookRaised

  datatype Tap = Tap(turn: nat, at: real, done: real)

  datatype Exit = Running | Cleared(cookie: Cookie) | Expired | Cancelled | DeviceRaised

  datatype Loop = Loop(taps: seq<Tap>, exit: Exit)

  /** Whether the guards let turn `r` tap after `taps`. */
  predicate MayTap(taps: seq<Tap>, r: Reading, retap: real) {
    |taps| == 0 || r.decide - taps[|taps| - 1].done >= retap
  }

  /** One turn of the loop. A tap that raises may have landed all the same, and is counted. */
  function Turn(l: Loop, k: nat, r: Reading, deadline: real, retap: real): Loop {
    if !l.exit.Running? then l
    else if r.top >= deadline then l.(exit := Expired)
    else if r.cancelled then l.(exit := Cancelled)
    else if r.cookie.Some? then l.(exit := Cleared(r.cookie.value))
    else if r.verifying || !MayTap(l.taps, r, retap) || r.spot.Nowhere? then l
    else if r.spot.LookRaised? then l.(exit := DeviceRaised)
    else Loop(l.taps + [Tap(k, r.decide, r.after)], if r.tapRaised then DeviceRaised else Running)
  }

  function After(readings: seq<Reading>, n: nat, deadline: real, retap: real): Loop
    requires n <= |readings|
  {
    if n == 0 then Loop([], Running)
    else Turn(After(readings, n - 1, deadline, retap), n - 1, readings[n - 1], deadline, retap)
  }

  /** The loop, stopped at the latest when the readings run out. */
  method TapUntilCleared(readings: seq<Reading>, deadline: real, retap: real)
    returns (taps: seq<Tap>, exit: Exit, turns: nat)
    ensures turns <= |readings| && Loop(taps, exit) == After(readings, turns, deadline, retap)
    ensures exit.Running? ==> turns == |readings|
  {
    taps, exit, turns := [], Running, 0;
    var lastTap: Option<real> := None;
    while turns < |readings|
      invariant turns <= |readings| && exit.Running?
      invariant Loop(taps, exit) == After(readings, turns, deadline, retap)
      invariant lastTap == if |taps| == 0 then None else Some(taps[|taps| - 1].done)
    {
      var r := readings[turns];
      turns := turns + 1;
      if r.top >= deadline {
        exit := Expired;
        return;
      }
      if r.cancelled {
        exit := Cancelled;
        return;
      }
      if r.cookie.Some? {
        exit := Cleared(r.cookie.value);
        return;
      }
      if r.verifying {
        continue;
      }
      if lastTap.None? || r.decide - lastTap.value >= retap {
        if r.spot.LookRaised? {
          exit := DeviceRaised;
          return;
        }
        if r.spot.Located? {
          taps := taps + [Tap(turns - 1, r.decide, r.after)];
          if r.tapRaised {
            exit := DeviceRaised;
            return;
          }
          lastTap := Some(r.after);
        }
      }
    }
  }

  /** The clock never goes backwards, within a turn or from one turn to the next. */
  ghost predicate Monotone(readings: seq<Reading>, start: real) {
    && (forall k | 0 <= k < |readings| :: start <= readings[k].top <= readings[k].decide <= readings[k].after)
    && (forall j, k | 0 <= j < k < |readings| :: readings[j].after <= readings[k].top)
  }

  ghost predicate TapOf(t: Tap, r: Reading, deadline: real) {
    t.at == r.decide && t.done == r.after && r.top < deadline && !r.verifying && !r.cancelled && r.cookie.None?
      && r.spot.Located?
  }

  /** No tap in a turn that saw verification. */
  ghost predicate Genuine(l: Loop, readings: seq<Reading>, n: nat, deadline: real)
    requires n <= |readings|
  {
    forall i | 0 <= i < |l.taps| :: l.taps[i].turn < n && TapOf(l.taps[i], readings[l.taps[i].turn], deadline)
  }

  /** Successive taps in successive turns and at least `retap` apart. */
  ghost predicate Apart(l: Loop, retap: real) {
    forall i, j | 0 <= i < j < |l.taps| && j == i + 1 ::
      l.taps[i].turn < l.taps[j].turn && l.taps[j].at - l.taps[i].done >= retap
  }

  ghost predicate Spaced(l: Loop, readings: seq<Reading>, n: nat, deadline: real, retap: real)
    requires n <= |readings|
  {
    Genuine(l, readings, n, deadline) && Apart(l, retap)
  }

  lemma {:induction false} TapsAreGenuine(readings: seq<Reading>, n: nat, deadline: real, retap: real)
    requires n <= |readings|
    ensures Genuine(After(readings, n, deadline, retap), readings, n, deadline)
  {
    if n > 0 {
      TapsAreGenuine(readings, n - 1, deadline, retap);
    }
  }

  ghost predicate TurnsBelow(l: Loop, k: nat) {
    forall i | 0 <= i < |l.taps| :: l.taps[i].turn < k
  }

  lemma {:induction false} TapsAreApart(readings: seq<Reading>, n: nat, deadline: real, retap: real)
    requires n <= |readings|
    ensures Apart(After(readings, n, deadline, retap), retap) && TurnsBelow(After(readings, n, deadline, retap), n)
  {
    if n > 0 {
      TapsAreApart(readings, n - 1, deadline, retap);
      TurnKeepsApart(After(readings, n - 1, deadline, retap), n - 1, readings[n - 1], deadline, retap);
    }
  }

  lemma TurnKeepsApart(l: Loop, k: nat, r: Reading, deadline: real, retap: real)
    requires Apart(l, retap) && TurnsBelow(l, k)
    ensures Apart(Turn(l, k, r, deadline, retap), retap) && TurnsBelow(Turn(l, k, r, deadline, retap), k + 1)
  {
  }

  /** No tap in a turn that saw verification, and successive taps at least `retap` apart. */
  lemma TapsAreSpaced(readings: seq<Reading>, n: nat, deadline: real, retap: real)
    requires n <= |readings|
    ensures Spaced(After(readings, n, deadline, retap), readings, n, deadline, retap)
  {
    TapsAreGenuine(readings, n, deadline, retap);
    TapsAreApart(readings, n, deadline, retap);
  }

  /** The device fails the loop in this turn: it is time to tap, and looking or tapping raises. */
  predicate DeviceFails(taps: seq<Tap>, r: Reading, retap: real) {
    !r.verifying && MayTap(taps, r, retap) && (r.spot.LookRaised? || (r.spot.Located? && r.tapRaised))
  }

  /** Turn `k` comes, in time and not cancelled, and reads the clearance. */
  predicate Reads(readings: seq<Reading>, k: nat, x: Cookie, deadline: real, retap: real)
    requires k < |readings|
  {
    && After(readings, k, deadline, retap).exit.Running?
    && readings[k].top < deadline && !readings[k].cancelled && readings[k].cookie == Some(x)
  }

  /** A clearance is returned exactly when a turn that comes before the deadline reads it; and the
      next turn comes exactly when none so far was late, cancelled, cleared or failed by the device. */
  lemma {:induction false} ClearedMeansRead(readings: seq<Reading>, n: nat, deadline: real, retap: real, x: Cookie)
    requires n <= |readings|
    ensures var l := After(readings, n, deadline, retap);
            && (l.exit == Cleared(x) <==> exists k: nat :: k < n && Reads(readings, k, x, deadline, retap))
            && (l.exit.Running? <==> forall k: nat | k < n :: Continues(readings, k, deadline, retap))
  {
    if n > 0 {
      ClearedMeansRead(readings, n - 1, deadline, retap, x);
      assert After(readings, n, deadline, retap).exit.Running?
        <==> After(readings, n - 1, deadline, retap).exit.Running? && Continues(readings, n - 1, deadline, retap);
      assert After(readings, n, deadline, retap).exit == Cleared(x)
        <==> After(readings, n - 1, deadline, retap).exit == Cleared(x) || Reads(readings, n - 1, x, deadline, retap);
      if k: nat :| k < n && Reads(readings, k, x, deadline, retap) {
        assert k < n - 1 || k == n - 1;
      }
    }
  }

  predicate Continues(readings: seq<Reading>, k: nat, deadline: real, retap: real)
    requires k < |readings|
  {
    && readings[k].top < deadline && !readings[k].cancelled && readings[k].cookie.None?
    && !DeviceFails(After(readings, k, deadline, retap).taps, readings[k], retap)
  }

  // ------------------------------------------------------------ when a tap is made

  /** The first `m` taps are those made before turn `k`. */
  ghost predicate MadeBefore(taps: seq<Tap>, k: nat, m: nat) {
    && m <= |taps|
    && (forall i | 0 <= i < m :: taps[i].turn < k)
    && (forall i | m <= i < |taps| :: k <= taps[i].turn)
  }

  /** What a turn asks for to tap: it comes, in time and not cancelled; it reads neither clearance
      nor verification and finds the checkbox; and no tap came before, or the latest is long enough
      ago. */
  predicate CallsForTap(running: bool, r: Reading, deadline: real, retap: real, before: seq<Tap>) {
    && running && r.top < deadline && !r.cancelled && r.cookie.None? && !r.verifying && r.spot.Located?
    && (|before| == 0 || r.decide - before[|before| - 1].done >= retap)
  }

  /** Turn by turn the taps only grow, by those of the turn. */
  lemma {:induction false} TapsGrow(readings: seq<Reading>, k: nat, n: nat, deadline: real, retap: real)
    requires k <= n <= |readings|
    ensures var before, taps := After(readings, k, deadline, retap).taps, After(readings, n, deadline, retap).taps;
            && before <= taps && TurnsBelow(After(readings, k, deadline, retap), k)
            && forall i | |before| <= i < |taps| :: k <= taps[i].turn
    decreases n
  {
    TapsAreApart(readings, k, deadline, retap);
    if k < n {
      TapsGrow(readings, k, n - 1, deadline, retap);
    }
  }

  /** Over all readings: turn `k` makes a tap, at its own moment, exactly when it comes in time, not
      cancelled, reads neither clearance nor verification, finds the checkbox, and no tap came
      before or its moment is at least `retap` after the end of the latest. */
  lemma TapsExactlyWhen(readings: seq<Reading>, n: nat, deadline: real, retap: real, k: nat, m: nat)
    requires k < n <= |readings| && MadeBefore(After(readings, n, deadline, retap).taps, k, m)
    ensures var taps := After(readings, n, deadline, retap).taps;
            var r := readings[k];
            && ((m < |taps| && taps[m].turn == k)
                <==> CallsForTap(After(readings, k, deadline, retap).exit.Running?, r, deadline, retap, taps[..m]))
            && (m < |taps| && taps[m].turn == k ==> taps[m] == Tap(k, r.decide, r.after))
            && (m + 1 < |taps| ==> k < taps[m + 1].turn)
  {
    var before, next := After(readings, k, deadline, retap), After(readings, k + 1, deadline, retap);
    var taps := After(readings, n, deadline, retap).taps;
    TapsGrow(readings, k, n, deadline, retap);
    TapsGrow(readings, k + 1, n, deadline, retap);
    PrefixIs(taps, before.taps, k, m);
    if m + 1 < |taps| {
      TapsAreApart(readings, n, deadline, retap);
      var i, j := m, m + 1;
      assert taps[i].turn < taps[j].turn;
    }
  }

  lemma PrefixIs(taps: seq<Tap>, before: seq<Tap>, k: nat, m: nat)
    requires MadeBefore(taps, k, m) && before <= taps
    requires forall i | 0 <= i < |before| :: before[i].turn < k
    requires forall i | |before| <= i < |taps| :: k <= taps[i].turn
    ensures m == |before| && taps[..m] == before
  {
    assert forall i | 0 <= i < |before| :: taps[i] == before[i];
    assert m < |taps| ==> k <= taps[m].turn;
    assert |before| < |taps| ==> k <= taps[|before|].turn;
  }

  /** The loop is over for the reason its first turn out of line gives: late, cancelled, cleared, or
      failed by the device, looked at in that order. */
  lemma {:induction false} ExitMeans(readings: seq<Reading>, n: nat, deadline: real, retap: real)
    requires n <= |readings|
    ensures var exit := After(readings, n, deadline, retap).exit;
            !exit.Running? ==>
              exists k :: 0 <= k < n && Stopped(readings, k, deadline, retap, exit)
    ensures forall k | 0 <= k < n && After(readings, k, deadline, retap).exit.Running? ::
              StopsOrGoesOn(readings, k, deadline, retap, After(readings, n, deadline, retap).exit)
  {
    if n > 0 {
      ExitMeans(readings, n - 1, deadline, retap);
      if After(readings, n - 1, deadline, retap).exit.Running? {
        assert !After(readings, n, deadline, retap).exit.Running? ==>
            Stopped(readings, n - 1, deadline, retap, After(readings, n, deadline, retap).exit);
      } else {
        var k :| 0 <= k < n - 1 && Stopped(readings, k, deadline, retap, After(readings, n - 1, deadline, retap).exit);
        assert Stopped(readings, k, deadline, retap, After(readings, n, deadline, retap).exit);
      }
    }
  }

  /** Turn `k` comes and ends the loop like this. */
  predicate Stopped(readings: seq<Reading>, k: nat, deadline: real, retap: real, exit: Exit)
    requires k < |readings|
  {
    var l, r := After(readings, k, deadline, retap), readings[k];
    && l.exit.Running?
    && match exit
       case Running => false
       case Expired => r.top >= deadline
       case Cancelled => r.top < deadline && r.cancelled
       case Cleared(x) => r.top < deadline && !r.cancelled && r.cookie == Some(x)
       case DeviceRaised => r.top < deadline && !r.cancelled && r.cookie.None? && DeviceFails(l.taps, r, retap)
  }

  /** A turn that comes goes on only with nothing to stop it. */
  predicate StopsOrGoesOn(readings: seq<Reading>, k: nat, deadline: real, retap: real, exit: Exit)
    requires k < |readings|
  {
    exit.Running? ==> Continues(readings, k, deadline, retap)
  }

  lemma {:induction false} TapTimes(l: Loop, readings: seq<Reading>, n: nat, deadline: real, retap: real, start: real,
      i: nat)
    requires n <= |readings| && Spaced(l, readings, n, deadline, retap) && Monotone(readings, start) && i < |l.taps|
    ensures start + i as real * retap <= l.taps[i].at <= l.taps[i].done
  {
    assert TapOf(l.taps[i], readings[l.taps[i].turn], deadline);
    if i > 0 {
      TapTimes(l, readings, n, deadline, retap, start, i - 1);
      OneMoreInterval(i, retap);
      var j := i - 1;
      assert l.taps[j + 1].at - l.taps[j].done >= retap;
    }
  }

  lemma OneMoreInterval(i: nat, retap: real)
    requires i > 0
    ensures i as real * retap == (i - 1) as real * retap + retap
  {
  }

  /** The number of taps is bounded by the time there was: all but two of them, `retap` apart,
      fit strictly between the start and the deadline. */
  lemma TapsFitTheDeadline(readings: seq<Reading>, n: nat, deadline: real, retap: real, start: real)
    requires n <= |readings| && Monotone(readings, start)
    ensures var taps := After(readings, n, deadline, retap).taps;
            |taps| >= 2 ==> (|taps| - 2) as real * retap < deadline - start
  {
    TapsAreSpaced(readings, n, deadline, retap);
    SpacedTapsFit(After(readings, n, deadline, retap), readings, n, deadline, retap, start);
  }

  lemma SpacedTapsFit(l: Loop, readings: seq<Reading>, n: nat, deadline: real, retap: real, start: real)
    requires n <= |readings| && Spaced(l, readings, n, deadline, retap) && Monotone(readings, start)
    ensures |l.taps| >= 2 ==> (|l.taps| - 2) as real * retap < deadline - start
  {
    if |l.taps| >= 2 {
      TapTimes(l, readings, n, deadline, retap, start, |l.taps| - 2);
      NextToLastTap(l, readings, n, deadline, retap, start);
    }
  }

  lemma NextToLastTap(l: Loop, readings: seq<Reading>, n: nat, deadline: real, retap: real, start: real)
    requires n <= |readings| && Spaced(l, readings, n, deadline, retap) && Monotone(readings, start) && |l.taps| >= 2
    ensures l.taps[|l.taps| - 2].done < deadline
  {
    var prev, last := l.taps[|l.taps| - 2], l.taps[|l.taps| - 1];
    assert TapOf(prev, readings[prev.turn], deadline) && TapOf(last, readings[last.turn], deadline);
    assert prev.turn < last.turn by { assert |l.taps| - 2 + 1 == |l.taps| - 1; }
    assert prev.done <= readings[last.turn].top;
  }
}
