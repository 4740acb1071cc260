/** Whole proxied operations over the hop of `HopProtocol`: what one that nothing disturbs comes to,
    how one that fails is torn down, and what unacknowledged repoints leave behind. */
module HopSteps {
  import opened Wrappers
  import opened HopProtocol

  /** The events are a run from `s`, and it ends in `t`. */
  ghost predicate LeadsOn(s: State, es: seq<Event>, t: State, exits: Exits) {
    Run(s, es, exits) && After(s, es, exits) == t
  }

  lemma Two(s: State, e: Event, t: State, f: Event, u: State, exits: Exits)
    requires Leads(s, e, t, exits) && Leads(t, f, u, exits)
    ensures LeadsOn(s, [e, f], u, exits)
  {
    RunCons(t, f, u, [], exits);
    assert [f] == [f] + [];
    RunCons(s, e, t, [f], exits);
    assert [e, f] == [e] + [f];
  }

  lemma {:induction false} Joined(s: State, es: seq<Event>, t: State, fs: seq<Event>, u: State, exits: Exits)
    requires LeadsOn(s, es, t, exits) && LeadsOn(t, fs, u, exits)
    ensures LeadsOn(s, es + fs, u, exits)
    decreases |es|
  {
    if es == [] {
      assert es + fs == fs;
    } else {
      var next := Apply(s, es[0], exits);
      Joined(next, es[1..], t, fs, u, exits);
      assert es + fs == [es[0]] + (es[1..] + fs);
      RunCons(s, es[0], next, es[1..] + fs, exits);
    }
  }

  /** The state with lane `i` as given, and the hop's owner and upstream. */
  function With(s: State, i: nat, lane: Lane, owner: Option<nat>, hop: Option<Upstream>): State
    requires At(s, i)
  {
    s.(lanes := s.lanes[i := lane], owner := owner, hop := hop)
  }

  lemma Overwritten(s: State, i: nat, a: Lane, b: Lane)
    requires At(s, i)
    ensures s.lanes[i := a][i := b] == s.lanes[i := b]
  {
  }

  // ------------------------------------------------------ the parts of a run

  lemma Takes(s: State, exits: Exits, i: nat, own: Upstream)
    requires At(s, i) && s.lanes[i].phase.Idle? && s.owner.None?
    ensures LeadsOn(s, [Start(i, own), Acquire(i)],
                    With(s, i, s.lanes[i].(phase := Owning, own := own), Some(i), s.hop), exits)
  {
    var waiting := s.lanes[i].(phase := Waiting, own := own);
    Overwritten(s, i, waiting, waiting.(phase := Owning));
    Two(s, Start(i, own), With(s, i, waiting, None, s.hop),
        Acquire(i), With(s, i, waiting.(phase := Owning), Some(i), s.hop), exits);
  }

  lemma Points(s: State, exits: Exits, i: nat)
    requires At(s, i) && s.lanes[i].phase.Owning?
    ensures LeadsOn(s, [RepointOk(i), SetProxyOk(i)],
                    With(s, i, s.lanes[i].(phase := Proxied, deviceProxied := true), s.owner, Some(s.lanes[i].own))
                    .(stray := false), exits)
  {
    var l := s.lanes[i];
    Overwritten(s, i, l.(phase := Pointed), l.(phase := Proxied, deviceProxied := true));
    Two(s, RepointOk(i), With(s, i, l.(phase := Pointed), s.owner, Some(l.own)).(stray := false),
        SetProxyOk(i),
        With(s, i, l.(phase := Proxied, deviceProxied := true), s.owner, Some(l.own)).(stray := false), exits);
  }

  lemma Checks(s: State, exits: Exits, i: nat, expected: Ip, observed: Ip, bypassed: bool)
    requires At(s, i) && s.lanes[i].phase.Proxied? && expected in exits(Some(s.lanes[i].own))
    requires bypassed || observed in exits(s.hop)
    ensures LeadsOn(s, [Probe(i, expected), Observe(i, observed, bypassed)],
                    if observed == expected
                    then With(s, i, s.lanes[i].(phase := Verified(expected, observed)), s.owner, s.hop)
                    else With(s, i, s.lanes[i].(phase := Leaving(true)), s.owner, s.hop)
                      .(mismatches := s.mismatches + [Mismatch(s.lanes[i].own, bypassed, s.stray)]), exits)
  {
    var l := s.lanes[i];
    var probed := With(s, i, l.(phase := Probed(expected)), s.owner, s.hop);
    Overwritten(s, i, l.(phase := Probed(expected)), l.(phase := Verified(expected, observed)));
    Overwritten(s, i, l.(phase := Probed(expected)), l.(phase := Leaving(true)));
    Two(s, Probe(i, expected), probed, Observe(i, observed, bypassed),
        if observed == expected then With(s, i, l.(phase := Verified(expected, observed)), s.owner, s.hop)
        else With(s, i, l.(phase := Leaving(true)), s.owner, s.hop)
          .(mismatches := s.mismatches + [Mismatch(l.own, bypassed, s.stray)]), exits);
  }

  lemma Returns(s: State, exits: Exits, i: nat, expected: Ip)
    requires At(s, i) && s.lanes[i].phase == Verified(expected, expected)
    ensures LeadsOn(s, [Return(i)],
                    With(s, i, s.lanes[i].(phase := Leaving(true)), s.owner, s.hop)
                    .(results := s.results + [Result(s.lanes[i].own, expected, expected)]), exits)
  {
    var t := With(s, i, s.lanes[i].(phase := Leaving(true)), s.owner, s.hop)
              .(results := s.results + [Result(s.lanes[i].own, expected, expected)]);
    RunCons(s, Return(i), t, [], exits);
    assert [Return(i)] == [Return(i)] + [];
  }

  lemma Clears(s: State, exits: Exits, i: nat, cleared: bool)
    requires At(s, i) && s.lanes[i].phase.Leaving?
    ensures LeadsOn(s, [if cleared then ClearProxyOk(i) else ClearProxyFail(i)],
                    With(s, i, AfterClear(s.lanes[i], cleared).(phase := Cleared(s.lanes[i].phase.pointed)),
                         s.owner, s.hop), exits)
  {
    var clear := if cleared then ClearProxyOk(i) else ClearProxyFail(i);
    var l := AfterClear(s.lanes[i], cleared).(phase := Cleared(s.lanes[i].phase.pointed));
    RunCons(s, clear, With(s, i, l, s.owner, s.hop), [], exits);
    assert [clear] == [clear] + [];
  }

  /** The device is direct once its proxy is cleared, and else as it was. */
  function AfterClear(l: Lane, cleared: bool): Lane {
    if cleared then l.(deviceProxied := false, clearFailed := false) else l.(clearFailed := true)
  }

  /** The hop is DIRECT once its teardown repoint is acknowledged, or applied all the same. */
  function AfterIdle(s: State, idled: bool, fate: Fate): State {
    s.(hop := if idled || fate.Applied? then None else s.hop, idleFailed := !idled, stray := s.stray && !idled,
       inFlight := if !idled && fate.Straggles? then s.inFlight + [None] else s.inFlight)
  }

  lemma Idles(s: State, exits: Exits, i: nat, idled: bool, fate: Fate)
    requires At(s, i) && s.lanes[i].phase.Cleared?
    ensures LeadsOn(s, [if idled then IdleOk(i) else IdleFail(i, fate), Release(i)],
                    AfterIdle(s, idled, fate).(lanes := s.lanes[i := s.lanes[i].(phase := Idle)], owner := None), exits)
  {
    var l := s.lanes[i];
    var idle := if idled then IdleOk(i) else IdleFail(i, fate);
    Overwritten(s, i, l.(phase := Releasing), l.(phase := Idle));
    Two(s, idle, AfterIdle(s, idled, fate).(lanes := s.lanes[i := l.(phase := Releasing)]), Release(i),
        AfterIdle(s, idled, fate).(lanes := s.lanes[i := l.(phase := Idle)], owner := None), exits);
  }

  /** What the teardown of a lane comes to, whatever its operation came to: the device is direct
      again unless its clearing fails, and the hop DIRECT unless its repoint does; and either way
      the lock is given up, and nothing is said of the other lanes. */
  lemma TornDown(s: State, exits: Exits, i: nat, cleared: bool, idled: bool, fate: Fate)
    requires At(s, i) && s.lanes[i].phase.Leaving?
    ensures var l := s.lanes[i];
            LeadsOn(s, [if cleared then ClearProxyOk(i) else ClearProxyFail(i),
                        if idled then IdleOk(i) else IdleFail(i, fate), Release(i)],
                    s.(lanes := s.lanes[i := Lane(Idle, l.own, l.deviceProxied && !cleared, !cleared)],
                       owner := None, hop := if idled || fate.Applied? then None else s.hop,
                       inFlight := if !idled && fate.Straggles? then s.inFlight + [None] else s.inFlight,
                       stray := s.stray && !idled, idleFailed := !idled), exits)
  {
    var l := AfterClear(s.lanes[i], cleared).(phase := Cleared(s.lanes[i].phase.pointed));
    var t := With(s, i, l, s.owner, s.hop);
    Clears(s, exits, i, cleared);
    Idles(t, exits, i, idled, fate);
    Overwritten(s, i, l, l.(phase := Idle));
    Joined(s, [if cleared then ClearProxyOk(i) else ClearProxyFail(i)], t,
           [if idled then IdleOk(i) else IdleFail(i, fate), Release(i)],
           AfterIdle(t, idled, fate).(lanes := t.lanes[i := l.(phase := Idle)], owner := None), exits);
  }

  // ------------------------------------------------------------- whole runs

  lemma Proxies(s: State, exits: Exits, i: nat, own: Upstream)
    requires At(s, i) && s.lanes[i].phase.Idle? && s.owner.None?
    ensures LeadsOn(s, [Start(i, own), Acquire(i)] + [RepointOk(i), SetProxyOk(i)],
                    With(s, i, s.lanes[i].(phase := Proxied, own := own, deviceProxied := true), Some(i), Some(own))
                    .(stray := false), exits)
  {
    var l := s.lanes[i].(phase := Owning, own := own);
    var t := With(s, i, l, Some(i), s.hop);
    Takes(s, exits, i, own);
    Points(t, exits, i);
    Overwritten(s, i, l, l.(phase := Proxied, deviceProxied := true));
    Joined(s, [Start(i, own), Acquire(i)], t, [RepointOk(i), SetProxyOk(i)],
           With(s, i, l.(phase := Proxied, deviceProxied := true), Some(i), Some(own)).(stray := false), exits);
  }

  /** From a device on its proxy to the teardown: the check, and the result if it passes. */
  lemma ChecksOut(s: State, exits: Exits, i: nat, expected: Ip, observed: Ip, bypassed: bool)
    requires At(s, i) && s.lanes[i].phase.Proxied? && expected in exits(Some(s.lanes[i].own))
    requires bypassed || observed in exits(s.hop)
    ensures LeadsOn(s, [Probe(i, expected), Observe(i, observed, bypassed)]
                       + (if observed == expected then [Return(i)] else []),
                    With(s, i, s.lanes[i].(phase := Leaving(true)), s.owner, s.hop)
                    .(results := if observed == expected then s.results + [Result(s.lanes[i].own, expected, observed)]
                                 else s.results,
                      mismatches := if observed == expected then s.mismatches
                                    else s.mismatches + [Mismatch(s.lanes[i].own, bypassed, s.stray)]), exits)
  {
    var checks := [Probe(i, expected), Observe(i, observed, bypassed)];
    Checks(s, exits, i, expected, observed, bypassed);
    if observed == expected {
      var l := s.lanes[i].(phase := Verified(expected, expected));
      var verified := With(s, i, l, s.owner, s.hop);
      Returns(verified, exits, i, expected);
      Overwritten(s, i, l, l.(phase := Leaving(true)));
      Joined(s, checks, verified, [Return(i)],
             With(s, i, l.(phase := Leaving(true)), s.owner, s.hop)
             .(results := s.results + [Result(l.own, expected, expected)]), exits);
    } else {
      assert checks + [] == checks;
    }
  }

  /** An operation that nothing disturbs, on a free hop and for any lane, upstream and exits: with
      the egress observed that was expected, its one result is returned; with any other, its check
      fails and none is. Either way hop, device and lock are then as free as can be, and nothing
      else has changed. */
  lemma UndisturbedOperation(s: State, exits: Exits, i: nat, own: Upstream, expected: Ip, observed: Ip, bypassed: bool)
    requires At(s, i) && s.lanes[i].phase.Idle? && s.owner.None?
    requires expected in exits(Some(own)) && (bypassed || observed in exits(Some(own)))
    ensures LeadsOn(s, [Start(i, own), Acquire(i)] + [RepointOk(i), SetProxyOk(i)]
                       + ([Probe(i, expected), Observe(i, observed, bypassed)]
                          + if observed == expected then [Return(i)] else [])
                       + [ClearProxyOk(i), IdleOk(i), Release(i)],
                    s.(lanes := s.lanes[i := Lane(Idle, own, false, false)], hop := None, stray := false,
                       idleFailed := false,
                       results := if observed == expected then s.results + [Result(own, expected, observed)]
                                  else s.results,
                       mismatches := if observed == expected then s.mismatches
                                     else s.mismatches + [Mismatch(own, bypassed, false)]), exits)
  {
    var l := s.lanes[i].(phase := Proxied, own := own, deviceProxied := true);
    var proxied := With(s, i, l, Some(i), Some(own)).(stray := false);
    Proxies(s, exits, i, own);
    ChecksOut(proxied, exits, i, expected, observed, bypassed);
    var leaving := With(s, i, l.(phase := Leaving(true)), Some(i), Some(own))
                     .(stray := false,
                       results := if observed == expected then s.results + [Result(own, expected, observed)]
                                  else s.results,
                       mismatches := if observed == expected then s.mismatches
                                     else s.mismatches + [Mismatch(own, bypassed, false)]);
    Overwritten(s, i, l, l.(phase := Leaving(true)));
    var toProxied := [Start(i, own), Acquire(i)] + [RepointOk(i), SetProxyOk(i)];
    var checks := [Probe(i, expected), Observe(i, observed, bypassed)]
                  + if observed == expected then [Return(i)] else [];
    Joined(s, toProxied, proxied, checks, leaving, exits);
    TornDown(leaving, exits, i, true, true, NotApplied);
    Overwritten(s, i, l.(phase := Leaving(true)), Lane(Idle, own, false, false));
    Joined(s, toProxied + checks, leaving, [ClearProxyOk(i), IdleOk(i), Release(i)],
           s.(lanes := s.lanes[i := Lane(Idle, own, false, false)], hop := None, stray := false, idleFailed := false,
              results := leaving.results, mismatches := leaving.mismatches), exits);
  }

  /** An operation cancelled before it repoints leaves everything as it was. */
  lemma CancelledBeforeRepoint(s: State, exits: Exits, i: nat, own: Upstream)
    requires At(s, i) && s.lanes[i].phase.Idle? && s.owner.None?
    ensures var untouched := s.(lanes := s.lanes[i := s.lanes[i].(own := own)]);
            && LeadsOn(s, [Start(i, own), CancelWaiting(i)], untouched, exits)
            && LeadsOn(s, [Start(i, own), Acquire(i)] + [CancelOwning(i)], untouched, exits)
  {
    var l := s.lanes[i].(own := own);
    Overwritten(s, i, l.(phase := Waiting), l);
    Two(s, Start(i, own), With(s, i, l.(phase := Waiting), None, s.hop),
        CancelWaiting(i), With(s, i, l, None, s.hop), exits);
    Takes(s, exits, i, own);
    Overwritten(s, i, l.(phase := Owning), l);
    var owning := With(s, i, l.(phase := Owning), Some(i), s.hop);
    RunCons(owning, CancelOwning(i), With(s, i, l, None, s.hop), [], exits);
    assert [CancelOwning(i)] == [CancelOwning(i)] + [];
    Joined(s, [Start(i, own), Acquire(i)], owning, [CancelOwning(i)], With(s, i, l, None, s.hop), exits);
  }

  /** The step on which an operation fails, by what fails it. */
  predicate FailsOn(p: Phase, e: Event, i: nat) {
    || (p.Owning? && e.RepointFail? && e.i == i)
    || (p.Pointed? && e.SetProxyFail? && e.i == i)
    || (Section(p) && e == Fail(i))
  }

  /** An operation that fails, at whatever point, goes straight to its teardown and returns no
      result. The hop is only moved by its own repoint, if that was applied unacknowledged; a
      repoint that may still arrive is in flight, with the teardown's if that may too; and the
      device has a proxy only if it had one, or the setting that failed took, and clearing fails. */
  lemma FailedOperation(s: State, exits: Exits, i: nat, e: Event, cleared: bool, idled: bool, fate: Fate)
    requires At(s, i) && FailsOn(s.lanes[i].phase, e, i)
    ensures var l := s.lanes[i];
            var proxied := l.deviceProxied || (e.SetProxyFail? && e.took);
            var late := if e.RepointFail? && e.fate.Straggles? then s.inFlight + [Some(l.own)] else s.inFlight;
            LeadsOn(s, [e] + [if cleared then ClearProxyOk(i) else ClearProxyFail(i),
                              if idled then IdleOk(i) else IdleFail(i, fate), Release(i)],
                    s.(lanes := s.lanes[i := Lane(Idle, l.own, proxied && !cleared, !cleared)], owner := None,
                       hop := if idled || fate.Applied? then None
                              else if e.RepointFail? && e.fate.Applied? then Some(l.own) else s.hop,
                       inFlight := if !idled && fate.Straggles? then late + [None] else late,
                       stray := s.stray && !idled, idleFailed := !idled), exits)
  {
    var l := s.lanes[i];
    var leaving := Apply(s, e, exits);
    assert leaving.lanes[i].phase.Leaving?;
    TornDown(leaving, exits, i, cleared, idled, fate);
    assert leaving.lanes == s.lanes[i := leaving.lanes[i]];
    Overwritten(s, i, leaving.lanes[i], Lane(Idle, l.own, leaving.lanes[i].deviceProxied && !cleared, !cleared));
    RunCons(s, e, leaving, [if cleared then ClearProxyOk(i) else ClearProxyFail(i),
                            if idled then IdleOk(i) else IdleFail(i, fate), Release(i)], exits);
  }

  // ------------------------------------------------ the check goes the hop's way

  /** From the setting of its proxy to the teardown a lane's device has one. */
  ghost predicate ProxyIsSet(s: State) {
    forall i | 0 <= i < |s.lanes| && Section(s.lanes[i].phase) && !s.lanes[i].phase.Pointed? :: s.lanes[i].deviceProxied
  }

  lemma ProxyStaysSet(s: State, e: Event, exits: Exits)
    requires Can(s, e, exits) && ProxyIsSet(s)
    ensures ProxyIsSet(Apply(s, e, exits))
  {
    if CanSection(s, e, exits) {
      ProxyStaysInSection(s, e, exits);
    }
  }

  lemma ProxyStaysInSection(s: State, e: Event, exits: Exits)
    requires CanSection(s, e, exits) && ProxyIsSet(s)
    ensures ProxyIsSet(ApplySection(s, e, exits))
  {
  }

  lemma {:induction false} ProxySetAfter(s: State, es: seq<Event>, exits: Exits)
    requires Run(s, es, exits) && ProxyIsSet(s)
    ensures ProxyIsSet(After(s, es, exits))
    decreases |es|
  {
    if es != [] {
      ProxyStaysSet(s, es[0], exits);
      ProxySetAfter(Apply(s, es[0], exits), es[1..], exits);
    }
  }

  /** In every run a lane that checks its egress or has verified it has a device on the proxy, so
      that what it sees is the hop's exit unless its WebView goes round the proxy; and the check
      is passed exactly when what is seen is what was expected. */
  lemma CheckedThroughTheProxy(n: nat, es: seq<Event>, exits: Exits, i: nat, ip: Ip, bypassed: bool)
    requires Run(Start0(n), es, exits)
    requires var s := After(Start0(n), es, exits); At(s, i) && s.lanes[i].phase.Probed?
    ensures var s := After(Start0(n), es, exits);
            && s.lanes[i].deviceProxied
            && (Can(s, Observe(i, ip, bypassed), exits) <==> bypassed || ip in exits(s.hop))
            && (Can(s, Observe(i, ip, bypassed), exits) ==>
                  var t := Apply(s, Observe(i, ip, bypassed), exits);
                  && (t.lanes[i].phase.Verified? <==> ip == s.lanes[i].phase.expected)
                  && (t.lanes[i].phase.Verified? || t.lanes[i].phase.Leaving?)
                  && (t.mismatches == s.mismatches <==> ip == s.lanes[i].phase.expected)
                  && t.results == s.results)
  {
    ProxySetAfter(Start0(n), es, exits);
  }
}
