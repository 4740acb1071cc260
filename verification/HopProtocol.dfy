/** The lanes of the sidecar and the one proxy hop they share: android_solver/service.py
    (`_hold_hop_lock`, the proxied sections of `_solve` and `eval_in_webview`,
    `_clear_proxy_quietly`) over android_solver/proxy_hop.py, as a step machine. Every lane is a
    thread; between two steps of a lane any other lane may take any number of its own. */
module HopProtocol {
  import opened Wrappers

  type Upstream = string
  type Ip = string

  /** Where a lane is in its proxied operation. `Leaving` and `Cleared` are the teardown, and
      remember whether the operation's own repoint had been acknowledged. */
  datatype Phase =
    | Idle
    | Waiting
    | Owning
    | Pointed
    | Proxied
    | Probed(expected: Ip)
    | Verified(expected: Ip, observed: Ip)
    | Leaving(pointed: bool)
    | Cleared(pointed: bool)
    | Releasing

  datatype Lane = Lane(phase: Phase, own: Upstream, deviceProxied: bool, clearFailed: bool)

  /** A result handed out, and a check that failed: with whether the WebView went round the hop
      and whether a stray repoint had been applied. */
  datatype Result = Result(own: Upstream, expected: Ip, observed: Ip)
  datatype Mismatch = Mismatch(own: Upstream, bypassed: bool, stray: bool)

  /** `hop` is the upstream the hop forwards to, none being DIRECT; `inFlight` are repoints
      nobody waits for any more; `stray` says that one of those was applied since the last
      acknowledged repoint, `idleFailed` that the last teardown's repoint failed. */
  datatype State = State(
    lanes: seq<Lane>,
    owner: Option<nat>,
    hop: Option<Upstream>,
    inFlight: seq<Option<Upstream>>,
    stray: bool,
    idleFailed: bool,
    results: seq<Result>,
    mismatches: seq<Mismatch>)

  /** What becomes of a repoint that is not acknowledged. */
  datatype Fate = NotApplied | Applied | Straggles

  /** The exits an upstream may show; DIRECT has its own. */
  type Exits = Option<Upstream> -> set<Ip>

  ghost predicate Sticky(exits: Exits) {
    forall u: Option<Upstream>, a: Ip, b: Ip | a in exits(u) && b in exits(u) :: a == b
  }

  datatype Event =
    | Start(i: nat, own: Upstream)
    | CancelWaiting(i: nat)
    | Acquire(i: nat)
    | CancelOwning(i: nat)
    | RepointOk(i: nat)
    | RepointFail(i: nat, fate: Fate)
    | SetProxyOk(i: nat)
    | SetProxyFail(i: nat, took: bool)
    | Probe(i: nat, ip: Ip)
    | Observe(i: nat, ip: Ip, bypassed: bool)
    | Fail(i: nat)
    | Return(i: nat)
    | ClearProxyOk(i: nat)
    | ClearProxyFail(i: nat)
    | IdleOk(i: nat)
    | IdleFail(i: nat, fate: Fate)
    | Release(i: nat)
    | Deliver(k: nat)

  predicate Section(p: Phase) {
    p.Pointed? || p.Proxied? || p.Probed? || p.Verified?
  }

  /** The lane's own repoint was acknowledged and its teardown repoint has not run. */
  predicate PointedAt(p: Phase) {
    Section(p) || (p.Leaving? && p.pointed) || (p.Cleared? && p.pointed)
  }

  predicate Holds(p: Phase) {
    !p.Idle? && !p.Waiting?
  }

  predicate At(s: State, i: nat) {
    i < |s.lanes|
  }

  predicate CanSection(s: State, e: Event, exits: Exits) {
    match e
    case RepointOk(i) => At(s, i) && s.lanes[i].phase.Owning?
    case RepointFail(i, _) => At(s, i) && s.lanes[i].phase.Owning?
    case SetProxyOk(i) => At(s, i) && s.lanes[i].phase.Pointed?
    case SetProxyFail(i, _) => At(s, i) && s.lanes[i].phase.Pointed?
    case Probe(i, ip) => At(s, i) && s.lanes[i].phase.Proxied? && ip in exits(Some(s.lanes[i].own))
    case Observe(i, ip, bypassed) => At(s, i) && s.lanes[i].phase.Probed? && (bypassed || ip in exits(s.hop))
    case Fail(i) => At(s, i) && Section(s.lanes[i].phase)
    case Return(i) => At(s, i) && s.lanes[i].phase.Verified?
    case _ => false
  }

  predicate CanAround(s: State, e: Event) {
    match e
    case Start(i, _) => At(s, i) && s.lanes[i].phase.Idle?
    case CancelWaiting(i) => At(s, i) && s.lanes[i].phase.Waiting?
    case Acquire(i) => At(s, i) && s.lanes[i].phase.Waiting? && s.owner.None?
    case CancelOwning(i) => At(s, i) && s.lanes[i].phase.Owning?
    case ClearProxyOk(i) => At(s, i) && s.lanes[i].phase.Leaving?
    case ClearProxyFail(i) => At(s, i) && s.lanes[i].phase.Leaving?
    case IdleOk(i) => At(s, i) && s.lanes[i].phase.Cleared?
    case IdleFail(i, _) => At(s, i) && s.lanes[i].phase.Cleared?
    case Release(i) => At(s, i) && s.lanes[i].phase.Releasing?
    case Deliver(k) => k < |s.inFlight|
    case _ => false
  }

  /** What can happen next: a lane's next step, or a late repoint reaching the hop. */
  predicate Can(s: State, e: Event, exits: Exits) {
    CanSection(s, e, exits) || CanAround(s, e)
  }

  function Move(s: State, i: nat, p: Phase): State
    requires At(s, i)
  {
    s.(lanes := s.lanes[i := s.lanes[i].(phase := p)])
  }

  /** What an unacknowledged repoint does to the hop, now or later. */
  function Unacknowledged(s: State, to: Option<Upstream>, fate: Fate): State {
    match fate
    case NotApplied => s
    case Applied => s.(hop := to)
    case Straggles => s.(inFlight := s.inFlight + [to])
  }

  /** The egress check: equal and the operation goes on, or it fails. */
  function Checked(s: State, i: nat, ip: Ip, bypassed: bool): State
    requires At(s, i) && s.lanes[i].phase.Probed?
  {
    var expected := s.lanes[i].phase.expected;
    if ip == expected then Move(s, i, Verified(expected, ip))
    else Move(s, i, Leaving(true)).(mismatches := s.mismatches + [Mismatch(s.lanes[i].own, bypassed, s.stray)])
  }

  function Returned(s: State, i: nat): State
    requires At(s, i) && s.lanes[i].phase.Verified?
  {
    var l := s.lanes[i];
    Move(s, i, Leaving(true)).(results := s.results + [Result(l.own, l.phase.expected, l.phase.observed)])
  }

  function ApplySection(s: State, e: Event, exits: Exits): State
    requires CanSection(s, e, exits)
  {
    match e
    case RepointOk(i) => Move(s, i, Pointed).(hop := Some(s.lanes[i].own), stray := false)
    case RepointFail(i, fate) => Unacknowledged(Move(s, i, Leaving(false)), Some(s.lanes[i].own), fate)
    case SetProxyOk(i) => s.(lanes := s.lanes[i := s.lanes[i].(phase := Proxied, deviceProxied := true)])
    case SetProxyFail(i, took) =>
      s.(lanes := s.lanes[i := s.lanes[i].(phase := Leaving(true), deviceProxied := took || s.lanes[i].deviceProxied)])
    case Probe(i, ip) => Move(s, i, Probed(ip))
    case Observe(i, ip, bypassed) => Checked(s, i, ip, bypassed)
    case Fail(i) => Move(s, i, Leaving(true))
    case Return(i) => Returned(s, i)
  }

  function ApplyAround(s: State, e: Event): State
    requires CanAround(s, e)
  {
    match e
    case Start(i, own) => s.(lanes := s.lanes[i := s.lanes[i].(phase := Waiting, own := own)])
    case CancelWaiting(i) => Move(s, i, Idle)
    case Acquire(i) => Move(s, i, Owning).(owner := Some(i))
    case CancelOwning(i) => Move(s, i, Idle).(owner := None)
    case ClearProxyOk(i) =>
      s.(lanes := s.lanes[i := s.lanes[i].(phase := Cleared(s.lanes[i].phase.pointed),
                                           deviceProxied := false, clearFailed := false)])
    case ClearProxyFail(i) =>
      s.(lanes := s.lanes[i := s.lanes[i].(phase := Cleared(s.lanes[i].phase.pointed), clearFailed := true)])
    case IdleOk(i) => Move(s, i, Releasing).(hop := None, stray := false, idleFailed := false)
    case IdleFail(i, fate) => Unacknowledged(Move(s, i, Releasing).(idleFailed := true), None, fate)
    case Release(i) => Move(s, i, Idle).(owner := None)
    case Deliver(k) => s.(hop := s.inFlight[k], inFlight := s.inFlight[..k] + s.inFlight[k + 1..], stray := true)
  }

  function Apply(s: State, e: Event, exits: Exits): State
    requires Can(s, e, exits)
  {
    if CanSection(s, e, exits) then ApplySection(s, e, exits) else ApplyAround(s, e)
  }

  function Start0(n: nat): State {
    State(seq(n, i => Lane(Idle, "", false, false)), None, None, [], false, false, [], [])
  }

  ghost predicate Run(s: State, es: seq<Event>, exits: Exits)
    decreases |es|
  {
    es != [] ==> Can(s, es[0], exits) && Run(Apply(s, es[0], exits), es[1..], exits)
  }

  function After(s: State, es: seq<Event>, exits: Exits): State
    requires Run(s, es, exits)
    decreases |es|
  {
    if es == [] then s else After(Apply(s, es[0], exits), es[1..], exits)
  }

  // ------------------------------------------------------------- invariants

  /** The lanes that hold the hop lock are its owner, and no other. */
  ghost predicate OneOwner(s: State) {
    forall i | 0 <= i < |s.lanes| :: Holds(s.lanes[i].phase) <==> s.owner == Some(i)
  }

  /** What the hop forwards to, unless a stray repoint was applied: in an operation its own
      upstream from its repoint to its teardown; and DIRECT while nobody has pointed it. */
  ghost predicate HopInOrder(s: State) {
    !s.stray ==> HopPointed(s) && (!s.idleFailed && Unpointed(s) ==> s.hop == None)
  }

  ghost predicate HopPointed(s: State) {
    forall i | 0 <= i < |s.lanes| && PointedAt(s.lanes[i].phase) :: s.hop == Some(s.lanes[i].own)
  }

  /** Nobody owns the hop, or the owner has not repointed it yet, or has idled it again. */
  predicate Unpointed(s: State) {
    s.owner.None? || !At(s, s.owner.value)
    || s.lanes[s.owner.value].phase.Owning? || s.lanes[s.owner.value].phase.Releasing?
  }

  /** What a lane expects is an exit of its own upstream, and what it verified is the same. */
  ghost predicate Honest(s: State, exits: Exits) {
    && (forall i | 0 <= i < |s.lanes| ::
          && (s.lanes[i].phase.Probed? ==> s.lanes[i].phase.expected in exits(Some(s.lanes[i].own)))
          && (s.lanes[i].phase.Verified? ==>
                s.lanes[i].phase.expected in exits(Some(s.lanes[i].own))
                && s.lanes[i].phase.observed == s.lanes[i].phase.expected))
    && (forall r | r in s.results :: r.observed == r.expected && r.expected in exits(Some(r.own)))
  }

  /** Outside its section a lane's device keeps no proxy, unless the last clearing failed. */
  ghost predicate DevicesClear(s: State) {
    forall i | 0 <= i < |s.lanes| && s.lanes[i].deviceProxied ::
      s.lanes[i].clearFailed || s.lanes[i].phase.Leaving? || Section(s.lanes[i].phase)
  }

  ghost predicate Blameless(s: State) {
    forall m | m in s.mismatches :: m.bypassed || m.stray
  }

  ghost predicate Inv(s: State, exits: Exits) {
    OneOwner(s) && HopInOrder(s) && Honest(s, exits) && DevicesClear(s)
  }

  lemma OwnerKept(s: State, e: Event, exits: Exits)
    requires Can(s, e, exits) && OneOwner(s)
    ensures OneOwner(Apply(s, e, exits))
  {
    if CanSection(s, e, exits) {
      OwnerKeptInSection(s, e, exits);
    } else {
      OwnerKeptAround(s, e);
    }
  }

  lemma OwnerKeptInSection(s: State, e: Event, exits: Exits)
    requires CanSection(s, e, exits) && OneOwner(s)
    ensures OneOwner(ApplySection(s, e, exits))
  {
  }

  lemma OwnerKeptAround(s: State, e: Event)
    requires CanAround(s, e) && OneOwner(s)
    ensures OneOwner(ApplyAround(s, e))
  {
  }

  lemma HopKeptInSection(s: State, e: Event, exits: Exits)
    requires CanSection(s, e, exits) && OneOwner(s) && HopInOrder(s)
    ensures HopInOrder(ApplySection(s, e, exits))
  {
    if !ApplySection(s, e, exits).stray {
      PointedInSection(s, e, exits);
    }
  }

  lemma PointedInSection(s: State, e: Event, exits: Exits)
    requires CanSection(s, e, exits) && OneOwner(s)
    requires (!s.stray ==> HopPointed(s)) && !ApplySection(s, e, exits).stray
    ensures HopPointed(ApplySection(s, e, exits))
  {
  }

  lemma HopKeptAround(s: State, e: Event)
    requires CanAround(s, e) && OneOwner(s) && HopInOrder(s)
    ensures HopInOrder(ApplyAround(s, e))
  {
    if !ApplyAround(s, e).stray {
      PointedAround(s, e);
    }
  }

  lemma PointedAround(s: State, e: Event)
    requires CanAround(s, e) && OneOwner(s) && (!s.stray ==> HopPointed(s)) && !ApplyAround(s, e).stray
    ensures HopPointed(ApplyAround(s, e))
  {
  }

  lemma HonestKeptInSection(s: State, e: Event, exits: Exits)
    requires CanSection(s, e, exits) && Honest(s, exits)
    ensures Honest(ApplySection(s, e, exits), exits)
  {
  }

  lemma HonestKeptAround(s: State, e: Event, exits: Exits)
    requires CanAround(s, e) && Honest(s, exits)
    ensures Honest(ApplyAround(s, e), exits)
  {
  }

  lemma DevicesKeptInSection(s: State, e: Event, exits: Exits)
    requires CanSection(s, e, exits) && DevicesClear(s)
    ensures DevicesClear(ApplySection(s, e, exits))
  {
  }

  lemma DevicesKeptAround(s: State, e: Event)
    requires CanAround(s, e) && DevicesClear(s)
    ensures DevicesClear(ApplyAround(s, e))
  {
  }

  lemma InvKept(s: State, e: Event, exits: Exits)
    requires Can(s, e, exits) && Inv(s, exits)
    ensures Inv(Apply(s, e, exits), exits)
  {
    OwnerKept(s, e, exits);
    if CanSection(s, e, exits) {
      DevicesKeptInSection(s, e, exits);
      HopKeptInSection(s, e, exits);
      HonestKeptInSection(s, e, exits);
    } else {
      DevicesKeptAround(s, e);
      HopKeptAround(s, e);
      HonestKeptAround(s, e, exits);
    }
  }

  lemma BlamelessKept(s: State, e: Event, exits: Exits)
    requires Can(s, e, exits) && Inv(s, exits) && Sticky(exits) && Blameless(s)
    ensures Blameless(Apply(s, e, exits))
  {
    if e.Observe? && !e.bypassed && !s.stray {
      var l := s.lanes[e.i];
      assert PointedAt(l.phase) && s.hop == Some(l.own);
      assert e.ip in exits(Some(l.own)) && l.phase.expected in exits(Some(l.own));
    }
  }

  lemma {:induction false} InvAfter(s: State, es: seq<Event>, exits: Exits)
    requires Run(s, es, exits) && Inv(s, exits)
    ensures Inv(After(s, es, exits), exits)
    ensures Sticky(exits) && Blameless(s) ==> Blameless(After(s, es, exits))
    decreases |es|
  {
    if es != [] {
      InvKept(s, es[0], exits);
      if Sticky(exits) && Blameless(s) {
        BlamelessKept(s, es[0], exits);
      }
      InvAfter(Apply(s, es[0], exits), es[1..], exits);
    }
  }

  // --------------------------------------------------------------- theorems

  /** For any number of lanes and any interleaving, unless a late repoint was applied since the
      last acknowledged one: an operation has the hop on its own upstream from its successful
      repoint to its teardown, at most one operation at a time is in that stretch, and with the
      lock free the hop is DIRECT unless the last teardown's repoint failed. */
  lemma HopIsOwners(n: nat, es: seq<Event>, exits: Exits, i: nat)
    requires Run(Start0(n), es, exits)
    ensures var s := After(Start0(n), es, exits);
            && (At(s, i) && PointedAt(s.lanes[i].phase) && !s.stray ==> s.hop == Some(s.lanes[i].own))
            && (At(s, i) && PointedAt(s.lanes[i].phase) ==>
                  forall j | 0 <= j < |s.lanes| && j != i :: !Holds(s.lanes[j].phase))
            && (s.owner.None? && !s.stray && !s.idleFailed ==> s.hop == None)
  {
    InvAfter(Start0(n), es, exits);
  }

  /** A result is returned only after the egress observed equals the egress expected, and that
      is an exit of the operation's own upstream: this needs no condition. */
  lemma ResultsAreVerified(n: nat, es: seq<Event>, exits: Exits, r: Result)
    requires Run(Start0(n), es, exits) && r in After(Start0(n), es, exits).results
    ensures r.observed == r.expected && r.expected in exits(Some(r.own))
  {
    InvAfter(Start0(n), es, exits);
  }

  /** With sticky upstreams an operation fails the check only because its WebView went round
      the hop or a late repoint was applied: never because of what another lane is doing. */
  lemma NoLaneFailsAnother(n: nat, es: seq<Event>, exits: Exits, m: Mismatch)
    requires Run(Start0(n), es, exits) && Sticky(exits) && m in After(Start0(n), es, exits).mismatches
    ensures m.bypassed || m.stray
  {
    InvAfter(Start0(n), es, exits);
  }

  /** A device outside a proxied operation keeps no proxy, unless the last clearing failed. */
  lemma DeviceLeftDirect(n: nat, es: seq<Event>, exits: Exits, i: nat)
    requires Run(Start0(n), es, exits)
    requires var s := After(Start0(n), es, exits); At(s, i) && !Holds(s.lanes[i].phase) && !s.lanes[i].clearFailed
    ensures !After(Start0(n), es, exits).lanes[i].deviceProxied
  {
    InvAfter(Start0(n), es, exits);
  }

  // ------------------------------------- what late repoints can and cannot do

  /** All along the run, lane `i` is between its acknowledged repoint and its teardown's. */
  ghost predicate Stays(s: State, es: seq<Event>, exits: Exits, i: nat)
    requires Run(s, es, exits)
    decreases |es|
  {
    && At(s, i) && PointedAt(s.lanes[i].phase)
    && (es != [] ==> Stays(Apply(s, es[0], exits), es[1..], exits, i))
  }

  /** While lane `i` is pointed, only a late repoint moves the hop, and none becomes late. */
  ghost predicate OnlyLate(s: State, t: State, i: nat)
    requires At(s, i) && At(t, i)
  {
    && t.lanes[i].own == s.lanes[i].own
    && (t.hop == s.hop || t.hop in s.inFlight)
    && forall q | q in t.inFlight :: q in s.inFlight
  }

  lemma OnlyLateInSection(s: State, e: Event, exits: Exits, i: nat)
    requires OneOwner(s) && CanSection(s, e, exits) && At(s, i) && PointedAt(s.lanes[i].phase)
    requires At(ApplySection(s, e, exits), i)
    ensures OnlyLate(s, ApplySection(s, e, exits), i)
  {
  }

  lemma OnlyLateAround(s: State, e: Event, i: nat)
    requires OneOwner(s) && CanAround(s, e) && At(s, i) && PointedAt(s.lanes[i].phase)
    requires At(ApplyAround(s, e), i) && PointedAt(ApplyAround(s, e).lanes[i].phase)
    ensures OnlyLate(s, ApplyAround(s, e), i)
  {
  }

  lemma {:induction false} HopAmong(s: State, es: seq<Event>, exits: Exits, i: nat)
    requires Inv(s, exits) && Run(s, es, exits) && Stays(s, es, exits, i)
    ensures var t := After(s, es, exits);
            && Inv(t, exits) && At(t, i) && t.lanes[i].own == s.lanes[i].own
            && (t.hop == s.hop || t.hop in s.inFlight)
    decreases |es|
  {
    if es != [] {
      InvKept(s, es[0], exits);
      if CanSection(s, es[0], exits) {
        OnlyLateInSection(s, es[0], exits, i);
      } else {
        OnlyLateAround(s, es[0], i);
      }
      HopAmong(Apply(s, es[0], exits), es[1..], exits, i);
    }
  }

  lemma OneDelivery(s: State, exits: Exits, k: nat)
    requires k < |s.inFlight|
    ensures Run(s, [Deliver(k)], exits)
    ensures After(s, [Deliver(k)], exits) == Apply(s, Deliver(k), exits)
    ensures Apply(s, Deliver(k), exits).hop == s.inFlight[k] && Apply(s, Deliver(k), exits).lanes == s.lanes
  {
    assert [Deliver(k)][1..] == [];
  }

  /** Whatever the run does while lane `i` is pointed, the hop is on its own upstream. */
  ghost predicate HopSure(s: State, exits: Exits, i: nat)
    requires At(s, i)
  {
    forall es | Run(s, es, exits) && Stays(s, es, exits, i) :: After(s, es, exits).hop == Some(s.lanes[i].own)
  }

  lemma NotSureAfter(s: State, es: seq<Event>, exits: Exits, i: nat)
    requires At(s, i) && Run(s, es, exits) && Stays(s, es, exits, i) && After(s, es, exits).hop != Some(s.lanes[i].own)
    ensures !HopSure(s, exits, i)
  {
  }

  /** An operation is sure to keep the hop on its own upstream until its teardown, whatever any
      lane does and whatever arrives late, exactly when the hop is there and no repoint to
      anywhere else is in flight. */
  lemma HopStaysExactlyWhen(s: State, exits: Exits, i: nat)
    requires Inv(s, exits) && At(s, i) && PointedAt(s.lanes[i].phase)
    ensures HopSure(s, exits, i)
       <==> s.hop == Some(s.lanes[i].own) && forall q | q in s.inFlight :: q == Some(s.lanes[i].own)
  {
    var own := s.lanes[i].own;
    if s.hop != Some(own) {
      NotSureAfter(s, [], exits, i);
    } else if forall q | q in s.inFlight :: q == Some(own) {
      forall es | Run(s, es, exits) && Stays(s, es, exits, i)
        ensures After(s, es, exits).hop == Some(own)
      {
        HopAmong(s, es, exits, i);
      }
    } else {
      var k :| 0 <= k < |s.inFlight| && s.inFlight[k] != Some(own);
      OneDelivery(s, exits, k);
      assert Stays(s, [Deliver(k)], exits, i);
      NotSureAfter(s, [Deliver(k)], exits, i);
    }
  }

  /** Whatever the run does while lane `i` is pointed, what its WebView may see through the hop
      in its check is what it expects. */
  ghost predicate CheckSure(s: State, exits: Exits, i: nat) {
    forall es, ip | Run(s, es, exits) && Stays(s, es, exits, i) && SeenByProbe(After(s, es, exits), i, ip, exits) ::
      ip == After(s, es, exits).lanes[i].phase.expected
  }

  /** With sticky upstreams, an operation that knows what to expect is sure to see it through the
      hop exactly when neither the hop nor anything in flight leads to an exit of another address. */
  lemma CheckSureExactlyWhen(s: State, exits: Exits, i: nat)
    requires Inv(s, exits) && Sticky(exits) && At(s, i) && s.lanes[i].phase.Probed?
    ensures CheckSure(s, exits, i)
       <==> forall q, ip | (q == s.hop || q in s.inFlight) && ip in exits(q) :: ip == s.lanes[i].phase.expected
  {
    var expected := s.lanes[i].phase.expected;
    if forall q, ip | (q == s.hop || q in s.inFlight) && ip in exits(q) :: ip == expected {
      forall es, ip | Run(s, es, exits) && Stays(s, es, exits, i) && SeenByProbe(After(s, es, exits), i, ip, exits)
        ensures ip == After(s, es, exits).lanes[i].phase.expected
      {
        HopAmong(s, es, exits, i);
      }
    } else {
      var q, ip :| (q == s.hop || q in s.inFlight) && ip in exits(q) && ip != expected;
      if q == s.hop {
        assert Run(s, [], exits) && Stays(s, [], exits, i) && SeenByProbe(After(s, [], exits), i, ip, exits);
      } else {
        var k :| 0 <= k < |s.inFlight| && s.inFlight[k] == q;
        OneDelivery(s, exits, k);
        assert Stays(s, [Deliver(k)], exits, i);
        assert SeenByProbe(After(s, [Deliver(k)], exits), i, ip, exits);
      }
    }
  }

  /** Lane `i` is about to check, and its WebView may see `ip` through the hop. */
  predicate SeenByProbe(s: State, i: nat, ip: Ip, exits: Exits) {
    At(s, i) && s.lanes[i].phase.Probed? && ip in exits(s.hop)
  }

  /** All along the run nobody owns the hop. */
  ghost predicate StaysFree(s: State, es: seq<Event>, exits: Exits)
    requires Run(s, es, exits)
    decreases |es|
  {
    s.owner.None? && (es != [] ==> StaysFree(Apply(s, es[0], exits), es[1..], exits))
  }

  lemma SectionIsOwned(s: State, e: Event, exits: Exits)
    requires OneOwner(s) && CanSection(s, e, exits)
    ensures s.owner.Some?
  {
    assert Holds(s.lanes[e.i].phase);
  }

  lemma OnlyLateFreeAround(s: State, e: Event)
    requires OneOwner(s) && s.owner.None? && CanAround(s, e) && ApplyAround(s, e).owner.None?
    ensures var t := ApplyAround(s, e);
            && (t.hop == s.hop || t.hop in s.inFlight)
            && forall q | q in t.inFlight :: q in s.inFlight
  {
    assert e.Start? || e.CancelWaiting? || e.Acquire? || e.Deliver? || Holds(s.lanes[e.i].phase);
  }

  /** While nobody owns the hop, too, only a late repoint moves it, and none becomes late. */
  lemma OnlyLateWhenFree(s: State, e: Event, exits: Exits)
    requires OneOwner(s) && s.owner.None? && Can(s, e, exits) && Apply(s, e, exits).owner.None?
    ensures var t := Apply(s, e, exits);
            && (t.hop == s.hop || t.hop in s.inFlight)
            && forall q | q in t.inFlight :: q in s.inFlight
  {
    if CanSection(s, e, exits) {
      SectionIsOwned(s, e, exits);
    } else {
      OnlyLateFreeAround(s, e);
    }
  }

  lemma {:induction false} FreeHopAmong(s: State, es: seq<Event>, exits: Exits)
    requires Inv(s, exits) && Run(s, es, exits) && StaysFree(s, es, exits)
    ensures var t := After(s, es, exits); t.hop == s.hop || t.hop in s.inFlight
    decreases |es|
  {
    if es != [] {
      InvKept(s, es[0], exits);
      OnlyLateWhenFree(s, es[0], exits);
      FreeHopAmong(Apply(s, es[0], exits), es[1..], exits);
    }
  }

  /** Whatever the run does while nobody owns the hop, it is DIRECT. */
  ghost predicate DirectSure(s: State, exits: Exits) {
    forall es | Run(s, es, exits) && StaysFree(s, es, exits) :: After(s, es, exits).hop == None
  }

  lemma NotDirectAfter(s: State, es: seq<Event>, exits: Exits)
    requires Run(s, es, exits) && StaysFree(s, es, exits) && After(s, es, exits).hop != None
    ensures !DirectSure(s, exits)
  {
  }

  /** With the lock free the hop is sure to stay DIRECT until it is taken again, exactly when it
      is DIRECT and no repoint to an upstream is in flight. */
  lemma FreeHopStaysDirectExactlyWhen(s: State, exits: Exits)
    requires Inv(s, exits) && s.owner.None?
    ensures DirectSure(s, exits) <==> s.hop == None && forall q | q in s.inFlight :: q == None
  {
    if s.hop != None {
      NotDirectAfter(s, [], exits);
    } else if forall q | q in s.inFlight :: q == None {
      forall es | Run(s, es, exits) && StaysFree(s, es, exits)
        ensures After(s, es, exits).hop == None
      {
        FreeHopAmong(s, es, exits);
      }
    } else {
      var k :| 0 <= k < |s.inFlight| && s.inFlight[k] != None;
      OneDelivery(s, exits, k);
      assert StaysFree(s, [Deliver(k)], exits);
      NotDirectAfter(s, [Deliver(k)], exits);
    }
  }

  predicate Leads(s: State, e: Event, t: State, exits: Exits) {
    Can(s, e, exits) && Apply(s, e, exits) == t
  }

  lemma RunCons(s: State, e: Event, t: State, es: seq<Event>, exits: Exits)
    requires Leads(s, e, t, exits) && Run(t, es, exits)
    ensures Run(s, [e] + es, exits) && After(s, [e] + es, exits) == After(t, es, exits)
  {
  }

  function TwoLanes(p: Phase, a: Upstream, q: Phase, b: Upstream, owner: Option<nat>, hop: Option<Upstream>,
                    inFlight: seq<Option<Upstream>>): State {
    State([Lane(p, a, false, false), Lane(q, b, false, false)], owner, hop, inFlight, false, false, [], [])
  }

  lemma FirstTakes(a: Upstream, exits: Exits)
    ensures Leads(Start0(2), Start(0, a), TwoLanes(Waiting, a, Idle, "", None, None, []), exits)
    ensures Leads(TwoLanes(Waiting, a, Idle, "", None, None, []), Acquire(0),
              TwoLanes(Owning, a, Idle, "", Some(0), None, []), exits)
    ensures Leads(TwoLanes(Owning, a, Idle, "", Some(0), None, []), RepointFail(0, Straggles),
                  TwoLanes(Leaving(false), a, Idle, "", Some(0), None, [Some(a)]), exits)
  {
  }

  lemma FirstLeaves(a: Upstream, exits: Exits)
    ensures Leads(TwoLanes(Leaving(false), a, Idle, "", Some(0), None, [Some(a)]), ClearProxyOk(0),
                  TwoLanes(Cleared(false), a, Idle, "", Some(0), None, [Some(a)]), exits)
    ensures Leads(TwoLanes(Cleared(false), a, Idle, "", Some(0), None, [Some(a)]), IdleOk(0),
                  TwoLanes(Releasing, a, Idle, "", Some(0), None, [Some(a)]), exits)
    ensures Leads(TwoLanes(Releasing, a, Idle, "", Some(0), None, [Some(a)]), Release(0),
                  TwoLanes(Idle, a, Idle, "", None, None, [Some(a)]), exits)
  {
  }

  lemma SecondPoints(a: Upstream, b: Upstream, exits: Exits)
    ensures Leads(TwoLanes(Idle, a, Idle, "", None, None, [Some(a)]), Start(1, b),
                  TwoLanes(Idle, a, Waiting, b, None, None, [Some(a)]), exits)
    ensures Leads(TwoLanes(Idle, a, Waiting, b, None, None, [Some(a)]), Acquire(1),
                  TwoLanes(Idle, a, Owning, b, Some(1), None, [Some(a)]), exits)
    ensures Leads(TwoLanes(Idle, a, Owning, b, Some(1), None, [Some(a)]), RepointOk(1),
                  TwoLanes(Idle, a, Pointed, b, Some(1), Some(b), [Some(a)]), exits)
    ensures Leads(TwoLanes(Idle, a, Pointed, b, Some(1), Some(b), [Some(a)]), Deliver(0),
                  TwoLanes(Idle, a, Pointed, b, Some(1), Some(a), []).(stray := true), exits)
  {
  }

  lemma RunSecond(a: Upstream, b: Upstream, exits: Exits) returns (es: seq<Event>)
    ensures Run(TwoLanes(Idle, a, Idle, "", None, None, [Some(a)]), es, exits)
    ensures After(TwoLanes(Idle, a, Idle, "", None, None, [Some(a)]), es, exits)
         == TwoLanes(Idle, a, Pointed, b, Some(1), Some(a), []).(stray := true)
  {
    SecondPoints(a, b, exits);
    var s7 := TwoLanes(Idle, a, Waiting, b, None, None, [Some(a)]);
    var s8 := TwoLanes(Idle, a, Owning, b, Some(1), None, [Some(a)]);
    var s9 := TwoLanes(Idle, a, Pointed, b, Some(1), Some(b), [Some(a)]);
    es := [Deliver(0)] + [];
    RunCons(s9, Deliver(0), TwoLanes(Idle, a, Pointed, b, Some(1), Some(a), []).(stray := true), [], exits);
    RunCons(s8, RepointOk(1), s9, es, exits);
    es := [RepointOk(1)] + es;
    RunCons(s7, Acquire(1), s8, es, exits);
    es := [Acquire(1)] + es;
    RunCons(TwoLanes(Idle, a, Idle, "", None, None, [Some(a)]), Start(1, b), s7, es, exits);
    es := [Start(1, b)] + es;
  }

  /** What follows the first lane's teardown, once its repoint has timed out. */
  lemma RunFrom(a: Upstream, t: State, rest: seq<Event>, exits: Exits) returns (es: seq<Event>)
    requires Run(TwoLanes(Idle, a, Idle, "", None, None, [Some(a)]), rest, exits)
    requires After(TwoLanes(Idle, a, Idle, "", None, None, [Some(a)]), rest, exits) == t
    ensures Run(TwoLanes(Leaving(false), a, Idle, "", Some(0), None, [Some(a)]), es, exits)
    ensures After(TwoLanes(Leaving(false), a, Idle, "", Some(0), None, [Some(a)]), es, exits) == t
  {
    FirstLeaves(a, exits);
    var s4 := TwoLanes(Cleared(false), a, Idle, "", Some(0), None, [Some(a)]);
    var s5 := TwoLanes(Releasing, a, Idle, "", Some(0), None, [Some(a)]);
    RunCons(s5, Release(0), TwoLanes(Idle, a, Idle, "", None, None, [Some(a)]), rest, exits);
    es := [Release(0)] + rest;
    RunCons(s4, IdleOk(0), s5, es, exits);
    es := [IdleOk(0)] + es;
    RunCons(TwoLanes(Leaving(false), a, Idle, "", Some(0), None, [Some(a)]), ClearProxyOk(0), s4, es, exits);
    es := [ClearProxyOk(0)] + es;
  }

  /** The same from the start. */
  lemma RunFromStart(a: Upstream, t: State, rest: seq<Event>, exits: Exits) returns (es: seq<Event>)
    requires Run(TwoLanes(Idle, a, Idle, "", None, None, [Some(a)]), rest, exits)
    requires After(TwoLanes(Idle, a, Idle, "", None, None, [Some(a)]), rest, exits) == t
    ensures Run(Start0(2), es, exits) && After(Start0(2), es, exits) == t
  {
    es := RunFrom(a, t, rest, exits);
    FirstTakes(a, exits);
    var s1 := TwoLanes(Waiting, a, Idle, "", None, None, []);
    var s2 := TwoLanes(Owning, a, Idle, "", Some(0), None, []);
    RunCons(s2, RepointFail(0, Straggles), TwoLanes(Leaving(false), a, Idle, "", Some(0), None, [Some(a)]), es, exits);
    es := [RepointFail(0, Straggles)] + es;
    RunCons(s1, Acquire(0), s2, es, exits);
    es := [Acquire(0)] + es;
    RunCons(Start0(2), Start(0, a), s1, es, exits);
    es := [Start(0, a)] + es;
  }

  /** Such a run, for any two upstreams: lane 0's repoint times out unacknowledged, and it tears
      down and leaves; lane 1 points the hop at its own upstream; then lane 0's repoint arrives.
      Lane 1 is in its operation with the hop on lane 0's upstream, and no teardown has failed. */
  lemma LateRepointRun(a: Upstream, b: Upstream, exits: Exits) returns (es: seq<Event>)
    ensures Run(Start0(2), es, exits)
    ensures After(Start0(2), es, exits) == TwoLanes(Idle, a, Pointed, b, Some(1), Some(a), []).(stray := true)
  {
    var rest := RunSecond(a, b, exits);
    es := RunFromStart(a, TwoLanes(Idle, a, Pointed, b, Some(1), Some(a), []).(stray := true), rest, exits);
  }

  /** And one in which it arrives with the lock free: the hop forwards to lane 0's upstream with
      nobody in an operation, and no teardown has failed. */
  lemma LateRepointWhenFreeRun(a: Upstream, exits: Exits) returns (es: seq<Event>)
    ensures Run(Start0(2), es, exits)
    ensures After(Start0(2), es, exits) == TwoLanes(Idle, a, Idle, "", None, Some(a), []).(stray := true)
  {
    var left := TwoLanes(Idle, a, Idle, "", None, None, [Some(a)]);
    OneDelivery(left, exits, 0);
    es := RunFromStart(a, TwoLanes(Idle, a, Idle, "", None, Some(a), []).(stray := true), [Deliver(0)], exits);
  }
}
