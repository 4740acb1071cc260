/** The clearances the gateway holds for its device-solved sources: `get_clearance` up to and
    after its one wait, and the store it works on, of
    src/manga_gateway/framework/android_solver.py. */
module ClearanceSpec {
  import opened Wrappers

  type Key = string

  /** Clock readings, in any unit; the cookie's expiry is on the same clock. */
  type Time = int

  /** A clearance, told apart by when it was minted. */
  type Clearance = nat

  /** The sources: those the device solves, in order; of them, those that hold its page, and
      those solved only on demand; how long a clearance lasts where that is configured; and the
      tuning of the solve retries and of the refresh. */
  datatype Config = Config(
    challenge: seq<Key>,
    warmLast: set<Key>,
    onDemand: set<Key>,
    lifetime: map<Key, Time>,
    threshold: Time,
    backoff: Time,
    maxAttempts: nat,
    busyAttempts: nat,
    lead: Time)

  /** Lifetimes that are not positive are dropped. */
  function Lifetimes(raw: map<Key, Time>): (r: map<Key, Time>)
    ensures forall k :: k in r <==> k in raw && raw[k] > 0
    ensures forall k | k in r :: r[k] == raw[k]
  {
    map k | k in raw && raw[k] > 0 :: raw[k]
  }

  datatype Store = Store(held: map<Key, Clearance>, expiresAt: map<Key, Time>, blockUntil: map<Key, Time>)

  function Lookup<V>(m: map<Key, V>, k: Key): Option<V> {
    if k in m then Some(m[k]) else None
  }

  /** When a clearance minted now should be thought to lapse: its own expiry, or the end of its
      configured lifetime when that is sooner or all there is. */
  function Effective(c: Config, k: Key, expiry: Option<Time>, now: Time): (r: Option<Time>)
    ensures k !in c.lifetime ==> r == expiry
    ensures k in c.lifetime ==> r.Some? && r.value <= now + c.lifetime[k] && (expiry.Some? ==> r.value <= expiry.value)
    ensures r.Some? ==> r == expiry || (k in c.lifetime && r.value == now + c.lifetime[k])
  {
    if k !in c.lifetime then expiry
    else
      var cap := now + c.lifetime[k];
      if expiry.Some? && expiry.value <= cap then expiry else Some(cap)
  }

  function RecordExpiry(s: Store, c: Config, k: Key, expiry: Option<Time>, now: Time): Store {
    match Effective(c, k, expiry, now)
    case Some(t) => s.(expiresAt := s.expiresAt[k := t])
    case None => s.(expiresAt := s.expiresAt - {k})
  }

  /** A fresh clearance takes the place of whatever was held. */
  function Swap(s: Store, c: Config, k: Key, x: Clearance, expiry: Option<Time>, now: Time): Store {
    RecordExpiry(s.(held := s.held[k := x]), c, k, expiry, now)
  }

  function Discard(s: Store, k: Key): Store {
    s.(held := s.held - {k}, expiresAt := s.expiresAt - {k})
  }

  predicate HeldIsValid(s: Store, k: Key, now: Time) {
    k in s.held && (k in s.expiresAt ==> s.expiresAt[k] > now)
  }

  predicate InBlockWindow(s: Store, k: Key, now: Time) {
    now < if k in s.blockUntil then s.blockUntil[k] else 0
  }

  function MarkBlockWindow(s: Store, c: Config, k: Key, now: Time): Store {
    s.(blockUntil := s.blockUntil[k := now + c.backoff])
  }

  function ClearBlockWindow(s: Store, k: Key): Store {
    s.(blockUntil := s.blockUntil - {k})
  }

  // --------------------------------------------------------- before the wait

  /** What was discarded by a forced call, to fall back on. */
  datatype Snapshot = Snapshot(clearance: Option<Clearance>, expiry: Option<Time>)

  const NOTHING := Snapshot(None, None)

  /** How a call goes on: with an answer; to a solve, with what it discarded; or, for a source
      that holds the page, to an eval. */
  datatype Begun = Answer(clearance: Option<Clearance>) | Solve(snapshot: Snapshot) | Eval

  predicate PageHolder(c: Config, k: Key) {
    k in c.warmLast
  }

  function Begin(s: Store, c: Config, k: Key, force: bool, solveIfMissing: bool, now: Time): Begun {
    if k !in c.challenge then Answer(None)
    else if PageHolder(c, k) then
      if force then Eval else Answer(Lookup(s.held, k))
    else if force then
      if InBlockWindow(s, k, now) && HeldIsValid(s, k, now) then Answer(Some(s.held[k]))
      else Solve(Snapshot(Lookup(s.held, k), Lookup(s.expiresAt, k)))
    else if k in s.held then Answer(Some(s.held[k]))
    else if !solveIfMissing then Answer(None)
    else Solve(NOTHING)
  }

  /** A forced call that does not answer at once has discarded what was held. */
  function BeginStore(s: Store, c: Config, k: Key, force: bool, solveIfMissing: bool, now: Time): Store {
    if force && !Begin(s, c, k, force, solveIfMissing, now).Answer? then Discard(s, k) else s
  }

  // ---------------------------------------------------------- after the wait

  /** How a solve or an eval ended; `Minted` of an eval may carry no clearance. */
  datatype Outcome =
    | Minted(clearance: Option<Clearance>, expiry: Option<Time>)
    | Blocked
    | Deferred
    | Failed

  /** What a call gives its caller; with a clearance, its tracked expiry at that time. */
  datatype Result =
    | Given(clearance: Option<Clearance>, expiry: Option<Time>)
    | Raised(cause: Outcome)

  predicate Usable(p: Snapshot, now: Time) {
    p.clearance.Some? && (p.expiry.Some? ==> p.expiry.value > now)
  }

  function Restore(s: Store, k: Key, p: Snapshot): Store
    requires p.clearance.Some?
  {
    Store(s.held[k := p.clearance.value],
          if p.expiry.Some? then s.expiresAt[k := p.expiry.value] else s.expiresAt,
          s.blockUntil)
  }

  /** The end of a call that waited for a solve. */
  function Conclude(s: Store, c: Config, k: Key, p: Snapshot, o: Outcome, now: Time): Result {
    match o
    case Minted(x, expiry) => Given(x, Lookup(ConcludeStore(s, c, k, p, o, now).expiresAt, k))
    case Blocked =>
      if Usable(p, now) then Given(p.clearance, p.expiry)
      else if HeldIsValid(s, k, now) then Given(Some(s.held[k]), Lookup(s.expiresAt, k))
      else Raised(Blocked)
    case _ => Raised(o)
  }

  function ConcludeStore(s: Store, c: Config, k: Key, p: Snapshot, o: Outcome, now: Time): Store {
    match o
    case Minted(Some(x), expiry) => Swap(s, c, k, x, expiry, now)
    case Blocked => if Usable(p, now) then Restore(s, k, p) else s
    case _ => s
  }

  // --------------------------------------------------------------- promises

  /** What is tracked is held, what is held is a solved source's, and a tracked expiry is no
      further off than the configured lifetime. */
  ghost predicate Sound(s: Store, c: Config, now: Time) {
    && s.expiresAt.Keys <= s.held.Keys
    && (forall k | k in s.held :: k in c.challenge)
    && (forall k | k in s.expiresAt && k in c.lifetime :: s.expiresAt[k] <= now + c.lifetime[k])
  }

  /** A snapshot that is put back keeps that. */
  ghost predicate SoundSnapshot(p: Snapshot, c: Config, k: Key, now: Time) {
    p.expiry.Some? && k in c.lifetime ==> p.expiry.value <= now + c.lifetime[k]
  }

  lemma BeginSound(s: Store, c: Config, k: Key, force: bool, solveIfMissing: bool, now: Time)
    requires Sound(s, c, now)
    ensures Sound(BeginStore(s, c, k, force, solveIfMissing, now), c, now)
    ensures var b := Begin(s, c, k, force, solveIfMissing, now);
            && (!b.Answer? ==> k in c.challenge && (b.Eval? <==> PageHolder(c, k)))
            && (b.Solve? ==> SoundSnapshot(b.snapshot, c, k, now))
  {
  }

  lemma ConcludeSound(s: Store, c: Config, k: Key, p: Snapshot, o: Outcome, now: Time)
    requires Sound(s, c, now) && k in c.challenge && SoundSnapshot(p, c, k, now)
    ensures Sound(ConcludeStore(s, c, k, p, o, now), c, now)
  {
  }

  /** A forced call that answers at once answers with a clearance whose expiry is not known or
      still ahead, inside a block window, and changes nothing; for any other solved source it
      has discarded what was held; a page holder's answer comes later or not at all. */
  lemma ForcedBegin(s: Store, c: Config, k: Key, solveIfMissing: bool, now: Time)
    requires k in c.challenge
    ensures var b := Begin(s, c, k, true, solveIfMissing, now);
            var t := BeginStore(s, c, k, true, solveIfMissing, now);
            && (b.Answer? <==> !PageHolder(c, k) && InBlockWindow(s, k, now) && HeldIsValid(s, k, now))
            && (b.Answer? ==> t == s && b.clearance == Some(s.held[k]))
            && (!b.Answer? ==> k !in t.held && k !in t.expiresAt)
            && (b.Solve? ==> b.snapshot == Snapshot(Lookup(s.held, k), Lookup(s.expiresAt, k)))
  {
  }

  /** After a solve that failed, the clearance a call discarded is held again exactly when the
      failure is a block window and it has no known expiry or one still ahead, or when somebody
      else holds it again; put back, it is given with its own expiry whatever was held by then;
      and any other failure leaves the store alone. */
  lemma PutBackExactlyWhen(s: Store, c: Config, k: Key, p: Snapshot, o: Outcome, now: Time)
    requires !o.Minted? && p.clearance.Some?
    ensures var t := ConcludeStore(s, c, k, p, o, now);
            && (Lookup(t.held, k) == p.clearance
                <==> (o.Blocked? && (p.expiry.Some? ==> p.expiry.value > now)) || Lookup(s.held, k) == p.clearance)
            && (o.Blocked? && Usable(p, now) ==>
                  && Conclude(s, c, k, p, o, now) == Given(p.clearance, p.expiry)
                  && (p.expiry.Some? ==> Lookup(t.expiresAt, k) == p.expiry))
            && (!(o.Blocked? && Usable(p, now)) ==> t == s)
            && (!o.Blocked? ==> Conclude(s, c, k, p, o, now) == Raised(o))
  {
  }

  /** Whatever a concluded call gives is the clearance just minted, or has no tracked expiry, or
      one still ahead. */
  lemma GivenIsGood(s: Store, c: Config, k: Key, p: Snapshot, o: Outcome, now: Time)
    ensures var r := Conclude(s, c, k, p, o, now);
            r.Given? && !o.Minted? ==> r.clearance.Some? && (r.expiry.Some? ==> r.expiry.value > now)
    ensures var r := Conclude(s, c, k, p, o, now); o.Minted? ==> r.Given? && r.clearance == o.clearance
  {
  }

  /** Only the key of the call changes in the store. */
  lemma OtherKeysKept(s: Store, c: Config, k: Key, other: Key, p: Snapshot, o: Outcome, force: bool, missing: bool,
      now: Time)
    requires other != k
    ensures var t := ConcludeStore(s, c, k, p, o, now);
            Lookup(t.held, other) == Lookup(s.held, other) && Lookup(t.expiresAt, other) == Lookup(s.expiresAt, other)
    ensures var t := BeginStore(s, c, k, force, missing, now);
            Lookup(t.held, other) == Lookup(s.held, other) && Lookup(t.expiresAt, other) == Lookup(s.expiresAt, other)
  {
  }

  // ------------------------------------------------------ the solve's retries

  /** One attempt at a solve: the device lock was not had in time, the operation gave way to
      the foreground, or the POST failed or brought a clearance, `took` after the lock was had. */
  datatype Attempt =
    | LockTimeout
    | GaveWay
    | PostFailed(took: Time, at: Time)
    | PostOk(clearance: Clearance, expiry: Option<Time>)

  /** A failure that is no block window: the sidecar was not reached, or failed fast. */
  predicate Fast(a: Attempt, c: Config) {
    a.LockTimeout? || (a.PostFailed? && a.took < c.threshold)
  }

  predicate Slow(a: Attempt, c: Config) {
    a.PostFailed? && a.took >= c.threshold
  }

  /** Attempt `n` is made: all before it failed fast. */
  ghost predicate Made(c: Config, tries: nat -> Attempt, n: nat) {
    1 <= n <= c.maxAttempts && forall m: nat | 1 <= m < n :: Fast(tries(m), c)
  }

  /** How a solve ends, from attempt `n` on. */
  function Solved(c: Config, tries: nat -> Attempt, n: nat): Outcome
    decreases c.maxAttempts - n
  {
    if n > c.maxAttempts then Failed
    else
      match tries(n)
      case GaveWay => Deferred
      case PostOk(x, expiry) => Minted(Some(x), expiry)
      case _ => if Slow(tries(n), c) then Blocked else Solved(c, tries, n + 1)
  }

  /** What a solve leaves in the store: a success lifts the key's backoff, a block window sets it. */
  function SolvedStore(s: Store, c: Config, k: Key, tries: nat -> Attempt, n: nat): Store
    decreases c.maxAttempts - n
  {
    if n > c.maxAttempts then s
    else
      match tries(n)
      case GaveWay => s
      case PostOk(_, _) => ClearBlockWindow(s, k)
      case _ => if Slow(tries(n), c) then MarkBlockWindow(s, c, k, tries(n).at) else SolvedStore(s, c, k, tries, n + 1)
  }

  lemma {:induction false} SolvedFrom(c: Config, tries: nat -> Attempt, n: nat, last: nat)
    requires 1 <= n <= last <= c.maxAttempts + 1 && forall m: nat | n <= m < last :: Fast(tries(m), c)
    ensures Solved(c, tries, n) == Solved(c, tries, last)
    decreases last - n
  {
    if n < last {
      SolvedFrom(c, tries, n + 1, last);
    }
  }

  /** The first attempt that did not fail fast, or one past the last. */
  function Deciding(c: Config, tries: nat -> Attempt, n: nat): (d: nat)
    requires 1 <= n <= c.maxAttempts + 1
    ensures n <= d <= c.maxAttempts + 1
    ensures forall m: nat | n <= m < d :: Fast(tries(m), c)
    ensures d <= c.maxAttempts ==> !Fast(tries(d), c)
    decreases c.maxAttempts - n + 1
  {
    if n > c.maxAttempts || !Fast(tries(n), c) then n else Deciding(c, tries, n + 1)
  }

  /** A solve is a block window exactly when an attempt that is made fails slowly, a deferral
      exactly when one gives way, a failure exactly when all fail fast: only a fast failure is
      ever tried again. */
  lemma SolvedExactlyWhen(c: Config, tries: nat -> Attempt)
    ensures var o := Solved(c, tries, 1);
            && (o.Blocked? <==> exists n :: Made(c, tries, n) && Slow(tries(n), c))
            && (o.Deferred? <==> exists n :: Made(c, tries, n) && tries(n).GaveWay?)
            && (o.Minted? <==> exists n :: Made(c, tries, n) && tries(n).PostOk?)
            && (o.Failed? <==> forall n: nat | 1 <= n <= c.maxAttempts :: Fast(tries(n), c))
  {
    var d := Deciding(c, tries, 1);
    SolvedFrom(c, tries, 1, d);
    if d <= c.maxAttempts {
      assert Made(c, tries, d);
    }
    forall n: nat | Made(c, tries, n) && !Fast(tries(n), c)
      ensures n == d
    {
    }
  }

  // ---------------------------------------------------- the refresh's sleep

  /** When a tracked source next needs looking at: when its backoff lapses, or ahead of its own
      lapse. Page holders and on-demand sources never do. */
  predicate Watched(s: Store, c: Config, k: Key) {
    k in s.expiresAt && k !in c.onDemand && k !in c.warmLast
  }

  function Upcoming(s: Store, c: Config, k: Key, now: Time): Time
    requires k in s.expiresAt
  {
    if k in s.blockUntil && s.blockUntil[k] > now then s.blockUntil[k] else s.expiresAt[k] - c.lead
  }

  function Clamp(lo: Time, hi: Time, t: Time): Time {
    var top := if hi <= t then hi else t;
    if lo >= top then lo else top
  }
}

/** The fields of the solver and the methods that change them. */
module ClearanceStore {
  import opened Wrappers
  import opened ClearanceSpec

  class AndroidSolver {
    const config: Config
    var held: map<Key, Clearance>
    var expiresAt: map<Key, Time>
    var blockUntil: map<Key, Time>

    function View(): Store
      reads this
    {
      Store(held, expiresAt, blockUntil)
    }

    constructor (c: Config, lifetimes: map<Key, Time>)
      ensures config == c.(lifetime := Lifetimes(lifetimes))
      ensures View() == Store(map[], map[], map[])
    {
      config := c.(lifetime := Lifetimes(lifetimes));
      held, expiresAt, blockUntil := map[], map[], map[];
    }

    method RecordExpiry(k: Key, expiry: Option<Time>, now: Time)
      modifies this`expiresAt
      ensures View() == ClearanceSpec.RecordExpiry(old(View()), config, k, expiry, now)
      ensures k !in config.lifetime ==>
                expiresAt == if expiry.Some? then old(expiresAt)[k := expiry.value] else old(expiresAt) - {k}
      ensures k in config.lifetime ==>
                var cap := now + config.lifetime[k];
                expiresAt == old(expiresAt)[k := if expiry.Some? && expiry.value < cap then expiry.value else cap]
    {
      var effective := expiry;
      if k in config.lifetime {
        var cap := now + config.lifetime[k];
        effective := if effective.None? || cap < effective.value then Some(cap) else effective;
      }
      if effective.Some? {
        expiresAt := expiresAt[k := effective.value];
      } else {
        expiresAt := expiresAt - {k};
      }
    }

    method MarkBlockWindow(k: Key, now: Time)
      modifies this`blockUntil
      ensures View() == ClearanceSpec.MarkBlockWindow(old(View()), config, k, now)
      ensures blockUntil == old(blockUntil)[k := now + config.backoff]
    {
      blockUntil := blockUntil[k := now + config.backoff];
    }

    /** A successful solve lifts the key's backoff. */
    method SolveSucceeded(k: Key)
      modifies this`blockUntil
      ensures View() == ClearBlockWindow(old(View()), k)
      ensures blockUntil == old(blockUntil) - {k}
    {
      blockUntil := blockUntil - {k};
    }

    /** `get_clearance` up to its wait. What is not the device's to solve gets nothing. An unforced
        call is given what is held, and otherwise solves unless it is a mere peek; of a page holder
        it is given what is held or nothing. A forced call is given what is held only inside a
        block window and only before its expiry; else it discards that, and goes on with it as its
        snapshot, or for a page holder to an eval. */
    method BeginGet(k: Key, force: bool, solveIfMissing: bool, now: Time) returns (b: Begun)
      modifies this`held, this`expiresAt
      ensures b == Begin(old(View()), config, k, force, solveIfMissing, now)
      ensures View() == BeginStore(old(View()), config, k, force, solveIfMissing, now)
      ensures k !in config.challenge ==> b == Answer(None)
      ensures k in config.challenge && !force && k in old(held) ==> b == Answer(Some(old(held[k])))
      ensures k in config.challenge && !force && k !in old(held) ==>
                b == if k in config.warmLast || !solveIfMissing then Answer(None) else Solve(Snapshot(None, None))
      ensures k in config.challenge && k in config.warmLast && force ==> b == Eval
      ensures k in config.challenge && k !in config.warmLast && force ==>
                var window := now < if k in blockUntil then blockUntil[k] else 0;
                if window && k in old(held) && (k in old(expiresAt) ==> now < old(expiresAt[k]))
                then b == Answer(Some(old(held[k])))
                else b == Solve(Snapshot(Lookup(old(held), k), Lookup(old(expiresAt), k)))
      ensures View() == if force && !b.Answer? then Store(old(held) - {k}, old(expiresAt) - {k}, blockUntil)
                        else old(View())
    {
      if k !in config.challenge {
        return Answer(None);
      }
      if k in config.warmLast {
        b := BeginPageHolder(k, force);
        return;
      }
      if force {
        if InBlockWindow(View(), k, now) && HeldIsValid(View(), k, now) {
          return Answer(Some(held[k]));
        }
        b := Solve(Snapshot(Lookup(held, k), Lookup(expiresAt, k)));
        held, expiresAt := held - {k}, expiresAt - {k};
        return;
      }
      if k in held {
        return Answer(Some(held[k]));
      }
      b := if solveIfMissing then Solve(NOTHING) else Answer(None);
    }

    /** `_page_holder_clearance` up to its wait. */
    method BeginPageHolder(k: Key, force: bool) returns (b: Begun)
      modifies this`held, this`expiresAt
      ensures b == if force then Eval else Answer(Lookup(old(held), k))
      ensures View() == if force then Discard(old(View()), k) else old(View())
      ensures !force ==> b == Answer(if k in held then Some(held[k]) else None) && View() == old(View())
      ensures force ==> b == Eval && held == old(held) - {k} && expiresAt == old(expiresAt) - {k}
    {
      if !force {
        return Answer(Lookup(held, k));
      }
      held, expiresAt := held - {k}, expiresAt - {k};
      b := Eval;
    }

    /** `get_clearance` after its wait for a solve. */
    method ConcludeGet(k: Key, p: Snapshot, o: Outcome, now: Time) returns (r: Result)
      modifies this`held, this`expiresAt
      ensures r == Conclude(old(View()), config, k, p, o, now)
      ensures View() == ConcludeStore(old(View()), config, k, p, o, now)
      ensures o.Minted? && o.clearance.Some? ==>
                && r == Given(o.clearance, Lookup(expiresAt, k)) && held == old(held)[k := o.clearance.value]
                && Lookup(expiresAt, k) == Effective(config, k, o.expiry, now)
      ensures o.Blocked? && p.clearance.Some? && (p.expiry.Some? ==> now < p.expiry.value) ==>
                && r == Given(p.clearance, p.expiry) && held == old(held)[k := p.clearance.value]
                && expiresAt == if p.expiry.Some? then old(expiresAt)[k := p.expiry.value] else old(expiresAt)
      ensures o.Blocked? && !(p.clearance.Some? && (p.expiry.Some? ==> now < p.expiry.value)) ==>
                && View() == old(View())
                && r == (if k in held && (k in expiresAt ==> now < expiresAt[k])
                         then Given(Some(held[k]), Lookup(expiresAt, k)) else Raised(o))
      ensures o.Deferred? || o.Failed? ==> r == Raised(o) && View() == old(View())
    {
      match o {
        case Minted(x, expiry) =>
          if x.Some? {
            held := held[k := x.value];
            RecordExpiry(k, expiry, now);
          }
          r := Given(x, Lookup(expiresAt, k));
        case Blocked =>
          var served := ServeCachedThroughBlock(k, p, now);
          if served.Some? {
            return Given(served, p.expiry);
          }
          r := if HeldIsValid(View(), k, now) then Given(Some(held[k]), Lookup(expiresAt, k)) else Raised(o);
        case _ => r := Raised(o);
      }
    }

    /** Restores and serves a snapshot that may still be good, through a block window. */
    method ServeCachedThroughBlock(k: Key, p: Snapshot, now: Time) returns (served: Option<Clearance>)
      modifies this`held, this`expiresAt
      ensures served.Some? <==> Usable(p, now)
      ensures served.Some? ==> served == p.clearance && View() == Restore(old(View()), k, p)
      ensures served.None? ==> View() == old(View())
      ensures served == if p.expiry.Some? && p.expiry.value <= now then None else p.clearance
      ensures served.Some? ==>
                && held == old(held)[k := served.value]
                && expiresAt == if p.expiry.Some? then old(expiresAt)[k := p.expiry.value] else old(expiresAt)
    {
      if p.clearance.None? || (p.expiry.Some? && p.expiry.value <= now) {
        return None;
      }
      held := held[k := p.clearance.value];
      if p.expiry.Some? {
        expiresAt := expiresAt[k := p.expiry.value];
      }
      served := p.clearance;
    }

    /** `_solve_with_retry`, and what `_solve` does after it: of the attempts made the first that did
        not fail fast decides. A good one lifts the key's backoff, and one that failed as slowly as
        the threshold sets it anew; nothing else touches it. */
    method SolveWithRetry(k: Key, tries: nat -> Attempt) returns (o: Outcome)
      modifies this`blockUntil
      ensures forall n | Made(config, tries, n) && tries(n).PostOk? ::
                o == Minted(Some(tries(n).clearance), tries(n).expiry) && blockUntil == old(blockUntil) - {k}
      ensures forall n | Made(config, tries, n) && tries(n).PostFailed? && tries(n).took >= config.threshold ::
                o == Blocked && blockUntil == old(blockUntil)[k := tries(n).at + config.backoff]
      ensures forall n | Made(config, tries, n) && tries(n).GaveWay? :: o == Deferred && blockUntil == old(blockUntil)
      ensures (forall n: nat | 1 <= n <= config.maxAttempts :: Fast(tries(n), config)) ==>
                o == Failed && blockUntil == old(blockUntil)
      ensures o == Solved(config, tries, 1)
      ensures View() == SolvedStore(old(View()), config, k, tries, 1)
    {
      var n := 1;
      while n <= config.maxAttempts
        invariant n >= 1 && View() == old(View())
        invariant forall m: nat | 1 <= m < n && m <= config.maxAttempts :: Fast(tries(m), config)
        invariant Solved(config, tries, 1) == Solved(config, tries, n)
        invariant SolvedStore(View(), config, k, tries, 1) == SolvedStore(View(), config, k, tries, n)
        decreases config.maxAttempts - n
      {
        match tries(n) {
          case GaveWay => return Deferred;
          case PostOk(x, expiry) =>
            SolveSucceeded(k);
            return Minted(Some(x), expiry);
          case PostFailed(took, at) =>
            if took >= config.threshold {
              MarkBlockWindow(k, at);
              return Blocked;
            }
          case LockTimeout =>
        }
        n := n + 1;
      }
      o := Failed;
    }

    /** How long the refresh loop sleeps after a tick that began at `now` and is over at `end`:
        between its bounds, never past the time any watched source needs looking at by more
        than the least sleep, and no shorter than the soonest of them allows. A source that is
        neither held by a page nor solved on demand needs looking at when its block window lapses,
        while that is open, and otherwise `lead` ahead of its own lapse. */
    method NextDelay(now: Time, end: Time, least: Time, most: Time) returns (delay: Time)
      requires least <= most
      ensures least <= delay <= most
      ensures forall k | k in expiresAt && k !in config.onDemand && k !in config.warmLast ::
                delay <= least
                || end + delay
                   <= if k in blockUntil && blockUntil[k] > now then blockUntil[k] else expiresAt[k] - config.lead
      ensures delay == most
              || (exists k | k in expiresAt && k !in config.onDemand && k !in config.warmLast ::
                    var blocked := k in blockUntil && blockUntil[k] > now;
                    var next := if blocked then blockUntil[k] else expiresAt[k] - config.lead;
                    end + delay == next || (delay == least && next < end + least))
    {
      var soonest: Option<Time> := None;
      ghost var who: Key := "";
      var todo := expiresAt.Keys;
      while todo != {}
        invariant todo <= expiresAt.Keys
        invariant soonest.Some? ==> Watched(View(), config, who) && soonest.value == Upcoming(View(), config, who, now)
        invariant forall k | k in expiresAt.Keys - todo && Watched(View(), config, k) ::
                    soonest.Some? && soonest.value <= Upcoming(View(), config, k, now)
        decreases todo
      {
        var k :| k in todo;
        todo := todo - {k};
        if k !in config.onDemand && k !in config.warmLast {
          var t := Upcoming(View(), config, k, now);
          if soonest.None? || t < soonest.value {
            soonest, who := Some(t), k;
          }
        }
      }
      delay := if soonest.None? then most else Clamp(least, most, soonest.value - end);
      forall k | k in expiresAt && k !in config.onDemand && k !in config.warmLast
        ensures soonest.Some? && soonest.value <= Upcoming(View(), config, k, now)
      {
        assert Watched(View(), config, k);
      }
    }
  }
}
