/** The single-flight TTL store of src/manga_gateway/framework/enum_cache.py.

    `FlightSpec` is the store, its futures and the callers as one step machine: every
    event is the code between two awaits, and any interleaving of events is a run.
    `FlightCache` is the class whose methods are those pieces of code. */
module FlightSpec {
  import opened Wrappers

  type Value = int
  type FutureId = nat
  type TaskId = nat
  datatype Error = Upstream(code: int) | CancelledError

  /** A cache key; only its first element, the source key, is ever looked into. */
  datatype Key = Key(source: string, rest: seq<string>)

  datatype Config = Config(defaultTtl: int, overrides: map<string, int>, maxTtl: int, emptyTtl: int,
      isEmpty: Value -> bool)

  function Min(a: int, b: int): int { if a < b then a else b }

  /** How long `value` may be served: the short empty window, or the source's own window. */
  function Ttl(cfg: Config, key: Key, value: Value): int {
    if cfg.isEmpty(value) then Min(cfg.emptyTtl, cfg.maxTtl)
    else Min(if key.source in cfg.overrides then cfg.overrides[key.source] else cfg.defaultTtl, cfg.maxTtl)
  }

  /** A stored value with the moment it was stored and the moment it lapses. */
  datatype Entry = Entry(value: Value, storedAt: real, expiry: real)

  type Store = map<Key, Entry>

  function Lookup(store: Store, key: Key, now: real): Option<Value> {
    if key in store && now < store[key].expiry then Some(store[key].value) else None
  }

  /** Storing a value; one that would lapse at once is not stored at all. */
  function Put(cfg: Config, store: Store, key: Key, value: Value, now: real): Store {
    var expiry := now + Ttl(cfg, key, value) as real;
    if now < expiry then store[key := Entry(value, now, expiry)] else store
  }

  datatype FutureState = Pending | Resolved(value: Value) | Rejected(error: Error) | Dropped

  /** The store's own fields, with the futures it has handed out. */
  datatype Flight = Flight(store: Store, inflight: map<Key, FutureId>, futures: map<FutureId, FutureState>) {
    /** The future a new caller for `key` would wait on. */
    predicate Joinable(key: Key) {
      key in inflight && inflight[key] in futures && futures[inflight[key]].Pending?
    }

    function Lead(key: Key, fut: FutureId): Flight {
      this.(inflight := inflight[key := fut], futures := futures[fut := Pending])
    }

    /** The end of a leader: settle its future unless that is already done, and drop the slot. */
    function Settle(key: Key, fut: FutureId, outcome: FutureState): Flight {
      this.(inflight := inflight - {key},
            futures := if fut in futures && futures[fut].Pending? then futures[fut := outcome] else futures)
    }
  }

  // ------------------------------------------------------------ step machine

  datatype Caller =
    | Fetching(key: Key, fut: FutureId)
    | Waiting(key: Key, fut: FutureId)
    | Returned(key: Key, value: Value)
    | Raised(key: Key, error: Error)

  /** `leader` and `home` say who leads a future and for which key; `log` is every value a
      successful fetch or a replace ever produced; `dropped` counts, key by key, the futures
      that a cancelled follower cancelled. */
  datatype State = State(now: real, flight: Flight, callers: map<TaskId, Caller>,
                         leader: map<FutureId, TaskId>, home: map<FutureId, Key>,
                         log: set<(Key, Value, real)>, dropped: map<Key, nat>)

  datatype Event =
    | Tick(dt: real)
    | Call(task: TaskId, key: Key, newFut: FutureId)
    | FetchOk(task: TaskId, value: Value)
    | FetchFail(task: TaskId, error: Error)
    | Wake(task: TaskId)
    | CancelFollower(task: TaskId)
    | Replace(key: Key, value: Value)
    | Evict(key: Key)

  predicate Enabled(s: State, e: Event) {
    match e
    case Tick(dt) => dt >= 0.0
    case Call(task, key, newFut) => task !in s.callers && newFut !in s.flight.futures
    case FetchOk(task, _) => task in s.callers && s.callers[task].Fetching?
    case FetchFail(task, _) => task in s.callers && s.callers[task].Fetching?
    case Wake(task) =>
      && task in s.callers && s.callers[task].Waiting?
      && s.callers[task].fut in s.flight.futures && !s.flight.futures[s.callers[task].fut].Pending?
    case CancelFollower(task) => task in s.callers && s.callers[task].Waiting?
    case Replace(_, _) => true
    case Evict(_) => true
  }

  function Drops(s: State, key: Key): nat { if key in s.dropped then s.dropped[key] else 0 }

  function Apply(cfg: Config, s: State, e: Event): State
    requires Enabled(s, e)
  {
    match e
    case Tick(dt) => s.(now := s.now + dt)
    case Call(task, key, newFut) => ApplyCall(s, task, key, newFut)
    case FetchOk(task, value) =>
      var key := s.callers[task].key;
      EndLead(Record(cfg, s, key, value), task, Resolved(value), Returned(key, value))
    case FetchFail(task, error) =>
      EndLead(s, task, Rejected(error), Raised(s.callers[task].key, error))
    case Wake(task) => Leave(s, task, Woken(s.callers[task].key, s.flight.futures[s.callers[task].fut]))
    case CancelFollower(task) => ApplyCancel(s, task)
    case Replace(key, value) =>
      Record(cfg, s, key, value)
    case Evict(key) => s.(flight := s.flight.(store := s.flight.store - {key}))
  }

  /** A value obtained for `key` is stored, and remembered as genuine. */
  function Record(cfg: Config, s: State, key: Key, value: Value): State {
    s.(flight := s.flight.(store := Put(cfg, s.flight.store, key, value, s.now)), log := s.log + {(key, value, s.now)})
  }

  /** A leader's last piece of code, whichever way its fetch went. */
  function EndLead(s: State, task: TaskId, outcome: FutureState, end: Caller): State
    requires task in s.callers && s.callers[task].Fetching?
  {
    s.(flight := s.flight.Settle(s.callers[task].key, s.callers[task].fut, outcome), callers := s.callers[task := end])
  }

  /** A caller that waits no longer. */
  function Leave(s: State, task: TaskId, end: Caller): State {
    s.(callers := s.callers[task := end])
  }

  /** What a follower gets out of a settled future. */
  function Woken(key: Key, f: FutureState): Caller {
    match f
    case Resolved(value) => Returned(key, value)
    case Rejected(error) => Raised(key, error)
    case _ => Raised(key, CancelledError)
  }

  /** A caller up to its first await: a hit returns, a pending future is joined, else it leads. */
  function ApplyCall(s: State, task: TaskId, key: Key, newFut: FutureId): State {
    match Lookup(s.flight.store, key, s.now)
    case Some(value) => s.(callers := s.callers[task := Returned(key, value)])
    case None =>
      if s.flight.Joinable(key) then
        s.(callers := s.callers[task := Waiting(key, s.flight.inflight[key])])
      else
        StartLead(s, task, key, newFut)
  }

  function StartLead(s: State, task: TaskId, key: Key, newFut: FutureId): State {
    s.(flight := s.flight.Lead(key, newFut), callers := s.callers[task := Fetching(key, newFut)],
       leader := s.leader[newFut := task], home := s.home[newFut := key])
  }

  /** Cancelling a follower cancels the future it awaits, for that await has no shield. */
  function ApplyCancel(s: State, task: TaskId): State
    requires task in s.callers && s.callers[task].Waiting?
  {
    var c := s.callers[task];
    var gone := Leave(s, task, Raised(c.key, CancelledError));
    if c.fut in s.flight.futures && s.flight.futures[c.fut].Pending? then
      gone.(flight := s.flight.(futures := s.flight.futures[c.fut := Dropped]),
            dropped := s.dropped[c.key := Drops(s, c.key) + 1])
    else gone
  }

  function Initial(now: real): State {
    State(now, Flight(map[], map[], map[]), map[], map[], map[], {}, map[])
  }

  /** The state a run of events leads to, if every event was possible when it came. */
  function Run(cfg: Config, s: State, events: seq<Event>): Option<State>
    decreases |events|
  {
    if events == [] then Some(s)
    else if Enabled(s, events[0]) then Run(cfg, Apply(cfg, s, events[0]), events[1..])
    else None
  }

  // -------------------------------------------------------------- invariants

  /** Futures know their key and leader; callers hang on futures of their own key; a slot
      belongs to a leader that is still fetching. */
  ghost predicate Wired(s: State) {
    && s.leader.Keys == s.home.Keys == s.flight.futures.Keys
    && (forall f | f in s.leader :: s.leader[f] in s.callers)
    && (forall t | t in s.callers && (s.callers[t].Fetching? || s.callers[t].Waiting?) ::
          s.callers[t].fut in s.home && s.home[s.callers[t].fut] == s.callers[t].key)
    && (forall t | t in s.callers && s.callers[t].Fetching? :: s.leader[s.callers[t].fut] == t)
    && (forall k | k in s.flight.inflight ::
          s.flight.inflight[k] in s.leader
            && s.callers[s.leader[s.flight.inflight[k]]] == Fetching(k, s.flight.inflight[k]))
  }

  /** A future says what its leader's fetch came to, unless a cancelled follower dropped it. */
  ghost predicate Faithful(s: State) {
    && s.leader.Keys == s.home.Keys == s.flight.futures.Keys
    && (forall f | f in s.leader :: s.leader[f] in s.callers)
    && (forall f | f in s.flight.futures :: Tells(s, f))
  }

  /** A future is dropped only by a follower's cancellation, which is counted. */
  ghost predicate DropsCounted(s: State) {
    forall f | f in s.flight.futures && s.flight.futures[f].Dropped? :: f in s.home && Drops(s, s.home[f]) > 0
  }

  ghost predicate Tells(s: State, f: FutureId)
    requires f in s.flight.futures && f in s.leader && s.leader[f] in s.callers && f in s.home
  {
    var c := s.callers[s.leader[f]];
    match s.flight.futures[f]
    case Pending => c == Fetching(s.home[f], f)
    case Resolved(value) => c == Returned(s.home[f], value)
    case Rejected(error) => c == Raised(s.home[f], error)
    case Dropped => !c.Waiting? && c.key == s.home[f]
  }

  ghost predicate Logged(s: State) {
    forall t | t in s.callers && s.callers[t].Returned? :: LoggedValue(s, s.callers[t].key, s.callers[t].value)
  }

  ghost predicate LoggedValue(s: State, key: Key, value: Value) {
    exists at :: at <= s.now && (key, value, at) in s.log
  }

  /** Every stored value was fetched or replaced for its key when its age began. */
  ghost predicate Stored(cfg: Config, s: State) {
    forall k | k in s.flight.store ::
      var e := s.flight.store[k];
      e.storedAt <= s.now && e.expiry == e.storedAt + Ttl(cfg, k, e.value) as real && (k, e.value, e.storedAt) in s.log
  }

  ghost function Leaders(s: State, key: Key): set<TaskId> {
    set t | t in s.callers && s.callers[t].Fetching? && s.callers[t].key == key
  }

  ghost function Allowed(s: State, key: Key): nat {
    Drops(s, key) + if s.flight.Joinable(key) then 1 else 0
  }

  ghost predicate Bounded(s: State, key: Key) {
    |Leaders(s, key)| <= Allowed(s, key)
  }

  ghost predicate Inv(cfg: Config, s: State) {
    Wired(s) && Faithful(s) && DropsCounted(s) && Stored(cfg, s) && Logged(s)
  }

  lemma WiredKept(cfg: Config, s: State, e: Event)
    requires Wired(s) && Enabled(s, e)
    ensures Wired(Apply(cfg, s, e))
  {
    match e
    case Call(task, key, newFut) => WiredCall(s, task, key, newFut);
    case FetchOk(task, value) =>
      var key := s.callers[task].key;
      WiredEnd(Record(cfg, s, key, value), task, Resolved(value), Returned(key, value));
    case FetchFail(task, error) => WiredEnd(s, task, Rejected(error), Raised(s.callers[task].key, error));
    case Wake(task) => WiredLeave(s, task, Apply(cfg, s, e).callers[task]);
    case CancelFollower(task) => WiredLeave(s, task, Apply(cfg, s, e).callers[task]);
    case _ =>
  }

  lemma WiredCall(s: State, task: TaskId, key: Key, newFut: FutureId)
    requires Wired(s) && task !in s.callers && newFut !in s.flight.futures
    ensures Wired(ApplyCall(s, task, key, newFut))
  {
    if Lookup(s.flight.store, key, s.now).None? && !s.flight.Joinable(key) {
      WiredLead(s, task, key, newFut);
    }
  }

  lemma WiredLead(s: State, task: TaskId, key: Key, newFut: FutureId)
    requires Wired(s) && task !in s.callers && newFut !in s.flight.futures
    ensures Wired(StartLead(s, task, key, newFut))
  {
    var s' := StartLead(s, task, key, newFut);
    forall k | k in s'.flight.inflight
      ensures s'.flight.inflight[k] in s'.leader
      ensures s'.callers[s'.leader[s'.flight.inflight[k]]] == Fetching(k, s'.flight.inflight[k])
    {
      if k != key {
        assert s.flight.inflight[k] in s.leader;
      }
    }
  }

  lemma WiredEnd(s: State, task: TaskId, outcome: FutureState, end: Caller)
    requires Wired(s) && task in s.callers && s.callers[task].Fetching? && !end.Fetching? && !end.Waiting?
    ensures Wired(EndLead(s, task, outcome, end))
  {
  }

  lemma WiredLeave(s: State, task: TaskId, end: Caller)
    requires Wired(s) && task in s.callers && s.callers[task].Waiting? && !end.Fetching? && !end.Waiting?
    ensures Wired(s.(callers := s.callers[task := end]))
  {
  }

  /** Being faithful is a matter of callers and futures alone. */
  ghost predicate SameFutures(s: State, s': State) {
    && s'.flight.futures == s.flight.futures && s'.callers == s.callers
    && s'.leader == s.leader && s'.home == s.home
  }

  lemma FaithfulFrame(s: State, s': State)
    requires Faithful(s) && SameFutures(s, s')
    ensures Faithful(s')
  {
    forall f | f in s'.flight.futures ensures Tells(s', f) { assert Tells(s, f); }
  }

  lemma FaithfulKept(cfg: Config, s: State, e: Event)
    requires Wired(s) && Faithful(s) && Enabled(s, e)
    ensures Faithful(Apply(cfg, s, e))
  {
    match e
    case Call(task, key, newFut) => FaithfulCall(s, task, key, newFut);
    case FetchOk(task, value) => FaithfulOk(cfg, s, task, value);
    case FetchFail(task, error) => FaithfulEnd(s, task, Rejected(error), Raised(s.callers[task].key, error));
    case Wake(task) => FaithfulLeave(s, task, Woken(s.callers[task].key, s.flight.futures[s.callers[task].fut]));
    case CancelFollower(task) => FaithfulCancel(s, task);
    case Tick(_) => FaithfulFrame(s, Apply(cfg, s, e));
    case Replace(_, _) => FaithfulFrame(s, Apply(cfg, s, e));
    case Evict(_) => FaithfulFrame(s, Apply(cfg, s, e));
  }

  lemma FaithfulCall(s: State, task: TaskId, key: Key, newFut: FutureId)
    requires Wired(s) && Faithful(s) && task !in s.callers && newFut !in s.flight.futures
    ensures Faithful(ApplyCall(s, task, key, newFut))
  {
    if Lookup(s.flight.store, key, s.now).Some? || s.flight.Joinable(key) {
      FaithfulGrow(s, task, ApplyCall(s, task, key, newFut).callers[task]);
    } else {
      FaithfulLead(s, task, key, newFut);
    }
  }

  lemma FaithfulLead(s: State, task: TaskId, key: Key, newFut: FutureId)
    requires Faithful(s) && task !in s.callers && newFut !in s.flight.futures
    ensures Faithful(StartLead(s, task, key, newFut))
  {
    var s' := StartLead(s, task, key, newFut);
    forall f | f in s'.flight.futures
      ensures Tells(s', f)
    {
      if f != newFut {
        assert Tells(s, f);
      }
    }
  }

  lemma FaithfulGrow(s: State, task: TaskId, c: Caller)
    requires Faithful(s) && task !in s.callers
    ensures Faithful(s.(callers := s.callers[task := c]))
  {
  }

  lemma FaithfulOk(cfg: Config, s: State, task: TaskId, value: Value)
    requires Wired(s) && Faithful(s) && task in s.callers && s.callers[task].Fetching?
    ensures var key := s.callers[task].key;
            Faithful(EndLead(Record(cfg, s, key, value), task, Resolved(value), Returned(key, value)))
  {
    var key := s.callers[task].key;
    var r := Record(cfg, s, key, value);
    FaithfulFrame(s, r);
    WiredRecord(cfg, s, key, value);
    FaithfulEnd(r, task, Resolved(value), Returned(key, value));
  }

  lemma WiredRecord(cfg: Config, s: State, key: Key, value: Value)
    requires Wired(s)
    ensures Wired(Record(cfg, s, key, value))
  {
  }

  lemma FaithfulEnd(s: State, task: TaskId, outcome: FutureState, end: Caller)
    requires Wired(s) && Faithful(s) && task in s.callers && s.callers[task].Fetching?
    requires end.key == s.callers[task].key && (end.Returned? || end.Raised?)
    requires outcome == if end.Returned? then Resolved(end.value) else Rejected(end.error)
    ensures Faithful(EndLead(s, task, outcome, end))
  {
    var s' := EndLead(s, task, outcome, end);
    forall f | f in s'.flight.futures ensures Tells(s', f) { assert Tells(s, f); }
  }

  /** A caller that waited leads no future, so how it ends is told by none. */
  lemma FaithfulLeave(s: State, task: TaskId, end: Caller)
    requires Faithful(s) && task in s.callers && s.callers[task].Waiting?
    ensures Faithful(Leave(s, task, end))
  {
    var s' := Leave(s, task, end);
    forall f | f in s'.flight.futures ensures Tells(s', f) { assert Tells(s, f) && s.leader[f] != task; }
  }

  lemma FaithfulCancel(s: State, task: TaskId)
    requires Wired(s) && Faithful(s) && task in s.callers && s.callers[task].Waiting?
    ensures Faithful(ApplyCancel(s, task))
  {
    var c := s.callers[task];
    var gone := Leave(s, task, Raised(c.key, CancelledError));
    FaithfulLeave(s, task, Raised(c.key, CancelledError));
    if c.fut in s.flight.futures && s.flight.futures[c.fut].Pending? {
      FaithfulDrop(gone, c.fut, ApplyCancel(s, task));
    }
  }

  lemma FaithfulDrop(s: State, fut: FutureId, s': State)
    requires Faithful(s) && fut in s.flight.futures && s.flight.futures[fut].Pending?
    requires s' == s.(flight := s'.flight, dropped := s'.dropped)
             && s'.flight.futures == s.flight.futures[fut := Dropped]
    ensures Faithful(s')
  {
    forall f | f in s'.flight.futures ensures Tells(s', f) { assert Tells(s, f); }
  }

  lemma DropsKept(cfg: Config, s: State, e: Event)
    requires Wired(s) && DropsCounted(s) && Enabled(s, e)
    ensures DropsCounted(Apply(cfg, s, e))
  {
    if e.CancelFollower? {
      DropsKeptByCancel(s, e.task);
    } else if e.Call? {
      DropsKeptByCall(s, e.task, e.key, e.newFut);
    }
  }

  lemma DropsKeptByCall(s: State, task: TaskId, key: Key, newFut: FutureId)
    requires DropsCounted(s) && newFut !in s.flight.futures && s.home.Keys == s.flight.futures.Keys
    ensures DropsCounted(ApplyCall(s, task, key, newFut))
  {
  }

  lemma DropsKeptByCancel(s: State, task: TaskId)
    requires Wired(s) && DropsCounted(s) && task in s.callers && s.callers[task].Waiting?
    ensures DropsCounted(ApplyCancel(s, task))
  {
  }

  lemma StoredKept(cfg: Config, s: State, e: Event)
    requires Stored(cfg, s) && Enabled(s, e)
    ensures Stored(cfg, Apply(cfg, s, e))
  {
    match e
    case FetchOk(task, value) =>
      StoredRecord(cfg, s, s.callers[task].key, value);
      StoredFrame(cfg, Record(cfg, s, s.callers[task].key, value), Apply(cfg, s, e));
    case Replace(key, value) => StoredRecord(cfg, s, key, value);
    case Evict(_) =>
    case _ => StoredFrame(cfg, s, Apply(cfg, s, e));
  }

  lemma StoredFrame(cfg: Config, s: State, s': State)
    requires Stored(cfg, s) && s'.flight.store == s.flight.store && s'.log == s.log && s.now <= s'.now
    ensures Stored(cfg, s')
  {
  }

  lemma StoredRecord(cfg: Config, s: State, key: Key, value: Value)
    requires Stored(cfg, s)
    ensures Stored(cfg, Record(cfg, s, key, value))
  {
  }

  lemma LoggedKept(cfg: Config, s: State, e: Event)
    requires Inv(cfg, s) && Enabled(s, e)
    ensures Logged(Apply(cfg, s, e))
  {
    var s' := Apply(cfg, s, e);
    forall t | t in s'.callers && s'.callers[t].Returned?
      ensures LoggedValue(s', s'.callers[t].key, s'.callers[t].value)
    {
      var c := s'.callers[t];
      if t in s.callers && s.callers[t] == c {
        var at :| at <= s.now && (c.key, c.value, at) in s.log;
        assert (c.key, c.value, at) in s'.log;
      } else {
        match e
        case Call(_, _, _) => assert (c.key, c.value, s.flight.store[c.key].storedAt) in s'.log;
        case FetchOk(_, _) => assert (c.key, c.value, s.now) in s'.log;
        case Wake(_) =>
          var f := s.callers[t].fut;
          assert Tells(s, f);
          var at :| at <= s.now && (c.key, c.value, at) in s.log;
        case _ =>
      }
    }
  }

  lemma BoundedKept(cfg: Config, s: State, e: Event, key: Key)
    requires Wired(s) && Bounded(s, key) && Enabled(s, e)
    ensures Bounded(Apply(cfg, s, e), key)
  {
    match e
    case Call(task, _, _) => BoundedCall(s, task, e.key, e.newFut, key);
    case FetchOk(task, value) => BoundedEnd(cfg, s, e, task, key);
    case FetchFail(task, _) => BoundedEnd(cfg, s, e, task, key);
    case CancelFollower(task) => BoundedCancel(s, task, key);
    case _ => assert Leaders(Apply(cfg, s, e), key) == Leaders(s, key);
  }

  lemma BoundedCall(s: State, task: TaskId, k: Key, newFut: FutureId, key: Key)
    requires Bounded(s, key) && task !in s.callers && newFut !in s.flight.futures
    requires key in s.flight.inflight ==> s.flight.inflight[key] in s.flight.futures
    ensures Bounded(ApplyCall(s, task, k, newFut), key)
  {
    if Lookup(s.flight.store, k, s.now).Some? || s.flight.Joinable(k) {
      BoundedArrival(s, task, ApplyCall(s, task, k, newFut).callers[task], key);
    } else {
      BoundedLead(s, task, k, newFut, key);
    }
  }

  /** A caller that does not lead. */
  lemma BoundedArrival(s: State, task: TaskId, c: Caller, key: Key)
    requires Bounded(s, key) && task !in s.callers && !c.Fetching?
    ensures Bounded(s.(callers := s.callers[task := c]), key)
  {
    LeadersGrow(s, s.(callers := s.callers[task := c]), task, key);
  }

  /** A new leader of its key, which had no slot to join. */
  lemma BoundedLead(s: State, task: TaskId, k: Key, newFut: FutureId, key: Key)
    requires Bounded(s, key) && task !in s.callers && newFut !in s.flight.futures && !s.flight.Joinable(k)
    requires key in s.flight.inflight ==> s.flight.inflight[key] in s.flight.futures
    ensures Bounded(StartLead(s, task, k, newFut), key)
  {
    LeadCounts(s, task, k, newFut, key);
    LeadAllows(s, task, k, newFut, key);
  }

  lemma LeadCounts(s: State, task: TaskId, k: Key, newFut: FutureId, key: Key)
    requires task !in s.callers
    ensures |Leaders(StartLead(s, task, k, newFut), key)| <= |Leaders(s, key)| + if k == key then 1 else 0
  {
    LeadersGrow(s, StartLead(s, task, k, newFut), task, key);
    OneMore(Leaders(s, key), Leaders(StartLead(s, task, k, newFut), key), task);
  }

  lemma LeadAllows(s: State, task: TaskId, k: Key, newFut: FutureId, key: Key)
    requires newFut !in s.flight.futures && !s.flight.Joinable(k)
    requires key in s.flight.inflight ==> s.flight.inflight[key] in s.flight.futures
    ensures Allowed(StartLead(s, task, k, newFut), key) == Allowed(s, key) + if k == key then 1 else 0
  {
    if k == key {
      JoinableLead(s.flight, k, newFut);
    } else {
      JoinableElse(s.flight, k, newFut, key);
    }
  }

  lemma OneMore(a: set<TaskId>, b: set<TaskId>, t: TaskId)
    ensures b == a ==> |b| <= |a|
    ensures b == a + {t} ==> |b| <= |a| + 1
  {
  }

  lemma JoinableLead(f: Flight, k: Key, newFut: FutureId)
    ensures f.Lead(k, newFut).Joinable(k)
  {
  }

  lemma JoinableElse(f: Flight, k: Key, newFut: FutureId, key: Key)
    requires newFut !in f.futures && k != key && (key in f.inflight ==> f.inflight[key] in f.futures)
    ensures f.Lead(k, newFut).Joinable(key) == f.Joinable(key)
  {
  }

  lemma LeadersGrow(s: State, s': State, task: TaskId, key: Key)
    requires task !in s.callers && s'.callers.Keys == s.callers.Keys + {task}
    requires forall t | t in s.callers :: s'.callers[t] == s.callers[t]
    ensures s'.callers[task].Fetching? && s'.callers[task].key == key ==> Leaders(s', key) == Leaders(s, key) + {task}
    ensures !(s'.callers[task].Fetching? && s'.callers[task].key == key) ==> Leaders(s', key) == Leaders(s, key)
  {
  }

  lemma BoundedEnd(cfg: Config, s: State, e: Event, task: TaskId, key: Key)
    requires Wired(s) && Bounded(s, key) && Enabled(s, e) && (e.FetchOk? || e.FetchFail?) && task == e.task
    ensures Bounded(Apply(cfg, s, e), key)
  {
    var c := s.callers[task];
    match e
    case FetchOk(_, value) =>
      BoundedSettle(Record(cfg, s, c.key, value), task, Resolved(value), Returned(c.key, value), key);
    case FetchFail(_, error) => BoundedSettle(s, task, Rejected(error), Raised(c.key, error), key);
  }

  lemma BoundedSettle(s: State, task: TaskId, outcome: FutureState, end: Caller, key: Key)
    requires Bounded(s, key) && task in s.callers && s.callers[task].Fetching? && !end.Fetching?
    requires key in s.flight.inflight && key != s.callers[task].key ==> s.flight.inflight[key] != s.callers[task].fut
    ensures Bounded(EndLead(s, task, outcome, end), key)
  {
    LeaderLeaves(s, EndLead(s, task, outcome, end), task, key);
  }

  lemma BoundedCancel(s: State, task: TaskId, key: Key)
    requires Bounded(s, key) && task in s.callers && s.callers[task].Waiting?
    requires s.callers[task].fut in s.home && s.home[s.callers[task].fut] == s.callers[task].key
    requires Wired(s)
    ensures Bounded(ApplyCancel(s, task), key)
  {
    var s' := ApplyCancel(s, task);
    assert Leaders(s', key) == Leaders(s, key);
    var c := s.callers[task];
    if c.key != key && s.flight.Joinable(key) {
      assert s.flight.inflight[key] != c.fut;
    }
  }

  lemma LeaderLeaves(s: State, s': State, task: TaskId, key: Key)
    requires task in s.callers && s.callers[task].Fetching?
    requires s'.callers.Keys == s.callers.Keys && !s'.callers[task].Fetching?
    requires forall t | t in s.callers && t != task :: s'.callers[t] == s.callers[t]
    ensures Leaders(s', key) == Leaders(s, key) - {task}
    ensures s.callers[task].key == key ==> |Leaders(s', key)| == |Leaders(s, key)| - 1
    ensures s.callers[task].key != key ==> Leaders(s', key) == Leaders(s, key)
  {
  }

  /** Whatever the interleaving, all of the above holds in every state of every run. */
  lemma {:induction false} AlwaysInv(cfg: Config, s: State, events: seq<Event>, key: Key)
    requires Inv(cfg, s) && Bounded(s, key)
    ensures var r := Run(cfg, s, events); r.Some? ==> Inv(cfg, r.value) && Bounded(r.value, key)
    decreases |events|
  {
    if events != [] && Enabled(s, events[0]) {
      var e := events[0];
      WiredKept(cfg, s, e);
      FaithfulKept(cfg, s, e);
      DropsKept(cfg, s, e);
      StoredKept(cfg, s, e);
      LoggedKept(cfg, s, e);
      BoundedKept(cfg, s, e, key);
      AlwaysInv(cfg, Apply(cfg, s, e), events[1..], key);
    }
  }

  // ------------------------------------------------------------ main results

  /** In every run, the fetches in flight for a key are at most one more than the futures that
      cancelled followers dropped for it; with none dropped there is at most one. */
  lemma FetchesInFlight(cfg: Config, now: real, events: seq<Event>, key: Key)
    ensures var r := Run(cfg, Initial(now), events);
            r.Some? ==> |Leaders(r.value, key)| <= 1 + Drops(r.value, key)
  {
    assert Leaders(Initial(now), key) == {};
    AlwaysInv(cfg, Initial(now), events, key);
  }

  lemma RunCons(cfg: Config, s: State, e: Event, es: seq<Event>)
    requires Enabled(s, e)
    ensures Run(cfg, s, [e] + es) == Run(cfg, Apply(cfg, s, e), es)
  {
    assert ([e] + es)[1..] == es;
  }

  /** The bound is reached: one cancelled follower is enough for two fetches of one key. */
  lemma CancelledFollowerLetsTwoFetch(cfg: Config, key: Key)
    ensures var r := Run(cfg, Initial(0.0), [Call(0, key, 0), Call(1, key, 1), CancelFollower(1), Call(2, key, 2)]);
            r.Some? && Drops(r.value, key) == 1 && Leaders(r.value, key) == {0, 2}
  {
    var s0 := Initial(0.0);
    var s1 := Apply(cfg, s0, Call(0, key, 0));
    var s2 := Apply(cfg, s1, Call(1, key, 1));
    var s3 := Apply(cfg, s2, CancelFollower(1));
    var s4 := Apply(cfg, s3, Call(2, key, 2));
    var e4: seq<Event> := [Call(2, key, 2)];
    var e3 := [CancelFollower(1)] + e4;
    var e2 := [Call(1, key, 1)] + e3;
    assert e4 == [Call(2, key, 2)] + [];
    RunCons(cfg, s3, Call(2, key, 2), []);
    RunCons(cfg, s2, CancelFollower(1), e4);
    RunCons(cfg, s1, Call(1, key, 1), e3);
    RunCons(cfg, s0, Call(0, key, 0), e2);
    assert [Call(0, key, 0)] + e2 == [Call(0, key, 0), Call(1, key, 1), CancelFollower(1), Call(2, key, 2)];
    assert Leaders(s4, key) == {0, 2};
  }

  /** A follower that wakes gets its leader's own value or error; only when some follower of
      the key was cancelled can it instead be told that the future was. */
  lemma FollowerGetsLeadersOutcome(cfg: Config, s: State, task: TaskId)
    requires Inv(cfg, s) && Enabled(s, Wake(task))
    ensures var c := s.callers[task];
            var got := Apply(cfg, s, Wake(task)).callers[task];
            && s.leader[c.fut] in s.callers
            && (got == s.callers[s.leader[c.fut]] || (got == Raised(c.key, CancelledError) && Drops(s, c.key) > 0))
  {
  }

  /** When a leader ends, whether or not its fetch worked, its key has no slot; and in every
      state a slot belongs to a leader of that key which is still fetching. */
  lemma SlotFollowsLeader(cfg: Config, s: State, e: Event, key: Key)
    requires Inv(cfg, s) && Enabled(s, e)
    ensures (e.FetchOk? || e.FetchFail?) ==> s.callers[e.task].key !in Apply(cfg, s, e).flight.inflight
    ensures key in Apply(cfg, s, e).flight.inflight ==> Leaders(Apply(cfg, s, e), key) != {}
  {
    WiredKept(cfg, s, e);
    var s' := Apply(cfg, s, e);
    if key in s'.flight.inflight {
      assert s'.leader[s'.flight.inflight[key]] in Leaders(s', key);
    }
  }

  /** A caller that returns at once has a genuine value younger than its window, and no fetch starts. */
  lemma HitIsFresh(cfg: Config, s: State, task: TaskId, key: Key, newFut: FutureId)
    requires Inv(cfg, s) && Enabled(s, Call(task, key, newFut))
    ensures var s' := Apply(cfg, s, Call(task, key, newFut));
            s'.callers[task].Returned? ==>
              && s'.flight == s.flight
              && (forall k :: Leaders(s', k) == Leaders(s, k))
              && exists at ::
                   (key, s'.callers[task].value, at) in s.log
                   && 0.0 <= s.now - at < Ttl(cfg, key, s'.callers[task].value) as real
  {
    var s' := Apply(cfg, s, Call(task, key, newFut));
    if s'.callers[task].Returned? {
      var e := s.flight.store[key];
      assert (key, e.value, e.storedAt) in s.log && 0.0 <= s.now - e.storedAt < Ttl(cfg, key, e.value) as real;
      forall k ensures Leaders(s', k) == Leaders(s, k) {}
    }
  }

  /** How long a value is served, from the configuration: an empty one for the empty window, any
      other for its source's own window or else the default, and none for more than the most. */
  predicate ServedFor(cfg: Config, key: Key, value: Value, window: int) {
    var own := if key.source in cfg.overrides then cfg.overrides[key.source] else cfg.defaultTtl;
    var full := if cfg.isEmpty(value) then cfg.emptyTtl else own;
    window <= full && window <= cfg.maxTtl && (window == full || window == cfg.maxTtl)
  }

  /** The event brings a value for the key: a leader's fetch does, or a replace. */
  predicate Brings(s: State, e: Event, key: Key, value: Value) {
    || e == Replace(key, value)
    || (e.FetchOk? && e.task in s.callers && s.callers[e.task].key == key && e.value == value)
  }

  /** A value that a fetch brought or a replace put in is what a caller is given, with no fetch of its
      own, exactly while its window has not passed; after that the caller joins or leads. */
  lemma ServedExactlyFor(cfg: Config, s: State, e: Event, key: Key, value: Value, dt: real, task: TaskId,
                         fut: FutureId, window: int)
    requires Enabled(s, e) && Brings(s, e, key, value) && dt >= 0.0
    requires task !in s.callers && fut !in s.flight.futures && ServedFor(cfg, key, value, window)
    requires Lookup(s.flight.store, key, s.now).None?
    ensures var r := Run(cfg, s, [e, Tick(dt), Call(task, key, fut)]);
            && r.Some? && task in r.value.callers
            && (r.value.callers[task] == Returned(key, value) <==> dt < window as real)
            && (!r.value.callers[task].Returned? <==> dt >= window as real)
  {
    var s1 := Apply(cfg, s, e);
    var s2 := Apply(cfg, s1, Tick(dt));
    var s3 := Apply(cfg, s2, Call(task, key, fut));
    var calls := [Call(task, key, fut)];
    var ticks := [Tick(dt)] + calls;
    assert Run(cfg, s3, []) == Some(s3) && calls == [Call(task, key, fut)] + [];
    assert s1.flight.store == Put(cfg, s.flight.store, key, value, s.now);
    RunCons(cfg, s2, Call(task, key, fut), []);
    RunCons(cfg, s1, Tick(dt), calls);
    RunCons(cfg, s, e, ticks);
    assert [e] + ticks == [e, Tick(dt), Call(task, key, fut)];
    assert window == Ttl(cfg, key, value);
  }

  /** What an evicted key's next caller gets is not from the store. */
  lemma EvictedIsNotServed(cfg: Config, s: State, key: Key, task: TaskId, fut: FutureId)
    requires Enabled(s, Call(task, key, fut))
    ensures !Apply(cfg, Apply(cfg, s, Evict(key)), Call(task, key, fut)).callers[task].Returned?
  {
  }

  /** In every run, as long as no cancelled follower has dropped a future of the key: a caller not
      served from the store fetches itself exactly when nobody is fetching the key, and else waits
      for the one who is. */
  lemma FetchesExactlyWhen(cfg: Config, now: real, events: seq<Event>, key: Key, task: TaskId, fut: FutureId)
    ensures var r := Run(cfg, Initial(now), events);
            r.Some? && Enabled(r.value, Call(task, key, fut)) && Drops(r.value, key) == 0 ==>
              var c := Apply(cfg, r.value, Call(task, key, fut)).callers[task];
              && c.key == key && !c.Raised?
              && (c.Fetching? <==> !c.Returned? && Leaders(r.value, key) == {})
              && (c.Waiting? ==> exists t | t in r.value.callers :: r.value.callers[t] == Fetching(key, c.fut))
  {
    assert Leaders(Initial(now), key) == {};
    AlwaysInv(cfg, Initial(now), events, key);
    var r := Run(cfg, Initial(now), events);
    if r.Some? && Enabled(r.value, Call(task, key, fut)) && Drops(r.value, key) == 0 {
      var s := r.value;
      if s.flight.Joinable(key) {
        var leader := s.leader[s.flight.inflight[key]];
        assert s.callers[leader] == Fetching(key, s.flight.inflight[key]) && leader in Leaders(s, key);
      } else {
        assert |Leaders(s, key)| == 0;
      }
    }
  }

  /** How a leader's call ends, and a cancelled follower's: with what the fetch brought or raised, or
      the cancellation. The other callers stay as they are. */
  lemma EndsAsItsFetch(cfg: Config, s: State, e: Event, t: TaskId)
    requires Enabled(s, e) && t in s.callers
    ensures var got := Apply(cfg, s, e).callers;
            && t in got
            && (e.FetchOk? && e.task == t ==> got[t] == Returned(s.callers[t].key, e.value))
            && (e.FetchFail? && e.task == t ==> got[t] == Raised(s.callers[t].key, e.error))
            && (e.CancelFollower? && e.task == t ==> got[t] == Raised(s.callers[t].key, CancelledError))
            && (e.Tick? || e.Replace? || e.Evict? || e.task != t ==> got[t] == s.callers[t])
  {
    match e
    case Call(_, _, _) =>
    case CancelFollower(task) => assert t != task ==> ApplyCancel(s, task).callers[t] == s.callers[t];
    case _ =>
  }

  /** The cache refines the plain fetch: whatever a caller gets for a key, some fetch or
      replace really produced for that key, no later than now. */
  lemma ReturnsGenuineValues(cfg: Config, now: real, events: seq<Event>, task: TaskId)
    ensures var r := Run(cfg, Initial(now), events);
            r.Some? && task in r.value.callers && r.value.callers[task].Returned? ==>
              exists at :: at <= r.value.now
                && (r.value.callers[task].key, r.value.callers[task].value, at) in r.value.log
  {
    var any := Key("", []);
    assert Leaders(Initial(now), any) == {};
    AlwaysInv(cfg, Initial(now), events, any);
    var r := Run(cfg, Initial(now), events);
    if r.Some? && task in r.value.callers && r.value.callers[task].Returned? {
      assert LoggedValue(r.value, r.value.callers[task].key, r.value.callers[task].value);
    }
  }

  /** A value enters the store, or the log of genuine values, only by a successful fetch or a
      replace: a failed fetch, like every other event, leaves both alone or only forgets. */
  lemma OnlySuccessStores(cfg: Config, s: State, e: Event)
    requires Enabled(s, e) && !e.FetchOk? && !e.Replace?
    ensures Apply(cfg, s, e).log == s.log
    ensures forall k | k in Apply(cfg, s, e).flight.store ::
              k in s.flight.store && Apply(cfg, s, e).flight.store[k] == s.flight.store[k]
    ensures !e.Evict? ==> Apply(cfg, s, e).flight.store == s.flight.store
  {
    if e.FetchFail? {
      assert Apply(cfg, s, e).flight.store == s.flight.store;
    }
  }
}

module FlightCache {
  import opened Wrappers
  import opened FlightSpec

  /** What a caller does next after the first piece of `get_or_fetch`. */
  datatype Begin = Bare | Hit(value: Value) | Join(fut: FutureId) | Lead(fut: FutureId)

  /** The store after a value came with its window: kept with the moment it lapses, if it is to be
      served at all, and no other key's entry touched. */
  predicate Keeps(before: Store, after: Store, key: Key, value: Value, now: real, window: int) {
    after == if window > 0 then before[key := Entry(value, now, now + window as real)] else before
  }

  class SingleFlightCache {
    const cfg: Config
    const enabled: bool
    var cache: Store
    var inflight: map<Key, FutureId>
    var futures: map<FutureId, FutureState>

    constructor (cfg: Config, enabled: bool)
      ensures this.cfg == cfg && this.enabled == enabled && View() == Flight(map[], map[], map[])
    {
      this.cfg, this.enabled := cfg, enabled;
      cache, inflight, futures := map[], map[], map[];
    }

    ghost function View(): Flight reads this { Flight(cache, inflight, futures) }

    /** `get_or_fetch` up to its first await. Switched off, it touches nothing. */
    method Enter(key: Key, newFut: FutureId, now: real) returns (b: Begin)
      requires newFut !in futures
      modifies this`inflight, this`futures
      ensures b.Bare? <==> !enabled
      ensures enabled ==>
                match Lookup(old(cache), key, now)
                case Some(value) => b == Hit(value)
                case None =>
                  if old(View()).Joinable(key) then b == Join(old(inflight[key])) else b == Begin.Lead(newFut)
      ensures View() == if b.Lead? then old(View()).Lead(key, newFut) else old(View())
      ensures b.Hit? <==> enabled && key in cache && now < cache[key].expiry
      ensures b.Hit? ==> b.value == cache[key].value
      ensures b.Join? ==>
                old(key in inflight && inflight[key] in futures && futures[inflight[key]] == Pending)
                && b.fut == old(inflight[key])
      ensures b.Lead? ==> b.fut == newFut && inflight == old(inflight)[key := newFut]
                          && futures == old(futures)[newFut := Pending]
      ensures b.Lead? ==> !old(key in inflight && inflight[key] in futures && futures[inflight[key]] == Pending)
      ensures !b.Lead? ==> inflight == old(inflight) && futures == old(futures)
    {
      if !enabled {
        return Bare;
      }
      if key in cache {
        var entry := cache[key];
        if now < entry.expiry {
          return Hit(entry.value);
        }
      }
      if key in inflight && inflight[key] in futures && futures[inflight[key]].Pending? {
        return Join(inflight[key]);
      }
      futures := futures[newFut := Pending];
      inflight := inflight[key := newFut];
      b := Begin.Lead(newFut);
    }

    /** The leader's last piece when its fetch worked: store, settle, clear the slot. */
    method Succeed(key: Key, fut: FutureId, value: Value, now: real)
      modifies this`cache, this`inflight, this`futures
      ensures View() == old(View()).(store := Put(cfg, old(cache), key, value, now)).Settle(key, fut, Resolved(value))
      ensures inflight == old(inflight) - {key}
      ensures futures == if old(fut in futures && futures[fut] == Pending) then old(futures)[fut := Resolved(value)]
                         else old(futures)
      ensures forall window | ServedFor(cfg, key, value, window) :: Keeps(old(cache), cache, key, value, now, window)
    {
      Replace(key, value, now);
      if fut in futures && futures[fut].Pending? {
        futures := futures[fut := Resolved(value)];
      }
      inflight := inflight - {key};
    }

    /** The leader's last piece when its fetch raised: settle, clear the slot, store nothing. */
    method Fail(key: Key, fut: FutureId, error: Error)
      modifies this`inflight, this`futures
      ensures View() == old(View()).Settle(key, fut, Rejected(error))
      ensures inflight == old(inflight) - {key}
      ensures futures == if old(fut in futures && futures[fut] == Pending) then old(futures)[fut := Rejected(error)]
                         else old(futures)
    {
      if fut in futures && futures[fut].Pending? {
        futures := futures[fut := Rejected(error)];
      }
      inflight := inflight - {key};
    }

    method Replace(key: Key, value: Value, now: real)
      modifies this`cache
      ensures cache == Put(cfg, old(cache), key, value, now)
      ensures forall window | ServedFor(cfg, key, value, window) :: Keeps(old(cache), cache, key, value, now, window)
    {
      var ttl := cfg.defaultTtl;
      if cfg.isEmpty(value) {
        ttl := cfg.emptyTtl;
      } else if key.source in cfg.overrides {
        ttl := cfg.overrides[key.source];
      }
      if cfg.maxTtl < ttl {
        ttl := cfg.maxTtl;
      }
      var expiry := now + ttl as real;
      if now < expiry {
        cache := cache[key := Entry(value, now, expiry)];
      }
    }

    method Contains(key: Key, now: real) returns (live: bool)
      ensures live <==> Lookup(cache, key, now).Some?
      ensures live <==> key in cache && now < cache[key].expiry
    {
      live := key in cache && now < cache[key].expiry;
    }
  }
}
