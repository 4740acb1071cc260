/** The sidecar's per-device workers: `_run_solve`, `_run_eval`, `_run_fetch_images` and
    `_cancel_and_drain` of android_solver/service.py, as a step machine. Every request is a
    thread; each device has one lock and one executor with a single worker thread, which no
    lock keeps from running. */
module WorkerProtocol {
  import opened Wrappers

  datatype Kind = Solve | Eval | FetchImages

  /** How a pipeline operation ended. A `TimeoutError` raised inside it looks to the waiting
      request like a poll that ran out, as both are the same exception class. */
  datatype Outcome = Returned(value: string) | Raised | RaisedTimeout

  datatype Status = Queued | Running | Done(outcome: Outcome)

  /** A submitted operation and its cancel flag. */
  datatype Job = Job(kind: Kind, status: Status, cancel: bool)

  /** How a request is answered: with its job's value, that the job failed, or that the request
      ran out of time or its caller went away; one turned away has no job. */
  datatype Body = Value(value: string) | JobFailed | TimedOut | Disconnected

  datatype Response = Response(job: nat, body: Body)

  /** The request that holds the lock: polling its job, looking whether its caller is still there
      after a poll that ran out, or draining a job it has cancelled, to be answered `body`. */
  datatype Holder = Polling(job: nat) | Probing(job: nat) | Draining(job: nat, body: Body)

  /** `abandoned` are the jobs whose request died of its disconnect probe, which releases the
      lock and sets no cancel flag. */
  datatype Worker = Worker(
    jobs: seq<Job>,
    queue: seq<nat>,
    holder: Option<Holder>,
    responses: seq<Response>,
    busy: nat,
    acquired: nat,
    released: nat,
    abandoned: set<nat>)

  datatype Event =
    | Request(kind: Kind)
    | SubmitFails
    | Begin
    | Finish(outcome: Outcome)
    | PollAnswers
    | PollRunsOut
    | ProbeSaysHere
    | ProbeSaysGone
    | ProbeRaises
    | DeadlinePasses
    | DrainEnds
    | GraceEnds

  predicate Known(w: Worker, j: nat) {
    j < |w.jobs|
  }

  predicate RunningJob(w: Worker, j: nat) {
    Known(w, j) && w.jobs[j].status.Running?
  }

  /** The job at the head of what has begun, and all before it, are no longer queued. */
  function Begun(w: Worker): int {
    |w.jobs| - |w.queue|
  }

  predicate IsPolling(w: Worker) {
    w.holder.Some? && w.holder.value.Polling? && Known(w, w.holder.value.job)
  }

  predicate IsProbing(w: Worker) {
    w.holder.Some? && w.holder.value.Probing? && Known(w, w.holder.value.job)
  }

  predicate IsDraining(w: Worker) {
    w.holder.Some? && w.holder.value.Draining? && Known(w, w.holder.value.job)
  }

  /** A poll of this job runs out: it is not finished, or it ended with a `TimeoutError`. */
  predicate LooksUnfinished(j: Job) {
    !j.status.Done? || j.status.outcome.RaisedTimeout?
  }

  predicate Can(w: Worker, e: Event) {
    match e
    case Request(_) => true
    case SubmitFails => w.holder.None?
    case Begin => w.queue != [] && Known(w, w.queue[0]) && (Begun(w) > 0 ==> !RunningJob(w, Begun(w) - 1))
    case Finish(_) => Begun(w) > 0 && RunningJob(w, Begun(w) - 1)
    case PollAnswers => IsPolling(w) && !LooksUnfinished(w.jobs[w.holder.value.job])
    case PollRunsOut => IsPolling(w) && LooksUnfinished(w.jobs[w.holder.value.job])
    case ProbeSaysHere => IsProbing(w)
    case ProbeSaysGone => IsProbing(w)
    case ProbeRaises => IsProbing(w)
    case DeadlinePasses => IsPolling(w)
    case DrainEnds => IsDraining(w) && !LooksUnfinished(w.jobs[w.holder.value.job])
    case GraceEnds => IsDraining(w)
  }

  function Code(b: Body): nat {
    match b
    case Value(_) => 200
    case JobFailed => 504
    case TimedOut => 504
    case Disconnected => 499
  }

  function Accepted(w: Worker, kind: Kind): Worker {
    w.(jobs := w.jobs + [Job(kind, Queued, false)], queue := w.queue + [|w.jobs|],
       holder := Some(Polling(|w.jobs|)), acquired := w.acquired + 1)
  }

  function Release(w: Worker): Worker {
    w.(holder := None, released := w.released + 1)
  }

  function Respond(w: Worker, r: Response): Worker {
    Release(w).(responses := w.responses + [r])
  }

  function Cancel(w: Worker, j: nat, body: Body): Worker
    requires Known(w, j)
  {
    w.(jobs := w.jobs[j := w.jobs[j].(cancel := true)], holder := Some(Draining(j, body)))
  }

  /** What a job's own outcome is answered with. */
  function Own(o: Outcome): Body {
    if o.Returned? then Value(o.value) else JobFailed
  }

  function WithStatus(w: Worker, j: nat, s: Status): Worker
    requires Known(w, j)
  {
    w.(jobs := w.jobs[j := w.jobs[j].(status := s)])
  }

  function Apply(w: Worker, e: Event): Worker
    requires Can(w, e)
  {
    match e
    case Request(kind) => if w.holder.Some? then w.(busy := w.busy + 1) else Accepted(w, kind)
    case SubmitFails => w.(acquired := w.acquired + 1, released := w.released + 1)
    case Begin => WithStatus(w, w.queue[0], Running).(queue := w.queue[1..])
    case Finish(o) => WithStatus(w, Begun(w) - 1, Done(o))
    case PollAnswers => Respond(w, Response(w.holder.value.job, Own(w.jobs[w.holder.value.job].status.outcome)))
    case PollRunsOut => w.(holder := Some(Probing(w.holder.value.job)))
    case ProbeSaysHere => w.(holder := Some(Polling(w.holder.value.job)))
    case ProbeSaysGone => Cancel(w, w.holder.value.job, Disconnected)
    case ProbeRaises => Release(w).(abandoned := w.abandoned + {w.holder.value.job})
    case DeadlinePasses => Cancel(w, w.holder.value.job, TimedOut)
    case DrainEnds => Respond(w, Response(w.holder.value.job, w.holder.value.body))
    case GraceEnds => Respond(w, Response(w.holder.value.job, w.holder.value.body))
  }

  // ------------------------------------------------------------- invariants

  /** The executor runs jobs one at a time, in the order of their requests: what is queued is
      exactly the latest jobs, and of the others all but the last have finished. */
  ghost predicate InOrder(w: Worker) {
    && |w.queue| <= |w.jobs|
    && (forall k | 0 <= k < |w.queue| :: w.queue[k] == Begun(w) + k)
    && (forall j | 0 <= j < |w.jobs| :: w.jobs[j].status.Queued? <==> j >= Begun(w))
    && (forall j | 0 <= j < Begun(w) - 1 :: w.jobs[j].status.Done?)
  }

  predicate HolderOf(w: Worker, j: nat) {
    w.holder.Some? && w.holder.value.job == j
  }

  /** A job that is nobody's any more is cancelled, unless its request was abandoned. */
  ghost predicate OrphansMarked(w: Worker) {
    && (w.holder.Some? ==> Known(w, w.holder.value.job) && w.holder.value.job !in w.abandoned)
    && (IsDraining(w) ==> w.jobs[w.holder.value.job].cancel)
    && (IsPolling(w) || IsProbing(w) ==> !w.jobs[w.holder.value.job].cancel)
    && (forall j | j in w.abandoned :: Known(w, j) && !w.jobs[j].cancel)
    && (forall j | 0 <= j < |w.jobs| && !w.jobs[j].status.Done? && !HolderOf(w, j) && j !in w.abandoned ::
      w.jobs[j].cancel)
  }

  /** An answer is what its job came to, or the request had cancelled it. */
  ghost predicate Honest(b: Body, j: Job) {
    match b
    case Value(v) => j.status == Done(Returned(v))
    case JobFailed => j.status == Done(Raised)
    case _ => j.cancel
  }

  /** Who has been answered, and with what. */
  ghost predicate AnswersOwn(w: Worker) {
    && (forall r | r in w.responses ::
          Known(w, r.job) && !HolderOf(w, r.job) && r.job !in w.abandoned && Honest(r.body, w.jobs[r.job]))
    && (forall a, b | 0 <= a < b < |w.responses| :: w.responses[a].job != w.responses[b].job)
    && (w.holder.Some? ==> Known(w, w.holder.value.job) && w.holder.value.job !in w.abandoned)
    && (IsDraining(w) ==>
          (w.holder.value.body.TimedOut? || w.holder.value.body.Disconnected?) && w.jobs[w.holder.value.job].cancel)
    && (forall j | j in w.abandoned :: Known(w, j))
  }

  ghost predicate Balanced(w: Worker) {
    w.acquired == w.released + if w.holder.Some? then 1 else 0
  }

  ghost predicate Inv(w: Worker) {
    InOrder(w) && OrphansMarked(w) && AnswersOwn(w) && Balanced(w)
  }

  lemma OrderKept(w: Worker, e: Event)
    requires Can(w, e) && InOrder(w)
    ensures InOrder(Apply(w, e))
  {
  }

  lemma OrphansKept(w: Worker, e: Event)
    requires Can(w, e) && InOrder(w) && OrphansMarked(w)
    ensures OrphansMarked(Apply(w, e))
  {
  }

  lemma AnswersKept(w: Worker, e: Event)
    requires Can(w, e) && InOrder(w) && AnswersOwn(w)
    ensures AnswersOwn(Apply(w, e))
  {
  }

  lemma InvKept(w: Worker, e: Event)
    requires Can(w, e) && Inv(w)
    ensures Inv(Apply(w, e))
  {
    OrderKept(w, e);
    OrphansKept(w, e);
    AnswersKept(w, e);
  }

  // ------------------------------------------------------------ the service

  /** The devices, each with its own worker, and the steps of a run, each of one of them. */
  type Service = seq<Worker>

  datatype Step = Step(device: nat, event: Event)

  predicate CanStep(s: Service, p: Step) {
    p.device < |s| && Can(s[p.device], p.event)
  }

  function StepTo(s: Service, p: Step): Service
    requires CanStep(s, p)
  {
    s[p.device := Apply(s[p.device], p.event)]
  }

  ghost predicate Run(s: Service, ps: seq<Step>)
    decreases |ps|
  {
    ps != [] ==> CanStep(s, ps[0]) && Run(StepTo(s, ps[0]), ps[1..])
  }

  function After(s: Service, ps: seq<Step>): Service
    requires Run(s, ps)
    decreases |ps|
  {
    if ps == [] then s else After(StepTo(s, ps[0]), ps[1..])
  }

  const FRESH := Worker([], [], None, [], 0, 0, 0, {})

  function Start(n: nat): Service {
    seq(n, i => FRESH)
  }

  lemma {:induction false} InvAfter(s: Service, ps: seq<Step>)
    requires Run(s, ps) && forall d | 0 <= d < |s| :: Inv(s[d])
    ensures |After(s, ps)| == |s| && forall d | 0 <= d < |s| :: Inv(After(s, ps)[d])
    decreases |ps|
  {
    if ps != [] {
      InvKept(s[ps[0].device], ps[0].event);
      InvAfter(StepTo(s, ps[0]), ps[1..]);
    }
  }

  /** In every run at most one pipeline operation executes on a device, whichever endpoints
      asked for it and whatever orphans outlived their grace; and operations execute in the
      order their requests were accepted, each after the one before it has finished. */
  lemma AtMostOneRuns(n: nat, ps: seq<Step>, d: nat, i: nat, j: nat)
    requires Run(Start(n), ps)
    requires var w := After(Start(n), ps); d < |w| && i < j && Known(w[d], j)
    ensures var w := After(Start(n), ps)[d];
            && !(RunningJob(w, i) && RunningJob(w, j))
            && (!w.jobs[j].status.Queued? ==> w.jobs[i].status.Done?)
  {
    InvAfter(Start(n), ps);
  }

  ghost predicate AllOrphansCancelled(w: Worker) {
    forall j | 0 <= j < |w.jobs| && !w.jobs[j].status.Done? && !HolderOf(w, j) :: w.jobs[j].cancel
  }

  /** Every unfinished job but the lock holder's has its cancel flag set exactly when no request
      died of its disconnect probe while its job is still unfinished. */
  lemma OrphansCancelledExactlyWhen(n: nat, ps: seq<Step>, d: nat)
    requires Run(Start(n), ps) && d < |After(Start(n), ps)|
    ensures var w := After(Start(n), ps)[d];
            AllOrphansCancelled(w) <==> forall j | j in w.abandoned && Known(w, j) :: w.jobs[j].status.Done?
  {
    InvAfter(Start(n), ps);
  }

  /** A request is answered 200 only with what its own job returned, and at most once; and the
      lock is released exactly once for each time it was taken. */
  lemma AnswersAreOwn(n: nat, ps: seq<Step>, d: nat, r: Response)
    requires Run(Start(n), ps)
    requires d < |After(Start(n), ps)| && r in After(Start(n), ps)[d].responses
    ensures var w := After(Start(n), ps)[d];
            && Known(w, r.job) && Honest(r.body, w.jobs[r.job])
            && (Code(r.body) == 200 ==> r.body.Value? && w.jobs[r.job].status == Done(Returned(r.body.value)))
            && (forall a, b | 0 <= a < b < |w.responses| :: w.responses[a].job != w.responses[b].job)
            && w.acquired == w.released + if w.holder.Some? then 1 else 0
  {
    InvAfter(Start(n), ps);
  }

  // ------------------------------------------- a job that raised TimeoutError

  lemma DoneStays(w: Worker, e: Event, j: nat)
    requires Can(w, e) && InOrder(w) && Known(w, j) && w.jobs[j].status.Done?
    ensures Known(Apply(w, e), j) && Apply(w, e).jobs[j].status == w.jobs[j].status
  {
  }

  lemma {:induction false} DoneStaysAfter(s: Service, ps: seq<Step>, d: nat, j: nat)
    requires Run(s, ps) && (forall i | 0 <= i < |s| :: Inv(s[i])) && d < |s|
    requires Known(s[d], j) && s[d].jobs[j].status.Done?
    ensures d < |After(s, ps)| && Known(After(s, ps)[d], j)
    ensures After(s, ps)[d].jobs[j].status == s[d].jobs[j].status
    decreases |ps|
  {
    if ps != [] {
      InvKept(s[ps[0].device], ps[0].event);
      if ps[0].device == d {
        DoneStays(s[d], ps[0].event, j);
      }
      DoneStaysAfter(StepTo(s, ps[0]), ps[1..], d, j);
    }
  }

  /** Some continuation answers job `j` of device `d` with the body. */
  ghost predicate MayAnswer(s: Service, d: nat, j: nat, b: Body) {
    exists ps :: Run(s, ps) && d < |After(s, ps)| && Response(j, b) in After(s, ps)[d].responses
  }

  lemma AnswerReached(s: Service, ps: seq<Step>, d: nat, j: nat, b: Body)
    requires Run(s, ps) && d < |After(s, ps)| && Response(j, b) in After(s, ps)[d].responses
    ensures MayAnswer(s, d, j, b)
  {
  }

  /** A finished job whose request still looks at it can be answered for what it came to exactly
      when that is not a `TimeoutError`, which its request only ever takes for a poll run out. */
  lemma OwnAnswerExactlyWhen(s: Service, d: nat, j: nat, o: Outcome)
    requires (forall i | 0 <= i < |s| :: Inv(s[i])) && d < |s| && Known(s[d], j) && s[d].jobs[j].status == Done(o)
    requires s[d].holder == Some(Polling(j)) || s[d].holder == Some(Probing(j))
    ensures MayAnswer(s, d, j, Own(o)) <==> !o.RaisedTimeout?
  {
    if o.RaisedTimeout? {
      forall ps | Run(s, ps) && d < |After(s, ps)|
        ensures Response(j, JobFailed) !in After(s, ps)[d].responses
      {
        InvAfter(s, ps);
        DoneStaysAfter(s, ps, d, j);
      }
    } else if s[d].holder == Some(Polling(j)) {
      AnsweredFromPolling(s, d, j, o);
    } else {
      var t := StepTo(s, Step(d, ProbeSaysHere));
      AnsweredFromPolling(t, d, j, o);
      ConsAnswer(s, Step(d, ProbeSaysHere), d, j, Own(o));
    }
  }

  lemma AnsweredFromPolling(s: Service, d: nat, j: nat, o: Outcome)
    requires d < |s| && Known(s[d], j) && s[d].jobs[j].status == Done(o) && !o.RaisedTimeout?
    requires s[d].holder == Some(Polling(j))
    ensures MayAnswer(s, d, j, Own(o))
  {
    var p := Step(d, PollAnswers);
    var t := StepTo(s, p);
    assert Response(j, Own(o)) in t[d].responses;
    assert Run(t, []) && After(t, []) == t;
    AnswerReached(t, [], d, j, Own(o));
    ConsAnswer(s, p, d, j, Own(o));
  }

  lemma ConsAnswer(s: Service, p: Step, d: nat, j: nat, b: Body)
    requires CanStep(s, p) && MayAnswer(StepTo(s, p), d, j, b)
    ensures MayAnswer(s, d, j, b)
  {
    var t := StepTo(s, p);
    var ps :| Run(t, ps) && d < |After(t, ps)| && Response(j, b) in After(t, ps)[d].responses;
    assert ([p] + ps)[1..] == ps;
    AnswerReached(s, [p] + ps, d, j, b);
  }

  // ------------------------------------------- how a request is answered

  /** From a state in which a request polls its unfinished job, the executor can work through the
      orphans before it and run it, and the request be given what it returned. */
  lemma {:induction false} PolledCanReturn(s: Service, d: nat, j: nat, v: string)
    requires d < |s| && Inv(s[d]) && Known(s[d], j) && !s[d].jobs[j].status.Done? && s[d].holder == Some(Polling(j))
    ensures MayAnswer(s, d, j, Value(v))
    decreases |s[d].queue|, if Begun(s[d]) > 0 && RunningJob(s[d], Begun(s[d]) - 1) then 1 else 0
  {
    var w := s[d];
    var running := Begun(w) > 0 && RunningJob(w, Begun(w) - 1);
    var e := if !running then Begin else if Begun(w) - 1 == j then Finish(Returned(v)) else Finish(Raised);
    InvKept(w, e);
    var t := StepTo(s, Step(d, e));
    if running && Begun(w) - 1 == j {
      AnsweredFromPolling(t, d, j, Returned(v));
    } else {
      PolledCanReturn(t, d, j, v);
    }
    ConsAnswer(s, Step(d, e), d, j, Value(v));
  }

  /** A request that finds the lock held is turned away and changes nothing. One that finds it free,
      however many orphans still run or wait, gets a job of its own behind them, of its own kind,
      and can be answered whatever that job returns; or it cannot submit one, and frees the lock. */
  lemma TurnedAwayExactlyWhenHeld(s: Service, d: nat, kind: Kind)
    requires d < |s| && Inv(s[d])
    ensures CanStep(s, Step(d, Request(kind)))
    ensures s[d].holder.None? ==>
              && CanStep(s, Step(d, SubmitFails))
              && StepTo(s, Step(d, SubmitFails))
                 == s[d := s[d].(acquired := s[d].acquired + 1, released := s[d].released + 1)]
    ensures var t := StepTo(s, Step(d, Request(kind)));
            var j := |s[d].jobs|;
            if s[d].holder.Some? then t == s[d := s[d].(busy := s[d].busy + 1)]
            else
              && t[d].jobs == s[d].jobs + [Job(kind, Queued, false)] && t[d].busy == s[d].busy
              && t[d].responses == s[d].responses
              && forall v :: MayAnswer(t, d, j, Value(v))
  {
    if s[d].holder.None? {
      var t := StepTo(s, Step(d, Request(kind)));
      InvKept(s[d], Request(kind));
      forall v ensures MayAnswer(t, d, |s[d].jobs|, Value(v)) {
        PolledCanReturn(t, d, |s[d].jobs|, v);
      }
    }
  }

  /** What ends a request's wait without its job's outcome, and what it is then answered with. */
  predicate EndsWait(w: Worker, e: Event, j: nat, b: Body) {
    || (e == DeadlinePasses && w.holder == Some(Polling(j)) && b == TimedOut)
    || (e == ProbeSaysGone && w.holder == Some(Probing(j)) && b == Disconnected)
  }

  /** The request of job `j` is held up by its drain, or has been answered `b`. */
  ghost predicate BoundFor(w: Worker, j: nat, b: Body) {
    && Known(w, j) && w.jobs[j].cancel
    && (w.holder == Some(Draining(j, b)) || Response(j, b) in w.responses)
  }

  lemma {:induction false} BoundAfter(s: Service, ps: seq<Step>, d: nat, j: nat, b: Body)
    requires Run(s, ps) && (forall i | 0 <= i < |s| :: Inv(s[i])) && d < |s| && BoundFor(s[d], j, b)
    ensures d < |After(s, ps)| && BoundFor(After(s, ps)[d], j, b)
    decreases |ps|
  {
    if ps != [] {
      InvKept(s[ps[0].device], ps[0].event);
      BoundAfter(StepTo(s, ps[0]), ps[1..], d, j, b);
    }
  }

  /** A request whose deadline passes is answered 504 for that, and one whose caller has gone 499,
      and never anything else, whatever becomes of its job: which is cancelled at once, keeps the
      lock while it drains, and gives it up when it has finished or when its grace is over. */
  lemma AnsweredForTheCause(s: Service, e: Event, ps: seq<Step>, d: nat, j: nat, b: Body)
    requires (forall i | 0 <= i < |s| :: Inv(s[i])) && d < |s| && EndsWait(s[d], e, j, b)
    requires CanStep(s, Step(d, e)) && Run(StepTo(s, Step(d, e)), ps)
    ensures d < |After(StepTo(s, Step(d, e)), ps)|
    ensures var w := After(StepTo(s, Step(d, e)), ps)[d];
            && Known(w, j) && w.jobs[j].cancel
            && (w.holder == Some(Draining(j, b)) || Response(j, b) in w.responses)
            && (forall r | r in w.responses && r.job == j :: r.body == b)
            && Code(b) == (if e == DeadlinePasses then 504 else 499)
    ensures var t := StepTo(s, Step(d, e))[d];
            && Can(t, GraceEnds) && Apply(t, GraceEnds).holder.None?
            && (Can(t, DrainEnds) <==> t.jobs[j].status.Done? && !t.jobs[j].status.outcome.RaisedTimeout?)
  {
    InvKept(s[d], e);
    var t := StepTo(s, Step(d, e));
    BoundAfter(t, ps, d, j, b);
    InvAfter(t, ps);
    var w := After(t, ps)[d];
    forall r | r in w.responses && r.job == j
      ensures r.body == b
    {
      assert Response(j, b) in w.responses;
      var x :| 0 <= x < |w.responses| && w.responses[x] == r;
      var y :| 0 <= y < |w.responses| && w.responses[y] == Response(j, b);
      assert x == y;
    }
  }

  lemma {:induction false} AbandonedAfter(s: Service, ps: seq<Step>, d: nat, j: nat)
    requires Run(s, ps) && d < |s| && j in s[d].abandoned
    ensures d < |After(s, ps)| && j in After(s, ps)[d].abandoned
    decreases |ps|
  {
    if ps != [] {
      AbandonedAfter(StepTo(s, ps[0]), ps[1..], d, j);
    }
  }

  /** A request that dies of its disconnect probe frees the lock at once and is never answered. */
  lemma ProbeRaisedIsNeverAnswered(s: Service, ps: seq<Step>, d: nat, j: nat, b: Body)
    requires (forall i | 0 <= i < |s| :: Inv(s[i])) && d < |s| && s[d].holder == Some(Probing(j))
    requires CanStep(s, Step(d, ProbeRaises)) && Run(StepTo(s, Step(d, ProbeRaises)), ps)
    ensures StepTo(s, Step(d, ProbeRaises))[d].holder.None?
    ensures StepTo(s, Step(d, ProbeRaises))[d].jobs == s[d].jobs
    ensures d < |After(StepTo(s, Step(d, ProbeRaises)), ps)|
    ensures Response(j, b) !in After(StepTo(s, Step(d, ProbeRaises)), ps)[d].responses
  {
    InvKept(s[d], ProbeRaises);
    var t := StepTo(s, Step(d, ProbeRaises));
    AbandonedAfter(t, ps, d, j);
    InvAfter(t, ps);
  }

  predicate Leads(w: Worker, e: Event, v: Worker) {
    Can(w, e) && Apply(w, e) == v
  }

  lemma RunCons(w: Worker, e: Event, v: Worker, ps: seq<Step>)
    requires Leads(w, e, v) && Run([v], ps)
    ensures Run([w], [Step(0, e)] + ps) && After([w], [Step(0, e)] + ps) == After([v], ps)
  {
    assert ([Step(0, e)] + ps)[1..] == ps;
    assert StepTo([w], Step(0, e)) == [v];
  }

  /** A worker with one job, as its only request leaves it. */
  function OneJob(kind: Kind, status: Status, cancel: bool, holder: Option<Holder>, responses: seq<Response>,
                  abandoned: set<nat>): Worker {
    Worker([Job(kind, status, cancel)], if status.Queued? then [0] else [], holder, responses, 0, 1,
           if holder.Some? then 0 else 1, abandoned)
  }

  lemma FirstSteps(kind: Kind)
    ensures Leads(FRESH, Request(kind), OneJob(kind, Queued, false, Some(Polling(0)), [], {}))
    ensures Leads(OneJob(kind, Queued, false, Some(Polling(0)), [], {}), Begin,
                  OneJob(kind, Running, false, Some(Polling(0)), [], {}))
    ensures Leads(OneJob(kind, Running, false, Some(Polling(0)), [], {}), PollRunsOut,
                  OneJob(kind, Running, false, Some(Probing(0)), [], {}))
    ensures Leads(OneJob(kind, Running, false, Some(Probing(0)), [], {}), ProbeRaises,
                  OneJob(kind, Running, false, None, [], {0}))
  {
  }

  lemma Started(kind: Kind, ps: seq<Step>)
    requires Run([OneJob(kind, Running, false, Some(Polling(0)), [], {})], ps)
    ensures var qs := [Step(0, Request(kind))] + ([Step(0, Begin)] + ps);
            Run(Start(1), qs) && After(Start(1), qs)
              == After([OneJob(kind, Running, false, Some(Polling(0)), [], {})], ps)
  {
    FirstSteps(kind);
    RunCons(OneJob(kind, Queued, false, Some(Polling(0)), [], {}), Begin,
            OneJob(kind, Running, false, Some(Polling(0)), [], {}), ps);
    RunCons(FRESH, Request(kind), OneJob(kind, Queued, false, Some(Polling(0)), [], {}), [Step(0, Begin)] + ps);
    assert Start(1) == [FRESH];
  }

  /** A probe that raises leaves a running job that nobody holds and nobody cancelled. */
  lemma ProbeRaisesRun(kind: Kind) returns (ps: seq<Step>)
    ensures Run(Start(1), ps)
    ensures After(Start(1), ps) == [OneJob(kind, Running, false, None, [], {0})]
    ensures !AllOrphansCancelled(OneJob(kind, Running, false, None, [], {0}))
  {
    FirstSteps(kind);
    var end := OneJob(kind, Running, false, None, [], {0});
    ps := [Step(0, ProbeRaises)] + [];
    RunCons(OneJob(kind, Running, false, Some(Probing(0)), [], {}), ProbeRaises, end, []);
    RunCons(OneJob(kind, Running, false, Some(Polling(0)), [], {}), PollRunsOut,
            OneJob(kind, Running, false, Some(Probing(0)), [], {}), ps);
    ps := [Step(0, PollRunsOut)] + ps;
    Started(kind, ps);
    ps := [Step(0, Request(kind))] + ([Step(0, Begin)] + ps);
    assert !end.jobs[0].cancel;
  }

  lemma FinishStep(kind: Kind)
    ensures Leads(OneJob(kind, Running, false, Some(Polling(0)), [], {}), Finish(RaisedTimeout),
                  OneJob(kind, Done(RaisedTimeout), false, Some(Polling(0)), [], {}))
  {
    assert [Job(kind, Running, false)][0 := Job(kind, Done(RaisedTimeout), false)]
      == [Job(kind, Done(RaisedTimeout), false)];
  }

  lemma ProbeStep(kind: Kind)
    ensures Leads(OneJob(kind, Done(RaisedTimeout), false, Some(Polling(0)), [], {}), PollRunsOut,
                  OneJob(kind, Done(RaisedTimeout), false, Some(Probing(0)), [], {}))
  {
  }

  lemma GoneStep(kind: Kind)
    ensures Leads(OneJob(kind, Done(RaisedTimeout), false, Some(Probing(0)), [], {}), ProbeSaysGone,
                  OneJob(kind, Done(RaisedTimeout), true, Some(Draining(0, Disconnected)), [], {}))
  {
    assert [Job(kind, Done(RaisedTimeout), false)][0 := Job(kind, Done(RaisedTimeout), true)]
        == [Job(kind, Done(RaisedTimeout), true)];
  }

  lemma GraceStep(kind: Kind)
    ensures Leads(OneJob(kind, Done(RaisedTimeout), true, Some(Draining(0, Disconnected)), [], {}), GraceEnds,
                  OneJob(kind, Done(RaisedTimeout), true, None, [Response(0, Disconnected)], {}))
  {
    var none: seq<Response> := [];
    assert none + [Response(0, Disconnected)] == [Response(0, Disconnected)];
  }

  /** A job that ends with a `TimeoutError` is polled and drained as if it still ran, and its
      request answered for a caller gone: a run from the start. */
  lemma TimeoutErrorRun(kind: Kind) returns (ps: seq<Step>)
    ensures Run(Start(1), ps)
    ensures After(Start(1), ps) == [OneJob(kind, Done(RaisedTimeout), true, None, [Response(0, Disconnected)], {})]
  {
    FinishStep(kind);
    ProbeStep(kind);
    GoneStep(kind);
    GraceStep(kind);
    var w := OneJob(kind, Done(RaisedTimeout), false, Some(Polling(0)), [], {});
    var probing := OneJob(kind, Done(RaisedTimeout), false, Some(Probing(0)), [], {});
    var draining := OneJob(kind, Done(RaisedTimeout), true, Some(Draining(0, Disconnected)), [], {});
    ps := [Step(0, GraceEnds)] + [];
    RunCons(draining, GraceEnds, OneJob(kind, Done(RaisedTimeout), true, None, [Response(0, Disconnected)], {}), []);
    RunCons(probing, ProbeSaysGone, draining, ps);
    ps := [Step(0, ProbeSaysGone)] + ps;
    RunCons(w, PollRunsOut, probing, ps);
    ps := [Step(0, PollRunsOut)] + ps;
    RunCons(OneJob(kind, Running, false, Some(Polling(0)), [], {}), Finish(RaisedTimeout), w, ps);
    ps := [Step(0, Finish(RaisedTimeout))] + ps;
    Started(kind, ps);
    ps := [Step(0, Request(kind))] + ([Step(0, Begin)] + ps);
  }
}
