/** The eval recovery ladder of src/manga_gateway/framework/android_solver.py: `_post_sidecar`,
    `_post_eval`, `_prime_webview_page` and `eval_in_webview`, against any sidecar. */
module EvalLadder {
  import opened Wrappers

  // ------------------------------------------------------- what comes back

  /** A reply's body as far as it is looked at: an object with an error and, if it is a string,
      a detail; or anything else. */
  datatype Body = Envelope(error: string, detail: Option<string>) | Other(text: string)

  /** One POST: it answers, or it raises something that is not a status error. */
  datatype Reply = Answered(status: nat, body: Body) | Broken(error: string)

  const BUSY: nat := 503
  const EVAL_THREW: nat := 504
  const MARK := "status code "

  /** The decimal digits of any script, with their values. */
  type Digits = d: map<char, nat> | forall c | c in d :: d[c] <= 9

  /** The marker and three digits stand at `i`. */
  predicate StatusAt(d: Digits, detail: string, i: nat) {
    && i + |MARK| + 3 <= |detail|
    && detail[i..i + |MARK|] == MARK
    && detail[i + |MARK|] in d && detail[i + |MARK| + 1] in d && detail[i + |MARK| + 2] in d
  }

  lemma ThreeDigits(a: nat, b: nat, c: nat)
    requires a <= 9 && b <= 9 && c <= 9
    ensures var n := 100 * a + 10 * b + c; n / 100 == a && n / 10 % 10 == b && n % 10 == c
  {
    var n := 100 * a + 10 * b + c;
    assert n / 10 == 10 * a + b;
  }

  /** The status that stands at `i`: its three digits are those of the text, as written. */
  function StatusOf(d: Digits, detail: string, i: nat): (n: nat)
    requires StatusAt(d, detail, i)
    ensures n <= 999
    ensures n / 100 == d[detail[i + |MARK|]]
    ensures n / 10 % 10 == d[detail[i + |MARK| + 1]]
    ensures n % 10 == d[detail[i + |MARK| + 2]]
  {
    ThreeDigits(d[detail[i + |MARK|]], d[detail[i + |MARK| + 1]], d[detail[i + |MARK| + 2]]);
    100 * d[detail[i + |MARK|]] + 10 * d[detail[i + |MARK| + 1]] + d[detail[i + |MARK| + 2]]
  }

  /** Where a status stands first, from `i` on. */
  ghost predicate FirstAt(d: Digits, detail: string, i: nat, j: nat) {
    i <= j && StatusAt(d, detail, j) && forall k: nat | i <= k < j :: !StatusAt(d, detail, k)
  }

  /** The three-digit status reported first from `i` on. */
  function FirstStatus(d: Digits, detail: string, i: nat): (r: Option<nat>)
    ensures r.None? <==> forall j: nat | i <= j :: !StatusAt(d, detail, j)
    decreases |detail| - i
  {
    if i >= |detail| then None
    else if StatusAt(d, detail, i) then Some(StatusOf(d, detail, i))
    else FirstStatus(d, detail, i + 1)
  }

  /** It is the one that stands first, and the number that is written there. */
  lemma {:induction false} FirstStatusIsFirst(d: Digits, detail: string, i: nat, j: nat)
    requires FirstAt(d, detail, i, j)
    ensures FirstStatus(d, detail, i) == Some(StatusOf(d, detail, j))
    ensures var n := FirstStatus(d, detail, i).value;
            && n / 100 == d[detail[j + |MARK|]] && n / 10 % 10 == d[detail[j + |MARK| + 1]]
            && n % 10 == d[detail[j + |MARK| + 2]]
    decreases j - i
  {
    if i < j {
      assert !StatusAt(d, detail, i);
      FirstStatusIsFirst(d, detail, i + 1, j);
    }
  }

  /** The status an in-page throw reports, if the reply is one. */
  function EmbeddedStatus(d: Digits, r: Reply): Option<nat> {
    if r.Answered? && r.status == EVAL_THREW && r.body.Envelope? && r.body.error == "eval threw" && r.body.detail.Some?
    then FirstStatus(d, r.body.detail.value, 0)
    else None
  }

  predicate OriginThrow(d: Digits, r: Reply) {
    EmbeddedStatus(d, r).Some? && 500 <= EmbeddedStatus(d, r).value <= 599
  }

  predicate ChallengeThrow(d: Digits, r: Reply) {
    EmbeddedStatus(d, r) == Some(403)
  }

  // ------------------------------------------------------------ one device op

  /** The sidecar and the device lock over a run: the reply to each POST, and whether each
      attempt to take the lock succeeds in time; and what counts as a digit in a reply. */
  datatype World = World(replies: nat -> Reply, acquires: nat -> bool, digits: Digits)

  /** How many POSTs and lock attempts there have been. */
  datatype Pos = Pos(posts: nat, ops: nat)

  datatype Outcome = NotAcquired | Reply(reply: Reply)

  predicate Succeeded(o: Outcome) {
    o.Reply? && o.reply.Answered? && 200 <= o.reply.status <= 299
  }

  /** A status error: what the ladder looks at. Anything else goes straight through it. */
  predicate StatusError(o: Outcome) {
    o.Reply? && o.reply.Answered? && !(200 <= o.reply.status <= 299)
  }

  predicate Busy(r: Reply) {
    r.Answered? && r.status == BUSY
  }

  function AtLeastOne(attempts: int): (n: nat)
    ensures n >= 1 && (attempts >= 1 ==> n == attempts)
  {
    if attempts >= 1 then attempts else 1
  }

  /** How many POSTs one op makes from number `n` on, with `left` to spend. */
  function Posts(w: World, n: nat, left: nat): (k: nat)
    requires left >= 1
    ensures 1 <= k <= left
    ensures k < left ==> !Busy(w.replies(n + k - 1))
    ensures forall m | n <= m < n + k - 1 :: Busy(w.replies(m))
    decreases left
  {
    if Busy(w.replies(n)) && left > 1 then
      1 + Posts(w, n + 1, left - 1)
    else 1
  }

  /** `_post_sidecar`: POSTs again while the sidecar is busy and attempts are left. */
  method PostSidecar(w: World, n: nat, busyAttempts: int) returns (r: Reply, next: nat)
    ensures next == n + Posts(w, n, AtLeastOne(busyAttempts)) && r == w.replies(next - 1)
    ensures forall m | n <= m < next - 1 :: w.replies(m).Answered? && w.replies(m).status == 503
    ensures r.Answered? && r.status == 503 ==> next - n >= busyAttempts
    ensures n < next && (next - n == 1 || next - n <= busyAttempts)
  {
    r, next := w.replies(n), n + 1;
    var attempt := 1;
    while Busy(r) && attempt < busyAttempts
      invariant 1 <= attempt <= AtLeastOne(busyAttempts) && next == n + attempt && r == w.replies(next - 1)
      invariant Posts(w, n, AtLeastOne(busyAttempts))
                  == attempt - 1 + Posts(w, next - 1, AtLeastOne(busyAttempts) - attempt + 1)
      decreases busyAttempts - attempt
    {
      attempt := attempt + 1;
      r, next := w.replies(next), next + 1;
    }
  }

  function OpOutcome(w: World, pos: Pos, busyAttempts: int): Outcome {
    if w.acquires(pos.ops) then Reply(w.replies(pos.posts + Posts(w, pos.posts, AtLeastOne(busyAttempts)) - 1))
      else NotAcquired
  }

  function OpPos(w: World, pos: Pos, busyAttempts: int): Pos {
    Pos(pos.posts + if w.acquires(pos.ops) then Posts(w, pos.posts, AtLeastOne(busyAttempts)) else 0, pos.ops + 1)
  }

  /** `_post_eval`: one op under the device lock, or none when the lock is not had in time. */
  method PostEval(w: World, pos: Pos, busyAttempts: int) returns (o: Outcome, next: Pos)
    ensures o == OpOutcome(w, pos, busyAttempts) && next == OpPos(w, pos, busyAttempts)
    ensures next.ops == pos.ops + 1 && (w.acquires(pos.ops) <==> o.Reply?)
    ensures o.NotAcquired? ==> next.posts == pos.posts
    ensures o.Reply? ==>
              && pos.posts < next.posts <= pos.posts + AtLeastOne(busyAttempts) && o.reply == w.replies(next.posts - 1)
              && (forall m | pos.posts <= m < next.posts - 1 :: Busy(w.replies(m)))
              && (Busy(o.reply) ==> next.posts == pos.posts + AtLeastOne(busyAttempts))
  {
    if !w.acquires(pos.ops) {
      return NotAcquired, Pos(pos.posts, pos.ops + 1);
    }
    var r, n := PostSidecar(w, pos.posts, busyAttempts);
    o, next := Reply(r), Pos(n, pos.ops + 1);
  }

  // -------------------------------------------------------------- the ladder

  /** What an outcome calls for, budget permitting. */
  datatype Verdict = Final | Retry | Reprime

  function Judge(d: Digits, o: Outcome): Verdict {
    if StatusError(o) && OriginThrow(d, o.reply) then Retry
    else if StatusError(o) && ChallengeThrow(d, o.reply) then Reprime
    else Final
  }

  /** All the ladder sees of the sidecar: the outcome of an op from a position, and where it leads. */
  datatype Device = Device(outcome: Pos -> Outcome, after: Pos -> Pos, judge: Outcome -> Verdict)

  function DeviceOf(w: World, busyAttempts: int): Device {
    Device(p => OpOutcome(w, p, busyAttempts), p => OpPos(w, p, busyAttempts), o => Judge(w.digits, o))
  }

  datatype Step = Eval(outcome: Outcome) | Prime(recycle: bool, outcome: Outcome)

  /** A whole call: what it did before its last eval, that eval's outcome, which is what the
      caller gets, and where it left the sidecar. */
  datatype Call = Call(steps: seq<Step>, result: Outcome, end: Pos)

  function Before(steps: seq<Step>, c: Call): Call {
    Call(steps + c.steps, c.result, c.end)
  }

  /** The specification of a call with `origin` retries left and the given recoveries. */
  function Ladder(d: Device, pos: Pos, origin: nat, recoveries: seq<bool>): Call
    decreases origin + |recoveries|
  {
    var o := d.outcome(pos);
    var next := d.after(pos);
    if d.judge(o) == Retry && origin > 0 then
      Before([Eval(o)], Ladder(d, next, origin - 1, recoveries))
    else if d.judge(o) == Reprime && recoveries != [] then
      Before([Eval(o), Prime(recoveries[0], d.outcome(next))], Ladder(d, d.after(next), origin, recoveries[1..]))
    else Call([], o, next)
  }

  /** Which source a challenge URL belongs to: the first key it is mapped to. */
  function SourceOf(urls: seq<(string, string)>, challengeUrl: string): Option<string> {
    if urls == [] then None
    else if urls[0].1 == challengeUrl then Some(urls[0].0)
    else SourceOf(urls[1..], challengeUrl)
  }

  predicate PageHolder(urls: seq<(string, string)>, warmLast: set<string>, challengeUrl: string) {
    SourceOf(urls, challengeUrl).Some? && SourceOf(urls, challengeUrl).value in warmLast
  }

  /** A light re-prime, then a recycle; nothing for a source that holds no page. */
  function Recoveries(pageHolder: bool): seq<bool> {
    if pageHolder then [false, true] else []
  }

  /** A budget that is not positive is none. */
  function AsBudget(n: int): nat {
    if n > 0 then n else 0
  }

  /** `eval_in_webview`; `w` and `pos` are the sidecar as the call finds it. */
  method EvalInWebview(w: World, pos: Pos, urls: seq<(string, string)>, warmLast: set<string>, challengeUrl: string,
                       busyAttempts: int, originAttempts: int)
    returns (c: Call)
    ensures c == Ladder(DeviceOf(w, busyAttempts), pos, AsBudget(originAttempts),
                        Recoveries(PageHolder(urls, warmLast, challengeUrl)))
    ensures forall i | FirstMapped(urls, challengeUrl, i) ::
              && Primes(c.steps) <= (if urls[i].0 in warmLast then [false, true] else [])
              && (Judge(w.digits, c.result) == Reprime ==>
                    Primes(c.steps) == if urls[i].0 in warmLast then [false, true] else [])
    ensures (forall i | 0 <= i < |urls| :: urls[i].1 != challengeUrl) ==> Primes(c.steps) == []
    ensures var d := DeviceOf(w, busyAttempts);
            && Retries(d, c.steps) <= (if originAttempts > 0 then originAttempts else 0)
            && (Judge(w.digits, c.result) == Retry ==>
                  Retries(d, c.steps) == if originAttempts > 0 then originAttempts else 0)
  {
    var pageHolder := PageHolder(urls, warmLast, challengeUrl);
    c := Climb(DeviceOf(w, busyAttempts), pos, AsBudget(originAttempts), Recoveries(pageHolder));
    PrimesClimb(DeviceOf(w, busyAttempts), pos, AsBudget(originAttempts), Recoveries(pageHolder));
    OnlyRecoverableRetried(DeviceOf(w, busyAttempts), pos, AsBudget(originAttempts), Recoveries(pageHolder));
    SourceIsFirst(urls, challengeUrl);
  }

  /** The URL is first mapped to at `i`. */
  ghost predicate FirstMapped(urls: seq<(string, string)>, challengeUrl: string, i: int) {
    0 <= i < |urls| && urls[i].1 == challengeUrl && forall j | 0 <= j < i :: urls[j].1 != challengeUrl
  }

  lemma {:induction false} SourceIsFirst(urls: seq<(string, string)>, challengeUrl: string)
    ensures forall i | FirstMapped(urls, challengeUrl, i) :: SourceOf(urls, challengeUrl) == Some(urls[i].0)
    ensures (forall i | 0 <= i < |urls| :: urls[i].1 != challengeUrl) ==> SourceOf(urls, challengeUrl) == None
  {
    if urls != [] && urls[0].1 != challengeUrl {
      SourceIsFirst(urls[1..], challengeUrl);
      forall i | FirstMapped(urls, challengeUrl, i)
        ensures SourceOf(urls, challengeUrl) == Some(urls[i].0)
      {
        assert forall j | 0 <= j < i - 1 :: urls[1..][j] == urls[j + 1];
        assert FirstMapped(urls[1..], challengeUrl, i - 1);
      }
    }
  }

  /** The loop of a call: an origin retry while there is budget, else a recovery while one is
      left, and after either the eval again. The outcomes of its ops are those of `PostEval`. */
  method Climb(d: Device, pos: Pos, origin: nat, recoveries: seq<bool>) returns (c: Call)
    ensures c == Ladder(d, pos, origin, recoveries)
  {
    var originBudget: nat := origin;
    var left, at := recoveries, pos;
    var steps: seq<Step> := [];
    assert Before([], Ladder(d, pos, origin, recoveries)) == Ladder(d, pos, origin, recoveries);
    while true
      invariant Ladder(d, pos, origin, recoveries) == Before(steps, Ladder(d, at, originBudget, left))
      decreases originBudget + |left|
    {
      var o, next := d.outcome(at), d.after(at);
      if d.judge(o) == Retry && originBudget > 0 {
        RungRetry(d, at, originBudget, left, steps);
        steps, at, originBudget := steps + [Eval(o)], next, originBudget - 1;
      } else if d.judge(o) == Reprime && left != [] {
        // Best effort: whatever the prime does, the eval is tried again.
        var p, after := d.outcome(next), d.after(next);
        RungReprime(d, at, originBudget, left, steps);
        steps, at, left := steps + [Eval(o), Prime(left[0], p)], after, left[1..];
      } else {
        return Call(steps, o, next);
      }
    }
  }

  lemma RungRetry(d: Device, at: Pos, origin: nat, recoveries: seq<bool>, steps: seq<Step>)
    requires d.judge(d.outcome(at)) == Retry && origin > 0
    ensures Before(steps, Ladder(d, at, origin, recoveries))
         == Before(steps + [Eval(d.outcome(at))], Ladder(d, d.after(at), origin - 1, recoveries))
  {
  }

  lemma RungReprime(d: Device, at: Pos, origin: nat, recoveries: seq<bool>, steps: seq<Step>)
    requires d.judge(d.outcome(at)) == Reprime && recoveries != []
    ensures Before(steps, Ladder(d, at, origin, recoveries))
         == Before(steps + [Eval(d.outcome(at)), Prime(recoveries[0], d.outcome(d.after(at)))],
                   Ladder(d, d.after(d.after(at)), origin, recoveries[1..]))
  {
  }

  // ------------------------------------------------------------ its promises

  function Times(k: nat, n: nat): (r: nat)
    ensures r == k * n
  {
    if k == 0 then 0 else n + Times(k - 1, n)
  }

  /** No op makes more than `most` POSTs. */
  ghost predicate AtMost(d: Device, most: nat) {
    forall p: Pos :: d.after(p).ops == p.ops + 1 && p.posts <= d.after(p).posts <= p.posts + most
  }

  /** However the sidecar answers, a call ends, after at most one op for the eval, one for each
      origin retry, and two for each recovery. */
  lemma {:induction false} LadderIsBounded(d: Device, most: nat, pos: Pos, origin: nat, recoveries: seq<bool>)
    requires AtMost(d, most)
    ensures var c := Ladder(d, pos, origin, recoveries);
            && c.end.ops - pos.ops == |c.steps| + 1 <= 1 + origin + 2 * |recoveries|
            && 0 <= c.end.posts - pos.posts <= Times(|c.steps| + 1, most)
    decreases origin + |recoveries|
  {
    var o := d.outcome(pos);
    var next := d.after(pos);
    if d.judge(o) == Retry && origin > 0 {
      LadderIsBounded(d, most, next, origin - 1, recoveries);
    } else if d.judge(o) == Reprime && recoveries != [] {
      LadderIsBounded(d, most, d.after(next), origin, recoveries[1..]);
      var c := Ladder(d, d.after(next), origin, recoveries[1..]);
      assert Times(|c.steps| + 3, most) == most + Times(|c.steps| + 2, most);
    }
  }

  lemma {:induction false} TimesGrows(j: nat, k: nat, n: nat)
    requires j <= k
    ensures Times(j, n) <= Times(k, n)
  {
  }

  /** (1 + origin budget + 2 recoveries + 2 primes) * busy attempts POSTs at the most for a page
      holder, (1 + origin budget) * busy attempts for any other source. */
  lemma PostsAreBounded(w: World, busyAttempts: int, pos: Pos, originAttempts: int, pageHolder: bool)
    ensures var c := Ladder(DeviceOf(w, busyAttempts), pos, AsBudget(originAttempts), Recoveries(pageHolder));
            c.end.posts - pos.posts
              <= (1 + AsBudget(originAttempts) + if pageHolder then 4 else 0) * AtLeastOne(busyAttempts)
  {
    var d := DeviceOf(w, busyAttempts);
    var most, n := 1 + AsBudget(originAttempts) + (if pageHolder then 4 else 0), AtLeastOne(busyAttempts);
    var c := Ladder(d, pos, AsBudget(originAttempts), Recoveries(pageHolder));
    assert AtMost(d, n);
    LadderIsBounded(d, n, pos, AsBudget(originAttempts), Recoveries(pageHolder));
    TimesGrows(|c.steps| + 1, most, n);
    assert Times(most, n) == most * n;
  }

  /** Where the device is after `n` ops. */
  function PosAfter(d: Device, pos: Pos, n: nat): Pos
    decreases n
  {
    if n == 0 then pos else PosAfter(d, d.after(pos), n - 1)
  }

  /** A call's ops follow one another: each step's outcome is that of the device's next op, so is
      what the caller gets, and the call leaves the device after the last. */
  lemma {:induction false} OpsInTurn(d: Device, pos: Pos, origin: nat, recoveries: seq<bool>)
    ensures var c := Ladder(d, pos, origin, recoveries);
            && (forall i: nat | i < |c.steps| :: c.steps[i].outcome == d.outcome(PosAfter(d, pos, i)))
            && c.result == d.outcome(PosAfter(d, pos, |c.steps|)) && c.end == PosAfter(d, pos, |c.steps| + 1)
    decreases origin + |recoveries|
  {
    var o, next := d.outcome(pos), d.after(pos);
    var c := Ladder(d, pos, origin, recoveries);
    if d.judge(o) == Retry && origin > 0 {
      OpsInTurn(d, next, origin - 1, recoveries);
      var rest := Ladder(d, next, origin - 1, recoveries);
      forall i: nat | i < |c.steps|
        ensures c.steps[i].outcome == d.outcome(PosAfter(d, pos, i))
      {
        if i > 0 {
          assert c.steps[i] == rest.steps[i - 1];
        }
      }
    } else if d.judge(o) == Reprime && recoveries != [] {
      OpsInTurn(d, d.after(next), origin, recoveries[1..]);
      var rest := Ladder(d, d.after(next), origin, recoveries[1..]);
      forall i: nat | i < |c.steps|
        ensures c.steps[i].outcome == d.outcome(PosAfter(d, pos, i))
      {
        if i > 1 {
          assert c.steps[i] == rest.steps[i - 2];
          assert PosAfter(d, pos, i) == PosAfter(d, next, i - 1) == PosAfter(d, d.after(next), i - 2);
        }
      }
      var n := |rest.steps|;
      assert PosAfter(d, pos, n + 2) == PosAfter(d, next, n + 1) == PosAfter(d, d.after(next), n);
      assert PosAfter(d, pos, n + 3) == PosAfter(d, next, n + 2) == PosAfter(d, d.after(next), n + 1);
    }
  }

  /** Step `i` is a prime exactly when the step before it is an eval that called for one. */
  ghost predicate PrimedFor(d: Device, steps: seq<Step>, i: nat)
    requires i < |steps|
  {
    steps[i].Prime? <==> i > 0 && steps[i - 1].Eval? && d.judge(steps[i - 1].outcome) == Reprime
  }

  /** What calls for a prime is primed for at once, and nothing else is. */
  lemma {:induction false} PrimesAreCalledFor(d: Device, pos: Pos, origin: nat, recoveries: seq<bool>)
    ensures var steps := Ladder(d, pos, origin, recoveries).steps;
            && (forall i: nat | i < |steps| :: PrimedFor(d, steps, i))
            && (steps != [] && steps[|steps| - 1].Eval? ==> d.judge(steps[|steps| - 1].outcome) == Retry)
    decreases origin + |recoveries|
  {
    var o, next := d.outcome(pos), d.after(pos);
    var steps := Ladder(d, pos, origin, recoveries).steps;
    if d.judge(o) == Retry && origin > 0 {
      PrimesAreCalledFor(d, next, origin - 1, recoveries);
      var rest := Ladder(d, next, origin - 1, recoveries).steps;
      assert steps == [Eval(o)] + rest;
      forall i: nat | i < |steps|
        ensures PrimedFor(d, steps, i)
      {
        if i > 0 {
          assert PrimedFor(d, rest, i - 1) && steps[i] == rest[i - 1] && (i > 1 ==> steps[i - 1] == rest[i - 2]);
        }
      }
    } else if d.judge(o) == Reprime && recoveries != [] {
      PrimesAreCalledFor(d, d.after(next), origin, recoveries[1..]);
      var rest := Ladder(d, d.after(next), origin, recoveries[1..]).steps;
      assert steps == [Eval(o), Prime(recoveries[0], d.outcome(next))] + rest;
      forall i: nat | i < |steps|
        ensures PrimedFor(d, steps, i)
      {
        if i > 1 {
          assert PrimedFor(d, rest, i - 2) && steps[i] == rest[i - 2] && (i > 2 ==> steps[i - 1] == rest[i - 3]);
        }
      }
    }
  }

  /** The primes of a call, in order. */
  function Primes(steps: seq<Step>): seq<bool> {
    if steps == [] then []
    else (if steps[0].Prime? then [steps[0].recycle] else []) + Primes(steps[1..])
  }

  lemma PrimesOfCons(s: Step, steps: seq<Step>)
    ensures Primes([s] + steps) == (if s.Prime? then [s.recycle] else []) + Primes(steps)
  {
  }

  lemma PrimesOfTwo(s: Step, t: Step, steps: seq<Step>)
    requires s.Eval? && t.Prime?
    ensures Primes([s, t] + steps) == [t.recycle] + Primes(steps)
  {
  }

  /** The primes are a prefix of the recoveries, and all of them when the caller still gets an
      error that calls for one. */
  lemma {:induction false} PrimesClimb(d: Device, pos: Pos, origin: nat, recoveries: seq<bool>)
    ensures var c := Ladder(d, pos, origin, recoveries);
            Primes(c.steps) <= recoveries && (d.judge(c.result) == Reprime ==> Primes(c.steps) == recoveries)
    decreases origin + |recoveries|
  {
    var o := d.outcome(pos);
    var next := d.after(pos);
    if d.judge(o) == Retry && origin > 0 {
      PrimesClimb(d, next, origin - 1, recoveries);
      PrimesOfCons(Eval(o), Ladder(d, next, origin - 1, recoveries).steps);
    } else if d.judge(o) == Reprime && recoveries != [] {
      PrimesClimb(d, d.after(next), origin, recoveries[1..]);
      PrimesOfTwo(Eval(o), Prime(recoveries[0], d.outcome(next)),
        Ladder(d, d.after(next), origin, recoveries[1..]).steps);
    }
  }

  predicate IsPrime(s: Step, recycle: bool) {
    s.Prime? && s.recycle == recycle
  }

  lemma {:induction false} PrimeListed(steps: seq<Step>, i: nat)
    requires i < |steps| && steps[i].Prime?
    ensures Primes(steps) == Primes(steps[..i]) + [steps[i].recycle] + Primes(steps[i + 1..])
  {
    if i == 0 {
    } else {
      assert steps[1..][..i - 1] == steps[..i][1..] && steps[1..][i..] == steps[i + 1..];
      PrimeListed(steps[1..], i - 1);
    }
  }

  lemma {:induction false} ListedPrime(steps: seq<Step>, recycle: bool)
    requires recycle in Primes(steps)
    ensures exists j :: 0 <= j < |steps| && IsPrime(steps[j], recycle)
  {
    if steps[0].Prime? && steps[0].recycle == recycle {
      assert IsPrime(steps[0], recycle);
    } else {
      ListedPrime(steps[1..], recycle);
      var j :| 0 <= j < |steps[1..]| && IsPrime(steps[1..][j], recycle);
      assert IsPrime(steps[j + 1], recycle);
    }
  }

  /** Step by step: a recycle comes only for a page holder, and after a light re-prime of the
      same call. */
  lemma RecycleAfterLight(d: Device, pos: Pos, originAttempts: int, pageHolder: bool, i: nat)
    requires var steps := Ladder(d, pos, AsBudget(originAttempts), Recoveries(pageHolder)).steps;
             i < |steps| && IsPrime(steps[i], true)
    ensures pageHolder
    ensures var steps := Ladder(d, pos, AsBudget(originAttempts), Recoveries(pageHolder)).steps;
            exists j :: 0 <= j < i && IsPrime(steps[j], false)
  {
    var steps := Ladder(d, pos, AsBudget(originAttempts), Recoveries(pageHolder)).steps;
    PrimesClimb(d, pos, AsBudget(originAttempts), Recoveries(pageHolder));
    PrimeListed(steps, i);
    var before := Primes(steps[..i]);
    assert Primes(steps)[|before|] == true;
    assert Recoveries(pageHolder)[|before|] == true;
    assert before[0] == Primes(steps)[0] == false;
    ListedPrime(steps[..i], false);
    var j :| 0 <= j < |steps[..i]| && IsPrime(steps[..i][j], false);
    assert IsPrime(steps[j], false);
  }

  predicate Retried(d: Device, s: Step) {
    s.Eval? && d.judge(s.outcome) == Retry
  }

  function Retries(d: Device, steps: seq<Step>): nat {
    if steps == [] then 0 else (if Retried(d, steps[0]) then 1 else 0) + Retries(d, steps[1..])
  }

  lemma RetriesOfCons(d: Device, s: Step, steps: seq<Step>)
    ensures Retries(d, [s] + steps) == (if Retried(d, s) then 1 else 0) + Retries(d, steps)
  {
  }

  lemma RetriesOfTwo(d: Device, s: Step, t: Step, steps: seq<Step>)
    requires !Retried(d, s) && t.Prime?
    ensures Retries(d, [s, t] + steps) == Retries(d, steps)
  {
  }

  /** Only an outcome that calls for it is ever tried again, at most as often as there is budget
      for, and the caller gets an origin error only once that budget is spent. */
  lemma {:induction false} OnlyRecoverableRetried(d: Device, pos: Pos, origin: nat, recoveries: seq<bool>)
    ensures var c := Ladder(d, pos, origin, recoveries);
            && (forall s | s in c.steps && s.Eval? :: d.judge(s.outcome) != Final)
            && Retries(d, c.steps) <= origin
            && (d.judge(c.result) == Retry ==> Retries(d, c.steps) == origin)
    decreases origin + |recoveries|
  {
    var o := d.outcome(pos);
    var next := d.after(pos);
    if d.judge(o) == Retry && origin > 0 {
      OnlyRecoverableRetried(d, next, origin - 1, recoveries);
      RetriesOfCons(d, Eval(o), Ladder(d, next, origin - 1, recoveries).steps);
    } else if d.judge(o) == Reprime && recoveries != [] {
      OnlyRecoverableRetried(d, d.after(next), origin, recoveries[1..]);
      RetriesOfTwo(d, Eval(o), Prime(recoveries[0], d.outcome(next)),
        Ladder(d, d.after(next), origin, recoveries[1..]).steps);
    }
  }

  /** An in-page throw: a 504 whose envelope says so, with this detail. */
  function Threw(detail: string): Outcome {
    Reply(Answered(504, Envelope("eval threw", Some(detail))))
  }

  /** What is judged from the text of an in-page throw. When a status first stands at `j` it is tried
      again exactly when its first digit is a 5, and re-primed for exactly when its digits are 4,
      0 and 3. */
  lemma JudgedFromText(d: Digits, detail: string, j: nat)
    requires FirstAt(d, detail, 0, j)
    ensures Judge(d, Threw(detail)) == Retry <==> d[detail[j + |MARK|]] == 5
    ensures Judge(d, Threw(detail)) == Reprime <==>
              d[detail[j + |MARK|]] == 4 && d[detail[j + |MARK| + 1]] == 0 && d[detail[j + |MARK| + 2]] == 3
  {
    FirstStatusIsFirst(d, detail, 0, j);
  }

  /** With no status in it, or as any other outcome at all, it is final. */
  lemma OtherwiseFinal(d: Digits, o: Outcome)
    ensures Judge(d, o) != Final ==>
              && o.Reply? && o.reply.Answered? && o.reply.body.Envelope? && o.reply.body.detail.Some?
              && o == Threw(o.reply.body.detail.value)
              && exists j: nat :: FirstAt(d, o.reply.body.detail.value, 0, j)
  {
    if Judge(d, o) != Final {
      var detail := o.reply.body.detail.value;
      var j: nat :| StatusAt(d, detail, j);
      var first := LeastStatus(d, detail, j);
    }
  }

  lemma {:induction false} LeastStatus(d: Digits, detail: string, j: nat) returns (first: nat)
    requires StatusAt(d, detail, j)
    ensures FirstAt(d, detail, 0, first)
    decreases j
  {
    if k: nat :| k < j && StatusAt(d, detail, k) {
      first := LeastStatus(d, detail, k);
    } else {
      first := j;
    }
  }

  lemma Reported(d: Digits, code: string)
    requires |code| == 3 && code[0] in d && code[1] in d && code[2] in d
    ensures Judge(d, Threw("status code " + code)) == Retry <==> d[code[0]] == 5
    ensures Judge(d, Threw("status code " + code)) == Reprime <==>
              d[code[0]] == 4 && d[code[1]] == 0 && d[code[2]] == 3
  {
    var t := MARK + code;
    assert t[0..0 + |MARK|] == MARK;
    assert t[|MARK|] == code[0] && t[|MARK| + 1] == code[1] && t[|MARK| + 2] == code[2];
    JudgedFromText(d, t, 0);
  }

  /** A 521, as the page reports it, is tried again; a 304 is final; and a 403 is re-primed for. */
  lemma JudgedAsReported(d: Digits)
    requires '0' in d && '1' in d && '2' in d && '3' in d && '4' in d && '5' in d
    requires d['0'] == 0 && d['1'] == 1 && d['2'] == 2 && d['3'] == 3 && d['4'] == 4 && d['5'] == 5
    ensures Judge(d, Threw("status code " + "521")) == Retry
    ensures Judge(d, Threw("status code " + "304")) == Final
    ensures Judge(d, Threw("status code " + "403")) == Reprime
  {
    Reported(d, "521");
    Reported(d, "304");
    Reported(d, "403");
  }

  /** What is tried again is exactly an in-page throw that reports an origin error, and what is
      re-primed for is exactly one that reports a challenge; so never a success, a lock not had,
      a broken POST or a sidecar still busy after the last attempt. */
  lemma JudgedExactly(d: Digits, o: Outcome)
    ensures Judge(d, o) == Retry <==>
              o.Reply? && EmbeddedStatus(d, o.reply).Some? && 500 <= EmbeddedStatus(d, o.reply).value <= 599
    ensures Judge(d, o) == Reprime <==> o.Reply? && EmbeddedStatus(d, o.reply) == Some(403)
    ensures Succeeded(o) || o.NotAcquired? || o.reply.Broken? || Busy(o.reply) ==> Judge(d, o) == Final
  {
  }
}
