/** Two ways to read a paginated page list in a browser: the Next-clicking walk and the
    concurrent fan-out of src/manga_gateway/framework/antibot.py. Evaluating a script in the
    page is an arbitrary input; the walk's own evaluations do not raise here. */
module Pagination {
  import opened Wrappers

  /** A row of an extract: a JSON object that may have an id, or any other JSON value. */
  datatype Row = Object(id: Option<string>, fields: string) | Plain(text: string)

  datatype Value = List(rows: seq<Row>) | NotAList

  const POLL_TICKS := 20

  function RowsOf(v: Value): seq<Row> {
    if v.List? then v.rows else []
  }

  /** What rows are told apart by: every row without an id counts as the same. */
  function Rid(row: Row): Option<string> {
    if row.Object? then row.id else None
  }

  /** The rendered id-set: the ids of the objects alone. */
  function Ids(v: Value): set<Option<string>> {
    set row | row in RowsOf(v) && row.Object? :: row.id
  }

  // ---------------------------------------------------------------- merging

  function Rids(rows: seq<Row>): set<Option<string>> {
    set row | row in rows :: Rid(row)
  }

  /** The rows whose id was not seen in an earlier row. */
  function Dedup(rows: seq<Row>): seq<Row> {
    if rows == [] then []
    else
      var before := rows[..|rows| - 1];
      var last := rows[|rows| - 1];
      Dedup(before) + if Rid(last) in Rids(before) then [] else [last]
  }

  /** Two rows that count as one: both have the same id, or neither has any. */
  predicate SameId(a: Row, b: Row) {
    match (a, b)
    case (Object(Some(x), _), Object(Some(y), _)) => x == y
    case (Object(Some(_), _), _) => false
    case (_, Object(Some(_), _)) => false
    case (_, _) => true
  }

  /** Row `i` is the first with its id. */
  ghost predicate FirstSeen(rows: seq<Row>, i: nat)
    requires i < |rows|
  {
    forall j | 0 <= j < i :: !SameId(rows[j], rows[i])
  }

  /** The places of those rows, in order. */
  function Firsts(rows: seq<Row>): (at: seq<nat>)
    ensures forall a | 0 <= a < |at| :: at[a] < |rows|
    ensures forall a, b | 0 <= a < b < |at| :: at[a] < at[b]
  {
    if rows == [] then []
    else
      var before := rows[..|rows| - 1];
      var at := Firsts(before);
      if Rid(rows[|rows| - 1]) in Rids(before) then at else at + [|rows| - 1]
  }

  lemma {:induction false} FirstsAreFirst(rows: seq<Row>, i: nat)
    requires i < |rows|
    ensures FirstSeen(rows, i) <==> i in Firsts(rows)
  {
    var n := |rows| - 1;
    if i < n {
      FirstSeenBefore(rows, n, i);
      FirstsAreFirst(rows[..n], i);
      assert i in Firsts(rows) <==> i in Firsts(rows[..n]);
    } else {
      LastIsFirstSeen(rows);
    }
  }

  lemma FirstSeenBefore(rows: seq<Row>, n: nat, i: nat)
    requires i < n <= |rows|
    ensures FirstSeen(rows, i) <==> FirstSeen(rows[..n], i)
  {
    assert forall j | 0 <= j <= i :: rows[j] == rows[..n][j];
  }

  lemma {:induction false} FirstsAreKept(rows: seq<Row>)
    ensures |Dedup(rows)| == |Firsts(rows)|
    ensures forall a | 0 <= a < |Firsts(rows)| ::
              Firsts(rows)[a] in Firsts(rows) && Dedup(rows)[a] == rows[Firsts(rows)[a]]
  {
    if rows != [] {
      FirstsAreKept(rows[..|rows| - 1]);
    }
  }

  lemma {:induction false} IdsAreKept(rows: seq<Row>)
    ensures Rids(Dedup(rows)) == Rids(rows)
  {
    if rows != [] {
      var before, last := rows[..|rows| - 1], rows[|rows| - 1];
      IdsAreKept(before);
      assert rows == before + [last];
      RidsAppend(before, last);
      RidsAppend(Dedup(before), last);
    }
  }

  /** What merging means: the rows kept are exactly those that are the first with their id, each
      from its place `at` and in their order; so ids are distinct, and none is lost. */
  lemma DedupMeans(rows: seq<Row>) returns (at: seq<nat>)
    ensures |at| == |Dedup(rows)| && forall a | 0 <= a < |at| :: at[a] < |rows| && Dedup(rows)[a] == rows[at[a]]
    ensures forall a, b | 0 <= a < b < |at| :: at[a] < at[b]
    ensures forall i: nat | i < |rows| :: FirstSeen(rows, i) <==> i in at
    ensures Rids(Dedup(rows)) == Rids(rows)
  {
    at := Firsts(rows);
    FirstsAreKept(rows);
    IdsAreKept(rows);
    forall i: nat | i < |rows|
      ensures FirstSeen(rows, i) <==> i in at
    {
      FirstsAreFirst(rows, i);
    }
  }

  lemma LastIsFirstSeen(rows: seq<Row>)
    requires rows != []
    ensures FirstSeen(rows, |rows| - 1) <==> Rid(rows[|rows| - 1]) !in Rids(rows[..|rows| - 1])
  {
    var before := rows[..|rows| - 1];
    assert forall j | 0 <= j < |before| :: before[j] in before && before[j] == rows[j];
  }

  lemma RidsAppend(rows: seq<Row>, row: Row)
    ensures Rids(rows + [row]) == Rids(rows) + {Rid(row)}
  {
  }

  lemma OneMoreRow(done: seq<Row>, rows: seq<Row>, i: nat)
    requires i < |rows|
    ensures done + rows[..i + 1] == done + rows[..i] + [rows[i]]
  {
    assert rows[..i + 1] == rows[..i] + [rows[i]];
  }

  lemma DedupAppend(before: seq<Row>, row: Row)
    ensures Dedup(before + [row]) == Dedup(before) + if Rid(row) in Rids(before) then [] else [row]
  {
    assert (before + [row])[..|before|] == before;
  }

  /** Merges further rows into an accumulator of what is done. */
  method Merge(accumulator: seq<Row>, seen: set<Option<string>>, rows: seq<Row>, ghost done: seq<Row>)
    returns (longer: seq<Row>, more: set<Option<string>>)
    requires accumulator == Dedup(done) && seen == Rids(done)
    ensures longer == Dedup(done + rows) && more == Rids(done + rows)
  {
    longer, more := accumulator, seen;
    assert done + rows[..0] == done;
    for i := 0 to |rows|
      invariant longer == Dedup(done + rows[..i]) && more == Rids(done + rows[..i])
    {
      ghost var before := done + rows[..i];
      OneMoreRow(done, rows, i);
      DedupAppend(before, rows[i]);
      RidsAppend(before, rows[i]);
      if Rid(rows[i]) !in more {
        more := more + {Rid(rows[i])};
        longer := longer + [rows[i]];
      }
    }
    assert rows[..|rows|] == rows;
  }

  // --------------------------------------------------------------- the walk

  /** A site: page `n` by its URL or by clicking, whether its Next control is there and
      enabled, and for how many polls after the click the old rows are still shown. */
  datatype Site = Site(page: nat -> Value, next: nat -> bool, lag: nat -> nat)

  function Upto(s: Site, n: nat): seq<Row> {
    if n == 0 then [] else Upto(s, n - 1) + RowsOf(s.page(n))
  }

  /** Clicking Next on page `n` is seen to change the rows within the polls. */
  predicate Changes(s: Site, n: nat) {
    s.lag(n) < POLL_TICKS && Ids(s.page(n)) != Ids(s.page(n + 1))
  }

  /** The last page the walk reads, from page `n` on. */
  function Reach(s: Site, maxPages: int, n: nat): (last: nat)
    ensures n <= last
    decreases maxPages - n
  {
    if n >= maxPages || !s.next(n) || !Changes(s, n) then n else Reach(s, maxPages, n + 1)
  }

  /** Among the rows shown, one object's id is that of none of the others. */
  ghost predicate HasOther(shown: Value, before: Value) {
    && shown.List?
    && exists row | row in shown.rows && row.Object? ::
      before.List? ==> forall was | was in before.rows && was.Object? :: was.id != row.id
  }

  /** What page `n` shows at poll `tick` after its Next was clicked. */
  function ShownAt(s: Site, n: nat, tick: nat): Value {
    if tick < s.lag(n) then s.page(n) else s.page(n + 1)
  }

  lemma HasOtherMeans(a: Value, b: Value)
    ensures HasOther(a, b) <==> exists i :: i in Ids(a) && i !in Ids(b)
  {
    if HasOther(a, b) {
      var row :| row in RowsOf(a) && row.Object? && (b.List? ==>
                   forall was | was in b.rows && was.Object? :: was.id != row.id);
      assert row.id in Ids(a) && row.id !in Ids(b);
    }
    if i :| i in Ids(a) && i !in Ids(b) {
      var row :| row in RowsOf(a) && row.Object? && row.id == i;
      assert forall was | was in RowsOf(b) && was.Object? :: was.id in Ids(b);
    }
  }

  /** At the poll an id is shown that was not before the click, or one is gone. */
  ghost predicate OthersAt(s: Site, n: nat, tick: nat) {
    HasOther(ShownAt(s, n, tick), s.page(n)) || HasOther(s.page(n), ShownAt(s, n, tick))
  }

  lemma OtherIdsShown(s: Site, n: nat, tick: nat)
    ensures OthersAt(s, n, tick) <==> Ids(ShownAt(s, n, tick)) != Ids(s.page(n))
  {
    HasOtherMeans(ShownAt(s, n, tick), s.page(n));
    HasOtherMeans(s.page(n), ShownAt(s, n, tick));
  }

  /** At one of the twenty polls after the click. */
  ghost predicate OthersShown(s: Site, n: nat) {
    exists tick: nat | tick < 20 :: OthersAt(s, n, tick)
  }

  /** A click is seen to change the rows exactly when other ids are shown at one of the twenty polls. */
  lemma ChangesMeans(s: Site, n: nat)
    ensures Changes(s, n) <==> OthersShown(s, n)
  {
    forall tick: nat | tick < 20
      ensures OthersAt(s, n, tick) <==> Ids(ShownAt(s, n, tick)) != Ids(s.page(n))
    {
      OtherIdsShown(s, n, tick);
    }
    if Changes(s, n) {
      assert OthersAt(s, n, s.lag(n));
    }
  }

  /** Polls the rendered rows until their id-set differs: it is seen to exactly when at one of the
      twenty polls other ids are shown than before the click. */
  method PollForChange(s: Site, n: nat, before: set<Option<string>>) returns (changed: bool)
    requires before == Ids(s.page(n))
    ensures changed <==> Changes(s, n)
    ensures changed <==> OthersShown(s, n)
  {
    ChangesMeans(s, n);
    changed := false;
    for tick := 0 to POLL_TICKS
      invariant !changed
      invariant forall t: nat | t < tick :: Ids(ShownAt(s, n, t)) == before
    {
      if Ids(ShownAt(s, n, tick)) != before {
        return true;
      }
    }
    assert s.lag(n) < POLL_TICKS ==> ShownAt(s, n, s.lag(n)) == s.page(n + 1);
  }

  /** The walk goes on past page `n`: it is below the limit, has a Next, and shows other ids after it. */
  ghost predicate GoesPast(s: Site, maxPages: int, n: nat) {
    n < maxPages && s.next(n) && OthersShown(s, n)
  }

  lemma {:induction false} GoesExactly(s: Site, maxPages: int, n: nat)
    ensures var last := Reach(s, maxPages, n);
            !GoesPast(s, maxPages, last) && forall k: nat | n <= k < last :: GoesPast(s, maxPages, k)
    decreases maxPages - n
  {
    ChangesMeans(s, n);
    if n < maxPages && s.next(n) && Changes(s, n) {
      GoesExactly(s, maxPages, n + 1);
      assert GoesPast(s, maxPages, n);
    }
  }

  /** `_walk_next`: the merged rows of pages 1 to the first that it does not go past. */
  method WalkNext(s: Site, maxPages: int) returns (accumulator: seq<Row>, ghost last: nat)
    ensures accumulator == Dedup(Upto(s, Reach(s, maxPages, 1)))
    ensures last == Reach(s, maxPages, 1)
    ensures last >= 1 && !GoesPast(s, maxPages, last) && forall n: nat | 1 <= n < last :: GoesPast(s, maxPages, n)
  {
    accumulator := [];
    var seen: set<Option<string>> := {};
    var pageCount := 1;
    ghost var done: seq<Row> := [];
    last := Reach(s, maxPages, 1);
    while true
      invariant pageCount >= 1 && Reach(s, maxPages, pageCount) == last
      invariant done == Upto(s, pageCount - 1)
      invariant accumulator == Dedup(done) && seen == Rids(done)
      decreases maxPages - pageCount
    {
      var rows := s.page(pageCount);
      accumulator, seen := Merge(accumulator, seen, RowsOf(rows), done);
      done := done + RowsOf(rows);
      assert done == Upto(s, pageCount);
      if pageCount >= maxPages || !s.next(pageCount) {
        break;
      }
      var changed := PollForChange(s, pageCount, Ids(rows));
      if !changed {
        break;
      }
      pageCount := pageCount + 1;
    }
    GoesExactly(s, maxPages, 1);
  }

  // ------------------------------------------------------------ the fan-out

  datatype Outcome = Rows(rows: seq<Row>) | NoRows(page: nat) | Error(message: string)

  datatype Answer = Got(list: seq<Row>) | Raised(error: Outcome)

  /** What evaluating the extract on one fan-out page gave. */
  datatype Evaluated = Returned(value: Value) | Failed(message: string)

  /** A fan-out page fails closed: anything but a list with rows in it is an error. */
  function FetchOnePage(e: Evaluated, n: nat): (o: Outcome)
    ensures o.Rows? <==> e.Returned? && RowsOf(e.value) != []
    ensures o.Rows? ==> o.rows == RowsOf(e.value)
    ensures e.Returned? && !o.Rows? ==> o == NoRows(n)
    ensures e.Failed? ==> o == Error(e.message)
  {
    match e
    case Returned(List(rows)) => if rows == [] then NoRows(n) else Rows(rows)
    case Returned(NotAList) => NoRows(n)
    case Failed(message) => Error(message)
  }

  /** The number the URL first shows at one of the polls from `tick` on. */
  function Synced(urlAt: nat -> Option<nat>, tick: nat): (found: Option<nat>)
    decreases POLL_TICKS - tick
  {
    if tick >= POLL_TICKS then None
    else if urlAt(tick).Some? then urlAt(tick)
    else Synced(urlAt, tick + 1)
  }

  function Clamped(found: Option<nat>, maxPages: int): int {
    var count := if found.Some? && found.value > 1 then found.value else 1;
    if count > maxPages then maxPages else count
  }

  /** What `_discover_page_count` makes of the Last control and of the URL after its click. */
  function Discovered(lastEnabled: bool, urlAt: nat -> Option<nat>, maxPages: int): int {
    if lastEnabled then Clamped(Synced(urlAt, 0), maxPages) else 1
  }

  /** Poll `t` is the first of the twenty at which the URL shows a number. */
  ghost predicate FirstShown(urlAt: nat -> Option<nat>, t: nat) {
    t < 20 && urlAt(t).Some? && forall u: nat | u < t :: urlAt(u).None?
  }

  lemma {:induction false} SyncedIsFirst(urlAt: nat -> Option<nat>, from: nat)
    requires from <= POLL_TICKS && forall u: nat | u < from :: urlAt(u).None?
    ensures forall t: nat | FirstShown(urlAt, t) :: Synced(urlAt, from) == urlAt(t)
    ensures (forall t: nat | t < 20 :: urlAt(t).None?) ==> Synced(urlAt, from) == None
    decreases POLL_TICKS - from
  {
    if from < POLL_TICKS && urlAt(from).None? {
      SyncedIsFirst(urlAt, from + 1);
    }
  }

  /** `_discover_page_count`: one page without a Last control; else the number the URL first shows
      at one of the polls, or one when it shows none, and no more than the limit. */
  method DiscoverPageCount(lastEnabled: bool, urlAt: nat -> Option<nat>, maxPages: int) returns (count: int)
    ensures count == Discovered(lastEnabled, urlAt, maxPages)
    ensures !lastEnabled ==> count == 1
    ensures forall t: nat | lastEnabled && FirstShown(urlAt, t) ::
              var n := if urlAt(t).value > 1 then urlAt(t).value else 1;
              count == if n > maxPages then maxPages else n
    ensures lastEnabled && (forall t: nat | t < 20 :: urlAt(t).None?) ==> count == if 1 > maxPages then maxPages else 1
  {
    if !lastEnabled {
      return 1;
    }
    SyncedIsFirst(urlAt, 0);
    var found: Option<nat> := None;
    var tick := 0;
    while tick < POLL_TICKS && found.None?
      invariant tick <= POLL_TICKS
      invariant Synced(urlAt, 0) == if found.Some? then found else Synced(urlAt, tick)
      decreases POLL_TICKS - tick, if found.None? then 1 else 0
    {
      found := urlAt(tick);
      if found.None? {
        tick := tick + 1;
      }
    }
    count := if found.Some? && found.value > 1 then found.value else 1;
    if count > maxPages {
      count := maxPages;
    }
  }

  /** The first page up to `n` that failed, if any. */
  function FirstFailure(evaluated: nat -> Evaluated, n: nat): (k: nat)
    ensures k <= n
    ensures k > 0 ==>
              !FetchOnePage(evaluated(k), k).Rows? && forall j | 1 <= j < k :: FetchOnePage(evaluated(j), j).Rows?
    ensures k == 0 ==> forall j | 1 <= j <= n :: FetchOnePage(evaluated(j), j).Rows?
  {
    if n == 0 then 0
    else
      var k := FirstFailure(evaluated, n - 1);
      if k > 0 then k
      else if FetchOnePage(evaluated(n), n).Rows? then 0 else n
  }

  function Fetched(evaluated: nat -> Evaluated, n: nat): seq<Row> {
    if n == 0 then []
    else Fetched(evaluated, n - 1) + if evaluated(n).Returned? then RowsOf(evaluated(n).value) else []
  }

  /** What the fan-out answers: the merged rows of all pages, or the error of the first page
      that failed; never a part of the list. */
  function Gathered(evaluated: nat -> Evaluated, count: int): Answer {
    if count <= 0 then Got([])
    else
      var k := FirstFailure(evaluated, count);
      if k > 0 then Raised(FetchOnePage(evaluated(k), k)) else Got(Dedup(Fetched(evaluated, count)))
  }

  /** Every page task settles once, in some order. */
  ghost predicate SettlesAll(order: seq<nat>, count: int) {
    && (forall i | 0 <= i < |order| :: 1 <= order[i] <= count)
    && (forall n: nat | 1 <= n <= count :: n in order)
  }

  /** Each slot holds what its page came to. */
  ghost predicate Settled(evaluated: nat -> Evaluated, slots: seq<Outcome>) {
    forall k | 0 <= k < |slots| :: slots[k] == FetchOnePage(evaluated(k + 1), k + 1)
  }

  /** The pages' tasks settling in the given order, each into the slot of its page. */
  method Gather(evaluated: nat -> Evaluated, count: int, order: seq<nat>) returns (settled: seq<Outcome>)
    requires SettlesAll(order, count)
    ensures |settled| == (if count > 0 then count else 0)
    ensures Settled(evaluated, settled)
  {
    var slots := if count > 0 then count else 0;
    settled := seq(slots, i => NoRows(0));
    for i := 0 to |order|
      invariant |settled| == slots
      invariant forall j | 0 <= j < i :: settled[order[j] - 1] == FetchOnePage(evaluated(order[j]), order[j])
    {
      settled := settled[order[i] - 1 := FetchOnePage(evaluated(order[i]), order[i])];
    }
    forall k | 0 <= k < |settled|
      ensures settled[k] == FetchOnePage(evaluated(k + 1), k + 1)
    {
      assert k + 1 in order;
    }
  }

  /** A fan-out page that is not a list with rows in it. */
  predicate Empty(e: Evaluated) {
    e.Failed? || e.value.NotAList? || e.value.rows == []
  }

  /** `_parallel_pages_once` once the count is known: the order in which the tasks settle does
      not show. A list only when every page is one with rows, and then merged from their rows, page
      after page; else the error of the first page that is not. */
  method ParallelPages(evaluated: nat -> Evaluated, count: int, order: seq<nat>) returns (r: Answer)
    requires SettlesAll(order, count)
    ensures r == Gathered(evaluated, count)
    ensures r.Got? <==> forall n | 1 <= n <= count :: !Empty(evaluated(n))
    ensures r.Got? ==> r.list == if count > 0 then Dedup(Fetched(evaluated, count)) else []
    ensures forall k | 1 <= k <= count && Empty(evaluated(k)) && forall j | 1 <= j < k :: !Empty(evaluated(j)) ::
              r == Raised(if evaluated(k).Failed? then Error(evaluated(k).message) else NoRows(k))
  {
    var settled := Gather(evaluated, count, order);
    var i := 0;
    while i < |settled|
      invariant i <= |settled|
      invariant FirstFailure(evaluated, i) == 0
      invariant forall k | 0 <= k < i :: settled[k].Rows?
    {
      if !settled[i].Rows? {
        assert FirstFailure(evaluated, i + 1) == i + 1;
        FailureStays(evaluated, i + 1, count);
        return Raised(settled[i]);
      }
      i := i + 1;
    }
    var merged := MergeAll(evaluated, settled);
    r := Got(merged);
  }

  method MergeAll(evaluated: nat -> Evaluated, pages: seq<Outcome>) returns (accumulator: seq<Row>)
    requires Settled(evaluated, pages) && forall k | 0 <= k < |pages| :: pages[k].Rows?
    ensures accumulator == Dedup(Fetched(evaluated, |pages|))
  {
    accumulator := [];
    var seen: set<Option<string>> := {};
    for i := 0 to |pages|
      invariant accumulator == Dedup(Fetched(evaluated, i)) && seen == Rids(Fetched(evaluated, i))
    {
      accumulator, seen := Merge(accumulator, seen, pages[i].rows, Fetched(evaluated, i));
    }
  }

  /** The rows of the pages stand one page after the other, each page's as they are. */
  lemma {:induction false} PagesInOrder(evaluated: nat -> Evaluated, n: nat, k: nat)
    requires 1 <= k <= n && evaluated(k).Returned? && evaluated(k).value.List?
    ensures Fetched(evaluated, 0) == []
    ensures |Fetched(evaluated, k - 1)| + |evaluated(k).value.rows| == |Fetched(evaluated, k)|
    ensures |Fetched(evaluated, k)| <= |Fetched(evaluated, n)|
    ensures Fetched(evaluated, n)[|Fetched(evaluated, k - 1)|..|Fetched(evaluated, k)|] == evaluated(k).value.rows
  {
    if k < n {
      PagesInOrder(evaluated, n - 1, k);
      var before := Fetched(evaluated, n - 1);
      assert Fetched(evaluated, n)[..|before|] == before;
    }
  }

  lemma {:induction false} FailureStays(evaluated: nat -> Evaluated, k: nat, n: nat)
    requires 1 <= k <= n && FirstFailure(evaluated, k) == k
    ensures FirstFailure(evaluated, n) == k
  {
  }

  // ------------------------------------------------------------- agreement

  function Least(a: int, b: int): int {
    if a <= b then a else b
  }

  /** The walk reads exactly pages 1 to `m` when, and only when, every earlier page has a Next
      that is seen to change the rows, and page `m` is at the limit or has none. */
  lemma {:induction false} ReachExactlyWhen(s: Site, maxPages: int, n: nat, m: nat)
    requires n <= m && (m <= maxPages || m == n)
    ensures Reach(s, maxPages, n) == m
       <==> && (forall k | n <= k < m :: s.next(k) && Changes(s, k))
            && (m >= maxPages || !s.next(m) || !Changes(s, m))
    decreases m - n
  {
    if n < m {
      if s.next(n) && Changes(s, n) {
        ReachExactlyWhen(s, maxPages, n + 1, m);
      }
    }
  }

  /** Both ways see one site of `p` pages: a fan-out page shows the rows of that page, each page
      has rows, Next leads on from all but the last, and a click on it shows other ids in time. */
  ghost predicate SameSite(s: Site, evaluated: nat -> Evaluated, p: nat, maxPages: int) {
    && (forall n | 1 <= n <= Least(p, maxPages) :: evaluated(n) == Returned(s.page(n)) && RowsOf(s.page(n)) != [])
    && (forall n | 1 <= n < Least(p, maxPages) :: s.next(n) && Changes(s, n))
    && (p < maxPages ==> !s.next(p))
  }

  lemma {:induction false} FetchedIsUpto(s: Site, evaluated: nat -> Evaluated, n: nat)
    requires forall k | 1 <= k <= n :: evaluated(k) == Returned(s.page(k))
    ensures Fetched(evaluated, n) == Upto(s, n)
  {
    if n > 0 {
      FetchedIsUpto(s, evaluated, n - 1);
    }
  }

  // What more rows add to a merged list.

  lemma RidsConcat(a: seq<Row>, b: seq<Row>)
    ensures Rids(a + b) == Rids(a) + Rids(b)
  {
    assert forall row :: row in a + b <==> row in a || row in b;
  }

  /** Merging more rows changes nothing exactly when they bring no new id. */
  lemma {:induction false} DedupSame(a: seq<Row>, b: seq<Row>)
    ensures Dedup(a + b) == Dedup(a) <==> Rids(b) <= Rids(a)
  {
    RidsConcat(a, b);
    if Rids(b) <= Rids(a) {
      NothingNewKept(a, b);
    } else {
      IdsAreKept(a);
      IdsAreKept(a + b);
    }
  }

  lemma {:induction false} NothingNewKept(a: seq<Row>, b: seq<Row>)
    requires Rids(b) <= Rids(a)
    ensures Dedup(a + b) == Dedup(a)
  {
    if b == [] {
      assert a + b == a;
    } else {
      var n := |b| - 1;
      assert b == b[..n] + [b[n]] && (a + b)[..|a + b| - 1] == a + b[..n];
      RidsConcat(b[..n], [b[n]]);
      RidsConcat(a, b[..n]);
      assert b[n] in b && Rid(b[n]) in Rids(b);
      NothingNewKept(a, b[..n]);
    }
  }

  /** The rows of pages `n + 1` to `m`. */
  function Between(rows: nat -> seq<Row>, n: nat, m: nat): seq<Row> {
    if m <= n then [] else Between(rows, n, m - 1) + rows(m)
  }

  predicate NothingNew(rows: seq<Row>, done: seq<Row>) {
    Rids(rows) <= Rids(done)
  }

  lemma {:induction false} BetweenNew(rows: nat -> seq<Row>, n: nat, m: nat, done: seq<Row>)
    ensures NothingNew(Between(rows, n, m), done) <==> forall k: nat | n < k <= m :: NothingNew(rows(k), done)
  {
    if n < m {
      RidsConcat(Between(rows, n, m - 1), rows(m));
      BetweenNew(rows, n, m - 1, done);
    }
  }

  function RowsAt(s: Site): nat -> seq<Row> {
    (k: nat) => RowsOf(s.page(k))
  }

  function FetchedAt(evaluated: nat -> Evaluated): nat -> seq<Row> {
    (k: nat) => if evaluated(k).Returned? then RowsOf(evaluated(k).value) else []
  }

  lemma {:induction false} UptoSplit(s: Site, n: nat, m: nat)
    requires n <= m
    ensures Upto(s, m) == Upto(s, n) + Between(RowsAt(s), n, m)
  {
    if n < m {
      UptoSplit(s, n, m - 1);
    }
  }

  lemma {:induction false} FetchedSplit(evaluated: nat -> Evaluated, n: nat, m: nat)
    requires n <= m
    ensures Fetched(evaluated, m) == Fetched(evaluated, n) + Between(FetchedAt(evaluated), n, m)
  {
    if n < m {
      FetchedSplit(evaluated, n, m - 1);
    }
  }

  /** Fetching `n` pages of a site of which the walk reads `m` loses nothing: the pages between
      bring no new id, and those past `m` do not fail either. */
  ghost predicate SameRows(s: Site, evaluated: nat -> Evaluated, n: nat, m: nat) {
    if n <= m then forall k: nat | n < k <= m :: NothingNew(RowsAt(s)(k), Upto(s, n))
    else
      && (forall k: nat | m < k <= n :: FetchOnePage(evaluated(k), k).Rows?)
      && (forall k: nat | m < k <= n :: NothingNew(FetchedAt(evaluated)(k), Upto(s, m)))
  }

  /** Whatever page count `n` is discovered: the fan-out answers what the walk does, the
      first-seen rows of pages 1 to the lesser of the site's count and the limit, exactly when
      the pages it leaves out bring no new id, or those it fetches too many neither fail nor
      bring one. */
  lemma FanOutIsWalkExactlyWhen(s: Site, evaluated: nat -> Evaluated, p: nat, maxPages: int, n: nat)
    requires p >= 1 && maxPages >= 1 && n >= 1 && SameSite(s, evaluated, p, maxPages)
    ensures Reach(s, maxPages, 1) == Least(p, maxPages)
    ensures Gathered(evaluated, n) == Got(Dedup(Upto(s, Least(p, maxPages))))
       <==> SameRows(s, evaluated, n, Least(p, maxPages))
    ensures n <= Least(p, maxPages) ==> Gathered(evaluated, n) == Got(Dedup(Upto(s, n)))
  {
    var m := Least(p, maxPages);
    ReachExactlyWhen(s, maxPages, 1, m);
    if n <= m {
      FetchedIsUpto(s, evaluated, n);
      UptoSplit(s, n, m);
      BetweenNew(RowsAt(s), n, m, Upto(s, n));
      DedupSame(Upto(s, n), Between(RowsAt(s), n, m));
    } else {
      TooManyPages(s, evaluated, n, m);
    }
  }

  lemma TooManyPages(s: Site, evaluated: nat -> Evaluated, n: nat, m: nat)
    requires m < n && forall k | 1 <= k <= m :: evaluated(k) == Returned(s.page(k)) && RowsOf(s.page(k)) != []
    ensures Gathered(evaluated, n) == Got(Dedup(Upto(s, m))) <==> SameRows(s, evaluated, n, m)
  {
    var k := FirstFailure(evaluated, n);
    if k == 0 {
      FetchedIsUpto(s, evaluated, m);
      MorePages(evaluated, n, m);
      assert forall j: nat | m < j <= n :: FetchOnePage(evaluated(j), j).Rows?;
    } else {
      assert !FetchOnePage(evaluated(k), k).Rows? && m < k <= n;
    }
  }

  lemma MorePages(evaluated: nat -> Evaluated, n: nat, m: nat)
    requires m < n
    ensures Dedup(Fetched(evaluated, n)) == Dedup(Fetched(evaluated, m))
       <==> forall k: nat | m < k <= n :: NothingNew(FetchedAt(evaluated)(k), Fetched(evaluated, m))
  {
    FetchedSplit(evaluated, m, n);
    BetweenNew(FetchedAt(evaluated), m, n, Fetched(evaluated, m));
    DedupSame(Fetched(evaluated, m), Between(FetchedAt(evaluated), m, n));
  }

  /** The two methods side by side, with whatever count is discovered. They agree exactly as
      above; so in particular when the URL comes to show the site's own count, and without a
      Last control when there is one page. */
  method BothWays(s: Site, evaluated: nat -> Evaluated, ghost p: nat, maxPages: int,
                  lastEnabled: bool, urlAt: nat -> Option<nat>, order: seq<nat>)
    returns (walked: seq<Row>, gathered: Answer)
    requires p >= 1 && maxPages >= 1 && SameSite(s, evaluated, p, maxPages)
    requires SettlesAll(order, Discovered(lastEnabled, urlAt, maxPages))
    ensures walked == Dedup(Upto(s, Least(p, maxPages)))
    ensures gathered == Got(walked)
       <==> SameRows(s, evaluated, Discovered(lastEnabled, urlAt, maxPages), Least(p, maxPages))
    ensures (if lastEnabled then Synced(urlAt, 0) == Some(p) else p == 1) ==> gathered == Got(walked)
  {
    ghost var last;
    walked, last := WalkNext(s, maxPages);
    var count := DiscoverPageCount(lastEnabled, urlAt, maxPages);
    gathered := ParallelPages(evaluated, count, order);
    FanOutIsWalkExactlyWhen(s, evaluated, p, maxPages, count);
  }

  // A site on which it fails: two pages of one row each.

  function OneRow(n: nat): Row {
    Object(Some(if n == 1 then "first" else "second"), "")
  }

  const TWO_PAGES := Site((n: nat) => List([OneRow(n)]), (n: nat) => n == 1, (n: nat) => 0)

  /** A Last click whose URL is not seen to change in time, or that still shows the page it was
      on, gives one page; and the fan-out then answers page 1 alone, without an error, where the
      walk returns both pages. */
  lemma UnsyncedLastIsPartial(urlAt: nat -> Option<nat>, maxPages: int)
    requires maxPages >= 2 && (Synced(urlAt, 0) == None || Synced(urlAt, 0) == Some(1))
    ensures SameSite(TWO_PAGES, (n: nat) => Returned(TWO_PAGES.page(n)), 2, maxPages)
    ensures Discovered(true, urlAt, maxPages) == 1
    ensures Gathered((n: nat) => Returned(TWO_PAGES.page(n)), 1) == Got([OneRow(1)])
    ensures Dedup(Upto(TWO_PAGES, Reach(TWO_PAGES, maxPages, 1))) == [OneRow(1), OneRow(2)]
  {
    var evaluated := (n: nat) => Returned(TWO_PAGES.page(n));
    OtherIds();
    assert SameSite(TWO_PAGES, evaluated, 2, maxPages);
    FanOutIsWalkExactlyWhen(TWO_PAGES, evaluated, 2, maxPages, 1);
    TwoRows();
  }

  lemma OtherIds()
    ensures Changes(TWO_PAGES, 1)
  {
    var first, second := TWO_PAGES.page(1), TWO_PAGES.page(2);
    assert RowsOf(first) == [OneRow(1)] && RowsOf(second) == [OneRow(2)];
    assert OneRow(1) in RowsOf(first) && Some("first") in Ids(first);
    assert "first"[0] == 'f' && "second"[0] == 's';
    assert Some("first") !in Ids(second);
  }

  lemma TwoRows()
    ensures Dedup(Upto(TWO_PAGES, 1)) == [OneRow(1)]
    ensures Dedup(Upto(TWO_PAGES, 2)) == [OneRow(1), OneRow(2)]
  {
    UptoTwo();
    assert [] + [OneRow(1)] == [OneRow(1)] && Dedup([]) == [];
    DedupAppend([], OneRow(1));
    NewRow();
    DedupAppend([OneRow(1)], OneRow(2));
  }

  lemma UptoTwo()
    ensures Upto(TWO_PAGES, 1) == [OneRow(1)] && Upto(TWO_PAGES, 2) == [OneRow(1)] + [OneRow(2)]
  {
    assert Upto(TWO_PAGES, 0) == [];
    assert RowsOf(TWO_PAGES.page(1)) == [OneRow(1)] && RowsOf(TWO_PAGES.page(2)) == [OneRow(2)];
    assert Upto(TWO_PAGES, 1) == Upto(TWO_PAGES, 0) + [OneRow(1)];
  }

  lemma NewRow()
    ensures Rid(OneRow(2)) !in Rids([OneRow(1)])
  {
    assert "first"[0] == 'f' && "second"[0] == 's';
  }

  /** With a limit of zero they part: the walk has read page 1 before it looks at the limit,
      the fan-out fetches no page. */
  lemma ZeroLimitParts(s: Site, evaluated: nat -> Evaluated, found: Option<nat>)
    requires RowsOf(s.page(1)) != []
    ensures Gathered(evaluated, Clamped(found, 0)) == Got([])
    ensures Dedup(Upto(s, Reach(s, 0, 1))) != []
  {
    assert Reach(s, 0, 1) == 1;
    var rows := Upto(s, 1);
    assert Upto(s, 0) == [] && rows == RowsOf(s.page(1));
    var at := DedupMeans(rows);
    assert FirstSeen(rows, 0) && 0 in at;
  }
}
