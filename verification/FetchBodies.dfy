/** Whose body is whose in `_fetch_batch` of android_solver/service.py. Every body is asked for
    under one reused id, and an ask that raises is swallowed; so what a position is given depends
    on what earlier asks left on the socket. */
module FetchBodies {
  import opened Wrappers
  import opened CdpSpec
  import opened CdpSocketClient
  import opened CdpPending
  import opened FetchBatches

  /** The body of position `i` is asked for, and the ask gives up on a receive error. */
  predicate GivesUp(urls: seq<string>, run: Run, i: nat)
    requires Shaped(urls, run) && i < |urls|
  {
    Wants(run.turns[i].events, urls[i]) && run.asks[i].Sent? && Answered(run.turns[i].wire, run.asks[i]).None?
  }

  /** How many asks before position `n` gave up. */
  function GaveUp(urls: seq<string>, run: Run, n: nat): nat
    requires Shaped(urls, run) && n <= |urls|
  {
    if n == 0 then 0 else GaveUp(urls, run, n - 1) + if GivesUp(urls, run, n - 1) then 1 else 0
  }

  /** How many answers to asks the load before position `i` skips, if there is one. */
  function SkippedAt(run: Run, i: nat): nat
    requires i < |run.loads| && i < |run.wires|
  {
    if Starts(i) then Under(ReadBy(run.wires[i], LOAD, run.loads[i]), BODY) else 0
  }

  /** How many answers to asks the loads before position `n` skipped. */
  function Skipped(run: Run, n: nat): nat
    requires n <= |run.loads| && n <= |run.wires|
  {
    if n == 0 then 0 else Skipped(run, n - 1) + SkippedAt(run, n - 1)
  }

  // ------------------------------------------------------------ conservation

  /** The load before position `i`, if there is one, leaves as many fewer answers to read as it skips. */
  lemma TurnConserves(urls: seq<string>, run: Run, i: nat)
    requires Lawful(urls, run) && i < |urls| && run.wires[i].Numbered()
    ensures run.turns[i].wire.Numbered()
    ensures Count(run.turns[i].wire, BODY) + SkippedAt(run, i) == Count(run.wires[i], BODY)
  {
    assert Follows(urls, run, i);
    if Starts(i) {
      CallingNumbered(run.wires[i], LOAD, run.loads[i]);
      AfterCallNumbered(run.wires[i], LOAD, run.loads[i]);
      CallConserves(run.wires[i], LOAD, run.loads[i], BODY);
    }
  }

  /** The ask at position `i`, if there is one, leaves one more answer to read if it gives up. */
  lemma AskConserves(urls: seq<string>, run: Run, i: nat)
    requires Lawful(urls, run) && i < |urls| && run.turns[i].wire.Numbered()
    ensures run.wires[i + 1].Numbered()
    ensures Count(run.wires[i + 1], BODY) == Count(run.turns[i].wire, BODY) + if GivesUp(urls, run, i) then 1 else 0
  {
    TurnAsks(urls, run, i);
    var w, a := run.turns[i].wire, run.asks[i];
    if Wants(run.turns[i].events, urls[i]) && a.Sent? {
      CallingNumbered(w, BODY, a.arrivals);
      AfterCallNumbered(w, BODY, a.arrivals);
      OwnCallConserves(w, BODY, a.arrivals);
    }
  }

  lemma StepConserves(urls: seq<string>, run: Run, i: nat)
    requires Lawful(urls, run) && i < |urls| && run.wires[i].Numbered()
    ensures run.wires[i + 1].Numbered()
    ensures Count(run.wires[i + 1], BODY) + SkippedAt(run, i)
         == Count(run.wires[i], BODY) + if GivesUp(urls, run, i) then 1 else 0
  {
    TurnConserves(urls, run, i);
    AskConserves(urls, run, i);
  }

  /** In every run: the answers still to be read are those that were to begin with, and one for
      each ask that gave up, but for those that loads have skipped. */
  lemma {:induction false} Conserved(urls: seq<string>, run: Run, n: nat)
    requires Lawful(urls, run) && run.wires[0].Numbered() && n <= |urls|
    ensures run.wires[n].Numbered()
    ensures Count(run.wires[n], BODY) + Skipped(run, n) == Count(run.wires[0], BODY) + GaveUp(urls, run, n)
  {
    if n > 0 {
      Conserved(urls, run, n - 1);
      StepConserves(urls, run, n - 1);
    }
  }

  lemma ConservedAtTurn(urls: seq<string>, run: Run, i: nat)
    requires Lawful(urls, run) && run.wires[0].Numbered() && i < |urls|
    ensures run.turns[i].wire.Numbered()
    ensures Count(run.turns[i].wire, BODY) + Skipped(run, i + 1) == Count(run.wires[0], BODY) + GaveUp(urls, run, i)
  {
    Conserved(urls, run, i);
    TurnConserves(urls, run, i);
  }

  // ------------------------------------------------------------- main results

  /** On a socket on which nobody asked for a body before: position `i` is sure to be given the
      answer to its own ask, whatever arrives, exactly when as many stale answers have been skipped
      by loads as earlier asks gave up. */
  lemma OwnBodyExactlyWhen(urls: seq<string>, run: Run, i: nat)
    requires Lawful(urls, run) && run.wires[0].Numbered() && Quiet(run.wires[0], BODY) && i < |urls|
    ensures Sure(run.turns[i].wire, BODY) <==> GaveUp(urls, run, i) == Skipped(run, i + 1)
  {
    var w := run.turns[i].wire;
    ConservedAtTurn(urls, run, i);
    QuietIsNonePending(run.wires[0], BODY);
    QuietIsNonePending(w, BODY);
    SureExactlyWhen(w, BODY);
    assert Count(w, BODY) == 0 <==> Pending(w, BODY) == {};
  }

  lemma {:induction false} GaveUpSince(urls: seq<string>, run: Run, m: nat, n: nat)
    requires Shaped(urls, run) && m <= n <= |urls|
    ensures GaveUp(urls, run, n) >= GaveUp(urls, run, m)
    ensures GaveUp(urls, run, n) == GaveUp(urls, run, m) <==> forall j | m <= j < n :: !GivesUp(urls, run, j)
    decreases n
  {
    if m < n {
      GaveUpSince(urls, run, m, n - 1);
    }
  }

  lemma {:induction false} SkippedInBatch(run: Run, start: nat, i: nat)
    requires Starts(start) && start <= i < NextStart(start) && i < |run.loads| && i < |run.wires|
    ensures Skipped(run, i + 1) == Skipped(run, start + 1)
    decreases i
  {
    if start < i {
      NotFirst(start, i);
      SkippedInBatch(run, start, i - 1);
    }
  }

  /** Within one batch: a position is sure of its own body exactly when the first was and no ask of
      the batch before it gave up. In the first batch the first position always is. */
  lemma OwnBodyInBatch(urls: seq<string>, run: Run, start: nat, i: nat)
    requires Lawful(urls, run) && run.wires[0].Numbered() && Quiet(run.wires[0], BODY)
    requires Starts(start) && start <= i < NextStart(start) && i < |urls|
    ensures Sure(run.turns[i].wire, BODY)
       <==> Sure(run.turns[start].wire, BODY) && forall j | start <= j < i :: !GivesUp(urls, run, j)
    ensures start == 0 ==> Sure(run.turns[start].wire, BODY)
  {
    OwnBodyExactlyWhen(urls, run, i);
    OwnBodyExactlyWhen(urls, run, start);
    SkippedInBatch(run, start, i);
    GaveUpSince(urls, run, start, i);
    QuietIsNonePending(run.wires[0], BODY);
    ConservedAtTurn(urls, run, start);
  }

  /** An image at position `i` is the answer to its own ask. */
  predicate Genuine(urls: seq<string>, run: Run, i: nat)
    requires Shaped(urls, run) && i < |urls|
  {
    var found := Answered(run.turns[i].wire, run.asks[i]);
    EntryAt(urls, run, i).Image? ==>
      && found.Some? && found.value.Answer? && found.value.to == run.turns[i].wire.sent
      && BodyOf(run.coding, found) == Body(true, EntryAt(urls, run, i).body)
  }

  /** A position that is sure of its own body is given that or nothing, answered or not. */
  lemma SureIsGenuine(urls: seq<string>, run: Run, i: nat)
    requires Lawful(urls, run) && run.wires[0].Numbered() && i < |urls| && Sure(run.turns[i].wire, BODY)
    ensures Genuine(urls, run, i)
  {
    var w, a := run.turns[i].wire, run.asks[i];
    ConservedAtTurn(urls, run, i);
    SureExactlyWhen(w, BODY);
    TurnAsks(urls, run, i);
    if EntryAt(urls, run, i).Image? {
      OwnOrNothing(w, BODY, a.arrivals);
    }
  }

  /** With no receive error on any ask, every image of the call is its own position's. */
  lemma NoneGivesUp(urls: seq<string>, run: Run, i: nat)
    requires Lawful(urls, run) && run.wires[0].Numbered() && Quiet(run.wires[0], BODY) && i < |urls|
    requires forall j | 0 <= j < i :: !GivesUp(urls, run, j)
    ensures Sure(run.turns[i].wire, BODY) && Genuine(urls, run, i)
  {
    GaveUpSince(urls, run, 0, i);
    QuietIsNonePending(run.wires[0], BODY);
    ConservedAtTurn(urls, run, i);
    OwnBodyExactlyWhen(urls, run, i);
    SureIsGenuine(urls, run, i);
  }

  // ------------------------------------------------------------------- runs

  /** Two URLs are loaded; asking for the body of the first gives up, and its answer comes while
      the second is asked for. */
  function Shifting(a: string, b: string, x: string, y: string): Run {
    var stale, own := Answer(BODY, 1, x), Answer(BODY, 2, y);
    Run([LoadFrames([], [a, b], 0), []], [Sent([]), Sent([stale, own])], Plain(Loading([a, b]), [x, y]), {}, {},
        [NEW, Wire([], map[1 := BODY], 2), Wire([own], map[], 3)],
        [Stage(Wire([], map[], 1), Seen([a, b])), Stage(Wire([], map[1 := BODY], 2), Seen([a, b]))])
  }

  lemma FirstGivesUp(n: nat)
    ensures var w := Wire([], map[], n);
            && w.Send(BODY).CanArriveAll([]) && Found(w, BODY, []).None?
            && AfterCall(w, BODY, []) == Wire([], map[n := BODY], n + 1)
  {
    var v := Calling(Wire([], map[], n), BODY, []);
    assert v == Wire([], map[n := BODY], n + 1);
    assert FirstAnswer(v.inbox, BODY) == 0;
  }

  lemma SecondGetsStale(n: nat, x: string, y: string)
    ensures var w, stale, own := Wire([], map[n := BODY], n + 1), Answer(BODY, n, x), Answer(BODY, n + 1, y);
            && w.Send(BODY).CanArriveAll([stale, own]) && Found(w, BODY, [stale, own]) == Some(stale)
            && AfterCall(w, BODY, [stale, own]) == Wire([own], map[], n + 2)
  {
    var w, stale, own := Wire([], map[n := BODY], n + 1), Answer(BODY, n, x), Answer(BODY, n + 1, y);
    ArrivesTwo(w.Send(BODY), stale, own);
    var v := Calling(w, BODY, [stale, own]);
    assert v.inbox == [stale, own] && v.owed == map[];
    assert FirstAnswer(v.inbox, BODY) == 0 && v.inbox[1..] == [own];
  }

  lemma ShiftingLoad(a: string, b: string, x: string, y: string)
    ensures var run := Shifting(a, b, x, y);
            && NEW.Send(LOAD).CanArriveAll(run.loads[0]) && Found(NEW, LOAD, run.loads[0]).Some?
            && Loaded(run.coding, NEW, run.loads[0]) == run.turns[0]
  {
    PlainReads(Loading([a, b]), [x, y], Loading([a, b]));
    PlainStage(NEW, [], [a, b], Shifting(a, b, x, y).coding);
  }

  lemma ShiftingFirst(a: string, b: string, x: string, y: string)
    ensures var run := Shifting(a, b, x, y);
            && Follows([a, b], run, 0) && Goes(run, 0) && Wants(Seen([a, b]), a)
            && Answered(run.turns[0].wire, run.asks[0]).None?
  {
    ShiftingLoad(a, b, x, y);
    SeenWants([a, b], a);
    FirstGivesUp(1);
  }

  lemma ShiftingSecond(a: string, b: string, x: string, y: string)
    ensures var run := Shifting(a, b, x, y);
            && Follows([a, b], run, 1) && Wants(Seen([a, b]), b)
            && Answered(run.turns[1].wire, run.asks[1]) == Some(Answer(BODY, 1, x))
  {
    SeenWants([a, b], b);
    SecondGetsStale(1, x, y);
  }

  lemma ShiftingCompletes(a: string, b: string, x: string, y: string)
    ensures Complete([a, b], Shifting(a, b, x, y))
  {
    forall i | 0 <= i < 2
      ensures Follows([a, b], Shifting(a, b, x, y), i) && (Starts(i) ==> Goes(Shifting(a, b, x, y), i))
    {
      if i == 0 {
        ShiftingFirst(a, b, x, y);
      } else {
        ShiftingSecond(a, b, x, y);
      }
    }
  }

  /** For any two URLs: the image of the first is delivered as the second's, all the way to the
      decoded list. */
  lemma ReceiveErrorShiftsImages(a: string, b: string, x: string, y: string)
    requires x != ""
    ensures var urls, run := [a, b], Shifting(a, b, x, y);
            && Complete(urls, run) && GivesUp(urls, run, 0)
            && EntryAt(urls, run, 0) == Failed(a, Some(200), "body unavailable")
            && EntryAt(urls, run, 1) == Image(b, x) && !Genuine(urls, run, 1)
            && Decoded(LastFor(ReplyOf(urls, run), b), Whole) == Some(x)
  {
    DecodedIsLastSame([a, b], Shifting(a, b, x, y), 1, Whole);
    ShiftingCompletes(a, b, x, y);
    ShiftingFirst(a, b, x, y);
    ShiftingSecond(a, b, x, y);
    assert x in [x, y];
  }

  /** Two batches: asking for a body of the first gives up, and its answer comes while the second
      batch loads. */
  function Healing(a: string, b: string, c: string, x: string, y: string): Run {
    var stale := Answer(BODY, 1, x);
    var late := Wire([], map[1 := BODY], 2);
    Run([LoadFrames([], [a], 0), [], [], [], LoadFrames([stale], [c], 2)],
        [Sent([]), Unsent, Unsent, Unsent, Sent([Answer(BODY, 3, y)])],
        Plain(Loading([a]) + Loading([c]), [x, y]), {}, {},
        [NEW, late, late, late, late, Wire([], map[], 4)],
        [Stage(Wire([], map[], 1), Seen([a])), Stage(late, Seen([a])), Stage(late, Seen([a])), Stage(late, Seen([a])),
         Stage(Wire([], map[], 3), Seen([c]))])
  }

  lemma HealingFirstLoad(a: string, b: string, c: string, x: string, y: string)
    ensures var run := Healing(a, b, c, x, y);
            && NEW.Send(LOAD).CanArriveAll(run.loads[0]) && Found(NEW, LOAD, run.loads[0]).Some?
            && Loaded(run.coding, NEW, run.loads[0]) == run.turns[0]
  {
    PlainReads(Loading([a]) + Loading([c]), [x, y], Loading([a]));
    PlainStage(NEW, [], [a], Healing(a, b, c, x, y).coding);
  }

  lemma HealingFirst(a: string, b: string, c: string, x: string, y: string)
    ensures var urls, run := [a, b, b, b, c], Healing(a, b, c, x, y);
            Follows(urls, run, 0) && Goes(run, 0) && GivesUp(urls, run, 0)
  {
    HealingFirstLoad(a, b, c, x, y);
    SeenWants([a], a);
    FirstGivesUp(1);
  }

  lemma HealingNext(a: string, b: string, c: string, x: string, y: string, i: nat)
    requires a != b && 1 <= i <= 3
    ensures var urls, run := [a, b, b, b, c], Healing(a, b, c, x, y); Follows(urls, run, i) && !GivesUp(urls, run, i)
  {
    var urls, run := [a, b, b, b, c], Healing(a, b, c, x, y);
    SeenWants([a], b);
    assert urls[i] == b && run.turns[i].events == Seen([a]) && run.turns[i - 1].events == Seen([a]);
    assert !Starts(i) && !Wants(run.turns[i].events, urls[i]);
    assert run.turns[i].wire == run.wires[i] == run.wires[i + 1];
  }

  lemma HealingLastLoad(a: string, b: string, c: string, x: string, y: string)
    ensures var run := Healing(a, b, c, x, y);
            && run.wires[4].Send(LOAD).CanArriveAll(run.loads[4]) && Found(run.wires[4], LOAD, run.loads[4]).Some?
            && Loaded(run.coding, run.wires[4], run.loads[4]) == run.turns[4]
  {
    PlainReads(Loading([a]) + Loading([c]), [x, y], Loading([c]));
    PlainStage(Wire([], map[1 := BODY], 2), [Answer(BODY, 1, x)], [c], Healing(a, b, c, x, y).coding);
  }

  lemma HealingLast(a: string, b: string, c: string, x: string, y: string)
    ensures var urls, run := [a, b, b, b, c], Healing(a, b, c, x, y);
            && Follows(urls, run, 4) && Goes(run, 4) && Wants(Seen([c]), c)
            && Answered(run.turns[4].wire, run.asks[4]) == Some(Answer(BODY, 3, y))
  {
    HealingLastLoad(a, b, c, x, y);
    SeenWants([c], c);
    PlainAsk(3, y);
  }

  lemma HealingCompletes(a: string, b: string, c: string, x: string, y: string)
    requires a != b
    ensures Complete([a, b, b, b, c], Healing(a, b, c, x, y))
  {
    var urls, run := [a, b, b, b, c], Healing(a, b, c, x, y);
    forall i | 0 <= i < |urls|
      ensures Follows(urls, run, i) && (Starts(i) ==> Goes(run, i))
    {
      if i == 0 {
        HealingFirst(a, b, c, x, y);
      } else if i == 4 {
        HealingLast(a, b, c, x, y);
      } else {
        HealingNext(a, b, c, x, y, i);
      }
    }
  }

  lemma HealingCounts(a: string, b: string, c: string, x: string, y: string)
    requires a != b
    ensures var urls, run := [a, b, b, b, c], Healing(a, b, c, x, y); GaveUp(urls, run, 4) == 1
  {
    var urls, run := [a, b, b, b, c], Healing(a, b, c, x, y);
    HealingFirst(a, b, c, x, y);
    forall i | 1 <= i < 4
      ensures !GivesUp(urls, run, i)
    {
      HealingNext(a, b, c, x, y, i);
    }
    GaveUpSince(urls, run, 1, 4);
    assert GaveUp(urls, run, 0) == 0 && GaveUp(urls, run, 1) == 1;
  }

  lemma HealingSure(a: string, b: string, c: string, x: string, y: string)
    requires a != b
    ensures var urls, run := [a, b, b, b, c], Healing(a, b, c, x, y);
            Skipped(run, 5) == 1 && Sure(run.turns[4].wire, BODY)
  {
    var urls, run := [a, b, b, b, c], Healing(a, b, c, x, y);
    HealingCompletes(a, b, c, x, y);
    HealingCounts(a, b, c, x, y);
    assert run.turns[4].wire == Wire([], map[], 3);
    SureExactlyWhen(Wire([], map[], 3), BODY);
    OwnBodyExactlyWhen(urls, run, 4);
  }

  /** A load heals it: the collecting call skips answers under other ids, and an ask of a later
      batch is given its own body again although one before it gave up. */
  lemma LoadSkipsStale(a: string, b: string, c: string, x: string, y: string)
    requires a != b && y != ""
    ensures var urls, run := [a, b, b, b, c], Healing(a, b, c, x, y);
            && Complete(urls, run) && GivesUp(urls, run, 0) && GaveUp(urls, run, 4) == 1 == Skipped(run, 5)
            && Sure(run.turns[4].wire, BODY) && EntryAt(urls, run, 4) == Image(c, y)
  {
    HealingCompletes(a, b, c, x, y);
    HealingFirst(a, b, c, x, y);
    HealingCounts(a, b, c, x, y);
    HealingSure(a, b, c, x, y);
    HealingLast(a, b, c, x, y);
    assert y in [x, y];
  }

  // ---------------------------------------------------------------- the whole

  /** The decoded list, from the gateway's call to its result. For distinct URLs it has at every
      position exactly the body captured there, and nothing where it failed; and while no ask gave
      up that is the answer to the position's own ask. */
  method FetchImages<B>(ws: CdpSocket, urls: seq<string>, run: Run, decode: string -> B)
    returns (r: Fetched, out: seq<Option<B>>)
    requires Lawful(urls, run) && ws.View() == run.wires[0]
    modifies ws
    ensures r.Entries? <==> AllGo(run, |urls|)
    ensures r.Entries? ==>
              && |out| == |urls|
              && (forall i | 0 <= i < |urls| :: out[i] == Wanted(urls, run, LastSame(urls, i), decode))
              && ((forall i, j | 0 <= i < j < |urls| :: urls[i] != urls[j])
                  ==> forall i | 0 <= i < |urls| :: out[i] == Wanted(urls, run, i, decode))
    ensures run.wires[0].Numbered() && Quiet(run.wires[0], BODY)
            && (forall i | 0 <= i < |urls| :: !GivesUp(urls, run, i))
            ==> forall i | 0 <= i < |urls| :: Genuine(urls, run, i)
  {
    out := [];
    r := DriveFetchImages(ws, urls, run);
    if r.Entries? {
      RepliesOfRun(urls, run, r.entries);
      out := DecodeFetchImages(AsReplies(r.entries), urls, decode);
      forall i | 0 <= i < |urls|
        ensures out[i] == Wanted(urls, run, LastSame(urls, i), decode)
      {
        DecodedIsLastSame(urls, run, i, decode);
      }
    }
    AllGenuine(urls, run);
  }

  lemma AllGenuine(urls: seq<string>, run: Run)
    requires Lawful(urls, run)
    ensures run.wires[0].Numbered() && Quiet(run.wires[0], BODY)
            && (forall i | 0 <= i < |urls| :: !GivesUp(urls, run, i))
            ==> forall i | 0 <= i < |urls| :: Genuine(urls, run, i)
  {
    if run.wires[0].Numbered() && Quiet(run.wires[0], BODY) && forall i | 0 <= i < |urls| :: !GivesUp(urls, run, i) {
      forall i | 0 <= i < |urls|
        ensures Genuine(urls, run, i)
      {
        NoneGivesUp(urls, run, i);
      }
    }
  }

  function AsReplies(entries: seq<Entry>): (reply: seq<Reply>)
    ensures |reply| == |entries|
  {
    seq(|entries|, i requires 0 <= i < |entries| => AsReply(entries[i]))
  }

  lemma RepliesOfRun(urls: seq<string>, run: Run, entries: seq<Entry>)
    requires Shaped(urls, run) && |entries| == |urls| && AreEntries(urls, run, 0, entries)
    ensures AsReplies(entries) == ReplyOf(urls, run)
  {
  }
}
