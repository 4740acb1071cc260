/** Image fetching through the WebView, end to end: the sidecar's batches of
    android_solver/service.py (`_drive_fetch_images`, `_fetch_batch`) over one devtools socket,
    and the gateway's decoding of their reply (`_decode_fetch_images` in
    src/manga_gateway/framework/android_solver.py). How frames are coded, and the base64 decoder
    (section 4 of RFC 4648), are parameters. */
module FetchBatches {
  import opened Wrappers
  import opened CdpSpec
  import opened CdpSocketClient
  import opened CdpPending

  /** Every fourth position starts a batch. */
  predicate Starts(i: nat) {
    i % 4 == 0
  }

  function NextStart(i: nat): nat {
    i + 4
  }

  /** The ids of the two commands of a batch: loading it, and asking for one body. */
  const LOAD := 505
  const BODY := 506

  /** The devtools events that arrived while a batch of images loaded. A request whose URL is
      no string, or a response whose status is no integer, is as good as none. */
  datatype Event =
    | RequestSent(url: Option<string>, rid: string)
    | ResponseReceived(rid: string, status: Option<int>)
    | OtherEvent

  /** How asking for a response body went. */
  datatype Body = Raised | Body(encoded: bool, data: string)

  datatype Entry = Image(url: string, body: string) | Failed(url: string, status: Option<int>, error: string)

  // ------------------------------------------------------------ one batch

  /** Event `j` is the first request for the URL. */
  ghost predicate FirstRequest(events: seq<Event>, url: string, j: nat) {
    && j < |events| && events[j].RequestSent? && events[j].url == Some(url)
    && forall i | 0 <= i < j && events[i].RequestSent? :: events[i].url != Some(url)
  }

  /** Event `j` is the last that tells a status of the request. */
  ghost predicate LastStatus(events: seq<Event>, rid: string, j: nat) {
    && j < |events| && events[j].ResponseReceived? && events[j].rid == rid && events[j].status.Some?
    && forall i | j < i < |events| && events[i].ResponseReceived? && events[i].rid == rid :: events[i].status.None?
  }

  /** The id under which a URL was first requested. */
  function RequestId(events: seq<Event>, url: string): (r: Option<string>)
    ensures r.Some? <==> exists j :: 0 <= j < |events| && events[j].RequestSent? && events[j].url == Some(url)
    decreases |events|
  {
    if events == [] then None
    else
      var rest := events[..|events| - 1];
      var last := events[|events| - 1];
      var r := RequestId(rest, url);
      if r.None? && last.RequestSent? && last.url == Some(url) then
        assert events[|events| - 1] == last;
        Some(last.rid)
      else r
  }

  lemma {:induction false} RequestIdIsFirst(events: seq<Event>, url: string, j: nat)
    requires FirstRequest(events, url, j)
    ensures RequestId(events, url) == Some(events[j].rid)
  {
    var n := |events| - 1;
    if j < n {
      RequestIdIsFirst(events[..n], url, j);
    } else {
      assert forall i | 0 <= i < n :: events[..n][i] == events[i];
    }
  }

  /** The status last seen for a request. */
  function StatusOf(events: seq<Event>, rid: string): Option<int>
    decreases |events|
  {
    if events == [] then None
    else
      var last := events[|events| - 1];
      if last.ResponseReceived? && last.rid == rid && last.status.Some? then last.status
      else StatusOf(events[..|events| - 1], rid)
  }

  lemma {:induction false} StatusIsLast(events: seq<Event>, rid: string)
    ensures forall j: nat | LastStatus(events, rid, j) :: StatusOf(events, rid) == events[j].status
    ensures (forall i | 0 <= i < |events| && events[i].ResponseReceived? && events[i].rid == rid ::
              events[i].status.None?) ==> StatusOf(events, rid) == None
  {
    if events != [] {
      var n := |events| - 1;
      StatusIsLast(events[..n], rid);
      assert forall i | 0 <= i < n :: events[..n][i] == events[i];
      forall j: nat | LastStatus(events, rid, j)
        ensures StatusOf(events, rid) == events[j].status
      {
        if j < n {
          assert LastStatus(events[..n], rid, j);
        }
      }
    }
  }

  /** The page loaded the URL, so that its body is asked for. */
  predicate Wants(events: seq<Event>, url: string) {
    RequestId(events, url).Some? && StatusOf(events, RequestId(events, url).value) == Some(200)
  }

  /** What becomes of one URL: its image when it was requested, answered 200 and its body came
      back base64-coded and not empty; and otherwise why not. */
  function EntryFor(url: string, events: seq<Event>, body: Body): (e: Entry)
    ensures e.url == url
    ensures e.Image? <==> Wants(events, url) && body.Body? && body.encoded && body.data != ""
    ensures e.Image? ==> e.body == body.data
  {
    match RequestId(events, url)
    case None => Failed(url, None, "no network request observed")
    case Some(rid) =>
      var status := StatusOf(events, rid);
      if status != Some(200) then Failed(url, status, "http status")
      else if body.Body? && body.encoded && body.data != "" then Image(url, body.data)
      else Failed(url, Some(200), "body unavailable")
  }

  /** What becomes of a URL, from the events alone. Not requested: a failure without a status. With
      its first request's last status 200: its image, if a body came that is base64-coded and not
      empty, else a failure with that status; and with any other last status, or none, a failure
      with what there is. */
  lemma EntryIsFor(url: string, events: seq<Event>, body: Body)
    ensures (forall i | 0 <= i < |events| && events[i].RequestSent? :: events[i].url != Some(url)) ==>
              EntryFor(url, events, body) == Failed(url, None, "no network request observed")
    ensures forall j: nat, k: nat | FirstRequest(events, url, j) && LastStatus(events, events[j].rid, k) ::
              EntryFor(url, events, body)
              == if events[k].status != Some(200) then Failed(url, events[k].status, "http status")
                 else if body.Body? && body.encoded && |body.data| > 0 then Image(url, body.data)
                 else Failed(url, Some(200), "body unavailable")
    ensures forall j: nat | FirstRequest(events, url, j)
              && (forall i | 0 <= i < |events| && events[i].ResponseReceived? && events[i].rid == events[j].rid ::
                    events[i].status.None?) ::
              EntryFor(url, events, body) == Failed(url, None, "http status")
  {
    forall j: nat | FirstRequest(events, url, j)
      ensures RequestId(events, url) == Some(events[j].rid)
    {
      RequestIdIsFirst(events, url, j);
      StatusIsLast(events, events[j].rid);
    }
    forall j: nat, k: nat | FirstRequest(events, url, j) && LastStatus(events, events[j].rid, k)
      ensures StatusOf(events, events[j].rid) == events[k].status
    {
      StatusIsLast(events, events[j].rid);
    }
    forall j: nat | FirstRequest(events, url, j)
              && (forall i | 0 <= i < |events| && events[i].ResponseReceived? && events[i].rid == events[j].rid ::
                    events[i].status.None?)
      ensures StatusOf(events, events[j].rid) == None
    {
      StatusIsLast(events, events[j].rid);
    }
  }

  /** One pass over the events fills both tables: the first request of a URL wins, the last
      status of a request wins. */
  method Tables(events: seq<Event>) returns (requestIds: map<string, string>, statuses: map<string, int>)
    ensures forall url :: RequestId(events, url) == if url in requestIds then Some(requestIds[url]) else None
    ensures forall rid :: StatusOf(events, rid) == if rid in statuses then Some(statuses[rid]) else None
  {
    requestIds, statuses := map[], map[];
    var i := 0;
    while i < |events|
      invariant i <= |events|
      invariant forall url :: RequestId(events[..i], url) == if url in requestIds then Some(requestIds[url]) else None
      invariant forall rid :: StatusOf(events[..i], rid) == if rid in statuses then Some(statuses[rid]) else None
    {
      assert events[..i + 1][..i] == events[..i];
      match events[i] {
        case RequestSent(Some(url), rid) =>
          if url !in requestIds {
            requestIds := requestIds[url := rid];
          }
        case ResponseReceived(rid, Some(status)) => statuses := statuses[rid := status];
        case _ =>
      }
      i := i + 1;
    }
    assert events[..i] == events;
  }

  // ------------------------------------------------------- over the socket

  /** What the code reads out of the JSON of the frames of a run, as a table: the event a frame
      is, and the body an answer's text holds, with whether it is coded. */
  datatype Coding = Coding(events: map<Frame, Event>, bodies: map<string, (bool, string)>)

  function EventIn(c: Coding, f: Frame): Event {
    if f in c.events then c.events[f] else OtherEvent
  }

  function Coded(c: Coding, frames: seq<Frame>): (events: seq<Event>)
    ensures |events| == |frames|
  {
    if frames == [] then [] else Coded(c, frames[..|frames| - 1]) + [EventIn(c, frames[|frames| - 1])]
  }

  /** One ask for a body: its sending fails, or frames arrive while it waits. */
  datatype Ask = Unsent | Sent(arrivals: seq<Frame>)

  /** What an ask finds on the wire: with no answer under the id to read its receive raises. */
  function Answered(w: Wire, a: Ask): Option<Frame> {
    if a.Unsent? then None else Found(w, BODY, a.arrivals)
  }

  function AfterAsk(w: Wire, a: Ask): Wire {
    if a.Unsent? then w else AfterCall(w, BODY, a.arrivals)
  }

  function BodyOf(c: Coding, f: Option<Frame>): Body {
    if f.None? || !f.value.Answer? then Raised
    else if f.value.body in c.bodies then Body(c.bodies[f.value.body].0, c.bodies[f.value.body].1)
    else Body(false, "")
  }

  /** The turn of a position: the wire, and the events collected in the load of its batch. */
  datatype Stage = Stage(wire: Wire, events: seq<Event>)

  /** One run. What the peer, the page and the clock do: the frames that arrive in the load before
      a position, how asking for its body goes, if it is asked for, how frames are coded, and
      whether the run is cancelled or past its deadline before a position. And what comes of it:
      the wire before a position is come to, and its turn. */
  datatype Run = Run(loads: seq<seq<Frame>>, asks: seq<Ask>, coding: Coding, cancelled: set<nat>, late: set<nat>,
                     wires: seq<Wire>, turns: seq<Stage>)

  predicate Shaped(urls: seq<string>, run: Run) {
    |run.loads| == |run.asks| == |run.turns| == |urls| && |run.wires| == |urls| + 1
  }

  function Loaded(c: Coding, w: Wire, load: seq<Frame>): Stage {
    var inbox := Calling(w, LOAD, load).inbox;
    Stage(AfterCall(w, LOAD, load), Coded(c, EventsOf(inbox[..FirstAnswer(inbox, LOAD)])))
  }

  /** The body of the URL is asked for, if it was loaded. */
  function Taken(s: Stage, url: string, a: Ask): Wire {
    if Wants(s.events, url) then AfterAsk(s.wire, a) else s.wire
  }

  predicate CanAsk(w: Wire, a: Ask) {
    a.Sent? ==> w.Send(BODY).CanArriveAll(a.arrivals)
  }

  /** What the code does at position `i`, and that the peer keeps to its rules there: the batch is
      loaded first, if this is the first position in it. */
  predicate Follows(urls: seq<string>, run: Run, i: nat)
    requires Shaped(urls, run) && i < |urls|
  {
    && (if Starts(i) then
          && run.wires[i].Send(LOAD).CanArriveAll(run.loads[i])
          && run.turns[i] == Loaded(run.coding, run.wires[i], run.loads[i])
        else
          run.turns[i] == Stage(run.wires[i], run.turns[i - 1].events))
    && (Wants(run.turns[i].events, urls[i]) ==> CanAsk(run.turns[i].wire, run.asks[i]))
    && run.wires[i + 1] == Taken(run.turns[i], urls[i], run.asks[i])
  }

  ghost predicate Lawful(urls: seq<string>, run: Run) {
    Shaped(urls, run) && forall i {:trigger Follows(urls, run, i)} | 0 <= i < |urls| :: Follows(urls, run, i)
  }

  /** The load before position `i` is answered; else its receive raises, which ends the whole fetch. */
  predicate Loads(run: Run, i: nat)
    requires i < |run.loads| && i < |run.wires|
  {
    Found(run.wires[i], LOAD, run.loads[i]).Some?
  }

  /** The entry a run gives to the URL at position `i`. */
  function EntryAt(urls: seq<string>, run: Run, i: nat): Entry
    requires Shaped(urls, run) && i < |urls|
  {
    EntryFor(urls[i], run.turns[i].events, BodyOf(run.coding, Answered(run.turns[i].wire, run.asks[i])))
  }

  /** These are the entries of the positions from `start` on. */
  ghost predicate AreEntries(urls: seq<string>, run: Run, start: nat, entries: seq<Entry>)
    requires Shaped(urls, run)
  {
    && start + |entries| <= |urls|
    && forall k | 0 <= k < |entries| :: entries[k] == EntryAt(urls, run, start + k)
  }

  lemma EntriesJoin(urls: seq<string>, run: Run, start: nat, entries: seq<Entry>, more: seq<Entry>)
    requires Shaped(urls, run)
    requires AreEntries(urls, run, start, entries) && AreEntries(urls, run, start + |entries|, more)
    ensures AreEntries(urls, run, start, entries + more)
  {
    forall k | 0 <= k < |entries + more|
      ensures (entries + more)[k] == EntryAt(urls, run, start + k)
    {
      if k >= |entries| {
        var m := k - |entries|;
        assert more[m] == EntryAt(urls, run, start + |entries| + m);
      }
    }
  }

  lemma OneEntry(urls: seq<string>, run: Run, i: nat, e: Entry)
    requires Shaped(urls, run) && i < |urls| && e == EntryAt(urls, run, i)
    ensures AreEntries(urls, run, i, [e])
  {
  }

  /** `_fetch_batch` for the batch that starts at position `start` of `urls`. */
  method FetchBatch(ws: CdpSocket, batch: seq<string>, run: Run, start: nat, ghost urls: seq<string>)
    returns (out: Option<seq<Entry>>)
    requires Lawful(urls, run) && Starts(start) && 0 < |batch| && start + |batch| <= |urls|
    requires start + |batch| <= NextStart(start) && batch == urls[start..start + |batch|]
    requires ws.View() == run.wires[start]
    modifies ws
    ensures out.Some? <==> Loads(run, start)
    ensures out.Some? ==> ws.View() == run.wires[start + |batch|]
    ensures out.Some? ==> |out.value| == |batch| && AreEntries(urls, run, start, out.value)
  {
    var events := LoadBatch(ws, run, start, urls);
    if events.None? {
      return None;
    }
    var requestIds, statuses := Tables(events.value);
    var entries: seq<Entry> := [];
    var i := start;
    while i < start + |batch|
      invariant start <= i <= start + |batch| && |entries| == i - start
      invariant i < start + |batch| ==> run.turns[i] == Stage(ws.View(), events.value)
      invariant i == start + |batch| ==> ws.View() == run.wires[i]
      invariant AreEntries(urls, run, start, entries)
    {
      TurnAsks(urls, run, i);
      var e := FetchOne(ws, batch[i - start], requestIds, statuses, run.asks[i], run.coding, events.value);
      OneEntry(urls, run, i, e);
      EntriesJoin(urls, run, start, entries, [e]);
      entries := entries + [e];
      i := i + 1;
      if i < start + |batch| {
        NotFirst(start, i);
      }
    }
    out := Some(entries);
  }

  /** The load of a batch; with no answer to it its receive raises. */
  method LoadBatch(ws: CdpSocket, run: Run, start: nat, ghost urls: seq<string>) returns (events: Option<seq<Event>>)
    requires Lawful(urls, run) && start < |urls| && Starts(start) && ws.View() == run.wires[start]
    modifies ws
    ensures events.Some? <==> Loads(run, start)
    ensures events.Some? ==> run.turns[start] == Stage(ws.View(), events.value)
  {
    assert Follows(urls, run, start);
    var loaded, frames := ws.CdpCallCollecting(LOAD, run.loads[start]);
    events := if loaded.None? then None else Some(Coded(run.coding, frames));
  }

  lemma TurnAsks(urls: seq<string>, run: Run, i: nat)
    requires Lawful(urls, run) && i < |urls|
    ensures Wants(run.turns[i].events, urls[i]) ==> CanAsk(run.turns[i].wire, run.asks[i])
    ensures run.wires[i + 1] == Taken(run.turns[i], urls[i], run.asks[i])
    ensures i + 1 < |urls| && !Starts(i + 1) ==> run.turns[i + 1] == Stage(run.wires[i + 1], run.turns[i].events)
  {
    assert Follows(urls, run, i);
    if i + 1 < |urls| {
      assert Follows(urls, run, i + 1);
    }
  }

  lemma NotFirst(start: nat, i: nat)
    requires Starts(start) && start <= i < NextStart(start)
    ensures Starts(i) <==> i == start
  {
  }

  /** One turn of the loop over a batch: ask for the body if the URL was loaded, and note what
      became of it. */
  method FetchOne(ws: CdpSocket, url: string, requestIds: map<string, string>, statuses: map<string, int>,
                  a: Ask, c: Coding, ghost events: seq<Event>)
    returns (e: Entry)
    requires RequestId(events, url) == if url in requestIds then Some(requestIds[url]) else None
    requires forall rid :: StatusOf(events, rid) == if rid in statuses then Some(statuses[rid]) else None
    requires Wants(events, url) ==> CanAsk(ws.View(), a)
    modifies ws
    ensures e == EntryFor(url, events, BodyOf(c, Answered(old(ws.View()), a)))
    ensures ws.View() == if Wants(events, url) then AfterAsk(old(ws.View()), a) else old(ws.View())
  {
    if url !in requestIds {
      return Failed(url, None, "no network request observed");
    }
    var rid := requestIds[url];
    assert StatusOf(events, rid) == if rid in statuses then Some(statuses[rid]) else None;
    var status := if rid in statuses then Some(statuses[rid]) else None;
    if status != Some(200) {
      return Failed(url, status, "http status");
    }
    var body := AskBody(ws, a, c);
    if body.Body? && body.encoded && body.data != "" {
      e := Image(url, body.data);
    } else {
      e := Failed(url, Some(200), "body unavailable");
    }
  }

  /** Asking for one body; whatever raises is swallowed. */
  method AskBody(ws: CdpSocket, a: Ask, c: Coding) returns (body: Body)
    requires CanAsk(ws.View(), a)
    modifies ws
    ensures body == BodyOf(c, Answered(old(ws.View()), a))
    ensures ws.View() == AfterAsk(old(ws.View()), a)
  {
    if a.Unsent? {
      return Raised;
    }
    var f := ws.CdpCall(BODY, a.arrivals);
    body := BodyOf(c, f);
  }

  // ---------------------------------------------------------- all batches

  /** What stops a run, and at which batch, named by its first position. */
  datatype Fetched = Entries(entries: seq<Entry>) | Cancelled(at: nat) | Expired(at: nat) | Broken(at: nat)

  /** The batch that starts at position `i` is fetched: it is in time, not cancelled, and loads. */
  predicate Goes(run: Run, i: nat)
    requires i < |run.loads| && i < |run.wires|
  {
    i !in run.cancelled && i !in run.late && Loads(run, i)
  }

  ghost predicate AllGo(run: Run, n: nat)
    requires n <= |run.loads| && n <= |run.wires|
  {
    forall i | 0 <= i < n && Starts(i) :: Goes(run, i)
  }

  /** One entry for each URL, in order, from the events of its own batch and the socket it has
      come to; or the first reason to stop, looked at before each batch, a cancellation before a
      deadline, and then whether the batch loads. */
  method DriveFetchImages(ws: CdpSocket, urls: seq<string>, run: Run) returns (r: Fetched)
    requires Lawful(urls, run) && ws.View() == run.wires[0]
    modifies ws
    ensures r.Entries? <==> AllGo(run, |urls|)
    ensures r.Entries? ==> |r.entries| == |urls| && AreEntries(urls, run, 0, r.entries)
    ensures !r.Entries? ==>
              && r.at < |urls| && Starts(r.at) && !Goes(run, r.at) && AllGo(run, r.at)
              && (r.Cancelled? <==> r.at in run.cancelled)
              && (r.Expired? <==> r.at !in run.cancelled && r.at in run.late)
              && r.at % 4 == 0 && forall i | 0 <= i < r.at && i % 4 == 0 :: Goes(run, i)
  {
    var results: seq<Entry> := [];
    var start := 0;
    while start < |urls|
      invariant Starts(start) && |results| == if start < |urls| then start else |urls|
      invariant ws.View() == run.wires[|results|]
      invariant AreEntries(urls, run, 0, results)
      invariant AllGo(run, |results|)
      decreases |urls| - start
    {
      if start in run.cancelled {
        assert !Goes(run, start);
        return Cancelled(start);
      }
      if start in run.late {
        assert !Goes(run, start);
        return Fetched.Expired(start);
      }
      var end := if NextStart(start) <= |urls| then NextStart(start) else |urls|;
      var more := FetchBatch(ws, urls[start..end], run, start, urls);
      if more.None? {
        assert !Goes(run, start);
        return Broken(start);
      }
      GoOn(run, start, end);
      EntriesJoin(urls, run, 0, results, more.value);
      results := results + more.value;
      start := NextStart(start);
    }
    r := Entries(results);
  }

  lemma GoOn(run: Run, start: nat, end: nat)
    requires Starts(start) && start < end <= NextStart(start) && end <= |run.loads| && end <= |run.wires|
    requires AllGo(run, start) && Goes(run, start)
    ensures AllGo(run, end)
  {
    forall i | start < i < end ensures !Starts(i) {
      NotFirst(start, i);
    }
  }

  // --------------------------------------------------------- the gateway

  /** An element of the reply as the gateway sees it: any JSON value, which may lack a URL or a body. */
  datatype Reply = NotAnObject | Object(url: Option<string>, body: Option<string>)

  function AsReply(e: Entry): Reply {
    Object(Some(e.url), if e.Image? then Some(e.body) else None)
  }

  /** The last element of a reply that names the URL. */
  function LastFor(reply: seq<Reply>, url: string): (r: Option<Reply>)
    ensures r.None? <==> forall j | 0 <= j < |reply| :: reply[j].NotAnObject? || reply[j].url != Some(url)
    ensures r.Some? ==> r.value.Object?
    decreases |reply|
  {
    if reply == [] then None
    else
      var last := reply[|reply| - 1];
      if last.Object? && last.url == Some(url) then Some(last) else LastFor(reply[..|reply| - 1], url)
  }

  function Decoded<B>(entry: Option<Reply>, decode: string -> B): Option<B> {
    if entry.Some? && entry.value.Object? && entry.value.body.Some? && entry.value.body.value != ""
    then Some(decode(entry.value.body.value))
    else None
  }

  lemma {:induction false} LastForAt(reply: seq<Reply>, url: string, j: nat)
    requires j < |reply| && reply[j].Object? && reply[j].url == Some(url)
    requires forall k | j < k < |reply| :: reply[k].NotAnObject? || reply[k].url != Some(url)
    ensures LastFor(reply, url) == Some(reply[j])
    decreases |reply|
  {
    if j < |reply| - 1 {
      LastForAt(reply[..|reply| - 1], url, j);
    }
  }

  /** Element `j` is the last of the reply to name the URL. */
  ghost predicate LastNaming(reply: seq<Reply>, url: string, j: int) {
    && 0 <= j < |reply| && reply[j].Object? && reply[j].url == Some(url)
    && forall k | j < k < |reply| && reply[k].Object? :: reply[k].url != Some(url)
  }

  /** `_decode_fetch_images`: aligned to the URLs asked for, whatever the order of the reply. */
  method DecodeFetchImages<B>(reply: seq<Reply>, urls: seq<string>, decode: string -> B) returns (out: seq<Option<B>>)
    ensures |out| == |urls|
    ensures forall i | 0 <= i < |urls| :: out[i] == Decoded(LastFor(reply, urls[i]), decode)
    ensures forall i, j | 0 <= i < |urls| && LastNaming(reply, urls[i], j) ::
              out[i] == if reply[j].body.Some? && |reply[j].body.value| > 0 then Some(decode(reply[j].body.value))
                        else None
    ensures forall i | 0 <= i < |urls| && (forall j | 0 <= j < |reply| && reply[j].Object? ::
              reply[j].url != Some(urls[i])) :: out[i] == None
  {
    forall i, j | 0 <= i < |urls| && LastNaming(reply, urls[i], j)
      ensures LastFor(reply, urls[i]) == Some(reply[j])
    {
      LastForAt(reply, urls[i], j);
    }
    var byUrl: map<Option<string>, Reply> := map[];
    var k := 0;
    while k < |reply|
      invariant k <= |reply|
      invariant forall url :: LastFor(reply[..k], url) == if Some(url) in byUrl then Some(byUrl[Some(url)]) else None
    {
      assert reply[..k + 1][..k] == reply[..k];
      if reply[k].Object? {
        byUrl := byUrl[reply[k].url := reply[k]];
      }
      k := k + 1;
    }
    assert reply[..k] == reply;
    out := [];
    for i := 0 to |urls|
      invariant |out| == i
      invariant forall j | 0 <= j < i :: out[j] == Decoded(LastFor(reply, urls[j]), decode)
    {
      var url := urls[i];
      assert LastFor(reply, url) == if Some(url) in byUrl then Some(byUrl[Some(url)]) else None;
      if Some(url) in byUrl && byUrl[Some(url)].body.Some? && byUrl[Some(url)].body.value != "" {
        out := out + [Some(decode(byUrl[Some(url)].body.value))];
      } else {
        out := out + [None];
      }
    }
  }

  // ----------------------------------------------------------- end to end

  /** What the caller wants at position `i`: the body captured for that URL there, if any. */
  function Wanted<B>(urls: seq<string>, run: Run, i: nat, decode: string -> B): Option<B>
    requires Shaped(urls, run) && i < |urls|
  {
    var e := EntryAt(urls, run, i);
    if e.Image? then Some(decode(e.body)) else None
  }

  function ReplyOf(urls: seq<string>, run: Run): (reply: seq<Reply>)
    requires Shaped(urls, run)
    ensures |reply| == |urls|
  {
    seq(|urls|, i requires 0 <= i < |urls| => AsReply(EntryAt(urls, run, i)))
  }

  /** The last position that asks for the same URL as position `i`. */
  function LastSame(urls: seq<string>, i: nat): (j: nat)
    requires i < |urls|
    ensures i <= j < |urls| && urls[j] == urls[i] && urls[i] !in urls[j + 1..]
    decreases |urls|
  {
    var n := |urls| - 1;
    if urls[n] == urls[i] then n
    else
      var j := LastSame(urls[..n], i);
      assert urls[..n][j] == urls[j] && urls[j + 1..] == urls[..n][j + 1..] + [urls[n]];
      j
  }

  lemma LastSameIsOwn(urls: seq<string>, i: nat)
    requires i < |urls|
    ensures LastSame(urls, i) == i <==> urls[i] !in urls[i + 1..]
  {
  }

  lemma LastInReply(urls: seq<string>, run: Run, i: nat)
    requires Shaped(urls, run) && i < |urls|
    ensures LastFor(ReplyOf(urls, run), urls[i]) == Some(AsReply(EntryAt(urls, run, LastSame(urls, i))))
  {
    var j := LastSame(urls, i);
    ReplyNames(urls, run, j);
    LastForAt(ReplyOf(urls, run), urls[i], j);
  }

  lemma ReplyNames(urls: seq<string>, run: Run, j: nat)
    requires Shaped(urls, run) && j < |urls| && urls[j] !in urls[j + 1..]
    ensures var reply := ReplyOf(urls, run);
            && reply[j] == AsReply(EntryAt(urls, run, j)) && reply[j].url == Some(urls[j])
            && forall k | j < k < |reply| :: reply[k].Object? && reply[k].url != Some(urls[j])
  {
  }

  lemma DecodedEntry<B>(e: Entry, decode: string -> B)
    requires e.Image? ==> e.body != ""
    ensures Decoded(Some(AsReply(e)), decode) == if e.Image? then Some(decode(e.body)) else None
  {
  }

  /** Through sidecar and gateway: position `i` gets what was captured at the last position
      that asked for its URL. */
  lemma DecodedIsLastSame<B>(urls: seq<string>, run: Run, i: nat, decode: string -> B)
    requires Shaped(urls, run) && i < |urls|
    ensures Decoded(LastFor(ReplyOf(urls, run), urls[i]), decode) == Wanted(urls, run, LastSame(urls, i), decode)
  {
    LastInReply(urls, run, i);
    DecodedEntry(EntryAt(urls, run, LastSame(urls, i)), decode);
  }

  /** A run that gets to its end, on a socket on which nobody asked for a body before. */
  ghost predicate Complete(urls: seq<string>, run: Run) {
    && Lawful(urls, run) && AllGo(run, |urls|)
    && run.wires[0].Numbered() && Quiet(run.wires[0], BODY)
  }

  /** Whatever peer, page and clock do, position `i` gets what was captured there. */
  ghost predicate AlwaysOwn(urls: seq<string>, i: nat)
    requires i < |urls|
  {
    forall run: Run | Complete(urls, run) ::
      Decoded(LastFor(ReplyOf(urls, run), urls[i]), Whole) == Wanted(urls, run, i, Whole)
  }

  /** A decoder that loses nothing, to tell results apart. */
  function Whole(text: string): string {
    text
  }

  /** Position `i` is sure to get its own capture exactly when its URL is not asked for again. */
  lemma OwnExactlyWhenNotRepeated(urls: seq<string>, i: nat)
    requires i < |urls|
    ensures AlwaysOwn(urls, i) <==> urls[i] !in urls[i + 1..]
  {
    if urls[i] !in urls[i + 1..] {
      LastSameIsOwn(urls, i);
      forall run: Run | Complete(urls, run)
        ensures Decoded(LastFor(ReplyOf(urls, run), urls[i]), Whole) == Wanted(urls, run, i, Whole)
      {
        DecodedIsLastSame(urls, run, i, Whole);
      }
    } else {
      RepeatLosesImage(urls, i);
    }
  }

  // -------------------------------------------------------- runs in plain text

  /** The plainest coding: an event names the URL, which is also the request's id; every response
      is a 200; and a body is its own text. */
  function PlainEvent(f: Frame): Event {
    if f.Event? && f.name == "sent" then RequestSent(Some(f.body), f.body)
    else if f.Event? && f.name == "got" then ResponseReceived(f.body, Some(200))
    else OtherEvent
  }

  function Plain(frames: seq<Frame>, texts: seq<string>): Coding {
    Coding(map f | f in frames :: PlainEvent(f), map x | x in texts :: (true, x))
  }

  function PlainEvents(frames: seq<Frame>): seq<Event> {
    if frames == [] then [] else PlainEvents(frames[..|frames| - 1]) + [PlainEvent(frames[|frames| - 1])]
  }

  lemma {:induction false} CodedPlain(c: Coding, frames: seq<Frame>)
    requires ReadsPlainly(c, frames)
    ensures Coded(c, frames) == PlainEvents(frames)
  {
    if frames != [] {
      var n := |frames| - 1;
      assert forall k | 0 <= k < n :: frames[..n][k] == frames[k];
      CodedPlain(c, frames[..n]);
    }
  }

  lemma PlainAppend(frames: seq<Frame>, f: Frame)
    ensures PlainEvents(frames + [f]) == PlainEvents(frames) + [PlainEvent(f)]
  {
    assert (frames + [f])[..|frames|] == frames;
  }

  /** The frames of a page that loads the URLs. */
  function Loading(urls: seq<string>): (fs: seq<Frame>)
    ensures forall k | 0 <= k < |fs| :: fs[k].Event?
  {
    if urls == [] then []
    else
      var url := urls[|urls| - 1];
      Loading(urls[..|urls| - 1]) + [Frame.Event("sent", url)] + [Frame.Event("got", url)]
  }

  /** The events of a load in plain text. */
  function Seen(urls: seq<string>): seq<Event> {
    PlainEvents(Loading(urls))
  }

  /** The coding reads these frames as plain text. */
  ghost predicate ReadsPlainly(c: Coding, frames: seq<Frame>) {
    forall k | 0 <= k < |frames| :: EventIn(c, frames[k]) == PlainEvent(frames[k])
  }

  lemma PlainReads(all: seq<Frame>, texts: seq<string>, frames: seq<Frame>)
    requires frames <= all || (|frames| <= |all| && frames == all[|all| - |frames|..])
    ensures ReadsPlainly(Plain(all, texts), frames)
  {
    forall k | 0 <= k < |frames|
      ensures EventIn(Plain(all, texts), frames[k]) == PlainEvent(frames[k])
    {
      assert frames[k] == all[k] || frames[k] == all[|all| - |frames| + k];
    }
  }

  lemma SeenNext(urls: seq<string>)
    requires urls != []
    ensures var n := |urls| - 1;
            Seen(urls)
            == Seen(urls[..n]) + [RequestSent(Some(urls[n]), urls[n])] + [ResponseReceived(urls[n], Some(200))]
  {
    var n := |urls| - 1;
    var before, sent := Loading(urls[..n]), Frame.Event("sent", urls[n]);
    PlainAppend(before, sent);
    PlainAppend(before + [sent], Frame.Event("got", urls[n]));
  }

  lemma OneMoreSeen(events: seq<Event>, u: string, v: string)
    ensures var all := events + [RequestSent(Some(u), u)] + [ResponseReceived(u, Some(200))];
            && RequestId(all, v) == (if v == u && RequestId(events, v).None? then Some(u) else RequestId(events, v))
            && StatusOf(all, v) == if v == u then Some(200) else StatusOf(events, v)
  {
    var sent, got := RequestSent(Some(u), u), ResponseReceived(u, Some(200));
    RequestIdAppend(events, sent, v);
    RequestIdAppend(events + [sent], got, v);
    StatusAppend(events, sent, v);
    StatusAppend(events + [sent], got, v);
  }

  lemma {:induction false} SeenOf(urls: seq<string>, url: string)
    ensures RequestId(Seen(urls), url) == if url in urls then Some(url) else None
    ensures url in urls ==> StatusOf(Seen(urls), url) == Some(200)
  {
    if urls != [] {
      var n := |urls| - 1;
      SeenOf(urls[..n], url);
      SeenNext(urls);
      OneMoreSeen(Seen(urls[..n]), urls[n], url);
      assert url in urls <==> url in urls[..n] || url == urls[n];
    }
  }

  lemma SeenWants(urls: seq<string>, url: string)
    ensures Wants(Seen(urls), url) <==> url in urls
  {
    SeenOf(urls, url);
  }

  lemma RequestIdAppend(events: seq<Event>, e: Event, url: string)
    ensures RequestId(events + [e], url) ==
            if RequestId(events, url).None? && e.RequestSent? && e.url == Some(url) then Some(e.rid)
            else RequestId(events, url)
  {
    assert (events + [e])[..|events|] == events;
  }

  lemma StatusAppend(events: seq<Event>, e: Event, rid: string)
    ensures StatusOf(events + [e], rid) ==
            if e.ResponseReceived? && e.rid == rid && e.status.Some? then e.status else StatusOf(events, rid)
  {
    assert (events + [e])[..|events|] == events;
  }

  lemma {:induction false} AllEvents(fs: seq<Frame>)
    requires forall k | 0 <= k < |fs| :: fs[k].Event?
    ensures EventsOf(fs) == fs
  {
    if fs != [] {
      var n := |fs| - 1;
      assert forall k | 0 <= k < n :: fs[..n][k] == fs[k];
      AllEvents(fs[..n]);
      assert fs == fs[..n] + [fs[n]];
    }
  }

  lemma {:induction false} EventsArrive(w: Wire, fs: seq<Frame>)
    requires forall k | 0 <= k < |fs| :: fs[k].Event?
    ensures w.CanArriveAll(fs) && w.ArriveAll(fs) == w.(inbox := w.inbox + fs)
    decreases |fs|
  {
    if fs != [] {
      assert forall k | 0 <= k < |fs[1..]| :: fs[1..][k] == fs[k + 1];
      EventsArrive(w.Arrive(fs[0]), fs[1..]);
      assert w.inbox + [fs[0]] + fs[1..] == w.inbox + fs;
    } else {
      assert w.inbox + fs == w.inbox;
    }
  }

  lemma {:induction false} ArriveTwice(w: Wire, fs: seq<Frame>, gs: seq<Frame>)
    requires w.CanArriveAll(fs) && w.ArriveAll(fs).CanArriveAll(gs)
    ensures w.CanArriveAll(fs + gs) && w.ArriveAll(fs + gs) == w.ArriveAll(fs).ArriveAll(gs)
    decreases |fs|
  {
    if fs == [] {
      assert fs + gs == gs;
    } else {
      assert (fs + gs)[0] == fs[0] && (fs + gs)[1..] == fs[1..] + gs;
      ArriveTwice(w.Arrive(fs[0]), fs[1..], gs);
    }
  }

  /** The frames that arrive while a batch loads: answers `stale` to older commands, the page's
      own events, and the answer to the load, which is command number `n`. */
  function LoadFrames(stale: seq<Frame>, urls: seq<string>, n: nat): seq<Frame> {
    stale + Loading(urls) + [Answer(LOAD, n, "")]
  }

  /** Nothing under the ids in use is pending but perhaps the answer to one old ask, which arrives. */
  predicate OneStaleAtMost(w: Wire, stale: seq<Frame>) {
    && w.inbox == [] && w.sent !in w.owed
    && (if stale == [] then w.owed == map[]
        else |stale| == 1 && stale[0].Answer? && stale[0].id == BODY && w.owed == map[stale[0].to := BODY])
  }

  lemma PlainLoadArrives(w: Wire, stale: seq<Frame>, urls: seq<string>)
    requires OneStaleAtMost(w, stale)
    ensures var fs := LoadFrames(stale, urls, w.sent);
            w.Send(LOAD).CanArriveAll(fs) && Calling(w, LOAD, fs) == Wire(fs, map[], w.sent + 1)
  {
    var u, own := w.Send(LOAD), Answer(LOAD, w.sent, "");
    if stale != [] {
      assert stale == [stale[0]];
      ArrivesOne(u, stale[0]);
    }
    var u1 := u.ArriveAll(stale);
    assert u1 == Wire(stale, map[w.sent := LOAD], w.sent + 1);
    EventsArrive(u1, Loading(urls));
    ArriveTwice(u, stale, Loading(urls));
    ArrivesOne(u1.ArriveAll(Loading(urls)), own);
    ArriveTwice(u, stale + Loading(urls), [own]);
    assert map[w.sent := LOAD] - {w.sent} == map[];
  }

  lemma FirstIsLastFrame(before: seq<Frame>, own: Frame, id: nat)
    requires AnswersUnder(own, id) && forall k | 0 <= k < |before| :: !AnswersUnder(before[k], id)
    ensures FirstAnswer(before + [own], id) == |before|
  {
    var fs := before + [own];
    assert fs[|before|] == own;
    forall i | 0 <= i < |before|
      ensures !AnswersUnder(fs[i], id)
    {
      assert fs[i] == before[i];
    }
  }

  lemma StaleLoading(stale: seq<Frame>, urls: seq<string>)
    requires |stale| <= 1 && (stale != [] ==> stale[0].Answer?)
    ensures EventsOf(stale + Loading(urls)) == Loading(urls)
  {
    EventsConcat(stale, Loading(urls));
    AllEvents(Loading(urls));
    if stale != [] {
      assert stale[..0] == [] && EventsOf([]) == [];
    }
  }

  /** A call that reads just the frames up to its own answer, which is the last. */
  lemma ReadsToLast(w: Wire, id: nat, before: seq<Frame>, own: Frame)
    requires AnswersUnder(own, id) && forall k | 0 <= k < |before| :: !AnswersUnder(before[k], id)
    requires Calling(w, id, before + [own]) == Wire(before + [own], map[], w.sent + 1)
    ensures var fs := before + [own];
            && Found(w, id, fs) == Some(own) && ReadBy(w, id, fs) == fs
            && FirstAnswer(fs, id) == |before| && fs[..|before|] == before
            && AfterCall(w, id, fs) == Wire([], map[], w.sent + 1)
  {
    FirstIsLastFrame(before, own, id);
    var fs := before + [own];
    assert fs[..|before|] == before && fs[..|before| + 1] == fs && fs[|before| + 1..] == [];
  }

  /** A load that skips the stale answer, if any, collects the page's events and leaves nothing
      pending. */
  lemma PlainLoad(w: Wire, stale: seq<Frame>, urls: seq<string>)
    requires OneStaleAtMost(w, stale)
    ensures var fs := LoadFrames(stale, urls, w.sent);
            && w.Send(LOAD).CanArriveAll(fs) && Calling(w, LOAD, fs).inbox == fs
            && FirstAnswer(fs, LOAD) == |fs| - 1 && EventsOf(fs[..|fs| - 1]) == Loading(urls)
            && Found(w, LOAD, fs).Some? && ReadBy(w, LOAD, fs) == fs
            && AfterCall(w, LOAD, fs) == Wire([], map[], w.sent + 1)
  {
    var before, own := stale + Loading(urls), Answer(LOAD, w.sent, "");
    PlainLoadArrives(w, stale, urls);
    ReadsToLast(w, LOAD, before, own);
    StaleLoading(stale, urls);
  }

  /** The stage such a load leads to, in plain text. */
  lemma PlainStage(w: Wire, stale: seq<Frame>, urls: seq<string>, c: Coding)
    requires OneStaleAtMost(w, stale) && ReadsPlainly(c, Loading(urls))
    ensures var fs := LoadFrames(stale, urls, w.sent);
            && w.Send(LOAD).CanArriveAll(fs) && Found(w, LOAD, fs).Some? && ReadBy(w, LOAD, fs) == fs
            && Loaded(c, w, fs) == Stage(Wire([], map[], w.sent + 1), Seen(urls))
  {
    PlainLoad(w, stale, urls);
    CodedPlain(c, Loading(urls));
  }

  /** An ask on a wire with nothing pending that its own answer comes to. */
  lemma PlainAsk(n: nat, x: string)
    ensures var w, f := Wire([], map[], n), Answer(BODY, n, x);
            && w.Send(BODY).CanArriveAll([f]) && Found(w, BODY, [f]) == Some(f)
            && AfterCall(w, BODY, [f]) == Wire([], map[], n + 1)
  {
    var w, f := Wire([], map[], n), Answer(BODY, n, x);
    ArrivesOne(w.Send(BODY), f);
    assert Calling(w, BODY, [f]) == Wire([f], map[], n + 1);
  }

  /** How many commands such a run has sent before position `j`: its batches' loads so far, and
      the one ask. */
  function SentBy(i: nat, j: nat): nat {
    (j + 3) / 4 + if i < j then 1 else 0
  }

  lemma SentNext(i: nat, j: nat)
    ensures SentBy(i, j + 1) == SentBy(i, j) + (if Starts(j) then 1 else 0) + if i == j then 1 else 0
  {
  }

  /** The wire when `n` commands have been sent and all answers read. */
  function Clean(n: nat): Wire {
    Wire([], map[], n)
  }

  function UnluckyTurn(url: string, i: nat, j: nat): Stage {
    Stage(Clean(SentBy(i, j) + if Starts(j) then 1 else 0), Seen([url]))
  }

  function UnluckyAsk(i: nat, j: nat): Ask {
    if j == i then Sent([Answer(BODY, UnluckyTurn("", i, i).wire.sent, "image")]) else Unsent
  }

  /** A run that captures an image at `i`, and cannot even ask for the bodies of its repeats. */
  function Unlucky(url: string, i: nat, n: nat): Run {
    Run(seq(n, j requires 0 <= j < n => LoadFrames([], [url], SentBy(i, j))),
        seq(n, j requires 0 <= j < n => UnluckyAsk(i, j)),
        Plain(Loading([url]), ["image"]), {}, {},
        seq(n + 1, j requires 0 <= j <= n => Clean(SentBy(i, j))),
        seq(n, j requires 0 <= j < n => UnluckyTurn(url, i, j)))
  }

  lemma UnluckyTurns(url: string, i: nat, n: nat, j: nat, other: string)
    requires j < n && (j == i ==> other == url)
    ensures var run := Unlucky(url, i, n);
            && (Wants(run.turns[j].events, other) ==> CanAsk(run.turns[j].wire, run.asks[j]))
            && run.wires[j + 1] == Taken(run.turns[j], other, run.asks[j])
  {
    SentNext(i, j);
    SeenWants([url], other);
    if j == i {
      PlainAsk(UnluckyTurn(url, i, i).wire.sent, "image");
    }
  }

  lemma UnluckyFollows(urls: seq<string>, i: nat, j: nat)
    requires i < |urls| && j < |urls|
    ensures var run := Unlucky(urls[i], i, |urls|); Follows(urls, run, j) && (Starts(j) ==> Goes(run, j))
  {
    var run := Unlucky(urls[i], i, |urls|);
    if Starts(j) {
      PlainReads(Loading([urls[i]]), ["image"], Loading([urls[i]]));
      PlainStage(Clean(SentBy(i, j)), [], [urls[i]], run.coding);
      assert run.turns[j] == Loaded(run.coding, run.wires[j], run.loads[j]);
    } else {
      assert run.turns[j - 1].events == Seen([urls[i]]);
    }
    UnluckyTurns(urls[i], i, |urls|, j, urls[j]);
  }

  lemma UnluckyCompletes(urls: seq<string>, i: nat)
    requires i < |urls|
    ensures Complete(urls, Unlucky(urls[i], i, |urls|))
  {
    forall j | 0 <= j < |urls|
      ensures var run := Unlucky(urls[i], i, |urls|); Follows(urls, run, j) && (Starts(j) ==> Goes(run, j))
    {
      UnluckyFollows(urls, i, j);
    }
  }

  lemma UnluckyEntry(urls: seq<string>, i: nat, j: nat)
    requires i < |urls| && j < |urls| && urls[j] == urls[i]
    ensures EntryAt(urls, Unlucky(urls[i], i, |urls|), j)
         == if j == i then Image(urls[i], "image") else Failed(urls[i], Some(200), "body unavailable")
  {
    SeenWants([urls[i]], urls[i]);
    PlainAsk(UnluckyTurn(urls[i], i, i).wire.sent, "image");
  }

  lemma RepeatLosesImage(urls: seq<string>, i: nat)
    requires i < |urls| && urls[i] in urls[i + 1..]
    ensures var run := Unlucky(urls[i], i, |urls|);
            && Complete(urls, run) && Wanted(urls, run, i, Whole) == Some("image")
            && Decoded(LastFor(ReplyOf(urls, run), urls[i]), Whole) == None
  {
    var run := Unlucky(urls[i], i, |urls|);
    UnluckyCompletes(urls, i);
    LastSameIsOwn(urls, i);
    UnluckyEntry(urls, i, i);
    UnluckyEntry(urls, i, LastSame(urls, i));
    DecodedIsLastSame(urls, run, i, Whole);
  }
}
