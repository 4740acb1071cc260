/** Request and answer matching on one devtools socket: android_solver/cdp.py, with command
    ids that are reused, calls whose receive errors are swallowed, and one command (the signed-client capture of
    android_solver/service.py) that is sent without reading its answer. */
module CdpSpec {
  import opened Wrappers

  /** A frame from the peer: the answer to the command sent as number `to`, under the id it
      was sent with, an event (a method and no id), or a frame that is neither. */
  datatype Frame = Answer(id: nat, to: nat, body: string) | Event(name: string, body: string) | Other

  /** What of a socket the client cannot see all of: the frames that have arrived and are not
      read, and the commands sent whose answers have not arrived, with their ids. */
  datatype Wire = Wire(inbox: seq<Frame>, owed: map<nat, nat>, sent: nat) {
    function Send(id: nat): Wire {
      Wire(inbox, owed[sent := id], sent + 1)
    }

    /** The peer answers each command once, under its own id, and may push events at will. */
    predicate CanArrive(f: Frame) {
      f.Answer? ==> f.to in owed && owed[f.to] == f.id
    }

    function Arrive(f: Frame): Wire {
      Wire(inbox + [f], if f.Answer? then owed - {f.to} else owed, sent)
    }

    predicate CanArriveAll(fs: seq<Frame>)
      decreases |fs|
    {
      fs == [] || (CanArrive(fs[0]) && Arrive(fs[0]).CanArriveAll(fs[1..]))
    }

    function ArriveAll(fs: seq<Frame>): Wire
      decreases |fs|
    {
      if fs == [] then this else Arrive(fs[0]).ArriveAll(fs[1..])
    }

    /** Commands have been numbered apart, and an answer stays with the id of its command. */
    ghost predicate Numbered() {
      && (forall n | n in owed :: n < sent)
      && (forall i | 0 <= i < |inbox| && inbox[i].Answer? :: inbox[i].to < sent && inbox[i].to !in owed)
      && (forall i, j | 0 <= i < j < |inbox| && inbox[i].Answer? && inbox[j].Answer? :: inbox[i].to != inbox[j].to)
    }

    /** Every answer still to be read, arrived or not, is for a raw-sent command. */
    ghost predicate OnlyRawPending(raw: set<nat>) {
      && (forall n | n in owed :: owed[n] in raw)
      && (forall i | 0 <= i < |inbox| && inbox[i].Answer? :: inbox[i].id in raw)
    }
  }

  /** Where the first answer under `id` is, or the end. */
  function FirstAnswer(fs: seq<Frame>, id: nat): (k: nat)
    ensures k <= |fs|
    ensures k < |fs| ==> fs[k].Answer? && fs[k].id == id
    ensures forall j | 0 <= j < k :: !(fs[j].Answer? && fs[j].id == id)
  {
    if fs == [] || (fs[0].Answer? && fs[0].id == id) then 0 else 1 + FirstAnswer(fs[1..], id)
  }

  function EventsOf(fs: seq<Frame>): seq<Frame> {
    if fs == [] then []
    else EventsOf(fs[..|fs| - 1]) + if fs[|fs| - 1].Event? then [fs[|fs| - 1]] else []
  }

  /** Exactly the events among the frames are collected. */
  lemma {:induction false} EventsAreFrames(fs: seq<Frame>, e: Frame)
    ensures e in EventsOf(fs) <==> e.Event? && e in fs
  {
    if fs != [] {
      var n := |fs| - 1;
      EventsAreFrames(fs[..n], e);
      assert e in fs <==> e in fs[..n] || e == fs[n];
    }
  }

  /** Collecting keeps every event, in order: it is a homomorphism. */
  lemma {:induction false} EventsConcat(a: seq<Frame>, b: seq<Frame>)
    ensures EventsOf(a + b) == EventsOf(a) + EventsOf(b)
  {
    if b == [] {
      assert a + b == a;
    } else {
      var last := |b| - 1;
      EventsConcat(a, b[..last]);
      assert (a + b)[..|a + b| - 1] == a + b[..last];
    }
  }

  lemma {:induction false} ArrivedAll(w: Wire, fs: seq<Frame>)
    requires w.CanArriveAll(fs)
    ensures var v := w.ArriveAll(fs);
            && v.inbox == w.inbox + fs && v.sent == w.sent
            && (forall n | n in v.owed :: n in w.owed && v.owed[n] == w.owed[n])
            && (forall n | n in w.owed && n !in v.owed :: exists i :: 0 <= i < |fs| && fs[i].Answer? && fs[i].to == n)
            && (forall i | 0 <= i < |fs| && fs[i].Answer? :: fs[i].to in w.owed && w.owed[fs[i].to] == fs[i].id)
            && (w.Numbered() ==> v.Numbered())
    decreases |fs|
  {
    if fs != [] {
      var w1 := w.Arrive(fs[0]);
      if w.Numbered() {
        StillNumbered(w, fs[0]);
      }
      ArrivedAll(w1, fs[1..]);
      var v := w.ArriveAll(fs);
      assert w1.inbox + fs[1..] == w.inbox + fs;
      forall n | n in w.owed && n !in v.owed
        ensures exists i :: 0 <= i < |fs| && fs[i].Answer? && fs[i].to == n
      {
        if n !in w1.owed {
          assert fs[0].to == n;
        } else {
          var i :| 0 <= i < |fs[1..]| && fs[1..][i].Answer? && fs[1..][i].to == n;
          assert fs[i + 1].to == n;
        }
      }
      forall i | 0 <= i < |fs| && fs[i].Answer?
        ensures fs[i].to in w.owed && w.owed[fs[i].to] == fs[i].id
      {
        if i > 0 {
          assert fs[1..][i - 1] == fs[i];
        }
      }
    } else {
      assert w.inbox + fs == w.inbox;
    }
  }

  lemma StillNumbered(w: Wire, f: Frame)
    requires w.Numbered() && w.CanArrive(f)
    ensures w.Arrive(f).Numbered()
  {
  }

  // -------------------------------------------------------------- one command

  /** The state in which a call for `id` read, once the frames `fs` of its wait have arrived. */
  function Calling(w: Wire, id: nat, fs: seq<Frame>): Wire {
    w.Send(id).ArriveAll(fs)
  }

  /** A call read up to and including the first answer under its id. */
  function Left(w: Wire, id: nat): Wire {
    var k := FirstAnswer(w.inbox, id);
    w.(inbox := if k < |w.inbox| then w.inbox[k + 1..] else [])
  }

  /** The call returns the answer to the very command it sent. */
  predicate GetsOwn(w: Wire, id: nat, fs: seq<Frame>) {
    var inbox := Calling(w, id, fs).inbox;
    var k := FirstAnswer(inbox, id);
    k < |inbox| && inbox[k].to == w.sent
  }

  /** Whatever arrives, so long as the command is answered, a call under the id gets its own. */
  ghost predicate Sure(w: Wire, id: nat) {
    forall fs: seq<Frame> | w.Send(id).CanArriveAll(fs) && w.sent !in Calling(w, id, fs).owed :: GetsOwn(w, id, fs)
  }

  /** Nothing under the id is unread, and no answer under it is still to come. */
  ghost predicate Quiet(w: Wire, id: nat) {
    && (forall i | 0 <= i < |w.inbox| && w.inbox[i].Answer? :: w.inbox[i].id != id)
    && (forall n | n in w.owed :: w.owed[n] != id)
  }

  /** Before the call is made: it is sure to get its own answer exactly when nothing under its id
      is unread or still to come. */
  lemma SureExactlyWhen(w: Wire, id: nat)
    requires w.Numbered()
    ensures Sure(w, id) <==> Quiet(w, id)
  {
    if Quiet(w, id) {
      forall fs: seq<Frame> | w.Send(id).CanArriveAll(fs) && w.sent !in Calling(w, id, fs).owed
        ensures GetsOwn(w, id, fs)
      {
        QuietGetsOwn(w, id, fs);
      }
    } else if i: nat :| i < |w.inbox| && w.inbox[i].Answer? && w.inbox[i].id == id {
      UnreadIsReturned(w, id, i);
    } else {
      var n :| n in w.owed && w.owed[n] == id;
      OwedIsReturned(w, id, n);
    }
  }

  lemma QuietGetsOwn(w: Wire, id: nat, fs: seq<Frame>)
    requires Quiet(w, id) && w.Send(id).CanArriveAll(fs) && w.sent !in Calling(w, id, fs).owed
    ensures GetsOwn(w, id, fs)
  {
    ArrivedAll(w.Send(id), fs);
    OwnHasArrived(w, id, fs);
    var inbox := Calling(w, id, fs).inbox;
    var k := FirstAnswer(inbox, id);
    assert k >= |w.inbox| ==> inbox[k] == fs[k - |w.inbox|];
  }

  /** An old answer under the id that is unread is what the call returns. */
  lemma UnreadIsReturned(w: Wire, id: nat, i: nat)
    requires w.Numbered() && i < |w.inbox| && w.inbox[i].Answer? && w.inbox[i].id == id
    ensures !Sure(w, id)
  {
    var mine := Answer(id, w.sent, "");
    var fs := [mine];
    ArrivesOne(w.Send(id), mine);
    assert Calling(w, id, fs).inbox == w.inbox + fs;
    assert (w.inbox + fs)[i] == w.inbox[i] && FirstAnswer(w.inbox + fs, id) <= i;
    assert !GetsOwn(w, id, fs);
  }

  /** An old answer under the id that is still to come may come first. */
  lemma OwedIsReturned(w: Wire, id: nat, n: nat)
    requires w.Numbered() && n in w.owed && w.owed[n] == id
    ensures !Sure(w, id)
  {
    var older, mine := Answer(id, n, ""), Answer(id, w.sent, "");
    var fs := [older, mine];
    ArrivesTwo(w.Send(id), older, mine);
    assert Calling(w, id, fs).inbox == w.inbox + fs;
    assert (w.inbox + fs)[|w.inbox|] == older && FirstAnswer(w.inbox + fs, id) <= |w.inbox|;
    assert !GetsOwn(w, id, fs);
  }

  lemma ArrivesOne(w: Wire, f: Frame)
    requires w.CanArrive(f)
    ensures w.CanArriveAll([f]) && w.ArriveAll([f]) == w.Arrive(f)
  {
    assert [f][1..] == [];
    assert w.Arrive(f).ArriveAll([]) == w.Arrive(f);
  }

  lemma ArrivesTwo(w: Wire, f: Frame, g: Frame)
    requires w.CanArrive(f) && w.Arrive(f).CanArrive(g)
    ensures w.CanArriveAll([f, g]) && w.ArriveAll([f, g]) == w.Arrive(f).Arrive(g)
  {
    assert [f, g][1..] == [g];
    ArrivesOne(w.Arrive(f), g);
  }

  lemma OwnHasArrived(w: Wire, id: nat, fs: seq<Frame>)
    requires w.Send(id).CanArriveAll(fs) && w.sent !in Calling(w, id, fs).owed
    ensures var inbox := Calling(w, id, fs).inbox;
            exists i :: 0 <= i < |inbox| && inbox[i].Answer? && inbox[i].id == id && inbox[i].to == w.sent
  {
    ArrivedAll(w.Send(id), fs);
    var a :| 0 <= a < |fs| && fs[a].Answer? && fs[a].to == w.sent;
    assert Calling(w, id, fs).inbox[|w.inbox| + a] == fs[a];
  }

  lemma SuffixNumbered(w: Wire, k: nat)
    requires w.Numbered() && k <= |w.inbox|
    ensures w.(inbox := w.inbox[k..]).Numbered()
  {
  }

  /** With only raw answers pending, and an id no raw command uses, a call that is answered
      gets its own answer and leaves only raw answers pending. */
  lemma CallGetsItsOwn(w: Wire, id: nat, fs: seq<Frame>, raw: set<nat>)
    requires w.Numbered() && w.OnlyRawPending(raw) && id !in raw
    requires w.Send(id).CanArriveAll(fs) && w.sent !in Calling(w, id, fs).owed
    ensures var v := Calling(w, id, fs);
            var k := FirstAnswer(v.inbox, id);
            && k < |v.inbox| && v.inbox[k].Answer? && v.inbox[k].to == w.sent
            && Left(v, id).Numbered() && Left(v, id).OnlyRawPending(raw)
  {
    ArrivedAll(w.Send(id), fs);
    OnlyRawOrOwn(w, id, fs, raw);
    OwnHasArrived(w, id, fs);
    OwnTaken(Calling(w, id, fs), id, w.sent, raw);
  }

  lemma OwnTaken(v: Wire, id: nat, own: nat, raw: set<nat>)
    requires v.Numbered() && own !in v.owed && id !in raw
    requires forall n | n in v.owed :: v.owed[n] in raw || n == own
    requires forall i | 0 <= i < |v.inbox| && v.inbox[i].Answer? :: v.inbox[i].id in raw || v.inbox[i].to == own
    requires exists i :: 0 <= i < |v.inbox| && v.inbox[i].Answer? && v.inbox[i].id == id
    ensures var k := FirstAnswer(v.inbox, id);
            && k < |v.inbox| && v.inbox[k].to == own
            && Left(v, id).Numbered() && Left(v, id).OnlyRawPending(raw)
  {
  }

  lemma OnlyRawOrOwn(w: Wire, id: nat, fs: seq<Frame>, raw: set<nat>)
    requires w.Numbered() && w.OnlyRawPending(raw) && w.Send(id).CanArriveAll(fs)
    ensures var v := Calling(w, id, fs);
            && (forall n | n in v.owed :: v.owed[n] in raw || n == w.sent)
            && (forall i | 0 <= i < |v.inbox| && v.inbox[i].Answer? :: v.inbox[i].id in raw || v.inbox[i].to == w.sent)
  {
    ArrivedAll(w.Send(id), fs);
    var v := Calling(w, id, fs);
    forall i | 0 <= i < |v.inbox| && v.inbox[i].Answer?
      ensures v.inbox[i].id in raw || v.inbox[i].to == w.sent
    {
      if i < |w.inbox| {
        assert v.inbox[i] == w.inbox[i];
      } else {
        assert v.inbox[i] == fs[i - |w.inbox|];
      }
    }
  }

  // ---------------------------------------------------------- whole sessions

  /** What the pipeline does on a socket, each with the frames that arrive meanwhile: a call
      that returns an answer, one that gives up on a receive error with nothing under its id
      read, a raw send, or reading frames away while waiting for an event. */
  datatype Op =
    | Call(id: nat, arrivals: seq<Frame>)
    | GiveUp(id: nat, arrivals: seq<Frame>)
    | RawSend(id: nat, arrivals: seq<Frame>)
    | Await(arrivals: seq<Frame>, read: nat)

  predicate CanOp(w: Wire, op: Op) {
    match op
    case Call(id, fs) =>
      w.Send(id).CanArriveAll(fs) && FirstAnswer(Calling(w, id, fs).inbox, id) < |Calling(w, id, fs).inbox|
    case GiveUp(id, fs) =>
      w.Send(id).CanArriveAll(fs) && FirstAnswer(Calling(w, id, fs).inbox, id) == |Calling(w, id, fs).inbox|
    case RawSend(id, fs) => w.Send(id).CanArriveAll(fs)
    case Await(fs, read) => w.CanArriveAll(fs) && read <= |w.ArriveAll(fs).inbox|
  }

  function AfterOp(w: Wire, op: Op): Wire {
    match op
    case Call(id, fs) => Left(Calling(w, id, fs), id)
    case GiveUp(id, fs) => Left(Calling(w, id, fs), id)
    case RawSend(id, fs) => w.Send(id).ArriveAll(fs)
    case Await(fs, read) =>
      var v := w.ArriveAll(fs);
      v.(inbox := if read <= |v.inbox| then v.inbox[read..] else [])
  }

  /** A session in which the peer keeps to its rules. */
  ghost predicate Session(w: Wire, ops: seq<Op>)
    decreases |ops|
  {
    ops != [] ==> CanOp(w, ops[0]) && Session(AfterOp(w, ops[0]), ops[1..])
  }

  /** Ids that are sent raw or given up on are no call's. */
  predicate Apart(op: Op, raw: set<nat>) {
    match op
    case Call(id, _) => id !in raw
    case GiveUp(id, _) => id in raw
    case RawSend(id, _) => id in raw
    case Await(_, _) => true
  }

  function AfterOps(w: Wire, ops: seq<Op>): Wire
    decreases |ops|
  {
    if ops == [] then w else AfterOps(AfterOp(w, ops[0]), ops[1..])
  }

  /** The frame operation `i` of a session returns, if it is a call. */
  function Returned(w: Wire, ops: seq<Op>, i: nat): Option<Frame>
    requires i < |ops|
  {
    var v := AfterOps(w, ops[..i]);
    match ops[i]
    case Call(id, fs) =>
      var inbox := Calling(v, id, fs).inbox;
      var k := FirstAnswer(inbox, id);
      if k < |inbox| then Some(inbox[k]) else None
    case _ => None
  }

  lemma OpKeepsNumbered(w: Wire, op: Op)
    requires w.Numbered() && CanOp(w, op)
    ensures AfterOp(w, op).Numbered()
  {
    if op.Await? {
      ArrivedAll(w, op.arrivals);
      SuffixNumbered(w.ArriveAll(op.arrivals), op.read);
    } else {
      ArrivedAll(w.Send(op.id), op.arrivals);
      var v := Calling(w, op.id, op.arrivals);
      var k := FirstAnswer(v.inbox, op.id);
      SuffixNumbered(v, if k < |v.inbox| then k + 1 else |v.inbox|);
    }
  }

  lemma OpKeepsRawPending(w: Wire, op: Op, raw: set<nat>)
    requires w.Numbered() && w.OnlyRawPending(raw) && CanOp(w, op) && Apart(op, raw)
    ensures AfterOp(w, op).OnlyRawPending(raw)
  {
    match op
    case Call(id, fs) =>
      ReturnedIsOwn(w, id, fs, raw);
      CallGetsItsOwn(w, id, fs, raw);
    case GiveUp(id, fs) => ArrivalsStayRaw(w.Send(id), fs, raw);
    case RawSend(id, fs) => ArrivalsStayRaw(w.Send(id), fs, raw);
    case Await(fs, read) =>
      ArrivalsStayRaw(w, fs, raw);
      assert forall i | 0 <= i < |AfterOp(w, op).inbox| :: AfterOp(w, op).inbox[i] == w.ArriveAll(fs).inbox[read + i];
  }

  /** A call that returns anything while only raw answers are pending was answered. */
  lemma ReturnedIsOwn(w: Wire, id: nat, fs: seq<Frame>, raw: set<nat>)
    requires w.Numbered() && w.OnlyRawPending(raw) && id !in raw && CanOp(w, Call(id, fs))
    ensures w.sent !in Calling(w, id, fs).owed
  {
    ArrivedAll(w.Send(id), fs);
    OnlyRawOrOwn(w, id, fs, raw);
    assert Calling(w, id, fs).Numbered();
  }

  lemma ArrivalsStayRaw(w: Wire, fs: seq<Frame>, raw: set<nat>)
    requires w.OnlyRawPending(raw) && w.CanArriveAll(fs)
    ensures w.ArriveAll(fs).OnlyRawPending(raw)
  {
    ArrivedAll(w, fs);
    var v := w.ArriveAll(fs);
    forall i | 0 <= i < |v.inbox| && v.inbox[i].Answer?
      ensures v.inbox[i].id in raw
    {
      if i < |w.inbox| {
        assert v.inbox[i] == w.inbox[i];
      } else {
        assert v.inbox[i] == fs[i - |w.inbox|];
      }
    }
  }

  /** On one socket, however ids are reused, so long as no call uses an id that is sent raw or
      was given up on: every call returns the answer to the very command it sent, and the only
      answers ever left unread are those of raw sends and given-up calls. */
  lemma {:induction false} SessionMatches(w: Wire, ops: seq<Op>, raw: set<nat>, i: nat)
    requires w.Numbered() && w.OnlyRawPending(raw) && Session(w, ops) && i < |ops|
    requires forall op | op in ops :: Apart(op, raw)
    ensures AfterOps(w, ops[..i]).OnlyRawPending(raw)
    ensures ops[i].Call? ==> Returned(w, ops, i).Some? && Returned(w, ops, i).value.to == AfterOps(w, ops[..i]).sent
    decreases |ops|
  {
    if i == 0 {
      assert ops[..0] == [];
      if ops[0].Call? {
        assert ops[0] == Call(ops[0].id, ops[0].arrivals) && Apart(ops[0], raw);
        ReturnedIsOwn(w, ops[0].id, ops[0].arrivals, raw);
        CallGetsItsOwn(w, ops[0].id, ops[0].arrivals, raw);
      }
    } else {
      OpKeepsNumbered(w, ops[0]);
      OpKeepsRawPending(w, ops[0], raw);
      assert ops[..i][0] == ops[0] && ops[..i][1..] == ops[1..][..i - 1];
      SessionMatches(AfterOp(w, ops[0]), ops[1..], raw, i - 1);
    }
  }

  lemma {:induction false} SessionNumbered(w: Wire, ops: seq<Op>)
    requires w.Numbered() && Session(w, ops)
    ensures AfterOps(w, ops).Numbered()
    decreases |ops|
  {
    if ops != [] {
      OpKeepsNumbered(w, ops[0]);
      SessionNumbered(AfterOp(w, ops[0]), ops[1..]);
    }
  }

  /** After any session at all, receive errors included: the next call under an id is sure to get
      its own answer exactly when the session left nothing under that id unread or to come. */
  lemma NextCallSureExactlyWhen(w: Wire, ops: seq<Op>, id: nat)
    requires w.Numbered() && Session(w, ops)
    ensures Sure(AfterOps(w, ops), id) <==> Quiet(AfterOps(w, ops), id)
  {
    SessionNumbered(w, ops);
    SureExactlyWhen(AfterOps(w, ops), id);
  }

  /** A call that gives up on a receive error leaves its answer to come, and the next call under
      the same id then returns that old answer: a session of two operations on a new socket. */
  lemma ReceiveErrorShiftsAnswers(id: nat)
    ensures var stale, mine := Answer(id, 0, "old"), Answer(id, 1, "new");
            var ops := [GiveUp(id, []), Call(id, [stale, mine])];
            Session(Wire([], map[], 0), ops) && Returned(Wire([], map[], 0), ops, 1) == Some(stale)
  {
    var w0 := Wire([], map[], 0);
    var stale, mine := Answer(id, 0, "old"), Answer(id, 1, "new");
    var giveUp, again := GiveUp(id, []), Call(id, [stale, mine]);
    var w1 := Wire([], map[0 := id], 1);
    assert Calling(w0, id, []) == w1 && AfterOp(w0, giveUp) == w1;
    ArrivesTwo(w1.Send(id), stale, mine);
    assert Calling(w1, id, [stale, mine]).inbox == [stale, mine];
    var ops := [giveUp, again];
    assert ops[1..] == [again] && [again][1..] == [] && ops[..1] == [giveUp] && [giveUp][1..] == [];
    assert Session(w1, [again]);
    assert AfterOps(w0, [giveUp]) == AfterOps(w1, []) == w1;
  }
}

/** The client's half of the same socket, reading and writing it. */
module CdpSocketClient {
  import opened Wrappers
  import opened CdpSpec

  /** How a wait for an event ends: `RecvError` is a receive that raises. */
  datatype Waited = Got(frame: Frame) | Expired | RecvError

  lemma EventsOfNext(fs: seq<Frame>, i: nat)
    requires i < |fs|
    ensures EventsOf(fs[..i + 1]) == EventsOf(fs[..i]) + if fs[i].Event? then [fs[i]] else []
  {
    assert fs[..i + 1][..i] == fs[..i];
  }

  /** Where the first event called `name` is, or the end. */
  function FirstEvent(fs: seq<Frame>, name: string): (k: nat)
    ensures k <= |fs|
    ensures k < |fs| ==> fs[k].Event? && fs[k].name == name
    ensures forall j | 0 <= j < k :: !(fs[j].Event? && fs[j].name == name)
  {
    if fs == [] || (fs[0].Event? && fs[0].name == name) then 0 else 1 + FirstEvent(fs[1..], name)
  }

  class CdpSocket {
    var inbox: seq<Frame>
    ghost var owed: map<nat, nat>
    ghost var sent: nat

    ghost function View(): Wire
      reads this
    {
      Wire(inbox, owed, sent)
    }

    method Send(id: nat)
      modifies this`owed, this`sent
      ensures View() == old(View()).Send(id)
    {
      owed := owed[sent := id];
      sent := sent + 1;
    }

    /** What the peer puts on the socket while the client waits. */
    method Deliver(arrivals: seq<Frame>)
      requires View().CanArriveAll(arrivals)
      modifies this`inbox, this`owed
      ensures View() == old(View()).ArriveAll(arrivals)
    {
      ghost var w := View();
      ArrivedAll(w, arrivals);
      inbox := inbox + arrivals;
      owed := w.ArriveAll(arrivals).owed;
    }

    /** One receive; with nothing to come it raises. */
    method Recv() returns (f: Option<Frame>)
      modifies this`inbox
      ensures old(inbox) == [] ==> f == None && inbox == []
      ensures old(inbox) != [] ==> f == Some(old(inbox)[0]) && inbox == old(inbox)[1..]
    {
      if inbox == [] {
        return None;
      }
      f := Some(inbox[0]);
      inbox := inbox[1..];
    }

    /** Reads up to and including the first answer under the id, or everything. */
    method RecvResult(id: nat) returns (r: Option<Frame>)
      modifies this`inbox
      ensures var k := FirstAnswer(old(inbox), id);
              r == if k < |old(inbox)| then Some(old(inbox)[k]) else None
      ensures View() == Left(old(View()), id)
    {
      ghost var k := FirstAnswer(inbox, id);
      ghost var i := 0;
      while true
        invariant i <= |old(inbox)| && inbox == old(inbox)[i..]
        invariant i <= k
        decreases |inbox|
      {
        r := Recv();
        if r.None? || (r.value.Answer? && r.value.id == id) {
          return;
        }
        i := i + 1;
      }
    }

    /** A command sent and answered: the answer is the first under its id, read no further. */
    method CdpCall(id: nat, arrivals: seq<Frame>) returns (r: Option<Frame>)
      requires View().Send(id).CanArriveAll(arrivals)
      modifies this
      ensures var v := Calling(old(View()), id, arrivals);
              var k := FirstAnswer(v.inbox, id);
              && r == (if k < |v.inbox| then Some(v.inbox[k]) else None)
              && View() == Left(v, id)
    {
      Send(id);
      Deliver(arrivals);
      r := RecvResult(id);
    }

    /** The same, and every event read on the way, in order; answers under other ids are
        dropped and what follows the answer stays unread. */
    method CdpCallCollecting(id: nat, arrivals: seq<Frame>) returns (r: Option<Frame>, events: seq<Frame>)
      requires View().Send(id).CanArriveAll(arrivals)
      modifies this
      ensures var v := Calling(old(View()), id, arrivals);
              var k := FirstAnswer(v.inbox, id);
              && r == (if k < |v.inbox| then Some(v.inbox[k]) else None)
              && events == EventsOf(v.inbox[..k])
              && View() == Left(v, id)
    {
      Send(id);
      Deliver(arrivals);
      r, events := RecvCollecting(id);
    }

    method RecvCollecting(id: nat) returns (r: Option<Frame>, events: seq<Frame>)
      modifies this`inbox
      ensures var k := FirstAnswer(old(inbox), id);
              && r == (if k < |old(inbox)| then Some(old(inbox)[k]) else None)
              && events == EventsOf(old(inbox)[..k])
      ensures View() == Left(old(View()), id)
    {
      ghost var was := inbox;
      ghost var k := FirstAnswer(was, id);
      ghost var i := 0;
      events := [];
      while true
        invariant i <= k && inbox == was[i..]
        invariant events == EventsOf(was[..i])
        decreases |inbox|
      {
        r := Recv();
        if r.None? || (r.value.Answer? && r.value.id == id) {
          assert i == k;
          return;
        }
        assert i < k && inbox == was[i + 1..];
        EventsOfNext(was, i);
        if r.value.Event? {
          events := events + [r.value];
        }
        i := i + 1;
      }
    }

    /** Reads until the named event or until a clock reading reaches the deadline, which is
        looked at before each receive; `now(i)` is the reading before receive number `i`. */
    method WaitForEvent(name: string, now: nat -> int, deadline: int) returns (r: Waited)
      modifies this`inbox
      ensures var k := FirstEvent(old(inbox), name);
              && (r.Got? <==> k < |old(inbox)| && forall i | 0 <= i <= k :: now(i) < deadline)
              && (r.Got? ==> r.frame == old(inbox)[k] && inbox == old(inbox)[k + 1..])
              && (r.Expired? ==> exists i ::
                    && 0 <= i <= k && now(i) >= deadline && inbox == old(inbox)[i..]
                    && forall j | 0 <= j < i :: now(j) < deadline)
              && (r.RecvError? ==> inbox == [] && k == |old(inbox)| && forall i | 0 <= i <= k :: now(i) < deadline)
    {
      ghost var k := FirstEvent(inbox, name);
      var i := 0;
      while now(i) < deadline
        invariant i <= k && inbox == old(inbox)[i..]
        invariant forall j | 0 <= j < i :: now(j) < deadline
        decreases |inbox|
      {
        var f := Recv();
        if f.None? {
          return RecvError;
        }
        if f.value.Event? && f.value.name == name {
          return Got(f.value);
        }
        i := i + 1;
      }
      r := Expired;
    }
  }

  /** The whole of a session's calls through the client agree with the specification: with
      only raw answers pending, a call under a non-raw id returns its own command's answer. */
  method OwnAnswer(s: CdpSocket, id: nat, arrivals: seq<Frame>, ghost raw: set<nat>) returns (r: Option<Frame>)
    requires s.View().Numbered() && s.View().OnlyRawPending(raw) && id !in raw
    requires s.View().Send(id).CanArriveAll(arrivals) && s.sent !in Calling(s.View(), id, arrivals).owed
    modifies s
    ensures r.Some? && r.value.Answer? && r.value.to == old(s.sent)
    ensures s.View().Numbered() && s.View().OnlyRawPending(raw)
  {
    CallGetsItsOwn(s.View(), id, arrivals, raw);
    r := s.CdpCall(id, arrivals);
  }
}
