/** How many answers under one id are still to be read on a devtools socket: a conservation law
    for the calls of android_solver/cdp.py, whatever ids they use and however they end. */
module CdpPending {
  import opened Wrappers
  import opened CdpSpec

  predicate AnswersUnder(f: Frame, id: nat) {
    f.Answer? && f.id == id
  }

  /** The commands sent under `id` whose answers are still to be read, arrived or not. */
  ghost function Pending(w: Wire, id: nat): set<nat> {
    (set n | n in w.owed && w.owed[n] == id) + Unread(w.inbox, id)
  }

  ghost function Unread(fs: seq<Frame>, id: nat): set<nat> {
    set i | 0 <= i < |fs| && AnswersUnder(fs[i], id) :: fs[i].to
  }

  ghost function Count(w: Wire, id: nat): nat {
    |Pending(w, id)|
  }

  lemma QuietIsNonePending(w: Wire, id: nat)
    ensures Quiet(w, id) <==> Pending(w, id) == {}
  {
    if Quiet(w, id) {
      assert forall i | 0 <= i < |w.inbox| :: !AnswersUnder(w.inbox[i], id);
    } else if i: nat :| i < |w.inbox| && w.inbox[i].Answer? && w.inbox[i].id == id {
      assert AnswersUnder(w.inbox[i], id) && w.inbox[i].to in Pending(w, id);
    } else {
      var n :| n in w.owed && w.owed[n] == id;
      assert n in Pending(w, id);
    }
  }

  lemma PendingSend(w: Wire, other: nat, id: nat)
    requires w.Numbered()
    ensures w.sent !in Pending(w, id)
    ensures Pending(w.Send(other), id) == Pending(w, id) + if other == id then {w.sent} else {}
  {
    var p := Pending(w.Send(other), id);
    forall n | n in p
      ensures n in Pending(w, id) + if other == id then {w.sent} else {}
    {
    }
    forall i | 0 <= i < |w.inbox| && AnswersUnder(w.inbox[i], id)
      ensures w.inbox[i].to != w.sent
    {
    }
  }

  lemma UnreadAppend(fs: seq<Frame>, f: Frame, id: nat)
    ensures Unread(fs + [f], id) == Unread(fs, id) + if AnswersUnder(f, id) then {f.to} else {}
  {
    forall n | n in Unread(fs, id)
      ensures n in Unread(fs + [f], id)
    {
      var i :| 0 <= i < |fs| && AnswersUnder(fs[i], id) && fs[i].to == n;
      assert (fs + [f])[i] == fs[i];
    }
    if AnswersUnder(f, id) {
      assert (fs + [f])[|fs|] == f;
    }
  }

  lemma PendingArrive(w: Wire, f: Frame, id: nat)
    requires w.CanArrive(f)
    ensures Pending(w.Arrive(f), id) == Pending(w, id)
  {
    UnreadAppend(w.inbox, f, id);
  }

  lemma {:induction false} PendingArriveAll(w: Wire, fs: seq<Frame>, id: nat)
    requires w.CanArriveAll(fs)
    ensures Pending(w.ArriveAll(fs), id) == Pending(w, id)
    decreases |fs|
  {
    if fs != [] {
      PendingArrive(w, fs[0], id);
      PendingArriveAll(w.Arrive(fs[0]), fs[1..], id);
    }
  }

  /** How many of the frames are answers under `id`. */
  function Under(fs: seq<Frame>, id: nat): nat {
    if fs == [] then 0 else (if AnswersUnder(fs[0], id) then 1 else 0) + Under(fs[1..], id)
  }

  lemma UnreadSplit(fs: seq<Frame>, id: nat)
    requires fs != []
    ensures Unread(fs, id) == Unread(fs[1..], id) + if AnswersUnder(fs[0], id) then {fs[0].to} else {}
  {
    forall n | n in Unread(fs, id)
      ensures n in Unread(fs[1..], id) + if AnswersUnder(fs[0], id) then {fs[0].to} else {}
    {
      var i :| 0 <= i < |fs| && AnswersUnder(fs[i], id) && fs[i].to == n;
      if i > 0 {
        assert fs[1..][i - 1] == fs[i];
      }
    }
    forall n | n in Unread(fs[1..], id)
      ensures n in Unread(fs, id)
    {
      var i :| 0 <= i < |fs[1..]| && AnswersUnder(fs[1..][i], id) && fs[1..][i].to == n;
      assert fs[i + 1] == fs[1..][i];
    }
  }

  function Read(w: Wire, k: nat): Wire
    requires k <= |w.inbox|
  {
    w.(inbox := w.inbox[k..])
  }

  /** The first frame, if it answers under `id`, is the last answer to its command. */
  lemma FirstIsLast(w: Wire, id: nat)
    requires w.Numbered() && w.inbox != [] && AnswersUnder(w.inbox[0], id)
    ensures w.inbox[0].to !in Pending(Read(w, 1), id)
  {
    var n := w.inbox[0].to;
    forall i | 0 <= i < |w.inbox[1..]| && AnswersUnder(w.inbox[1..][i], id)
      ensures w.inbox[1..][i].to != n
    {
      assert w.inbox[1..][i] == w.inbox[i + 1];
    }
  }

  lemma PendingReadOne(w: Wire, id: nat)
    requires w.inbox != []
    ensures Pending(w, id) == Pending(Read(w, 1), id) + if AnswersUnder(w.inbox[0], id) then {w.inbox[0].to} else {}
  {
    UnreadSplit(w.inbox, id);
  }

  lemma OneMore(a: set<nat>, b: set<nat>, n: nat)
    requires b == a + {n} && n !in a
    ensures |b| == |a| + 1
  {
  }

  lemma ReadOne(w: Wire, id: nat)
    requires w.Numbered() && w.inbox != []
    ensures Count(Read(w, 1), id) + (if AnswersUnder(w.inbox[0], id) then 1 else 0) == Count(w, id)
  {
    PendingReadOne(w, id);
    if AnswersUnder(w.inbox[0], id) {
      FirstIsLast(w, id);
      OneMore(Pending(Read(w, 1), id), Pending(w, id), w.inbox[0].to);
    }
  }

  /** Reading frames away leaves as many fewer answers to read as there were among them. */
  lemma {:induction false} ReadMany(w: Wire, k: nat, id: nat)
    requires w.Numbered() && k <= |w.inbox|
    ensures Count(Read(w, k), id) + Under(w.inbox[..k], id) == Count(w, id)
    decreases k
  {
    if k == 0 {
      assert Read(w, 0) == w;
    } else {
      ReadOne(w, id);
      SuffixNumbered(w, 1);
      ReadMany(Read(w, 1), k - 1, id);
      ReadTwice(w, k);
    }
  }

  lemma ReadTwice(w: Wire, k: nat)
    requires 0 < k <= |w.inbox|
    ensures Read(Read(w, 1), k - 1) == Read(w, k)
    ensures w.inbox[..k][1..] == Read(w, 1).inbox[..k - 1] && w.inbox[..k][0] == w.inbox[0]
  {
  }

  // ----------------------------------------------------------------- a call

  /** What a call under `id` finds, if anything. */
  function Found(w: Wire, id: nat, fs: seq<Frame>): Option<Frame> {
    var inbox := Calling(w, id, fs).inbox;
    var k := FirstAnswer(inbox, id);
    if k < |inbox| then Some(inbox[k]) else None
  }

  /** The frames a call under `id` reads: up to and including what it finds, or all. */
  function ReadBy(w: Wire, id: nat, fs: seq<Frame>): seq<Frame> {
    var inbox := Calling(w, id, fs).inbox;
    var k := FirstAnswer(inbox, id);
    inbox[..if k < |inbox| then k + 1 else |inbox|]
  }

  /** The wire once the call has ended. */
  function AfterCall(w: Wire, id: nat, fs: seq<Frame>): Wire {
    Left(Calling(w, id, fs), id)
  }

  lemma {:induction false} FirstIsOnly(fs: seq<Frame>, id: nat)
    ensures var k := FirstAnswer(fs, id);
            Under(fs[..if k < |fs| then k + 1 else |fs|], id) == if k < |fs| then 1 else 0
  {
    if fs == [] {
    } else if AnswersUnder(fs[0], id) {
      assert fs[..1][1..] == [] && Under([], id) == 0;
    } else {
      var k := FirstAnswer(fs[1..], id);
      var read := fs[..if k + 1 < |fs| then k + 2 else |fs|];
      FirstIsOnly(fs[1..], id);
      assert read[1..] == fs[1..][..if k < |fs[1..]| then k + 1 else |fs[1..]|];
    }
  }

  lemma SendCounts(w: Wire, other: nat, id: nat)
    requires w.Numbered()
    ensures Count(w.Send(other), id) == Count(w, id) + if other == id then 1 else 0
  {
    PendingSend(w, other, id);
    if other == id {
      OneMore(Pending(w, id), Pending(w.Send(other), id), w.sent);
    }
  }

  lemma AfterCallIsRead(w: Wire, id: nat, fs: seq<Frame>)
    ensures |ReadBy(w, id, fs)| <= |Calling(w, id, fs).inbox|
    ensures ReadBy(w, id, fs) == Calling(w, id, fs).inbox[..|ReadBy(w, id, fs)|]
    ensures AfterCall(w, id, fs) == Read(Calling(w, id, fs), |ReadBy(w, id, fs)|)
  {
  }

  lemma SendNumbered(w: Wire, id: nat)
    requires w.Numbered()
    ensures w.Send(id).Numbered()
  {
  }

  lemma CallingNumbered(w: Wire, id: nat, fs: seq<Frame>)
    requires w.Numbered() && w.Send(id).CanArriveAll(fs)
    ensures Calling(w, id, fs).Numbered()
  {
    SendNumbered(w, id);
    ArrivedAll(w.Send(id), fs);
  }

  lemma AfterCallNumbered(w: Wire, id: nat, fs: seq<Frame>)
    requires Calling(w, id, fs).Numbered()
    ensures AfterCall(w, id, fs).Numbered()
  {
    AfterCallIsRead(w, id, fs);
    SuffixNumbered(Calling(w, id, fs), |ReadBy(w, id, fs)|);
  }

  /** A call under any id leaves one more answer under `id` to read if it was sent under that id,
      and as many fewer as it read. */
  lemma CallConserves(w: Wire, other: nat, fs: seq<Frame>, id: nat)
    requires w.Numbered() && w.Send(other).CanArriveAll(fs)
    ensures Count(AfterCall(w, other, fs), id) + Under(ReadBy(w, other, fs), id)
         == Count(w, id) + if other == id then 1 else 0
  {
    CallingNumbered(w, other, fs);
    SendCounts(w, other, id);
    PendingArriveAll(w.Send(other), fs, id);
    ReadMany(Calling(w, other, fs), |ReadBy(w, other, fs)|, id);
    AfterCallIsRead(w, other, fs);
  }

  /** In particular: one that gives up leaves one more, one that does not as many as before. */
  lemma OwnCallConserves(w: Wire, id: nat, fs: seq<Frame>)
    requires w.Numbered() && w.Send(id).CanArriveAll(fs)
    ensures Count(AfterCall(w, id, fs), id) == Count(w, id) + if Found(w, id, fs).None? then 1 else 0
  {
    CallConserves(w, id, fs, id);
    FirstIsOnly(Calling(w, id, fs).inbox, id);
  }

  /** With nothing under its id to read, a call finds its own answer or none, however it ends. */
  lemma OwnOrNothing(w: Wire, id: nat, fs: seq<Frame>)
    requires w.Numbered() && Quiet(w, id) && w.Send(id).CanArriveAll(fs)
    ensures Found(w, id, fs).Some? ==> Found(w, id, fs).value.to == w.sent
  {
    ArrivedAll(w.Send(id), fs);
    var inbox := Calling(w, id, fs).inbox;
    var k := FirstAnswer(inbox, id);
    if k < |inbox| {
      assert k >= |w.inbox|;
      assert inbox[k] == fs[k - |w.inbox|];
    }
  }

  // ----------------------------------------------------------- a new socket

  const NEW := Wire([], map[], 0)

  lemma OtherOpKeepsQuiet(w: Wire, op: Op, id: nat)
    requires w.Numbered() && Quiet(w, id) && CanOp(w, op) && (op.Await? || op.id != id)
    ensures Quiet(AfterOp(w, op), id)
  {
    if op.Await? {
      ArrivedAll(w, op.arrivals);
      PendingArriveAll(w, op.arrivals, id);
      QuietIsNonePending(w, id);
      QuietIsNonePending(w.ArriveAll(op.arrivals), id);
    } else {
      PendingSend(w, op.id, id);
      PendingArriveAll(w.Send(op.id), op.arrivals, id);
      QuietIsNonePending(w, id);
      QuietIsNonePending(Calling(w, op.id, op.arrivals), id);
    }
  }

  /** However a socket was used under other ids, nothing under this one is pending. */
  lemma {:induction false} OthersKeepQuiet(w: Wire, ops: seq<Op>, id: nat)
    requires w.Numbered() && Quiet(w, id) && Session(w, ops)
    requires forall op | op in ops :: op.Await? || op.id != id
    ensures AfterOps(w, ops).Numbered() && Quiet(AfterOps(w, ops), id)
    decreases |ops|
  {
    if ops != [] {
      OpKeepsNumbered(w, ops[0]);
      OtherOpKeepsQuiet(w, ops[0], id);
      OthersKeepQuiet(AfterOp(w, ops[0]), ops[1..], id);
    }
  }
}
