/** The proxy hop's control channel: `apply_command` and `repoint` of
    android_solver/proxy_hop.py. The upstream server object is whatever a factory makes of a
    URI, or nothing where the factory raises. */
module ProxyHops {
  import opened Wrappers

  const NEWLINE := '\n'

  /** What `str.strip` removes may be any set of characters with the space and the newline in
      it, and no letter of the commands. */
  predicate Blanks(ws: set<char>) {
    ' ' in ws && NEWLINE in ws && 'S' !in ws && 'I' !in ws && 'E' !in ws
  }

  function LStrip(ws: set<char>, s: string): (r: string)
    ensures r == "" || r[0] !in ws
    ensures |r| <= |s| && r == s[|s| - |r|..]
  {
    if s == "" || s[0] !in ws then s else LStrip(ws, s[1..])
  }

  function RStrip(ws: set<char>, s: string): (r: string)
    ensures r == "" || r[|r| - 1] !in ws
    ensures |r| <= |s| && r == s[..|r|]
  {
    if s == "" || s[|s| - 1] !in ws then s else RStrip(ws, s[..|s| - 1])
  }

  function Strip(ws: set<char>, s: string): (r: string)
    ensures r == "" || (r[0] !in ws && r[|r| - 1] !in ws)
    ensures |r| <= |s|
  {
    RStrip(ws, LStrip(ws, s))
  }

  /** Nothing to strip. */
  predicate Bare(ws: set<char>, s: string) {
    s == "" || (s[0] !in ws && s[|s| - 1] !in ws)
  }

  // ------------------------------------------------------------- the protocol

  datatype Command = SetTo(uri: string) | Idle | EmptyUri | Unknown

  predicate IsIdle(command: string) {
    |command| == 4 && command[0] == 'I' && command[1] == 'D' && command[2] == 'L' && command[3] == 'E'
  }

  predicate IsSet(command: string) {
    4 <= |command| && command[0] == 'S' && command[1] == 'E' && command[2] == 'T' && command[3] == ' '
  }

  function ParseStripped(ws: set<char>, command: string): Command {
    if IsIdle(command) then Idle
    else if IsSet(command) then
      var uri := Strip(ws, command[3..]);
      if uri == "" then EmptyUri else SetTo(uri)
    else Unknown
  }

  function Parse(ws: set<char>, line: string): Command {
    ParseStripped(ws, Strip(ws, line))
  }

  datatype Ack = Ok | ErrEmptyUri | ErrInvalidUri | ErrUnknown

  function Format(upstream: Option<string>): string {
    match upstream
    case None => "IDLE"
    case Some(uri) => "SET " + uri
  }

  /** Where the first newline is. */
  function NewlineAt(s: string): (k: nat)
    requires NEWLINE in s
    ensures k < |s| && s[k] == NEWLINE && forall j | 0 <= j < k :: s[j] != NEWLINE
  {
    if s[0] == NEWLINE then 0 else 1 + NewlineAt(s[1..])
  }

  /** One `readline`: up to the first newline, and that. */
  function FirstLine(s: string): string {
    if NEWLINE in s then s[..NewlineAt(s) + 1] else s
  }

  /** What is left of the line from `i` up to `j` is all of it but the blanks around it. */
  ghost predicate JustBlanksOff(ws: set<char>, line: string, i: int, j: int) {
    && 0 <= i <= j <= |line| && (i < j ==> line[i] !in ws && line[j - 1] !in ws)
    && (forall k | 0 <= k < i :: line[k] in ws) && (forall k | j <= k < |line| :: line[k] in ws)
  }

  lemma {:induction false} LeftIsBlank(ws: set<char>, s: string, i: nat)
    requires i < |s| - |LStrip(ws, s)|
    ensures s[i] in ws
  {
    if i > 0 {
      LeftIsBlank(ws, s[1..], i - 1);
    }
  }

  lemma {:induction false} RightIsBlank(ws: set<char>, s: string, i: nat)
    requires |RStrip(ws, s)| <= i < |s|
    ensures s[i] in ws
  {
    if i < |s| - 1 {
      RightIsBlank(ws, s[..|s| - 1], i);
    }
  }

  lemma {:induction false} StripIsJustThat(ws: set<char>, line: string) returns (i: int, j: int)
    ensures JustBlanksOff(ws, line, i, j) && Strip(ws, line) == line[i..j]
  {
    var l := LStrip(ws, line);
    var r := RStrip(ws, l);
    forall k: nat | k < |line| - |l|
      ensures line[k] in ws
    {
      LeftIsBlank(ws, line, k);
    }
    forall k: nat | |r| <= k < |l|
      ensures l[k] in ws
    {
      RightIsBlank(ws, l, k);
    }
    i, j := BothEnds(ws, line, l, r);
  }

  lemma {:induction false} BothEnds(ws: set<char>, line: string, l: string, r: string) returns (i: int, j: int)
    requires |r| <= |l| <= |line| && l == line[|line| - |l|..] && r == l[..|r|]
    requires (l == "" || l[0] !in ws) && (r == "" || r[|r| - 1] !in ws)
    requires forall k | 0 <= k < |line| - |l| :: line[k] in ws
    requires forall k | |r| <= k < |l| :: l[k] in ws
    ensures JustBlanksOff(ws, line, i, j) && r == line[i..j]
  {
    i, j := |line| - |l|, |line| - |l| + |r|;
    forall k | j <= k < |line|
      ensures line[k] in ws
    {
      assert l[k - i] == line[k];
    }
  }

  predicate SaysIdle(command: string) {
    command == "IDLE"
  }

  predicate SaysSet(command: string) {
    |command| >= 4 && command[..4] == "SET "
  }

  lemma SaysWhat(command: string)
    ensures SaysIdle(command) <==> IsIdle(command)
    ensures SaysSet(command) <==> IsSet(command)
  {
    var prefix := "SET ";
    if IsSet(command) {
      assert forall k | 0 <= k < 4 :: command[..4][k] == prefix[k];
    }
  }

  /** Without the blanks around it a line is the idle command, or a repoint to what follows "SET "
      without the blanks around that, or unknown. */
  lemma {:induction false} UnderstoodExactlyWhen(ws: set<char>, line: string) returns (i: int, j: int)
    requires Blanks(ws)
    ensures JustBlanksOff(ws, line, i, j)
    ensures var command := line[i..j];
            && (Parse(ws, line).Idle? <==> SaysIdle(command))
            && (Parse(ws, line).SetTo? <==> SaysSet(command))
            && (SaysSet(command) ==> Parse(ws, line).uri == Strip(ws, command[4..]))
            && (!SaysIdle(command) && !SaysSet(command) ==> Parse(ws, line) == Unknown)
  {
    i, j := StripIsJustThat(ws, line);
    SaysWhat(line[i..j]);
    UriNeverEmpty(ws, line);
    if SaysSet(line[i..j]) {
      SkipsSpace(ws, line[i..j]);
    }
  }

  lemma {:induction false} SkipsSpace(ws: set<char>, command: string)
    requires Blanks(ws) && IsSet(command)
    ensures Strip(ws, command[3..]) == Strip(ws, command[4..])
  {
    assert command[3..][1..] == command[4..];
  }

  /** A command never has an empty URI: the line was stripped, so what follows "SET " does not
      end in a space. The hop's answer for that case cannot be given. */
  lemma UriNeverEmpty(ws: set<char>, line: string)
    ensures Parse(ws, line) != EmptyUri
  {
    BareNeverEmpty(ws, Strip(ws, line));
  }

  lemma BareNeverEmpty(ws: set<char>, command: string)
    requires Bare(ws, command)
    ensures ParseStripped(ws, command) != EmptyUri
  {
    if IsSet(command) {
      var tail := command[3..];
      assert tail[|tail| - 1] == command[|command| - 1];
      KeepsLast(ws, tail);
    }
  }

  lemma {:induction false} KeepsLast(ws: set<char>, s: string)
    requires s != "" && s[|s| - 1] !in ws
    ensures Strip(ws, s) != "" && LStrip(ws, s) != "" && Strip(ws, s) == LStrip(ws, s)
  {
    if s[0] in ws {
      KeepsLast(ws, s[1..]);
    }
  }

  lemma {:induction false} KeepsFirst(ws: set<char>, s: string)
    requires s != "" && s[0] !in ws
    ensures RStrip(ws, s) != "" && Strip(ws, s) == RStrip(ws, s)
  {
    if s[|s| - 1] in ws {
      KeepsFirst(ws, s[..|s| - 1]);
    }
  }

  lemma RStripOfNewline(ws: set<char>, s: string)
    requires Blanks(ws)
    ensures RStrip(ws, s + [NEWLINE]) == RStrip(ws, s)
  {
  }

  /** What the hop understands of a clean repoint line. */
  lemma ParseOfSet(ws: set<char>, uri: string)
    requires Blanks(ws) && Bare(ws, uri) && uri != ""
    ensures Parse(ws, "SET " + uri + [NEWLINE]) == SetTo(uri)
  {
    StripOfLine(ws, "SET " + uri);
    ParseOfBare(ws, uri);
  }

  lemma StripOfLine(ws: set<char>, command: string)
    requires Blanks(ws) && Bare(ws, command) && command != ""
    ensures Strip(ws, command + [NEWLINE]) == command
  {
    KeepsFirst(ws, command + [NEWLINE]);
    RStripOfNewline(ws, command);
  }

  lemma ParseOfBare(ws: set<char>, uri: string)
    requires Blanks(ws) && Bare(ws, uri) && uri != ""
    ensures ParseStripped(ws, "SET " + uri) == SetTo(uri)
  {
    StripOfSpaced(ws, uri);
    AfterSet(uri);
    ParseOfParts(ws, "SET " + uri, uri);
  }

  lemma AfterSet(uri: string)
    ensures IsSet("SET " + uri) && ("SET " + uri)[3..] == " " + uri
  {
  }

  lemma ParseOfParts(ws: set<char>, command: string, uri: string)
    requires IsSet(command) && Strip(ws, command[3..]) == uri && uri != ""
    ensures ParseStripped(ws, command) == SetTo(uri)
  {
  }

  lemma StripOfSpaced(ws: set<char>, uri: string)
    requires Blanks(ws) && Bare(ws, uri)
    ensures Strip(ws, " " + uri) == uri
  {
    assert (" " + uri)[0] == ' ' && (" " + uri)[1..] == uri;
    assert LStrip(ws, " " + uri) == LStrip(ws, uri) == uri;
  }

  /** A repoint reaches the hop as what was asked for exactly when the URI is not empty, has
      nothing to strip and holds no newline. */
  lemma RoundTripExactlyWhen(ws: set<char>, uri: string)
    requires Blanks(ws)
    ensures Parse(ws, FirstLine(Format(Some(uri)) + [NEWLINE])) == SetTo(uri)
       <==> uri != "" && Bare(ws, uri) && NEWLINE !in uri
  {
    if uri != "" && Bare(ws, uri) && NEWLINE !in uri {
      CleanArrives(ws, uri);
    } else if NEWLINE in uri {
      CutShort(ws, uri);
    } else {
      ParsedIsBare(ws, Strip(ws, FirstLine(Format(Some(uri)) + [NEWLINE])));
    }
  }

  lemma CleanArrives(ws: set<char>, uri: string)
    requires Blanks(ws) && uri != "" && Bare(ws, uri) && NEWLINE !in uri
    ensures Parse(ws, FirstLine(Format(Some(uri)) + [NEWLINE])) == SetTo(uri)
  {
    NoBreak(uri);
    LineOf("SET " + uri);
    ParseOfSet(ws, uri);
  }

  lemma NoBreak(uri: string)
    requires NEWLINE !in uri
    ensures NEWLINE !in "SET " + uri
  {
  }

  lemma ParsedIsBare(ws: set<char>, command: string)
    ensures var parsed := ParseStripped(ws, command);
            parsed.SetTo? ==> Bare(ws, parsed.uri) && parsed.uri != ""
  {
  }

  /** A URI with a newline in it is cut short, so it is not what the hop is pointed at. */
  lemma CutShort(ws: set<char>, uri: string)
    requires Blanks(ws) && NEWLINE in uri
    ensures Parse(ws, FirstLine("SET " + uri + [NEWLINE])) != SetTo(uri)
  {
    var sent := "SET " + uri + [NEWLINE];
    var k := NewlineAt(uri);
    assert sent[4 + k] == NEWLINE;
    var line := FirstLine(sent);
    assert |line| <= 4 + |uri| && line[|line| - 1] == NEWLINE;
    StripShortens(ws, line);
    UriIsShort(ws, Strip(ws, line));
  }

  lemma StripShortens(ws: set<char>, line: string)
    requires line != "" && line[|line| - 1] in ws
    ensures |Strip(ws, line)| < |line|
  {
  }

  lemma UriIsShort(ws: set<char>, command: string)
    requires Blanks(ws)
    ensures var parsed := ParseStripped(ws, command);
            parsed.SetTo? ==> |parsed.uri| <= |command| - 4
  {
  }

  // ------------------------------------------------------------------ the hop

  /** The list object the proxy's live handlers hold on to. */
  class Rserver<S> {
    var servers: seq<S>

    constructor ()
      ensures servers == []
    {
      servers := [];
    }
  }

  class ProxyHop<S> {
    const rserver: Rserver<S>
    const ws: set<char>

    constructor (list: Rserver<S>, blanks: set<char>)
      ensures rserver == list && ws == blanks
    {
      rserver, ws := list, blanks;
    }

    /** `apply_command`: changes what the list holds and never which list it is; a line it
        does not accept changes nothing. */
    method ApplyCommand(line: string, factory: string -> Option<S>) returns (ack: Ack)
      modifies rserver
      ensures var parsed := Parse(ws, line);
              && (ack.Ok? <==> parsed.Idle? || (parsed.SetTo? && factory(parsed.uri).Some?))
              && (ack.ErrUnknown? <==> parsed.Unknown?) && !ack.ErrEmptyUri?
              && (!ack.Ok? ==> rserver.servers == old(rserver.servers))
              && (parsed.Idle? ==> rserver.servers == [])
              && (parsed.SetTo? && ack.Ok? ==> rserver.servers == [factory(parsed.uri).value])
    {
      UriNeverEmpty(ws, line);
      ack := Apply(Parse(ws, line), factory);
    }

    method Apply(command: Command, factory: string -> Option<S>) returns (ack: Ack)
      requires !command.EmptyUri?
      modifies rserver
      ensures ack.Ok? <==> command.Idle? || (command.SetTo? && factory(command.uri).Some?)
      ensures (ack.ErrUnknown? <==> command.Unknown?) && !ack.ErrEmptyUri?
      ensures !ack.Ok? ==> rserver.servers == old(rserver.servers)
      ensures command.Idle? ==> rserver.servers == []
      ensures command.SetTo? && ack.Ok? ==> rserver.servers == [factory(command.uri).value]
    {
      match command {
        case Idle =>
          rserver.servers := [];
          ack := Ok;
        case SetTo(uri) =>
          var server := factory(uri);
          if server.None? {
            return ErrInvalidUri;
          }
          rserver.servers := [server.value];
          ack := Ok;
        case Unknown => ack := ErrUnknown;
      }
    }
  }

  /** What the hop makes of a repoint's line. */
  function Understood(ws: set<char>, upstream: Option<string>): Command {
    Parse(ws, FirstLine(Format(upstream) + [NEWLINE]))
  }

  /** `repoint` against a hop that answers, for any URI as it is: acknowledged, the hop forwards
      to what it understood, or to none; refused, it forwards where it did before. What it
      understands is what was asked for when nothing is, or when the URI is clean. */
  method Repoint<S>(hop: ProxyHop<S>, upstream: Option<string>, factory: string -> Option<S>) returns (ok: bool)
    requires Blanks(hop.ws)
    modifies hop.rserver
    ensures var u := Understood(hop.ws, upstream);
            && (ok <==> u.Idle? || (u.SetTo? && factory(u.uri).Some?))
            && (ok ==> hop.rserver.servers == if u.Idle? then [] else [factory(u.uri).value])
            && (!ok ==> hop.rserver.servers == old(hop.rserver.servers))
    ensures upstream.None? ==> ok && hop.rserver.servers == []
    ensures upstream.Some? && upstream.value != "" && Bare(hop.ws, upstream.value) && NEWLINE !in upstream.value ==>
              && (ok <==> factory(upstream.value).Some?)
              && (ok ==> hop.rserver.servers == [factory(upstream.value).value])
  {
    var line := FirstLine(Format(upstream) + [NEWLINE]);
    if upstream.None? {
      IdleRoundTrip(hop.ws);
    } else {
      RoundTripExactlyWhen(hop.ws, upstream.value);
    }
    var ack := hop.ApplyCommand(line, factory);
    ok := ack.Ok?;
  }

  lemma IdleRoundTrip(ws: set<char>)
    requires Blanks(ws)
    ensures Parse(ws, FirstLine(Format(None) + [NEWLINE])) == Idle
  {
    var command := ['I', 'D', 'L', 'E'];
    assert command == "IDLE";
    LineOf(command);
    StripOfLine(ws, command);
    ParseOfIdle(ws, command);
  }

  lemma LineOf(command: string)
    requires NEWLINE !in command
    ensures FirstLine(command + [NEWLINE]) == command + [NEWLINE]
  {
  }

  lemma ParseOfIdle(ws: set<char>, command: string)
    requires IsIdle(command)
    ensures ParseStripped(ws, command) == Idle
  {
  }
}
