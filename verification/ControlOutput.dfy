/**
  What the server's session handler puts on the control channel, step by step, when writes
  may fail at any point and a failed connection stays failed.
*/
module ControlOutput {
  import opened Prelude
  import opened ControlText
  import opened Readers
  import opened Text
  import P = Particles
  import Plan = MergePlan

  /** The writing side of the control connection. */
  class Control {
    var sent: seq<Byte>
    var broken: bool

    constructor ()
      ensures sent == [] && !broken
    {
      sent, broken := [], false;
    }

    /** Delivers everything, or some of it and then nothing ever again. */
    method Write(data: seq<Byte>) returns (ok: bool)
      modifies this
      ensures old(sent) <= sent <= old(sent) + data
      ensures old(broken) ==> broken && sent == old(sent)
      ensures ok <==> !broken
      ensures ok ==> sent == old(sent) + data
    {
      var fails: bool := *;
      if fails && !broken {
        var n: nat :| n <= |data|;
        sent := sent + data[..n];
        broken := true;
      } else if !broken {
        sent := sent + data;
      }
      ok := !broken;
    }
  }

  /** "both cypher core particles missing", or the same of noise. */
  function RefusalText(which: string): string {
    "both" + Spaced([which, "core", "particles", "missing"])
  }

  function Refusal(mask: Mask): string {
    RefusalText(if mask & MISSING_EC != 0 && mask & MISSING_OC != 0 then "cypher" else "noise")
  }

  method Validate(mask: Mask) returns (err: Option<string>)
    ensures err == if Plan.ProfileValid(mask) then None else Some(Refusal(mask))
  {
    if mask & MISSING_EC != 0 && mask & MISSING_OC != 0 {
      return Some(RefusalText("cypher"));
    }
    if mask & MISSING_EN != 0 && mask & MISSING_ON != 0 {
      return Some(RefusalText("noise"));
    }
    err := None;
  }

  /** What happens around the handler: the ports it gets, whether all seven connections
      arrive and show the token, and what the encoder or decoder comes to. */
  datatype Setting = Setting(token: string, ports: Option<DataPorts>, accepted: bool, codec: Result<seq<Byte>, string>)

  method WriteTrailer(out: Control, body: seq<Byte>) returns (ok: bool)
    modifies out
    ensures old(out.sent) <= out.sent <= old(out.sent) + TrailerFrame(body)
    ensures old(out.broken) ==> out.broken && out.sent == old(out.sent)
    ensures ok <==> !out.broken
    ensures ok ==> out.sent == old(out.sent) + TrailerFrame(body)
  {
    var line := Numeral(10, |body|) + "\n";
    ok := out.Write(line);
    assert TrailerFrame(body) == line + body;
    assert old(out.sent) + (line + body) == (old(out.sent) + line) + body;
    if ok {
      ok := out.Write(body);
    }
  }

  method SplitStreaming(out: Control, codec: Result<seq<Byte>, string>) returns (err: Option<string>)
    modifies out
    ensures old(out.sent) <= out.sent <= old(out.sent) + Closing(codec)
    ensures old(out.broken) ==> out.broken && out.sent == old(out.sent)
    ensures err.None? <==> codec.Ok? && !out.broken
    ensures err.None? ==> out.sent == old(out.sent) + Closing(codec)
    ensures codec.Err? ==> err == Some(codec.error) && out.sent == old(out.sent) && out.broken == old(out.broken)
  {
    if codec.Err? {
      return Some(codec.error);
    }
    var ok := WriteTrailer(out, codec.value);
    err := if ok then None else Some("write trailer");
  }

  method MergeStreaming(out: Control, mask: Mask, codec: Result<seq<Byte>, string>) returns (err: Option<string>)
    requires Plan.ProfileValid(mask)
    modifies out
    ensures old(out.sent) <= out.sent <= old(out.sent) + Closing(codec)
    ensures old(out.broken) ==> out.broken && out.sent == old(out.sent)
    ensures err.None? <==> codec.Ok? && !out.broken
    ensures err.None? ==> out.sent == old(out.sent) + Closing(codec)
    ensures codec.Err? ==> err == Some(codec.error) && out.sent == old(out.sent) && out.broken == old(out.broken)
  {
    var sources := Plan.BuildMergeSources(mask);
    if sources.None? {
      return Some("merge plan");
    }
    err := SplitStreaming(out, codec);
  }

  /** The last frame of a session that got as far as encoding or decoding. */
  function Closing(codec: Result<seq<Byte>, string>): seq<Byte> {
    if codec.Ok? then TrailerFrame(codec.value) else ErrorFrame(codec.error)
  }

  /** Everything a handler means to say behind the handshake. */
  function SessionScript(invite: seq<Byte>, at: Setting): seq<Byte> {
    if at.accepted then invite + Closing(at.codec) else invite
  }

  function Invite(mode: Mode, at: Setting): seq<Byte>
    requires at.ports.Some?
  {
    Invitation(at.token, mode, at.ports.value).Format()
  }

  /** Everything a handler means to say, given the handshake it read. */
  function Script(hello: Option<(Mode, Mask)>, at: Setting): seq<Byte> {
    if hello.None? then []
    else if hello.value.0 == MERGE && !Plan.ProfileValid(hello.value.1) then ErrorFrame(Refusal(hello.value.1))
    else if at.ports.None? then []
    else SessionScript(Invite(hello.value.0, at), at)
  }

  /** What arrived is a prefix of the script, and all of it unless the connection broke. */
  ghost predicate Says(sent: seq<Byte>, broken: bool, script: seq<Byte>) {
    sent <= script && (sent == script || broken)
  }

  /** Encodes or decodes and reports: the trailer, or an error frame. */
  method RunMode(out: Control, mode: Mode, mask: Mask, codec: Result<seq<Byte>, string>)
    requires !out.broken && (mode == MERGE ==> Plan.ProfileValid(mask))
    modifies out
    ensures old(out.sent) <= out.sent <= old(out.sent) + Closing(codec)
    ensures out.sent == old(out.sent) + Closing(codec) || out.broken
  {
    var err;
    if mode == MERGE {
      err := MergeStreaming(out, mask, codec);
    } else {
      err := SplitStreaming(out, codec);
    }
    if err.Some? {
      var _ := out.Write(ErrorFrame(err.value));
    }
  }

  method RunSession(out: Control, invite: seq<Byte>, mode: Mode, mask: Mask, at: Setting)
    requires out.sent == [] && !out.broken && (mode == MERGE ==> Plan.ProfileValid(mask))
    modifies out
    ensures Says(out.sent, out.broken, SessionScript(invite, at))
  {
    var ok := out.Write(invite);
    assert [] + invite == invite;
    if ok && at.accepted {
      RunMode(out, mode, mask, at.codec);
    }
  }

  method Answer(out: Control, hello: Option<(Mode, Mask)>, at: Setting)
    requires out.sent == [] && !out.broken
    modifies out
    ensures Says(out.sent, out.broken, Script(hello, at))
  {
    if hello.None? {
      return;
    }
    var (mode, mask) := hello.value;
    if mode == MERGE {
      var invalid := Validate(mask);
      if invalid.Some? {
        var _ := out.Write(ErrorFrame(invalid.value));
        return;
      }
    }
    if at.ports.None? {
      return;
    }
    RunSession(out, Invite(mode, at), mode, mask, at);
  }

  /** Whatever the client says first and wherever the connection breaks, what arrives is a
      prefix of the script, and all of it unless the connection broke: in particular a trailer
      that was cut short is never followed by an error frame. A handshake that stalls too long
      is answered with nothing. */
  method HandleCom(conn: Conn, out: Control, at: Setting)
    requires out.sent == [] && !out.broken
    modifies conn, out
    ensures || Says(out.sent, out.broken, Script(HandshakeOf(old(conn.rest), conn.end), at))
            || (out.sent == [] && Stalled(conn))
    // nothing follows the invitation unless all data connections arrived with the token
    ensures var hello := HandshakeOf(old(conn.rest), conn.end);
            Served(hello) && at.ports.Some? && !at.accepted ==>
              out.sent <= Invitation(at.token, hello.value.0, at.ports.value).Format()
  {
    var hello, _ := ReadClientHandshake(conn);
    Answer(out, hello, at);
    ScriptCases(HandshakeOf(old(conn.rest), conn.end), at);
  }

  // ---- what a client makes of the script ----

  /** Nothing, one error frame, or an invitation that may be followed by exactly one trailer or
      error frame. */
  ghost predicate Grammar(text: seq<Byte>) {
    || text == []
    || (exists msg :: text == ErrorFrame(msg))
    || (exists inv: Invitation :: text == inv.Format())
    || (exists inv: Invitation, body :: text == inv.Format() + TrailerFrame(body))
    || (exists inv: Invitation, msg :: text == inv.Format() + ErrorFrame(msg))
  }

  /** The handshake asks for a session the server is willing to run. */
  predicate Served(hello: Option<(Mode, Mask)>) {
    hello.Some? && (hello.value.0 == MERGE ==> Plan.ProfileValid(hello.value.1))
  }

  /** What is said in which case: nothing without a handshake or without ports, the refusal of a
      bad profile, the bare invitation if the data connections do not all arrive with the token,
      and only behind accepted ones a trailer or an error. */
  lemma ScriptCases(hello: Option<(Mode, Mask)>, at: Setting)
    ensures hello.None? || (Served(hello) && at.ports.None?) ==> Script(hello, at) == []
    ensures hello.Some? && !Served(hello) ==> Script(hello, at) == ErrorFrame(Refusal(hello.value.1))
    ensures Served(hello) && at.ports.Some? ==>
              var invite := Invitation(at.token, hello.value.0, at.ports.value).Format();
              && (!at.accepted ==> Script(hello, at) == invite)
              && (at.accepted && at.codec.Ok? ==> Script(hello, at) == invite + TrailerFrame(at.codec.value))
              && (at.accepted && at.codec.Err? ==> Script(hello, at) == invite + ErrorFrame(at.codec.error))
  {
  }

  /** A refusal names the pair that is missing as a whole, cypher first. */
  lemma RefusalNames(mask: Mask)
    ensures Refusal(mask) == RefusalText(if {P.EC, P.OC} <= P.Missing(mask) then "cypher" else "noise")
  {
    assert P.EC in P.Missing(mask) <==> mask & MISSING_EC != 0;
    assert P.OC in P.Missing(mask) <==> mask & MISSING_OC != 0;
  }

  /** The text of a refusal, word by word. */
  lemma RefusalWords(which: string)
    ensures RefusalText(which) ==
              "both" + ((" " + which) + (" " + "core") + (" " + "particles") + (" " + "missing"))
  {
    SpacedFour(which, "core", "particles", "missing");
  }

  lemma SpacedFour(a: string, b: string, c: string, d: string)
    ensures Spaced([a, b, c, d]) == (" " + a) + (" " + b) + (" " + c) + (" " + d)
  {
    assert [a, b, c, d][1..] == [b, c, d] && [b, c, d][1..] == [c, d] && [c, d][1..] == [d];
    assert Spaced([d]) == " " + d;
    assert Spaced([c, d]) == (" " + c) + (" " + d);
    assert Spaced([b, c, d]) == (" " + b) + ((" " + c) + (" " + d));
  }

  lemma ScriptFollowsGrammar(hello: Option<(Mode, Mask)>, at: Setting)
    ensures Grammar(Script(hello, at))
  {
  }

  lemma LineThenFrame(line: seq<Byte>, last: seq<Byte>)
    requires IsLine(line)
    ensures FirstLine(line + last) == line && (line + last)[|line|..] == last
  {
    FirstLineIs(line, last);
  }

  /** How a client understands the last frame: the trailer's body, or the error text on one
      line. */
  lemma ClosingReads(codec: Result<seq<Byte>, string>)
    requires codec.Ok? ==> |codec.value| <= MAX_INT64
    ensures FinalReply(Closing(codec)) ==
              match codec
              case Ok(body) => if |body| <= MAX_TRAILER then Body(body) else Malformed
              case Err(msg) => SessionFailed(if msg == "" then "server session failed" else OneLine(msg))
  {
    var last := Closing(codec);
    assert last + [] == last;
    match codec
    case Ok(body) => TrailerFrameRoundTrip(body, []);
    case Err(msg) => ErrorFrameRoundTrip(msg, []);
  }

  /** A client that reads the script line by line finds the invitation it was sent, and what
      is left behind that line is the last frame alone. */
  lemma ScriptReads(mode: Mode, mask: Mask, at: Setting)
    requires mode == SPLIT || (mode == MERGE && Plan.ProfileValid(mask))
    requires at.ports.Some? && at.accepted && IsWord(at.token)
    requires forall p | p in at.ports.value.All() :: -TWO63 <= p < TWO63
    ensures var script := Script(Some((mode, mask)), at);
            var line := FirstLine(script);
            && ParseInvitation(line) == Some(Invitation(at.token, mode, at.ports.value))
            && script[|line|..] == Closing(at.codec)
  {
    assert IsWord(SPLIT) && IsWord(MERGE);
    InvitationRoundTrip(Invitation(at.token, mode, at.ports.value));
    LineThenFrame(Invite(mode, at), Closing(at.codec));
  }

  /** A refused profile is answered with an error frame, but a client at that point reads an
      invitation and cannot understand it: the line has six words, not nine. */
  lemma RefusalIsNoInvitation(mask: Mask, at: Setting)
    requires !Plan.ProfileValid(mask)
    ensures var script := Script(Some((MERGE, mask)), at);
            FirstLine(script) == script && ParseInvitation(script) == None
  {
    var which := if mask & MISSING_EC != 0 && mask & MISSING_OC != 0 then "cypher" else "noise";
    assert IsWord(which);
    SixWords(which);
  }

  lemma SixWords(which: string)
    requires IsWord(which)
    ensures var frame := ErrorFrame(RefusalText(which));
            FirstLine(frame) == frame && ParseInvitation(frame) == None
  {
    var words := [which, "core", "particles", "missing"];
    assert IsWord("both") && IsWord("core") && IsWord("particles") && IsWord("missing") && IsWord("error");
    ErrorText("both", words);
    LineIsItself(ErrorFrame(RefusalText(which)));
    WordsOfText("error", ["both"] + words);
    FieldsTrim(ErrorFrame(RefusalText(which)));
  }

  lemma LineIsItself(line: seq<Byte>)
    requires IsLine(line)
    ensures FirstLine(line) == line
  {
    LineThenFrame(line, []);
    assert line + [] == line;
  }

  lemma ErrorText(first: string, words: seq<string>)
    requires IsWord(first) && forall w | w in words :: IsWord(w)
    ensures ErrorFrame(first + Spaced(words)) == "error" + (Spaced([first] + words) + "\n")
    ensures IsLine(ErrorFrame(first + Spaced(words)))
  {
    FieldsOfSpaced(words);
    var msg := first + Spaced(words);
    assert '\n' !in msg by {
      assert '\n' !in first;
    }
    LineOf(ERROR_PREFIX + msg);
    SpacedFirst(first, words);
    Rejoin("error", " ", first, Spaced(words), "\n");
  }

  lemma SpacedFirst(first: string, words: seq<string>)
    ensures Spaced([first] + words) == " " + first + Spaced(words)
  {
    assert ([first] + words)[1..] == words;
  }

  lemma Rejoin(a: string, b: string, f: string, s: string, n: string)
    ensures (a + b) + (f + s) + n == a + ((b + f + s) + n)
  {
  }
}
