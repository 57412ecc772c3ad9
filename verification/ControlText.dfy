/**
  The lines of the control channel: mode, merge profile, invitation, error frame and
  length-prefixed trailer frame, printed on one side and read on the other through a
  buffered reader over an arbitrarily segmented connection.
*/
module ControlText {
  import opened Prelude
  import opened Readers
  import opened Text

  type Mode = string
  const SPLIT: Mode := "split"
  const MERGE: Mode := "merge"

  // ---- lines ----

  /** Text whose only newline is its last character. */
  predicate IsLine(s: seq<Byte>) {
    s != [] && s[|s| - 1] == '\n' && '\n' !in s[..|s| - 1]
  }

  /** The text up to and including its first newline. */
  function FirstLine(s: seq<Byte>): (l: seq<Byte>)
    ensures l <= s && ('\n' in s ==> IsLine(l)) && ('\n' !in s ==> l == s)
  {
    if s == [] then []
    else if s[0] == '\n' then [s[0]]
    else
      var l := FirstLine(s[1..]);
      assert s == [s[0]] + s[1..] && [s[0]] + l <= s;
      [s[0]] + l
  }

  lemma {:induction false} FirstLineIs(l: seq<Byte>, rest: seq<Byte>)
    requires IsLine(l)
    ensures FirstLine(l + rest) == l && '\n' in l + rest
  {
    assert l[|l| - 1] in l + rest;
    if |l| > 1 {
      assert l[0] == l[..|l| - 1][0];
      assert (l + rest)[1..] == l[1..] + rest;
      assert l[1..][..|l[1..]| - 1] == l[1..|l| - 1];
      FirstLineIs(l[1..], rest);
    } else {
      assert (l + rest)[0] == '\n';
    }
  }

  /** The whole text is a line when it is one newline after newline-free text. */
  lemma LineOf(s: seq<Byte>)
    requires '\n' !in s
    ensures IsLine(s + "\n") && TrimNewline(s + "\n") == s
  {
    assert (s + "\n")[..|s|] == s;
  }

  lemma PrefixOfLine(l: seq<Byte>, s: seq<Byte>)
    requires IsLine(l) && s < l
    ensures '\n' !in s
  {
    assert s == l[..|l| - 1][..|s|];
  }

  function TrimNewline(s: seq<Byte>): seq<Byte> {
    if s != [] && s[|s| - 1] == '\n' then s[..|s| - 1] else s
  }

  // ---- mode and profile lines ----

  function ParseModeLine(line: string): Option<Mode> {
    var mode := TrimSpace(line);
    if mode == SPLIT || mode == MERGE then Some(mode) else None
  }

  /** A mode word between white space. */
  ghost predicate IsModeLine(line: string, mode: Mode) {
    exists a: string, b: string :: line == a + mode + b && Blank(a) && Blank(b)
  }

  /** The parser accepts exactly the two mode words, with any white space around them. */
  lemma ModeLanguage(line: string, mode: Mode)
    ensures ParseModeLine(line) == Some(mode) <==> (mode == "split" || mode == "merge") && IsModeLine(line, mode)
  {
    if ParseModeLine(line) == Some(mode) {
      var a, b := TrimParts(line);
    }
    if (mode == "split" || mode == "merge") && IsModeLine(line, mode) {
      var a: string, b: string :| line == a + mode + b && Blank(a) && Blank(b);
      assert IsWord(mode);
      TrimToWord(a, mode, b);
    }
  }

  type Mask = bv8
  const MISSING_EC: Mask := 1
  const MISSING_OC: Mask := 2
  const MISSING_EN: Mask := 4
  const MISSING_ON: Mask := 8

  function FormatProfileLine(mask: Mask): string {
    "profile" + " " + Numeral(16, mask as int) + "\n"
  }

  /** A hexadecimal numeral of at most 8 bits. */
  function ParseUint8Hex(s: string): (v: Option<nat>)
    ensures v.Some? ==> v.value < 256
  {
    if IsNumeral(16, s) && Value(16, s) < 256 then Some(Value(16, s)) else None
  }

  function MaskOf(v: nat): Option<Mask>
    requires v < 256
  {
    var mask := v as bv8;
    if mask & !(MISSING_EC | MISSING_OC | MISSING_EN | MISSING_ON) != 0 then None else Some(mask)
  }

  function ParseProfileLine(line: string): Option<Mask> {
    ProfileOf(Fields(TrimSpace(line)))
  }

  function ProfileOf(fields: seq<string>): Option<Mask> {
    if |fields| != 2 || fields[0] != "profile" then None
    else
      var v := ParseUint8Hex(fields[1]);
      if v.None? then None else MaskOf(v.value)
  }

  lemma LowNibble(b: bv8)
    ensures b & !(MISSING_EC | MISSING_OC | MISSING_EN | MISSING_ON) == 0 <==> b < 16
  {
  }

  lemma HighBits(v: nat)
    requires v < 256
    ensures MaskOf(v) == if v < 16 then Some(v as bv8) else None
    ensures (v as bv8) as int == v
  {
    var b := v as bv8;
    LowNibble(b);
    assert b as int == v;
    if v < 16 {
      assert b < 16 as bv8;
    }
  }

  /** A profile line: white space, the keyword, white space, hex digits, white space. */
  ghost predicate IsProfileLine(line: string, h: string) {
    exists a: string, b: string, c: string ::
      && line == a + "profile" + b + h + c
      && Blank(a) && Blank(b) && b != "" && Blank(c)
  }

  /** The parser accepts exactly the profile lines whose numeral is at most 15, whatever the
      spacing and however many leading zeros, and returns the numeral's value. */
  lemma ProfileLanguage(line: string, mask: Mask)
    ensures ParseProfileLine(line) == Some(mask) <==>
              exists h: string :: IsProfileLine(line, h) && IsNumeral(16, h)
                                  && Value(16, h) < 16 && mask as int == Value(16, h)
  {
    FieldsTrim(line);
    if ParseProfileLine(line) == Some(mask) {
      var h := ProfileFields(line);
      HighBits(Value(16, h));
    }
    forall h: string | IsProfileLine(line, h) && IsNumeral(16, h) && Value(16, h) < 16 && mask as int == Value(16, h)
      ensures ParseProfileLine(line) == Some(mask)
    {
      ProfileWords(line, h);
      HighBits(Value(16, h));
    }
  }

  lemma ProfileFields(line: string) returns (h: string)
    requires |Fields(line)| == 2 && Fields(line)[0] == "profile"
    ensures h == Fields(line)[1] && IsProfileLine(line, h)
  {
    var a, b, c;
    a, b, h, c := TwoFields(line);
  }

  /** A line of two fields, cut up. */
  lemma TwoFields(line: string) returns (a: string, b: string, h: string, c: string)
    requires |Fields(line)| == 2
    ensures h == Fields(line)[1] && line == a + Fields(line)[0] + b + h + c
    ensures Blank(a) && Blank(b) && b != "" && Blank(c)
  {
    var w, t;
    a, w, t := CutField(line);
    assert Fields(t) == Fields(line)[1..];
    b, h, c := CutField(t);
    BlankHasNoFields(c);
    Join3(a + w, b, h, c);
  }

  lemma ProfileWords(line: string, h: string)
    requires IsProfileLine(line, h) && IsNumeral(16, h)
    ensures Fields(line) == ["profile", h]
  {
    var a: string, b: string, c: string :|
      line == a + "profile" + b + h + c && Blank(a) && Blank(b) && b != "" && Blank(c);
    ProfileWordsAt(a, b, h, c);
  }

  lemma ProfileWordsAt(a: string, b: string, h: string, c: string)
    requires Blank(a) && Blank(b) && b != "" && IsNumeral(16, h) && Blank(c)
    ensures Fields(a + "profile" + b + h + c) == ["profile", h]
  {
    var t := b + h + c;
    NumeralsAreWords(16, h);
    assert t[0] == b[0];
    FirstField(b, h, c);
    BlankHasNoFields(c);
    FirstField(a, "profile", t);
    Join3(a + "profile", b, h, c);
  }

  lemma Join3(p: string, b: string, h: string, c: string)
    ensures p + b + h + c == p + (b + h + c)
  {
  }

  lemma ProfileText(v: nat)
    ensures var line := "profile" + " " + Numeral(16, v) + "\n";
            IsLine(line) && Fields(TrimSpace(line)) == ["profile", Numeral(16, v)]
  {
    var h := Numeral(16, v);
    var line := "profile" + " " + h + "\n";
    NumeralRoundTrip(16, v);
    NumeralsAreWords(16, h);
    ProfileWordsAt("", " ", h, "\n");
    assert "" + "profile" == "profile";
    FieldsTrim(line);
    assert '\n' !in "profile" + " ";
    LineOf("profile" + " " + h);
  }

  lemma MaskAsInt(mask: Mask)
    ensures (mask as int) as bv8 == mask && 0 <= mask as int < 256
  {
  }

  /** What the parser makes of the keyword and a numeral. */
  lemma ParsedProfile(fields: seq<string>, v: nat)
    requires |fields| == 2 && fields[0] == "profile" && ParseUint8Hex(fields[1]) == Some(v)
    ensures ProfileOf(fields) == if v < 16 then Some(v as bv8) else None
  {
    HighBits(v);
  }

  lemma ProfileRoundTrip(mask: Mask)
    ensures IsLine(FormatProfileLine(mask))
    ensures ParseProfileLine(FormatProfileLine(mask)) == if mask as int < 16 then Some(mask) else None
  {
    MaskAsInt(mask);
    ProfileText(mask as int);
    NumeralRoundTrip(16, mask as int);
    ParsedProfile(["profile", Numeral(16, mask as int)], mask as int);
  }

  /** What the server must understand from the bytes a client sends first. */
  function HandshakeOf(bytes: seq<Byte>, end: Failure): Option<(Mode, Mask)> {
    var line := FirstLine(bytes);
    if line == "" || ('\n' !in bytes && end != Eof) then None
    else
      var mode := ParseModeLine(line);
      if mode.None? then None
      else if mode.value != MERGE then Some((mode.value, 0))
      else
        var rest := bytes[|line|..];
        if '\n' !in rest then None
        else
          var mask := ParseProfileLine(FirstLine(rest));
          if mask.None? then None else Some((mode.value, mask.value))
  }

  /** A profile line whose numeral is the mask and at most 15. */
  ghost predicate IsProfileOf(line: string, mask: Mask) {
    exists h: string :: IsProfileLine(line, h) && IsNumeral(16, h) && Value(16, h) < 16 && mask as int == Value(16, h)
  }

  /** The handshakes the server accepts, and no others: a mode line, which only the end of the
      stream may cut off before its newline; for a split nothing more, for a merge a complete
      profile line. */
  lemma HandshakeLanguage(bytes: seq<Byte>, end: Failure, mode: Mode, mask: Mask)
    ensures HandshakeOf(bytes, end) == Some((mode, mask)) <==>
              var line := FirstLine(bytes);
              var rest := bytes[|line|..];
              && ('\n' in bytes || end == Eof)
              && ( || (mode == "split" && IsModeLine(line, mode) && mask == 0)
                   || (mode == "merge" && IsModeLine(line, mode) && '\n' in rest && IsProfileOf(FirstLine(rest), mask)))
  {
    var line := FirstLine(bytes);
    ModeLanguage(line, SPLIT);
    ModeLanguage(line, MERGE);
    ProfileLanguage(FirstLine(bytes[|line|..]), mask);
    assert TrimSpace("") == "";
  }

  /** The lines the server takes as handshake off the front of what a client sends. */
  function HelloOf(bytes: seq<Byte>): seq<Byte> {
    var line := FirstLine(bytes);
    if ParseModeLine(line) != Some(MERGE) then line else line + FirstLine(bytes[|line|..])
  }

  /** Reads the first line off a fresh or used reader; None if the stream fails before its end. */
  method ReadModeLine(br: BufReader) returns (line: Option<seq<Byte>>)
    requires br.Valid()
    modifies br, br.conn
    ensures br.Valid()
    ensures line.Some? ==> line.value == FirstLine(old(br.Rest())) && old(br.Rest()) == line.value + br.Rest()
    ensures line.Some? ==> '\n' in old(br.Rest()) || br.conn.end == Eof
    ensures line.None? ==> Stalled(br.conn) || ('\n' !in old(br.Rest()) && br.conn.end != Eof)
  {
    var text, err := br.ReadLine();
    if err.None? || br.Rest() == [] {
      LineIsFirst(old(br.Rest()), text, br.Rest(), err.None?);
    }
    line := if err.Some? && err.value != Eof then None else Some(text);
  }

  method ReadProfile(br: BufReader) returns (mask: Option<Mask>)
    requires br.Valid()
    modifies br, br.conn
    ensures br.Valid()
    ensures mask.Some? ==> old(br.Rest()) == FirstLine(old(br.Rest())) + br.Rest()
    ensures || mask == (if '\n' in old(br.Rest()) then ParseProfileLine(FirstLine(old(br.Rest()))) else None)
            || (mask.None? && Stalled(br.conn))
  {
    var line, err := br.ReadLine();
    if err.None? || br.Rest() == [] {
      LineIsFirst(old(br.Rest()), line, br.Rest(), err.None?);
    }
    mask := if err.Some? then None else ParseProfileLine(line);
  }

  /** Reads the mode line and, for a merge, the profile line. `dropped` is what the reader that
      is thrown away had pulled in behind them: nothing, if the client sent only its opening. */
  method ReadClientHandshake(conn: Conn) returns (res: Option<(Mode, Mask)>, ghost dropped: seq<Byte>)
    modifies conn
    ensures res == HandshakeOf(old(conn.rest), conn.end) || (res.None? && Stalled(conn))
    ensures res.Some? ==> old(conn.rest) == HelloOf(old(conn.rest)) + (dropped + conn.rest)
    ensures res.Some? && old(conn.rest) == ClientHello(res.value.0, res.value.1) ==> dropped == [] && conn.rest == []
  {
    var br := new BufReader(conn);
    ghost var bytes := conn.rest;
    dropped := [];
    var line := ReadModeLine(br);
    if line.None? || line.value == "" {
      return None, dropped;
    }
    var mode := ParseModeLine(line.value);
    if mode.None? {
      return None, dropped;
    }
    var mask: Mask := 0;
    ghost var rest := br.Rest();
    assert rest == bytes[|line.value|..];
    if mode.value == MERGE {
      var profile := ReadProfile(br);
      if profile.None? {
        return None, dropped;
      }
      mask := profile.value;
    }
    HelloTaken(bytes, mode.value, br.Rest());
    res, dropped := Some((mode.value, mask)), br.buf;
    HelloAlone(bytes, mode.value, mask, br.Rest());
  }

  /** The mode line, and for a merge the next line too, are what the handshake takes. */
  lemma HelloTaken(bytes: seq<Byte>, mode: Mode, left: seq<Byte>)
    requires ParseModeLine(FirstLine(bytes)) == Some(mode)
    requires var rest := bytes[|FirstLine(bytes)|..];
             if mode == MERGE then rest == FirstLine(rest) + left else rest == left
    ensures bytes == HelloOf(bytes) + left
  {
    var line := FirstLine(bytes);
    assert bytes == line + bytes[|line|..];
    Assoc(line, FirstLine(bytes[|line|..]), left);
  }

  /** Nothing is left of a client's own opening. */
  lemma HelloAlone(bytes: seq<Byte>, mode: Mode, mask: Mask, left: seq<Byte>)
    requires (mode == SPLIT || mode == MERGE) && bytes == HelloOf(bytes) + left
    ensures bytes == ClientHello(mode, mask) ==> left == []
  {
    HelloIsWhole(mode, mask);
  }

  /** What `ReadLine` returned is the first line, or everything if there was no newline. */
  lemma LineIsFirst(bytes: seq<Byte>, line: seq<Byte>, rest: seq<Byte>, found: bool)
    requires bytes == line + rest
    requires found ==> line != [] && line[|line| - 1] == '\n' && '\n' !in line[..|line| - 1]
    requires !found ==> '\n' !in line && rest == []
    ensures line == FirstLine(bytes) && (found <==> '\n' in bytes)
  {
    if found {
      FirstLineIs(line, rest);
    } else {
      assert bytes == line;
    }
  }

  /** The lines a client opens a session with. */
  function ClientHello(mode: Mode, mask: Mask): seq<Byte> {
    mode + "\n" + if mode == MERGE then FormatProfileLine(mask) else ""
  }

  lemma ModeLine(mode: Mode)
    requires mode == SPLIT || mode == MERGE
    ensures IsLine(mode + "\n") && ParseModeLine(mode + "\n") == Some(mode)
  {
    TrimToWord("", mode, "\n");
    assert "" + mode + "\n" == mode + "\n";
    LineOf(mode);
  }

  /** The very bytes a client opens with: the mode, and for a merge the mask as hex digits. */
  lemma HelloText(mask: Mask)
    ensures ClientHello(SPLIT, mask) == "split\n"
    ensures mask as int < 10 ==> ClientHello(MERGE, mask) == "merge\nprofile " + ['0' + (mask as char)] + "\n"
  {
    assert SPLIT != MERGE by {
      assert SPLIT[0] == 's' && MERGE[0] == 'm';
    }
    if mask as int < 10 {
      assert Numeral(16, mask as int) == [DigitChar(mask as int)];
    }
  }

  /** The server's handshake reader takes a client's opening lines and nothing is left. */
  lemma HelloIsWhole(mode: Mode, mask: Mask)
    requires mode == SPLIT || mode == MERGE
    ensures HelloOf(ClientHello(mode, mask)) == ClientHello(mode, mask)
  {
    var line := mode + "\n";
    var rest := if mode == MERGE then FormatProfileLine(mask) else "";
    ModeLine(mode);
    FirstLineIs(line, rest);
    assert (line + rest)[|line|..] == rest;
    if mode == MERGE {
      ProfileRoundTrip(mask);
      FirstLineIs(rest, []);
      assert rest + [] == rest;
    }
  }

  /** The server understands either mode and every mask of known bits from those lines, and
      refuses any other mask. */
  lemma HandshakeRoundTrip(mode: Mode, mask: Mask, end: Failure)
    requires mode == SPLIT || mode == MERGE
    ensures HandshakeOf(ClientHello(mode, mask), end) ==
              if mode == SPLIT then Some((SPLIT, 0)) else if mask as int < 16 then Some((MERGE, mask)) else None
  {
    var line := mode + "\n";
    ModeLine(mode);
    var rest := if mode == MERGE then FormatProfileLine(mask) else "";
    FirstLineIs(line, rest);
    assert (line + rest)[|line|..] == rest;
    if mode == MERGE {
      ProfileRoundTrip(mask);
      FirstLineIs(rest, []);
      assert rest + [] == rest;
    }
  }

  // ---- invitation ----

  datatype DataPorts = DataPorts(doc: int, ec: int, oc: int, en: int, on: int, cp: int, np: int) {
    function All(): seq<int> { [doc, ec, oc, en, on, cp, np] }
  }

  datatype Invitation = Invitation(token: string, mode: Mode, ports: DataPorts) {
    function Words(): seq<string> {
      [token, mode] + Decimals(ports.All())
    }

    function Format(): string {
      token + Spaced(Words()[1..]) + "\n"
    }
  }

  function Decimals(ns: seq<int>): (r: seq<string>)
    ensures |r| == |ns| && forall i :: 0 <= i < |ns| ==> r[i] == Decimal(ns[i])
  {
    seq(|ns|, i requires 0 <= i < |ns| => Decimal(ns[i]))
  }

  function ParseInvitation(line: string): Option<Invitation> {
    FromFields(Fields(TrimSpace(line)))
  }

  /** All seven ports are numbers. */
  predicate ArePorts(f: seq<string>) {
    forall i :: 0 <= i < |f| ==> Atoi(f[i]).Some?
  }

  function FromFields(f: seq<string>): Option<Invitation> {
    if |f| != 9 || !ArePorts(f[2..]) then None
    else
      Some(Invitation(f[0], f[1], PortsOf(f[2..])))
  }

  function PortsOf(p: seq<string>): DataPorts
    requires |p| == 7 && ArePorts(p)
  {
    DataPorts(Atoi(p[0]).value, Atoi(p[1]).value, Atoi(p[2]).value, Atoi(p[3]).value,
              Atoi(p[4]).value, Atoi(p[5]).value, Atoi(p[6]).value)
  }

  method ParsePorts(fields: seq<string>) returns (ports: Option<seq<int>>)
    requires |fields| == 7
    ensures ports.Some? <==> ArePorts(fields)
    ensures ports.Some? ==> |ports.value| == 7 && forall i :: 0 <= i < 7 ==> Atoi(fields[i]) == Some(ports.value[i])
  {
    var out := new int[7];
    for i := 0 to 7
      invariant forall j :: 0 <= j < i ==> Atoi(fields[j]) == Some(out[j])
    {
      var n := Atoi(fields[i]);
      if n.None? {
        return None;
      }
      out[i] := n.value;
    }
    ports := Some(out[..]);
  }

  method ParseFields(fields: seq<string>) returns (inv: Option<Invitation>)
    ensures inv == FromFields(fields)
  {
    if |fields| != 9 {
      return None;
    }
    var ports := ParsePorts(fields[2..]);
    if ports.None? {
      return None;
    }
    var p := ports.value;
    inv := Some(Invitation(fields[0], fields[1], DataPorts(p[0], p[1], p[2], p[3], p[4], p[5], p[6])));
  }

  /** Reads one line and parses it. `dropped` is what the reader that is thrown away had pulled
      in behind the line: it is lost, and only what is left on the connection survives. */
  method ReadInvitation(conn: Conn) returns (inv: Option<Invitation>, ghost dropped: seq<Byte>)
    modifies conn
    ensures || inv == (if '\n' in old(conn.rest) then ParseInvitation(FirstLine(old(conn.rest))) else None)
            || (inv.None? && Stalled(conn))
    ensures inv.Some? ==> old(conn.rest) == FirstLine(old(conn.rest)) + (dropped + conn.rest)
  {
    var br := new BufReader(conn);
    dropped := [];
    var line, err := br.ReadLine();
    if err.None? || br.Rest() == [] {
      LineIsFirst(old(conn.rest), line, br.Rest(), err.None?);
    }
    if err.Some? {
      return None, dropped;
    }
    inv := ParseFields(Fields(TrimSpace(line)));
    dropped := br.buf;
  }

  /** With 64-bit ports an invitation reads back exactly when its token and mode are words. */
  lemma InvitationRoundTrip(inv: Invitation)
    requires forall p | p in inv.ports.All() :: -TWO63 <= p < TWO63
    ensures ParseInvitation(inv.Format()) == Some(inv) <==> IsWord(inv.token) && IsWord(inv.mode)
    ensures IsWord(inv.token) && IsWord(inv.mode) ==> IsLine(inv.Format())
  {
    FieldsTrim(inv.Format());
    FieldsAreWords(inv.Format());
    if IsWord(inv.token) && IsWord(inv.mode) {
      FormatFields(inv);
      PortsReadBack(inv.ports.All());
      assert inv.Words()[2..] == Decimals(inv.ports.All());
    }
  }

  lemma FormatFields(inv: Invitation)
    requires forall p | p in inv.ports.All() :: -TWO63 <= p < TWO63
    requires IsWord(inv.token) && IsWord(inv.mode)
    ensures Fields(inv.Format()) == inv.Words() && IsLine(inv.Format())
  {
    var rest := [inv.mode] + Decimals(inv.ports.All());
    PortsReadBack(inv.ports.All());
    assert inv.Words() == [inv.token] + rest && inv.Words()[1..] == rest;
    SpacedLine(inv.token, rest);
  }

  /** A line of words with blanks between them. */
  lemma SpacedLine(first: string, rest: seq<string>)
    requires IsWord(first) && forall w | w in rest :: IsWord(w)
    ensures var line := first + Spaced(rest) + "\n"; Fields(line) == [first] + rest && IsLine(line)
  {
    FieldsOfSpaced(rest);
    WordsOfText(first, rest);
    Assoc(first, Spaced(rest), "\n");
    assert '\n' !in first + Spaced(rest) by {
      assert '\n' !in first;
    }
    LineOf(first + Spaced(rest));
  }

  /** The nine words of an invitation line in the order of the protocol. */
  lemma InvitationWords(inv: Invitation)
    requires forall p | p in inv.ports.All() :: -TWO63 <= p < TWO63
    requires IsWord(inv.token) && IsWord(inv.mode)
    ensures Fields(inv.Format()) ==
              [inv.token, inv.mode, Decimal(inv.ports.doc), Decimal(inv.ports.ec), Decimal(inv.ports.oc),
               Decimal(inv.ports.en), Decimal(inv.ports.on), Decimal(inv.ports.cp), Decimal(inv.ports.np)]
  {
    FormatFields(inv);
    NineWords(inv.token, inv.mode, Decimals(inv.ports.All()));
  }

  lemma NineWords(a: string, b: string, w: seq<string>)
    requires |w| == 7
    ensures [a, b] + w == [a, b, w[0], w[1], w[2], w[3], w[4], w[5], w[6]]
  {
  }

  /** The lines read as an invitation, and no others: nine words, of which the last seven are
      numbers, taken as document port, the four cores' ports and the two parities'. */
  lemma InvitationLanguage(line: string, inv: Invitation)
    ensures ParseInvitation(line) == Some(inv) <==>
              var f := Fields(line);
              |f| == 9 && f[0] == inv.token && f[1] == inv.mode && ArePortsOf(f[2..], inv.ports)
  {
    FieldsTrim(line);
    var f := Fields(line);
    if |f| == 9 {
      PortsInOrder(f[2..], inv.ports);
    }
  }

  ghost predicate ArePortsOf(f: seq<string>, ports: DataPorts)
    requires |f| == 7
  {
    && Atoi(f[0]) == Some(ports.doc)
    && Atoi(f[1]) == Some(ports.ec) && Atoi(f[2]) == Some(ports.oc)
    && Atoi(f[3]) == Some(ports.en) && Atoi(f[4]) == Some(ports.on)
    && Atoi(f[5]) == Some(ports.cp) && Atoi(f[6]) == Some(ports.np)
  }

  lemma PortsInOrder(f: seq<string>, ports: DataPorts)
    requires |f| == 7
    ensures ArePortsOf(f, ports) <==> ArePorts(f) && PortsOf(f) == ports
  {
    var v := Numbers(f);
    assert ArePorts(f) <==> forall i :: 0 <= i < 7 ==> v[i].Some?;
    SevenInOrder(v, ports);
  }

  function Numbers(f: seq<string>): (v: seq<Option<int>>)
    ensures |v| == |f| && forall i :: 0 <= i < |f| ==> v[i] == Atoi(f[i])
  {
    seq(|f|, i requires 0 <= i < |f| => Atoi(f[i]))
  }

  lemma SevenInOrder(v: seq<Option<int>>, ports: DataPorts)
    requires |v| == 7
    ensures && v[0] == Some(ports.doc) && v[1] == Some(ports.ec) && v[2] == Some(ports.oc) && v[3] == Some(ports.en)
            && v[4] == Some(ports.on) && v[5] == Some(ports.cp) && v[6] == Some(ports.np)
            <==> (forall i :: 0 <= i < 7 ==> v[i].Some?)
                 && ports == DataPorts(v[0].value, v[1].value, v[2].value, v[3].value,
                                       v[4].value, v[5].value, v[6].value)
  {
  }

  lemma PortsReadBack(ports: seq<int>)
    requires forall p | p in ports :: -TWO63 <= p < TWO63
    ensures forall w | w in Decimals(ports) :: IsWord(w)
    ensures forall i :: 0 <= i < |ports| ==> Atoi(Decimals(ports)[i]) == Some(ports[i])
  {
    forall i | 0 <= i < |ports| ensures IsWord(Decimals(ports)[i]) && Atoi(Decimals(ports)[i]) == Some(ports[i]) {
      assert ports[i] in ports;
      DecimalRoundTrip(ports[i]);
    }
  }

  /** Two different invitations made of words never look the same on the wire. */
  lemma FormatIsInjective(a: Invitation, b: Invitation)
    requires forall p | p in a.ports.All() + b.ports.All() :: -TWO63 <= p < TWO63
    requires IsWord(a.token) && IsWord(a.mode) && IsWord(b.token) && IsWord(b.mode)
    requires a.Format() == b.Format()
    ensures a == b
  {
    assert forall p | p in a.ports.All() :: p in a.ports.All() + b.ports.All();
    assert forall p | p in b.ports.All() :: p in a.ports.All() + b.ports.All();
    InvitationRoundTrip(a);
    InvitationRoundTrip(b);
  }

  // ---- final frame: error line or trailer ----

  const ERROR_PREFIX := "error "
  const DEFAULT_MESSAGE := "server session failed"
  const MAX_TRAILER := 0x10_0000

  function OneLine(msg: string): (r: string)
    ensures |r| == |msg| && '\n' !in r
    ensures '\n' !in msg ==> r == msg
    ensures forall i :: 0 <= i < |msg| ==> r[i] == if msg[i] == '\n' then ' ' else msg[i]
  {
    seq(|msg|, i requires 0 <= i < |msg| => if msg[i] == '\n' then ' ' else msg[i])
  }

  function ErrorFrame(msg: string): seq<Byte> {
    ERROR_PREFIX + OneLine(msg) + "\n"
  }

  function TrailerFrame(body: seq<Byte>): seq<Byte> {
    Numeral(10, |body|) + "\n" + body
  }

  datatype Reply =
    | SessionFailed(msg: string)   // an error frame
    | Body(data: seq<Byte>)        // a trailer frame's body
    | Malformed                    // neither, or a length that is refused
    | Incomplete                   // the stream stopped inside the frame

  /** What reading one final frame from these bytes must give. */
  function FinalReply(s: seq<Byte>): Reply {
    if '\n' !in s then Incomplete
    else var line := FirstLine(s); ReplyTo(TrimNewline(line), s[|line|..])
  }

  function ReplyTo(text: seq<Byte>, rest: seq<Byte>): Reply {
    if ERROR_PREFIX <= text then
      var msg := text[|ERROR_PREFIX|..];
      SessionFailed(if msg == "" then DEFAULT_MESSAGE else msg)
    else
      var n := IntDecimal(text);
      if n.None? || n.value < 0 || n.value > MAX_TRAILER then Malformed
      else if |rest| < n.value then Incomplete
      else Body(rest[..n.value])
  }

  method ReadTrailer(conn: Conn) returns (reply: Reply)
    modifies conn
    ensures reply == FinalReply(old(conn.rest)) || (reply == Incomplete && Stalled(conn))
  {
    var br := new BufReader(conn);
    var line, err := br.ReadLine();
    if err.None? || br.Rest() == [] {
      LineIsFirst(old(conn.rest), line, br.Rest(), err.None?);
    }
    if err.Some? {
      return Incomplete;
    }
    assert br.Rest() == old(conn.rest)[|line|..];
    reply := ReadSessionLine(br, TrimNewline(line));
  }

  /** The reader's work after the first line, stripped of its newline, has arrived. */
  method ReadSessionLine(br: BufReader, text: seq<Byte>) returns (reply: Reply)
    requires br.Valid()
    modifies br, br.conn
    ensures reply == ReplyTo(text, old(br.Rest()))
  {
    if ERROR_PREFIX <= text {
      var msg := text[|ERROR_PREFIX|..];
      return SessionFailed(if msg == "" then DEFAULT_MESSAGE else msg);
    }
    var n := ParseIntDecimal(text);
    if n.None? || n.value < 0 || n.value > MAX_TRAILER {
      return Malformed;
    }
    var data, e := br.ReadFull(n.value);
    if e.Some? {
      return Incomplete;
    }
    reply := Body(data);
  }

  /** An error frame reads back as its message with blanks for newlines, whatever follows it, and
      never as a trailer; an empty message reads as the default text. */
  lemma ErrorFrameRoundTrip(msg: string, more: seq<Byte>)
    ensures var reply := FinalReply(ErrorFrame(msg) + more);
            && reply.SessionFailed?
            && (msg == "" ==> reply.msg == "server session failed")
            && (msg != "" ==>
                  |reply.msg| == |msg|
                  && forall i :: 0 <= i < |msg| ==> reply.msg[i] == if msg[i] == '\n' then ' ' else msg[i])
    ensures FinalReply(ErrorFrame(msg) + more) == SessionFailed(if msg == "" then DEFAULT_MESSAGE else OneLine(msg))
    ensures IsLine(ErrorFrame(msg))
  {
    var text := ERROR_PREFIX + OneLine(msg);
    assert '\n' !in ERROR_PREFIX;
    LineOf(text);
    FirstLineIs(ErrorFrame(msg), more);
    assert text[|ERROR_PREFIX|..] == OneLine(msg);
  }

  /** On the wire: the word, a blank, the message, a newline. */
  lemma ErrorFrameText(msg: string)
    requires '\n' !in msg
    ensures ErrorFrame(msg) == "error " + msg + "\n"
  {
  }

  /** What reads as an error: a first line that starts with the word and a blank. */
  lemma ErrorLanguage(s: seq<Byte>, msg: string)
    ensures FinalReply(s) == SessionFailed(msg) <==>
              exists text: seq<Byte>, rest: seq<Byte> ::
                && '\n' !in text && s == "error " + text + "\n" + rest
                && msg == if text == "" then "server session failed" else text
  {
    if FinalReply(s) == SessionFailed(msg) {
      var text, rest := ErrorParts(s, msg);
    }
    forall text: seq<Byte>, rest: seq<Byte> | '\n' !in text && s == "error " + text + "\n" + rest
      ensures FinalReply(s) == SessionFailed(if text == "" then "server session failed" else text)
    {
      ErrorFrameText(text);
      ErrorFrameRoundTrip(text, rest);
    }
  }

  lemma ErrorParts(s: seq<Byte>, msg: string) returns (text: seq<Byte>, rest: seq<Byte>)
    requires FinalReply(s) == SessionFailed(msg)
    ensures '\n' !in text && s == "error " + text + "\n" + rest
    ensures msg == if text == "" then "server session failed" else text
  {
    var front;
    front, rest := LineParts(s);
    text := front[|ERROR_PREFIX|..];
    assert front == ERROR_PREFIX + text;
  }

  /** A trailer frame of up to nine bytes, as it looks on the wire. */
  lemma TrailerFrameText(body: seq<Byte>)
    requires |body| < 10
    ensures TrailerFrame(body) == ['0' + (|body| as char), '\n'] + body
  {
    assert Numeral(10, |body|) == [DigitChar(|body|)];
  }

  /** What reads as a trailer: a line of digits and, behind it, as many bytes as they say. */
  lemma TrailerLanguage(s: seq<Byte>, body: seq<Byte>)
    ensures FinalReply(s) == Body(body) <==>
              exists digits: string, rest: seq<Byte> ::
                && IsNumeral(10, digits) && s == digits + "\n" + rest
                && Wrap64(Value(10, digits)) == |body| <= 0x10_0000 && body <= rest
  {
    if FinalReply(s) == Body(body) {
      var digits, rest := TrailerParts(s, body);
    }
    forall digits: string, rest: seq<Byte> | && IsNumeral(10, digits) && s == digits + "\n" + rest
                && Wrap64(Value(10, digits)) == |body| <= 0x10_0000 && body <= rest
      ensures FinalReply(s) == Body(body)
    {
      FirstLineCut(digits, rest);
      NumeralIsNoError(digits);
    }
  }

  lemma TrailerParts(s: seq<Byte>, body: seq<Byte>) returns (digits: string, rest: seq<Byte>)
    requires FinalReply(s) == Body(body)
    ensures IsNumeral(10, digits) && s == digits + "\n" + rest
    ensures Wrap64(Value(10, digits)) == |body| <= 0x10_0000 && body <= rest
  {
    digits, rest := LineParts(s);
    BodyMeans(digits, rest, body);
  }

  lemma BodyMeans(text: seq<Byte>, rest: seq<Byte>, body: seq<Byte>)
    requires ReplyTo(text, rest) == Body(body)
    ensures IsNumeral(10, text) && Wrap64(Value(10, text)) == |body| <= 0x10_0000 && body <= rest
  {
  }

  /** The first line, without its newline, and what follows decide how a frame is read. */
  lemma LineParts(s: seq<Byte>) returns (text: seq<Byte>, rest: seq<Byte>)
    requires FinalReply(s) != Incomplete || '\n' in s
    ensures '\n' !in text && s == text + "\n" + rest && FinalReply(s) == ReplyTo(text, rest)
  {
    var line := FirstLine(s);
    text, rest := TrimNewline(line), s[|line|..];
    assert s == line + rest && line == text + "\n";
  }

  /** Anything else on the first line is malformed. */
  lemma OtherwiseMalformed(text: seq<Byte>, rest: seq<Byte>)
    requires '\n' !in text && !("error " <= text) && !IsNumeral(10, text)
    ensures FinalReply(text + "\n" + rest) == Malformed
  {
    FirstLineCut(text, rest);
  }

  lemma FirstLineCut(text: seq<Byte>, rest: seq<Byte>)
    requires '\n' !in text || IsNumeral(10, text)
    ensures FinalReply(text + "\n" + rest) == ReplyTo(text, rest)
  {
    if IsNumeral(10, text) {
      NumeralsAreWords(10, text);
    }
    var line := text + "\n";
    LineOf(text);
    FirstLineIs(line, rest);
    assert (line + rest)[|line|..] == rest;
  }

  /** A line of digits is read as a length wrapped to 64 bits, never as an error. */
  lemma LengthLine(n: nat, rest: seq<Byte>)
    ensures IsLine(Numeral(10, n) + "\n")
    ensures var w := Wrap64(n);
            FinalReply(Numeral(10, n) + "\n" + rest) ==
              if w < 0 || w > MAX_TRAILER then Malformed
              else if |rest| < w then Incomplete else Body(rest[..w])
  {
    var digits := Numeral(10, n);
    var line := digits + "\n";
    NumeralRoundTrip(10, n);
    NumeralsAreWords(10, digits);
    LineOf(digits);
    FirstLineIs(line, rest);
    assert (line + rest)[|line|..] == rest;
    NumeralIsNoError(digits);
  }

  lemma NumeralIsNoError(s: string)
    requires IsNumeral(10, s)
    ensures !(ERROR_PREFIX <= s)
  {
    assert DigitValue(10, s[0]).Some?;
    assert ERROR_PREFIX[0] == 'e';
  }

  /** A trailer frame reads back as its body byte for byte up to the size limit, is refused
      above it, and is never taken for an error. */
  lemma TrailerFrameRoundTrip(body: seq<Byte>, more: seq<Byte>)
    requires |body| <= MAX_INT64
    ensures FinalReply(TrailerFrame(body) + more) == if |body| <= MAX_TRAILER then Body(body) else Malformed
  {
    LengthLine(|body|, body + more);
    Assoc(Numeral(10, |body|) + "\n", body, more);
    assert (body + more)[..|body|] == body;
  }

  /** The length is not checked for overflow: a body is accepted under a length line exactly
      when that length agrees with the body's modulo 2^64 and the body is within the limit. */
  lemma WrappedLengthAccepted(n: nat, body: seq<Byte>)
    ensures FinalReply(Numeral(10, n) + "\n" + body) == Body(body) <==>
              |body| <= MAX_TRAILER && n % TWO64 == |body|
  {
    LengthLine(n, body);
    if |body| <= MAX_TRAILER {
      WrapIsModular(n, |body|);
    }
    assert body[..|body|] == body;
  }

  /** No proper prefix of either frame reads as a reply, so a reader that stops at the first
      complete reply has seen the whole frame. */
  lemma ErrorPrefixIsIncomplete(msg: string, s: seq<Byte>)
    requires s < ErrorFrame(msg)
    ensures FinalReply(s) == Incomplete
  {
    ErrorFrameRoundTrip(msg, []);
    PrefixOfLine(ErrorFrame(msg), s);
  }

  lemma TrailerPrefixIsIncomplete(body: seq<Byte>, s: seq<Byte>)
    requires |body| <= MAX_TRAILER && s < TrailerFrame(body)
    ensures FinalReply(s) == Incomplete
  {
    var line := Numeral(10, |body|) + "\n";
    LengthLine(|body|, if |s| < |line| then [] else s[|line|..]);
    assert line <= TrailerFrame(body);
    if |s| < |line| {
      assert s < line;
      PrefixOfLine(line, s);
    } else {
      assert s == line + s[|line|..];
    }
  }
}
