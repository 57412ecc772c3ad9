/**
  What every run of a split session has in common: it ends; it cannot get stuck exactly when
  a data port holds the token and the control channel holds the whole trailer; and a client
  that returns a trailer holds every particle the server wrote.
*/
module SplitRuns {
  import opened Prelude
  import opened ControlText
  import opened Channels
  import opened FinalFrames
  import opened Opening
  import opened SplitSession

  // ---- every run ends ----

  /** Particle bytes cost two when written: each write also ends a commitment. */
  function PartWeight(full: nat, p: Pipe, ended: bool): int {
    2 * (full - |p.wire|) + (full - p.read) + if ended then 0 else 1
  }

  /** Work left on port i, in both directions. */
  function Weight(c: Config, s: State, i: nat): int
    requires c.Sized() && s.Shape() && i < PORTS
  {
    PipeWeight(|c.Full(i)|, s.link.lanes[i]) + PartWeight(|c.parts[i]|, s.outs[i], s.ended[i])
  }

  function Weights(c: Config, s: State): (w: seq<int>)
    requires c.Sized() && s.Shape()
    ensures |w| == PORTS && forall i :: 0 <= i < PORTS ==> w[i] == Weight(c, s, i)
  {
    seq(PORTS, i requires 0 <= i < PORTS => Weight(c, s, i))
  }

  function ControlBytes(c: Config): int {
    |c.net.invite| + |c.frames.trailer| + |c.frames.complaint|
  }

  function ClientRank(c: Client): int {
    match c case Sending => 4 case Collecting => 3 case Reading => 2 case Returned(_) => 1 case Gone(_) => 0
  }

  function ServerRank(s: Server): int {
    match s
    case Coding(want) => if want.Idle? then 7 else 6
    case Replying => 4
    case Closing => 3
    case Complaining => 2
    case HangingUp => 1
    case Done => 0
  }

  /** Steps left that move no data on a port. */
  function Rest(c: Config, s: State): int {
    (ControlBytes(c) - |s.link.ctl.wire|) + (ControlBytes(c) - s.link.ctl.read)
    + LinkRank(s.link) + (if s.docEof then 0 else 2) + ClientRank(s.client) + ServerRank(s.server)
  }

  function Measure(c: Config, s: State): int
    requires c.Sized() && s.Shape()
  {
    Total(Weights(c, s)) + Rest(c, s)
  }

  lemma MeasureNonNegative(c: Config, s: State)
    requires c.Fine() && Inv(c, s)
    ensures Measure(c, s) >= 0
  {
    forall i | 0 <= i < PORTS ensures Weights(c, s)[i] >= 0 {
      assert LaneOk(c, s.client, s.PortsClosed(), i, s.link.lanes[i]);
      assert LaneInv(c.net, s.link.caller, s.link.host, s.link.dialed, i, s.link.lanes[i]);
      assert PartOk(c, s.client.Gone?, s.PortsClosed(), s.verdict.Good?, i, s.outs[i], s.got[i], s.ended[i]);
    }
    TotalNonNegative(Weights(c, s));
  }

  /** Work falls on port k, or elsewhere in exchange, and no other port changes. */
  ghost predicate PortFalls(c: Config, s: State, s': State, k: nat)
    requires c.Sized() && s.Shape() && s'.Shape() && k < PORTS
  {
    && (forall i :: 0 <= i < PORTS && i != k ==>
          s'.link.lanes[i] == s.link.lanes[i] && s'.outs[i] == s.outs[i] && s'.ended[i] == s.ended[i])
    && Weight(c, s', k) + Rest(c, s') < Weight(c, s, k) + Rest(c, s)
  }

  /** Work falls apart from the ports, and rises on none of them. */
  ghost predicate RestFalls(c: Config, s: State, s': State)
    requires c.Sized() && s.Shape() && s'.Shape()
  {
    Rest(c, s') < Rest(c, s) && forall i :: 0 <= i < PORTS ==> Weight(c, s', i) <= Weight(c, s, i)
  }

  lemma FallsSomewhere(c: Config, s: State, s': State, k: nat)
    requires c.Sized() && s.Shape() && s'.Shape() && k < PORTS
    requires PortFalls(c, s, s', k) || RestFalls(c, s, s')
    ensures Measure(c, s') < Measure(c, s)
  {
    if PortFalls(c, s, s', k) {
      TotalChange(Weights(c, s), Weights(c, s'), k);
    } else {
      TotalBelow(Weights(c, s), Weights(c, s'));
    }
  }

  lemma OpenFalls(c: Config, s: State, m: LinkMove)
    requires c.Sized() && s.Shape() && LinkEnabled(c.net, s.link, m) && Apply(c, s, Open(m)).Shape()
    requires m.PutInvite? || m.GetInvite? || m.Hear? || m.Dial? || m.Accept?
    requires c.net.firstChecked <= 1
    ensures RestFalls(c, s, Apply(c, s, Open(m)))
  {
  }

  lemma TokenFalls(c: Config, s: State, m: LinkMove)
    requires c.Sized() && s.Shape() && LinkEnabled(c.net, s.link, m) && Apply(c, s, Open(m)).Shape()
    requires m.PutToken? || m.FillToken? || (m.CheckToken? && !Apply(c, s, Open(m)).link.host.Refused?)
    ensures PortFalls(c, s, Apply(c, s, Open(m)), if m.PutToken? then s.link.dialed - 1 else s.link.host.port)
  {
  }

  lemma StreamMoveFalls(c: Config, s: State, m: ClientMove)
    requires c.Sized() && s.Shape() && ClientEnabled(c, s, m) && ClientApply(c, s, m).Shape()
    requires m.PutDoc? || m.GetPart? || m.EndPart?
    ensures PortFalls(c, s, ClientApply(c, s, m), if m.PutDoc? then 0 else m.k)
  {
  }

  lemma ClientFalls(c: Config, s: State, m: ClientMove)
    requires c.Sized() && s.Shape() && ClientEnabled(c, s, m) && ClientApply(c, s, m).Shape()
    requires !(m.PutDoc? || m.GetPart? || m.EndPart?)
    ensures RestFalls(c, s, ClientApply(c, s, m))
  {
  }

  lemma PortMoveFalls(c: Config, s: State, m: ServerMove)
    requires c.Sized() && s.Shape() && ServerEnabled(c, s, m) && ServerApply(c, s, m).Shape()
    requires m.Fill? || m.Take? || m.PutPart?
    ensures PortFalls(c, s, ServerApply(c, s, m), if m.PutPart? then s.server.want.port else 0)
  {
  }

  lemma ServerFalls(c: Config, s: State, m: ServerMove)
    requires c.Sized() && s.Shape() && ServerEnabled(c, s, m) && ServerApply(c, s, m).Shape()
    requires !(m.Fill? || m.Take? || m.PutPart?) && (m.SeeEof? ==> !s.docEof)
    ensures RestFalls(c, s, ServerApply(c, s, m))
  {
  }

  lemma Falls(c: Config, s: State, m: Move)
    requires c.Fine() && Inv(c, s) && Enabled(c, s, m) && Apply(c, s, m).Shape()
    ensures Measure(c, Apply(c, s, m)) < Measure(c, s)
  {
    var k := 0;
    match m {
      case Open(step) =>
        if step.PutToken? || step.FillToken? || step.CheckToken? {
          if step.CheckToken? {
            TokenMatches(c.net, s.link);
          }
          TokenFalls(c, s, step);
          k := if step.PutToken? then s.link.dialed - 1 else s.link.host.port;
        } else {
          OpenFalls(c, s, step);
        }
      case ByClient(cm) =>
        if cm.PutDoc? || cm.GetPart? || cm.EndPart? {
          StreamMoveFalls(c, s, cm);
          k := if cm.PutDoc? then 0 else cm.k;
        } else {
          ClientFalls(c, s, cm);
        }
      case ByServer(sm) =>
        if sm.Fill? || sm.Take? || sm.PutPart? {
          PortMoveFalls(c, s, sm);
          k := if sm.PutPart? then s.server.want.port else 0;
        } else {
          ServerFalls(c, s, sm);
        }
    }
    FallsSomewhere(c, s, Apply(c, s, m), k);
  }

  /** A run keeps the invariant and spends at least one unit of measure per move. */
  lemma {:induction false} RunKeeps(c: Config, s: State, run: seq<Move>)
    requires c.Fine() && Framed(c.frames) && Inv(c, s) && Legal(c, s, run)
    ensures Inv(c, After(c, s, run))
    ensures Measure(c, After(c, s, run)) + |run| <= Measure(c, s)
    decreases |run|
  {
    if run != [] {
      var m := run[0];
      Keep(c, s, m);
      Falls(c, s, m);
      RunKeeps(c, Apply(c, s, m), run[1..]);
    }
  }

  /** No run is longer than the work the session starts with, whatever the encoder does. */
  lemma RunsEnd(c: Config, run: seq<Move>)
    requires c.Fine() && Framed(c.frames) && Legal(c, Start(), run)
    ensures |run| <= Measure(c, Start())
  {
    InvStart(c);
    RunKeeps(c, Start(), run);
    MeasureNonNegative(c, After(c, Start(), run));
  }

  // ---- progress ----

  /** Nothing can move although somebody is not finished; an encoder giving up is no way out. */
  ghost predicate Stuck(c: Config, s: State)
    requires c.Sized()
  {
    s.Shape() && !Final(s) && forall m :: Enabled(c, s, m) ==> m == ByServer(GiveUp)
  }

  /** No run, whatever the encoder does, leads to a state where nothing can move. */
  ghost predicate NeverStuck(c: Config)
    requires c.Sized()
  {
    forall run :: Legal(c, Start(), run) ==> !Stuck(c, After(c, Start(), run))
  }

  /** A port's channel holds the token, and the control channel the whole trailer frame,
      which the client does not read before the server has closed the particle ports. */
  predicate Roomy(c: Config) {
    |c.net.token| <= c.net.cap && |c.frames.trailer| <= c.net.ctlCap
  }

  /** The client's writer, or else its readers, can always move once the ports are closed. */
  lemma ClientProgress(c: Config, s: State) returns (m: ClientMove)
    requires c.Fine() && Inv(c, s) && s.link.Open() && s.PortsClosed() && !s.client.Gone?
    requires s.client.Reading? ==> s.link.ctl.read < |s.link.ctl.wire| || s.link.ctl.fin
    ensures ClientEnabled(c, s, m)
  {
    assert LaneOk(c, s.client, s.PortsClosed(), 0, s.link.lanes[0]);
    match s.client
    case Sending => m := if s.link.lanes[0].wire == c.Full(0) then CloseDoc else FailDoc;
    case Collecting =>
      if k :| 1 <= k < PORTS && !s.ended[k] {
        assert PartOk(c, false, true, s.verdict.Good?, k, s.outs[k], s.got[k], s.ended[k]);
        m := if s.outs[k].read < |s.outs[k].wire| then GetPart(k, 1) else EndPart(k);
      } else {
        m := Join;
      }
    case Reading =>
      m := if c.frames.parse(s.link.Heard()) != Incomplete || s.link.ctl.Ended() then Conclude else GetReply(1);
    case Returned(_) => m := Leave;
  }

  /** The encoder waits for the document: it has bytes, the client can send, or it is over. */
  lemma FeedEncoder(c: Config, s: State) returns (m: Move)
    requires c.Fine() && Inv(c, s) && s.link.Open() && s.server == Coding(ReadDoc)
    ensures Enabled(c, s, m) && m != ByServer(GiveUp)
  {
    var doc := s.link.lanes[0];
    assert LaneOk(c, s.client, s.PortsClosed(), 0, doc);
    assert LaneInv(c.net, s.link.caller, s.link.host, s.link.dialed, 0, doc);
    NotGoneWhileCoding(c, s);
    if doc.taken < doc.read {
      m := ByServer(Take(1));
    } else if doc.read < |doc.wire| {
      m := ByServer(Fill(1));
    } else if doc.fin {
      m := ByServer(SeeEof);
    } else {
      m := ByClient(if doc.wire == c.Full(0) then CloseDoc else PutDoc(1));
    }
  }

  lemma EncoderProgress(c: Config, s: State) returns (m: Move)
    requires c.Fine() && Inv(c, s) && s.link.Open() && s.server.Coding?
    ensures Enabled(c, s, m) && m != ByServer(GiveUp)
  {
    NotGoneWhileCoding(c, s);
    match s.server.want
    case ReadDoc => m := FeedEncoder(c, s);
    case Idle =>
      if !s.docEof {
        m := ByServer(WantDoc);
      } else if k :| 1 <= k < PORTS && s.outs[k].wire != c.parts[k] {
        assert PartOk(c, false, false, false, k, s.outs[k], s.got[k], s.ended[k]);
        m := ByServer(WantWrite(k, 1));
      } else {
        m := ByServer(Encoded);
      }
    case Write(k, left) =>
      var out := s.outs[k];
      assert PartOk(c, false, false, false, k, out, s.got[k], s.ended[k]);
      m := if |out.wire| < out.read + c.net.cap then ByServer(PutPart(1)) else ByClient(GetPart(k, 1));
  }

  /** In a roomy session somebody can always move, without the encoder giving up. */
  lemma Progress(c: Config, s: State) returns (m: Move)
    requires c.Fine() && Inv(c, s) && Roomy(c) && !Final(s)
    ensures Enabled(c, s, m) && m != ByServer(GiveUp)
  {
    if !s.link.Open() {
      var step := LinkProgress(c.net, s.link);
      return Open(step);
    }
    var ctl := s.link.ctl;
    match s.server
    case Coding(_) => m := EncoderProgress(c, s);
    case Replying =>
      assert PartOk(c, s.client.Gone?, false, s.verdict.Good?, 1, s.outs[1], s.got[1], s.ended[1]);
      m := ByServer(if ctl.hup then LoseReply else PutReply(1));
    case Closing => m := ByServer(ClosePorts);
    case Complaining =>
      if ctl.hup {
        m := ByServer(LoseError);
      } else if |ctl.wire| < ctl.read + c.net.ctlCap {
        m := ByServer(PutError(1));
      } else {
        var cm := ClientProgress(c, s);
        m := ByClient(cm);
      }
    case HangingUp => m := ByServer(HangUp);
    case Done =>
      var cm := ClientProgress(c, s);
      m := ByClient(cm);
  }

  // ---- and the converse ----

  /** States a session with a channel that is too small never leaves, if the encoder insists:
      the client cannot dial on, or still waits for the particle ports to be closed while the
      server waits for the client to read the trailer. */
  ghost predicate Trapped(c: Config, s: State)
    requires c.Sized() && s.Shape()
  {
    if |c.net.token| > c.net.cap then !s.link.caller.Linked? && s.link.dialed <= 1 && s.server.Coding?
    else (s.server.Coding? || s.server.Replying?) && (s.client.Sending? || s.client.Collecting?)
  }

  lemma StayUndialed(c: Config, s: State, m: Move)
    requires c.Fine() && Inv(c, s) && |c.net.token| > c.net.cap && Trapped(c, s)
    requires Enabled(c, s, m) && m != ByServer(GiveUp)
    ensures Apply(c, s, m).Shape() && Trapped(c, Apply(c, s, m))
  {
    assert LaneOk(c, s.client, s.PortsClosed(), 0, s.link.lanes[0]);
    assert LaneInv(c.net, s.link.caller, s.link.host, s.link.dialed, 0, s.link.lanes[0]);
    assert s.link.host.Greeting? || s.link.host.Accepting?;
  }

  lemma ClientWaits(c: Config, s: State, m: ClientMove)
    requires c.Fine() && Inv(c, s) && |c.net.token| <= c.net.cap && Trapped(c, s) && ClientEnabled(c, s, m)
    ensures ClientApply(c, s, m).Shape() && Trapped(c, ClientApply(c, s, m))
  {
    assert LaneOk(c, s.client, s.PortsClosed(), 0, s.link.lanes[0]);
    assert PartOk(c, false, false, s.verdict.Good?, 1, s.outs[1], s.got[1], s.ended[1]);
  }

  lemma ServerWaits(c: Config, s: State, m: ServerMove)
    requires c.Fine() && Inv(c, s) && |c.net.token| <= c.net.cap && |c.frames.trailer| > c.net.ctlCap
    requires Trapped(c, s) && ServerEnabled(c, s, m) && m != GiveUp
    ensures ServerApply(c, s, m).Shape() && Trapped(c, ServerApply(c, s, m))
  {
  }

  lemma StayTrapped(c: Config, s: State, m: Move)
    requires c.Fine() && Inv(c, s) && !Roomy(c) && Trapped(c, s)
    requires Enabled(c, s, m) && m != ByServer(GiveUp)
    ensures Apply(c, s, m).Shape() && Trapped(c, Apply(c, s, m))
  {
    if |c.net.token| > c.net.cap {
      StayUndialed(c, s, m);
    } else {
      match m
      case Open(_) =>
      case ByClient(cm) => ClientWaits(c, s, cm);
      case ByServer(sm) => ServerWaits(c, s, sm);
    }
  }

  /** A trap ends in a stuck state. */
  lemma {:induction false} TrapCloses(c: Config, s: State) returns (run: seq<Move>)
    requires c.Fine() && Framed(c.frames) && Inv(c, s) && !Roomy(c) && Trapped(c, s)
    ensures Legal(c, s, run) && Stuck(c, After(c, s, run))
    decreases Measure(c, s)
  {
    if m :| Enabled(c, s, m) && m != ByServer(GiveUp) {
      StayTrapped(c, s, m);
      Keep(c, s, m);
      Falls(c, s, m);
      MeasureNonNegative(c, s);
      var rest := TrapCloses(c, Apply(c, s, m));
      run := [m] + rest;
      assert run[1..] == rest;
    } else {
      run := [];
    }
  }

  /** For any document, any particles, any order of the encoder's reads and writes and any
      interleaving, a split session cannot get stuck exactly when a data port holds the token
      and the control channel holds the trailer frame. */
  lemma SplitLiveness(c: Config)
    requires c.Fine() && Framed(c.frames)
    ensures NeverStuck(c) <==> Roomy(c)
  {
    InvStart(c);
    if Roomy(c) {
      forall run | Legal(c, Start(), run) ensures !Stuck(c, After(c, Start(), run)) {
        RunKeeps(c, Start(), run);
        var s := After(c, Start(), run);
        if !Final(s) {
          var m := Progress(c, s);
        }
      }
    } else {
      var run := TrapCloses(c, Start());
    }
  }

  // ---- no partial success ----

  /** In every run: a client that returns a trailer has the server's trailer, whole, the
      encoder succeeded on the whole document, and the six collected particles are exactly
      what it wrote. If the encoder fails the client never returns a trailer, and a client
      that is through after a successful encode has returned it. */
  lemma NoPartialSuccess(c: Config, run: seq<Move>, body: seq<Byte>, msg: string)
    requires c.Fine() && c.frames.Says(body, msg) && Legal(c, Start(), run)
    ensures var s := After(c, Start(), run);
            s.Shape() && ((s.client.Returned? || s.client.Gone?) && s.client.res.Trailer? ==>
              && s.client.res.body == body && s.verdict.Good? && s.docEof
              && forall k :: 1 <= k < PORTS ==> s.got[k] == c.parts[k])
    ensures var s := After(c, Start(), run);
            s.verdict.Good? && |body| <= MAX_TRAILER && (s.client.Returned? || s.client.Gone?) ==>
              s.client.res == Trailer(body)
  {
    SaysMeansFramed(c.frames, body, msg);
    InvStart(c);
    RunKeeps(c, Start(), run);
    var s := After(c, Start(), run);
    if (s.client.Returned? || s.client.Gone?) && s.client.res.Trailer? {
      forall k | 1 <= k < PORTS ensures s.got[k] == c.parts[k] {
        assert PartOk(c, s.client.Gone?, s.PortsClosed(), s.verdict.Good?, k, s.outs[k], s.got[k], s.ended[k]);
      }
    }
  }

  /** A server that is done has sent its one frame whole behind the invitation, the trailer after
      a successful encode and the error after a failed one, unless the client was gone. */
  ghost predicate FrameSent(c: Config, s: State) {
    s.server.Done? && !s.client.Gone? ==>
      && s.link.ctl.fin
      && s.link.ctl.wire == c.net.invite + if s.verdict.Good? then c.frames.trailer else c.frames.complaint
  }

  lemma ControlIsWhole(c: Config, s: State)
    requires c.Fine() && Inv(c, s)
    ensures FrameSent(c, s)
  {
  }

  lemma FinalFrameSent(c: Config, run: seq<Move>)
    requires c.Fine() && Framed(c.frames) && Legal(c, Start(), run)
    ensures FrameSent(c, After(c, Start(), run))
  {
    InvStart(c);
    RunKeeps(c, Start(), run);
    ControlIsWhole(c, After(c, Start(), run));
  }

  /** In every run: an encoder that has seen the end of the document port has taken exactly
      the token and the document, so what is left behind the token is the document; and the
      control reader dropped after the invitation held nothing more. */
  lemma NothingThrownAway(c: Config, run: seq<Move>)
    requires c.Fine() && Framed(c.frames) && Legal(c, Start(), run)
    ensures var s := After(c, Start(), run);
            && s.Shape()
            && (s.docEof ==> var doc := s.link.lanes[0];
                             doc.taken == |doc.wire| && doc.wire == c.net.token + c.secret)
            && (s.link.caller.Inviting? ==> s.link.ctl.wire <= c.net.invite)
            && (!s.link.caller.Inviting? ==> c.net.invite <= s.link.ctl.wire && s.link.ctl.taken == |c.net.invite|)
            && (s.link.caller.Linked? && s.server.Coding? ==> s.link.ctl.read == |c.net.invite|)
  {
    InvStart(c);
    RunKeeps(c, Start(), run);
    var s := After(c, Start(), run);
    if s.server.Coding? {
      NotGoneWhileCoding(c, s);
    }
  }
}
