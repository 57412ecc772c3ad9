/**
  A whole split session as concurrent steps: the client writes the document while six readers
  collect the particles, the server strips the token off the document port and runs an
  arbitrary encoder, over bounded channels. A run is a sequence of moves.
*/
module SplitSession {
  import opened Prelude
  import opened ControlText
  import opened Channels
  import opened FinalFrames
  import opened Opening

  /** One session: the document, and what an otherwise arbitrary encoder leads to: six
      particles (ports 1 to 6), the trailer or the error frame. */
  datatype Config = Config(net: Net, secret: seq<Byte>, parts: seq<seq<Byte>>, frames: Frames) {
    predicate Sized() { |parts| == PORTS }

    ghost predicate Fine() {
      net.Fine() && net.firstChecked == 1 && Sized() && parts[0] == [] && frames.NonEmpty()
    }

    /** Everything the client means to write on port k. */
    function Full(k: nat): seq<Byte> { net.token + if k == 0 then secret else [] }

    function GoodControl(): seq<Byte> { net.invite + frames.trailer }
    function BadControl(): seq<Byte> { net.invite + frames.complaint }
  }

  datatype Client = Sending | Collecting | Reading | Returned(res: Outcome) | Gone(res: Outcome)
  datatype Want = Idle | ReadDoc | Write(port: nat, left: nat)
  datatype Server = Coding(want: Want) | Replying | Closing | Complaining | HangingUp | Done

  datatype State = State(
    link: Link,              // control channel and the client's side of the seven ports
    outs: seq<Pipe>,         // the server's side of the particle ports
    got: seq<seq<Byte>>,     // what the client's readers have collected
    ended: seq<bool>,        // readers that have seen the end
    docEof: bool,            // the encoder has seen the end of the document
    client: Client, server: Server, verdict: Verdict, failed: bool)
  {
    predicate Shape() {
      && |link.lanes| == |outs| == |got| == |ended| == PORTS && link.dialed <= PORTS
      && link.ctl.taken <= link.ctl.read <= |link.ctl.wire|
    }

    predicate PortsClosed() { server.Complaining? || server.HangingUp? || server.Done? }

    function SetDoc(p: Pipe): State
      requires |link.lanes| == PORTS
    {
      this.(link := link.(lanes := link.lanes[0 := p]))
    }

    function SetControl(p: Pipe): State { this.(link := link.(ctl := p)) }
  }

  function Start(): State {
    State(ClosedLink(), seq(PORTS, i => FRESH), seq(PORTS, i => []), seq(PORTS, i => false), false,
          Sending, Coding(Idle), Pending, false)
  }

  datatype ClientMove =
    | PutDoc(n: nat)
    | CloseDoc
    | FailDoc                  // the server is gone before the document is written
    | GetPart(k: nat, n: nat)
    | EndPart(k: nat)
    | Join                     // all six readers are over
    | GetReply(n: nat)
    | Conclude
    | Leave                    // close everything

  datatype ServerMove =
    | WantDoc                  // the encoder commits to reading the document
    | Fill(n: nat)
    | Take(n: nat)
    | SeeEof
    | WantWrite(k: nat, n: nat)   // the encoder commits to writing particle bytes
    | PutPart(n: nat)
    | LosePart
    | Encoded                  // half-closing the particle ports does nothing here
    | GiveUp                   // the encoder fails, or the document is refused
    | PutReply(n: nat)
    | LoseReply
    | ClosePorts
    | PutError(n: nat)
    | LoseError
    | HangUp

  datatype Move = Open(step: LinkMove) | ByClient(cm: ClientMove) | ByServer(sm: ServerMove)

  predicate ClientEnabled(c: Config, s: State, m: ClientMove)
    requires c.Sized() && s.Shape()
  {
    var ctl, doc := s.link.ctl, s.link.lanes[0];
    match m
    case PutDoc(n) => s.link.caller.Linked? && s.client.Sending?
                      && doc.Fits(n, c.net.cap) && |doc.wire| + n <= |c.Full(0)|
    case CloseDoc => s.link.caller.Linked? && s.client.Sending? && doc.wire == c.Full(0)
    case FailDoc => s.link.caller.Linked? && s.client.Sending? && doc.hup && doc.wire != c.Full(0)
    case GetPart(k, n) => s.link.caller.Linked? && !s.client.Gone? && 1 <= k < PORTS && !s.ended[k]
                          && s.outs[k].Available(n)
    case EndPart(k) => s.link.caller.Linked? && !s.client.Gone? && 1 <= k < PORTS && !s.ended[k]
                       && s.outs[k].Ended()
    case Join => s.client.Collecting? && forall k :: 1 <= k < PORTS ==> s.ended[k]
    case GetReply(n) => s.client.Reading? && c.frames.parse(s.link.Heard()) == Incomplete && ctl.Available(n)
    case Conclude => s.client.Reading? && (c.frames.parse(s.link.Heard()) != Incomplete || ctl.Ended())
    case Leave => s.client.Returned?
  }

  predicate ServerEnabled(c: Config, s: State, m: ServerMove)
    requires c.Sized() && s.Shape()
  {
    var ctl, doc := s.link.ctl, s.link.lanes[0];
    match m
    case WantDoc => s.link.host.Ready? && s.server == Coding(Idle) && !s.docEof
    case Fill(n) => s.server == Coding(ReadDoc) && doc.taken == doc.read && doc.Available(n)
    case Take(n) => s.server == Coding(ReadDoc) && n > 0 && doc.taken + n <= doc.read
    case SeeEof => s.server == Coding(ReadDoc) && doc.taken == doc.read && doc.Ended()
    case WantWrite(k, n) => s.link.host.Ready? && s.server == Coding(Idle) && 1 <= k < PORTS
                            && n > 0 && |s.outs[k].wire| + n <= |c.parts[k]|
    case PutPart(n) => s.server.Coding? && s.server.want.Write? && s.server.want.port < PORTS
                       && n <= s.server.want.left && s.outs[s.server.want.port].Fits(n, c.net.cap)
                       && |s.outs[s.server.want.port].wire| + n <= |c.parts[s.server.want.port]|
    case LosePart => s.server.Coding? && s.server.want.Write? && s.server.want.port < PORTS
                     && s.outs[s.server.want.port].hup
    case Encoded => s.link.host.Ready? && s.server == Coding(Idle) && s.docEof
                    && forall k :: 1 <= k < PORTS ==> s.outs[k].wire == c.parts[k]
    case GiveUp => s.link.host.Ready? && s.server == Coding(Idle)
    case PutReply(n) => s.server.Replying? && ctl.Fits(n, c.net.ctlCap) && |ctl.wire| + n <= |c.GoodControl()|
    case LoseReply => s.server.Replying? && ctl.hup
    case ClosePorts => s.server.Closing?
    case PutError(n) => s.server.Complaining? && ctl.Fits(n, c.net.ctlCap) && |ctl.wire| + n <= |c.BadControl()|
    case LoseError => s.server.Complaining? && ctl.hup
    case HangUp => s.server.HangingUp?
  }

  predicate Enabled(c: Config, s: State, m: Move)
    requires c.Sized() && s.Shape()
  {
    match m
    case Open(step) => LinkEnabled(c.net, s.link, step)
    case ByClient(cm) => ClientEnabled(c, s, cm)
    case ByServer(sm) => ServerEnabled(c, s, sm)
  }

  function ClientApply(c: Config, s: State, m: ClientMove): State
    requires c.Sized() && s.Shape() && ClientEnabled(c, s, m)
  {
    var ctl, doc := s.link.ctl, s.link.lanes[0];
    match m
    case PutDoc(n) => s.SetDoc(doc.Put(Next(c.Full(0), doc.wire, n)))
    case CloseDoc => s.SetDoc(doc.Close()).(client := Collecting)
    case FailDoc => s.(client := Returned(Failed))
    case GetPart(k, n) =>
      var p := s.outs[k];
      s.(outs := s.outs[k := p.Fill(n).Take(n)], got := s.got[k := s.got[k] + p.wire[p.read..p.read + n]])
    case EndPart(k) => s.(ended := s.ended[k := true])
    case Join => s.(client := Reading)
    case GetReply(n) => s.SetControl(ctl.Fill(n))
    case Conclude =>
      var reply := c.frames.parse(s.link.Heard());
      s.(client := Returned(if reply.Body? then Trailer(reply.data) else Failed))
    case Leave =>
      s.(client := Gone(s.client.res),
         outs := seq(PORTS, i requires 0 <= i < PORTS => s.outs[i].HangUp()),
         link := s.link.(ctl := ctl.HangUp(),
                         lanes := seq(PORTS, i requires 0 <= i < PORTS => s.link.lanes[i].Close())))
  }

  function ServerApply(c: Config, s: State, m: ServerMove): State
    requires c.Sized() && s.Shape() && ServerEnabled(c, s, m)
  {
    var ctl, doc := s.link.ctl, s.link.lanes[0];
    match m
    case WantDoc => s.(server := Coding(ReadDoc))
    case Fill(n) => s.SetDoc(doc.Fill(n))
    case Take(n) => s.SetDoc(doc.Take(n)).(server := Coding(Idle))
    case SeeEof => s.(docEof := true, server := Coding(Idle))
    case WantWrite(k, n) => s.(server := Coding(Write(k, n)))
    case PutPart(n) =>
      var k, left := s.server.want.port, s.server.want.left;
      s.(outs := s.outs[k := s.outs[k].Put(Next(c.parts[k], s.outs[k].wire, n))],
         server := Coding(if n == left then Idle else Write(k, left - n)))
    case LosePart => s.(server := Closing, verdict := Bad, failed := true)
    case Encoded => s.(server := Replying, verdict := Good)
    case GiveUp => s.(server := Closing, verdict := Bad, failed := true)
    case PutReply(n) =>
      var p := ctl.Put(Next(c.GoodControl(), ctl.wire, n));
      s.SetControl(p).(server := if |p.wire| == |c.GoodControl()| then Closing else Replying)
    case LoseReply => s.(server := Closing, failed := true)
    case ClosePorts =>
      s.(server := if s.failed then Complaining else HangingUp,
         outs := seq(PORTS, i requires 0 <= i < PORTS => s.outs[i].Close()),
         link := s.link.(lanes := seq(PORTS, i requires 0 <= i < PORTS => s.link.lanes[i].HangUp())))
    case PutError(n) =>
      var p := ctl.Put(Next(c.BadControl(), ctl.wire, n));
      s.SetControl(p).(server := if |p.wire| == |c.BadControl()| then HangingUp else Complaining)
    case LoseError => s.(server := HangingUp)
    case HangUp => s.SetControl(ctl.Close()).(server := Done)
  }

  function Apply(c: Config, s: State, m: Move): State
    requires c.Sized() && s.Shape() && Enabled(c, s, m)
  {
    match m
    case Open(step) => s.(link := LinkApply(c.net, s.link, step))
    case ByClient(cm) => ClientApply(c, s, cm)
    case ByServer(sm) => ServerApply(c, s, sm)
  }

  /** Both sides have closed everything. */
  predicate Final(s: State) {
    s.client.Gone? && s.server.Done?
  }

  // ---- runs ----

  ghost predicate Legal(c: Config, s: State, run: seq<Move>)
    requires c.Sized()
    decreases |run|
  {
    run == [] || (s.Shape() && Enabled(c, s, run[0]) && Legal(c, Apply(c, s, run[0]), run[1..]))
  }

  ghost function After(c: Config, s: State, run: seq<Move>): State
    requires c.Sized() && Legal(c, s, run)
    decreases |run|
  {
    if run == [] then s else After(c, Apply(c, s, run[0]), run[1..])
  }

  // ---- invariant ----

  ghost predicate LaneOk(c: Config, client: Client, closed: bool, i: nat, p: Pipe) {
    && p.wire <= c.Full(i)
    && (p.hup <==> closed)
    && (p.fin && !client.Gone? ==> i == 0 && p.wire == c.Full(0) && !client.Sending?)
  }

  ghost predicate PartOk(c: Config, gone: bool, closed: bool, good: bool, i: nat, p: Pipe, got: seq<Byte>, ended: bool)
    requires c.Sized() && i < PORTS
  {
    && p.Sound(c.net.cap) && p.wire <= c.parts[i]
    && got == p.wire[..p.read]
    && (p.fin <==> closed)
    && (p.hup <==> gone)
    && (ended ==> p.Ended())
    && (good ==> p.wire == c.parts[i])
  }

  ghost predicate LanesOk(c: Config, s: State)
    requires c.Sized() && s.Shape()
  {
    forall i :: 0 <= i < PORTS ==> LaneOk(c, s.client, s.PortsClosed(), i, s.link.lanes[i])
  }

  ghost predicate PartsOk(c: Config, s: State)
    requires c.Sized() && s.Shape()
  {
    forall i :: 0 <= i < PORTS ==>
      PartOk(c, s.client.Gone?, s.PortsClosed(), s.verdict.Good?, i, s.outs[i], s.got[i], s.ended[i])
  }

  ghost predicate Phases(c: Config, s: State)
    requires c.Sized() && s.Shape()
  {
    && (!s.link.caller.Linked? ==> s.client.Sending?)
    && (!s.link.host.Ready? ==> s.server == Coding(Idle) && !s.docEof)
    && (s.client.Collecting? || s.client.Reading? ==> s.link.lanes[0].fin)
    && (s.client.Reading? ==> forall k :: 1 <= k < PORTS ==> s.ended[k])
    && (s.docEof ==> var doc := s.link.lanes[0];
                    doc.fin && doc.wire == c.Full(0) && doc.taken == doc.read == |doc.wire|)
    && (s.verdict.Good? ==> s.docEof)
    && (s.server.Coding? <==> s.verdict.Pending?)
    && (s.server.Replying? ==> s.verdict.Good? && !s.failed)
    && (s.verdict.Pending? ==> !s.failed)
    && (s.verdict.Bad? ==> s.failed)
    && (s.server.Complaining? ==> s.failed)
    && (s.server.Coding? && s.server.want.Write? ==>
          1 <= s.server.want.port < PORTS && s.server.want.left > 0
          && |s.outs[s.server.want.port].wire| + s.server.want.left <= |c.parts[s.server.want.port]|)
    && (s.server == Coding(ReadDoc) ==> !s.docEof)
  }

  ghost predicate ControlOk(c: Config, s: State)
    requires c.Sized() && s.Shape()
  {
    var ctl := s.link.ctl;
    && (ctl.hup <==> s.client.Gone?)
    && (ctl.fin <==> s.server.Done?)
    && (s.link.caller.Linked? && (s.client.Sending? || s.client.Collecting?) ==> ctl.read == |c.net.invite|)
    && (s.server.Coding? ==> ctl.wire <= c.net.invite)
    && (s.verdict.Good? ==> ctl.wire <= c.GoodControl())
    && (s.verdict.Bad? ==> ctl.wire <= c.BadControl())
    && (s.server.Replying? ==> |ctl.wire| < |c.GoodControl()|)
    && (s.server.Complaining? && !ctl.hup ==> |ctl.wire| < |c.BadControl()|)
    && (s.verdict.Good? && s.failed ==> ctl.hup)
    && (s.verdict.Good? && !s.failed && (s.server.Closing? || s.PortsClosed()) ==> ctl.wire == c.GoodControl())
    && (s.verdict.Bad? && s.server.Closing? ==> ctl.wire == c.net.invite)
    && (s.verdict.Bad? && (s.server.HangingUp? || s.server.Done?) ==> ctl.wire == c.BadControl() || ctl.hup)
  }

  /** A client that returned with a trailer got the server's own, whole, and every particle. */
  ghost predicate ResultOk(c: Config, s: State)
    requires s.Shape()
  {
    s.client.Returned? || s.client.Gone? ==>
      && !s.verdict.Pending?
      && (s.client.res.Trailer? ==>
            s.verdict.Good? && c.frames.parse(c.frames.trailer) == Body(s.client.res.body)
            && forall k :: 1 <= k < PORTS ==> s.ended[k])
      && (s.client.res.Failed? ==> s.verdict.Bad? || !c.frames.parse(c.frames.trailer).Body?)
  }

  ghost predicate Inv(c: Config, s: State)
    requires c.Sized()
  {
    && s.Shape() && LinkInv(c.net, s.link)
    && LanesOk(c, s) && PartsOk(c, s) && Phases(c, s) && ControlOk(c, s) && ResultOk(c, s)
  }

  lemma InvStart(c: Config)
    requires c.Fine()
    ensures Inv(c, Start())
  {
    LinkInvInit(c.net);
  }

  /** The document port may change within its own invariant once the client is linked. */
  lemma DocStays(c: Config, s: State, p: Pipe)
    requires c.Sized() && s.Shape() && LinkInv(c.net, s.link) && s.link.caller.Linked?
    requires LaneInv(c.net, s.link.caller, s.link.host, s.link.dialed, 0, p)
    ensures LinkInv(c.net, s.SetDoc(p).link)
  {
  }

  // ---- every move keeps the invariant ----

  lemma KeepOpen(c: Config, s: State, link: Link)
    requires c.Fine() && Inv(c, s) && LinkInv(c.net, link) && LinkFrame(c.net, s.link, link)
    ensures Inv(c, s.(link := link))
  {
    var s' := s.(link := link);
    forall i | 0 <= i < PORTS ensures LaneOk(c, s'.client, s'.PortsClosed(), i, s'.link.lanes[i]) {
      assert LaneOk(c, s.client, s.PortsClosed(), i, s.link.lanes[i]);
      assert SameEnds(c.net, s.link.lanes[i], link.lanes[i]);
    }
    assert SameEnds(c.net, s.link.lanes[0], link.lanes[0]);
  }

  lemma KeepPutDoc(c: Config, s: State, n: nat)
    requires c.Fine() && Inv(c, s) && ClientEnabled(c, s, PutDoc(n))
    ensures Inv(c, ClientApply(c, s, PutDoc(n)))
  {
    var s', p := ClientApply(c, s, PutDoc(n)), s.link.lanes[0];
    assert LaneOk(c, s.client, s.PortsClosed(), 0, p);
    assert LaneInv(c.net, s.link.caller, s.link.host, s.link.dialed, 0, p);
    PutNext(c.Full(0), p.wire, n);
    KeepsHead(c.net.token, p.wire, Next(c.Full(0), p.wire, n));
    DocStays(c, s, s'.link.lanes[0]);
  }

  lemma KeepCloseDoc(c: Config, s: State)
    requires c.Fine() && Inv(c, s) && ClientEnabled(c, s, CloseDoc)
    ensures Inv(c, ClientApply(c, s, CloseDoc))
  {
    var s' := ClientApply(c, s, CloseDoc);
    assert LaneInv(c.net, s.link.caller, s.link.host, s.link.dialed, 0, s.link.lanes[0]);
    DocStays(c, s, s'.link.lanes[0]);
    forall i | 0 <= i < PORTS ensures LaneOk(c, s'.client, s'.PortsClosed(), i, s'.link.lanes[i]) {
      assert LaneOk(c, s.client, s.PortsClosed(), i, s.link.lanes[i]);
    }
  }

  lemma KeepFailDoc(c: Config, s: State)
    requires c.Fine() && Inv(c, s) && ClientEnabled(c, s, FailDoc)
    ensures Inv(c, ClientApply(c, s, FailDoc))
  {
    var s' := ClientApply(c, s, FailDoc);
    forall i | 0 <= i < PORTS ensures LaneOk(c, s'.client, s'.PortsClosed(), i, s'.link.lanes[i]) {
      assert LaneOk(c, s.client, s.PortsClosed(), i, s.link.lanes[i]);
    }
  }

  lemma KeepGetPart(c: Config, s: State, k: nat, n: nat)
    requires c.Fine() && Inv(c, s) && ClientEnabled(c, s, GetPart(k, n))
    ensures Inv(c, ClientApply(c, s, GetPart(k, n)))
  {
    var s', p := ClientApply(c, s, GetPart(k, n)), s.outs[k];
    assert PartOk(c, s.client.Gone?, s.PortsClosed(), s.verdict.Good?, k, p, s.got[k], s.ended[k]);
    assert p.wire[..p.read] + p.wire[p.read..p.read + n] == p.wire[..p.read + n];
    forall i | 0 <= i < PORTS
      ensures PartOk(c, s'.client.Gone?, s'.PortsClosed(), s'.verdict.Good?, i, s'.outs[i], s'.got[i], s'.ended[i])
    {
      assert PartOk(c, s.client.Gone?, s.PortsClosed(), s.verdict.Good?, i, s.outs[i], s.got[i], s.ended[i]);
    }
  }

  lemma KeepEndPart(c: Config, s: State, k: nat)
    requires c.Fine() && Inv(c, s) && ClientEnabled(c, s, EndPart(k))
    ensures Inv(c, ClientApply(c, s, EndPart(k)))
  {
    var s' := ClientApply(c, s, EndPart(k));
    forall i | 0 <= i < PORTS
      ensures PartOk(c, s'.client.Gone?, s'.PortsClosed(), s'.verdict.Good?, i, s'.outs[i], s'.got[i], s'.ended[i])
    {
      assert PartOk(c, s.client.Gone?, s.PortsClosed(), s.verdict.Good?, i, s.outs[i], s.got[i], s.ended[i]);
    }
  }

  lemma KeepJoin(c: Config, s: State)
    requires c.Fine() && Inv(c, s) && ClientEnabled(c, s, Join)
    ensures Inv(c, ClientApply(c, s, Join))
  {
    var s' := ClientApply(c, s, Join);
    forall i | 0 <= i < PORTS ensures LaneOk(c, s'.client, s'.PortsClosed(), i, s'.link.lanes[i]) {
      assert LaneOk(c, s.client, s.PortsClosed(), i, s.link.lanes[i]);
    }
  }

  lemma KeepGetReply(c: Config, s: State, n: nat)
    requires c.Fine() && Inv(c, s) && ClientEnabled(c, s, GetReply(n))
    ensures Inv(c, ClientApply(c, s, GetReply(n)))
  {
  }

  /** What the control reader holds is a piece of the server's one final frame. */
  lemma HeardIsFrame(c: Config, s: State)
    requires c.Fine() && Framed(c.frames) && Inv(c, s) && ClientEnabled(c, s, Conclude)
    ensures !s.verdict.Pending?
    ensures var reply := c.frames.parse(s.link.Heard());
            if reply.Body? then s.verdict.Good? && reply == c.frames.parse(c.frames.trailer)
            else s.verdict.Bad? || !c.frames.parse(c.frames.trailer).Body?
  {
    var heard, ctl := s.link.Heard(), s.link.ctl;
    assert Understood(c.frames, heard);
    assert PartOk(c, false, s.PortsClosed(), s.verdict.Good?, 1, s.outs[1], s.got[1], s.ended[1]);
    if s.verdict.Good? {
      assert heard <= c.frames.trailer;
      if ctl.Ended() {
        assert heard == c.frames.trailer;
      }
    } else {
      assert heard <= c.frames.complaint;
    }
  }

  lemma KeepConclude(c: Config, s: State)
    requires c.Fine() && Framed(c.frames) && Inv(c, s) && ClientEnabled(c, s, Conclude)
    ensures Inv(c, ClientApply(c, s, Conclude))
  {
    var s' := ClientApply(c, s, Conclude);
    HeardIsFrame(c, s);
    forall i | 0 <= i < PORTS ensures LaneOk(c, s'.client, s'.PortsClosed(), i, s'.link.lanes[i]) {
      assert LaneOk(c, s.client, s.PortsClosed(), i, s.link.lanes[i]);
    }
  }

  lemma KeepLeave(c: Config, s: State)
    requires c.Fine() && Inv(c, s) && ClientEnabled(c, s, Leave)
    ensures Inv(c, ClientApply(c, s, Leave))
  {
    var s' := ClientApply(c, s, Leave);
    forall i | 0 <= i < PORTS
      ensures LaneOk(c, s'.client, s'.PortsClosed(), i, s'.link.lanes[i])
      ensures LaneInv(c.net, s'.link.caller, s'.link.host, s'.link.dialed, i, s'.link.lanes[i])
      ensures PartOk(c, s'.client.Gone?, s'.PortsClosed(), s'.verdict.Good?, i, s'.outs[i], s'.got[i], s'.ended[i])
    {
      assert LaneOk(c, s.client, s.PortsClosed(), i, s.link.lanes[i]);
      assert LaneInv(c.net, s.link.caller, s.link.host, s.link.dialed, i, s.link.lanes[i]);
      assert PartOk(c, s.client.Gone?, s.PortsClosed(), s.verdict.Good?, i, s.outs[i], s.got[i], s.ended[i]);
    }
  }

  lemma KeepRead(c: Config, s: State, m: ServerMove)
    requires c.Fine() && Inv(c, s) && ServerEnabled(c, s, m)
    requires m.Fill? || m.Take?
    ensures Inv(c, ServerApply(c, s, m))
  {
    var s' := ServerApply(c, s, m);
    assert LaneOk(c, s.client, s.PortsClosed(), 0, s.link.lanes[0]);
    assert LaneInv(c.net, s.link.caller, s.link.host, s.link.dialed, 0, s.link.lanes[0]);
    DocStays(c, s, s'.link.lanes[0]);
  }

  lemma KeepSeeEof(c: Config, s: State)
    requires c.Fine() && Inv(c, s) && ServerEnabled(c, s, SeeEof)
    ensures Inv(c, ServerApply(c, s, SeeEof))
  {
    assert LaneOk(c, s.client, s.PortsClosed(), 0, s.link.lanes[0]);
    NotGoneWhileCoding(c, s);
  }

  /** A client leaves only after the server has closed its ports. */
  lemma NotGoneWhileCoding(c: Config, s: State)
    requires c.Fine() && Inv(c, s) && s.server.Coding?
    ensures !s.client.Gone? && !s.client.Returned? && !s.client.Reading?
  {
    assert PartOk(c, s.client.Gone?, s.PortsClosed(), s.verdict.Good?, 1, s.outs[1], s.got[1], s.ended[1]);
  }

  lemma KeepWant(c: Config, s: State, m: ServerMove)
    requires c.Fine() && Inv(c, s) && ServerEnabled(c, s, m)
    requires m.WantDoc? || m.WantWrite?
    ensures Inv(c, ServerApply(c, s, m))
  {
  }

  lemma KeepPutPart(c: Config, s: State, n: nat)
    requires c.Fine() && Inv(c, s) && ServerEnabled(c, s, PutPart(n))
    ensures Inv(c, ServerApply(c, s, PutPart(n)))
  {
    var s', k := ServerApply(c, s, PutPart(n)), s.server.want.port;
    PutNext(c.parts[k], s.outs[k].wire, n);
    forall i | 0 <= i < PORTS
      ensures PartOk(c, s'.client.Gone?, s'.PortsClosed(), s'.verdict.Good?, i, s'.outs[i], s'.got[i], s'.ended[i])
    {
      assert PartOk(c, s.client.Gone?, s.PortsClosed(), s.verdict.Good?, i, s.outs[i], s.got[i], s.ended[i]);
    }
  }

  lemma KeepBad(c: Config, s: State, m: ServerMove)
    requires c.Fine() && Inv(c, s) && ServerEnabled(c, s, m)
    requires m.LosePart? || m.GiveUp?
    ensures Inv(c, ServerApply(c, s, m))
  {
    NotGoneWhileCoding(c, s);
  }

  lemma KeepEncoded(c: Config, s: State)
    requires c.Fine() && Inv(c, s) && ServerEnabled(c, s, Encoded)
    ensures Inv(c, ServerApply(c, s, Encoded))
  {
    NotGoneWhileCoding(c, s);
    var s' := ServerApply(c, s, Encoded);
    forall i | 0 <= i < PORTS
      ensures PartOk(c, s'.client.Gone?, s'.PortsClosed(), s'.verdict.Good?, i, s'.outs[i], s'.got[i], s'.ended[i])
    {
      assert PartOk(c, s.client.Gone?, s.PortsClosed(), s.verdict.Good?, i, s.outs[i], s.got[i], s.ended[i]);
    }
  }

  lemma KeepPutReply(c: Config, s: State, n: nat)
    requires c.Fine() && Inv(c, s) && ServerEnabled(c, s, PutReply(n))
    ensures Inv(c, ServerApply(c, s, PutReply(n)))
  {
    var wire := s.link.ctl.wire;
    PutNext(c.GoodControl(), wire, n);
    KeepsHead(c.net.invite, wire, Next(c.GoodControl(), wire, n));
  }

  lemma KeepPutError(c: Config, s: State, n: nat)
    requires c.Fine() && Inv(c, s) && ServerEnabled(c, s, PutError(n))
    ensures Inv(c, ServerApply(c, s, PutError(n)))
  {
    var wire := s.link.ctl.wire;
    PutNext(c.BadControl(), wire, n);
    KeepsHead(c.net.invite, wire, Next(c.BadControl(), wire, n));
  }

  lemma KeepLose(c: Config, s: State, m: ServerMove)
    requires c.Fine() && Inv(c, s) && ServerEnabled(c, s, m)
    requires m.LoseReply? || m.LoseError?
    ensures Inv(c, ServerApply(c, s, m))
  {
  }

  lemma KeepClosePorts(c: Config, s: State)
    requires c.Fine() && Inv(c, s) && ServerEnabled(c, s, ClosePorts)
    ensures Inv(c, ServerApply(c, s, ClosePorts))
  {
    var s' := ServerApply(c, s, ClosePorts);
    forall i | 0 <= i < PORTS
      ensures LaneOk(c, s'.client, s'.PortsClosed(), i, s'.link.lanes[i])
      ensures LaneInv(c.net, s'.link.caller, s'.link.host, s'.link.dialed, i, s'.link.lanes[i])
      ensures PartOk(c, s'.client.Gone?, s'.PortsClosed(), s'.verdict.Good?, i, s'.outs[i], s'.got[i], s'.ended[i])
    {
      assert LaneOk(c, s.client, s.PortsClosed(), i, s.link.lanes[i]);
      assert LaneInv(c.net, s.link.caller, s.link.host, s.link.dialed, i, s.link.lanes[i]);
      assert PartOk(c, s.client.Gone?, s.PortsClosed(), s.verdict.Good?, i, s.outs[i], s.got[i], s.ended[i]);
    }
  }

  lemma KeepHangUp(c: Config, s: State)
    requires c.Fine() && Inv(c, s) && ServerEnabled(c, s, HangUp)
    ensures Inv(c, ServerApply(c, s, HangUp))
  {
  }

  lemma KeepByClient(c: Config, s: State, m: ClientMove)
    requires c.Fine() && Framed(c.frames) && Inv(c, s) && ClientEnabled(c, s, m)
    ensures Inv(c, ClientApply(c, s, m))
  {
    match m
    case PutDoc(n) => KeepPutDoc(c, s, n);
    case CloseDoc => KeepCloseDoc(c, s);
    case FailDoc => KeepFailDoc(c, s);
    case GetPart(k, n) => KeepGetPart(c, s, k, n);
    case EndPart(k) => KeepEndPart(c, s, k);
    case Join => KeepJoin(c, s);
    case GetReply(n) => KeepGetReply(c, s, n);
    case Conclude => KeepConclude(c, s);
    case Leave => KeepLeave(c, s);
  }

  lemma KeepByServer(c: Config, s: State, m: ServerMove)
    requires c.Fine() && Inv(c, s) && ServerEnabled(c, s, m)
    ensures Inv(c, ServerApply(c, s, m))
  {
    match m
    case WantDoc => KeepWant(c, s, m);
    case WantWrite(_, _) => KeepWant(c, s, m);
    case Fill(_) => KeepRead(c, s, m);
    case Take(_) => KeepRead(c, s, m);
    case SeeEof => KeepSeeEof(c, s);
    case PutPart(n) => KeepPutPart(c, s, n);
    case LosePart => KeepBad(c, s, m);
    case Encoded => KeepEncoded(c, s);
    case GiveUp => KeepBad(c, s, m);
    case PutReply(n) => KeepPutReply(c, s, n);
    case LoseReply => KeepLose(c, s, m);
    case ClosePorts => KeepClosePorts(c, s);
    case PutError(n) => KeepPutError(c, s, n);
    case LoseError => KeepLose(c, s, m);
    case HangUp => KeepHangUp(c, s);
  }

  lemma Keep(c: Config, s: State, m: Move)
    requires c.Fine() && Framed(c.frames) && Inv(c, s) && Enabled(c, s, m)
    ensures Inv(c, Apply(c, s, m))
  {
    match m
    case Open(step) =>
      LinkStep(c.net, s.link, step);
      LinkStepFrame(c.net, s.link, step);
      KeepOpen(c, s, LinkApply(c.net, s.link, step));
    case ByClient(cm) => KeepByClient(c, s, cm);
    case ByServer(sm) => KeepByServer(c, s, sm);
  }
}
