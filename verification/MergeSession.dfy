/**
  A whole merge session as concurrent steps: the client's upload goroutines, its document
  reader and its control reader on one side, the server's handler with an arbitrary decoder
  on the other, over bounded channels. A run is a sequence of moves.
*/
module MergeSession {
  import opened Prelude
  import opened ControlText
  import opened Channels
  import opened FinalFrames
  import opened Opening

  /** Port 0 carries the document, ports 1 to 4 the cores, ports 5 and 6 the parities. */
  predicate IsCorePort(k: nat) { 1 <= k <= 4 }

  /** What the client's own files and output can do to a session: files below `least` are refused
      when opened (64 for files on disk, 0 in memory), reading one may fail after some bytes,
      and the output may accept only so many. */
  datatype Local = Local(least: nat, faults: seq<Option<nat>>, sink: Option<nat>)

  /** One session: the client's send plan and files, the server's open plan, and what an
      otherwise arbitrary decoder leads to: the document, the trailer or the error frame, and
      how the client understands what it reads on the control channel. */
  datatype Config = Config(net: Net, send: seq<bool>, open: seq<bool>, files: seq<seq<Byte>>,
                           local: Local, doc: seq<Byte>, frames: Frames) {
    predicate Sized() {
      |send| == |open| == |files| == |local.faults| == PORTS
    }

    ghost predicate Fine() {
      && net.Fine() && net.firstChecked == 0 && Sized()
      && !send[0] && !open[0]
      && (forall k :: 0 <= k < PORTS && send[k] ==> open[k])
      && (forall k :: 0 <= k < PORTS && IsCorePort(k) && open[k] ==> send[k])
      && frames.NonEmpty()
    }

    /** Everything the client means to write on port k: the token, and the file if it is sent. */
    function Full(k: nat): seq<Byte>
      requires Sized() && k < PORTS
    {
      net.token + if send[k] then files[k] else []
    }

    predicate Opens(k: nat)
      requires Sized() && k < PORTS
    {
      |files[k]| >= local.least
    }

    /** The file can be opened and read to its end. */
    predicate Readable(k: nat)
      requires Sized() && k < PORTS
    {
      Opens(k) && local.faults[k].None?
    }

    /** How much of the file an uploader gets to read. */
    function Part(k: nat): (n: nat)
      requires Sized() && k < PORTS
      ensures n <= |files[k]| && (Readable(k) ==> n == |files[k]|)
    {
      if !Opens(k) then 0
      else match local.faults[k] case None => |files[k]| case Some(n) => Min(n, |files[k]|)
    }

    /** What the output has accepted once it was offered these bytes. */
    function Kept(seen: seq<Byte>): seq<Byte> {
      if Snags(|seen|) then seen[..local.sink.value] else seen
    }

    predicate Snags(n: nat) { local.sink.Some? && n > local.sink.value }

    function GoodControl(): seq<Byte> { net.invite + frames.trailer }
    function BadControl(): seq<Byte> { net.invite + frames.complaint }
  }

  datatype Upload = Omitting(next: nat) | Cores | Parities | Uploaded(ok: bool)
  datatype Copy = Copying | Drained | Snagged   // the document reader: running, at the end, or its output failed
  datatype Job = Waiting | Sending | Sent | Broken
  datatype Client = Working | Reading | Returned(res: Outcome) | Gone(res: Outcome)
  datatype Want = Idle | Read(port: nat) | Write(left: nat)
  datatype Server = Coding(want: Want) | HalfClosing | Replying | Closing | Complaining | HangingUp | Done

  datatype State = State(
    link: Link,          // control channel and the client's side of the seven ports
    doc: Pipe,           // document port, towards the client
    out: seq<Byte>,      // what the client has copied out
    copying: Copy,       // the document reader
    upload: Upload, jobs: seq<Job>, client: Client,
    eofs: seq<bool>,     // ports whose end the decoder has seen
    server: Server, verdict: Verdict, failed: bool)
  {
    predicate Shape() {
      && |link.lanes| == |jobs| == |eofs| == PORTS && link.dialed <= PORTS
      && link.ctl.taken <= link.ctl.read <= |link.ctl.wire|
    }

    /** The output and an upload both failed: the client may leave in the middle of a stream. */
    predicate Lost() { copying.Snagged? && upload == Uploaded(false) }

    predicate PortsClosed() { server.Complaining? || server.HangingUp? || server.Done? }

    function SetLane(k: nat, p: Pipe): State
      requires k < |link.lanes|
    {
      this.(link := link.(lanes := link.lanes[k := p]))
    }

    function SetControl(p: Pipe): State { this.(link := link.(ctl := p)) }
  }

  function Start(): State {
    State(ClosedLink(), FRESH, [], Copying, Omitting(1), seq(PORTS, i => Waiting), Working,
          seq(PORTS, i => false), Coding(Idle), Pending, false)
  }

  datatype ClientMove =
    | Omit                        // close the next stream that is not sent, then start the cores
    | PutFile(k: nat, n: nat)
    | CloseFile(k: nat)
    | BreakFile(k: nat)           // the file cannot be opened or read on, or the server is gone
    | NextPhase                   // all uploads of the phase are over
    | GetDoc(n: nat)              // the output takes it, or fails and copying is over
    | EndDoc
    | Join                        // upload and document reader are both over
    | GetReply(n: nat)
    | Conclude
    | Leave                       // close everything

  datatype ServerMove =
    | WantRead(k: nat)            // the decoder commits to reading a source
    | Fill(n: nat)
    | Take(n: nat)
    | SeeEof
    | WantWrite(n: nat)           // the decoder commits to writing document bytes
    | PutDoc(n: nat)
    | LoseDoc
    | Decoded
    | GiveUp                      // the decoder fails
    | HalfClose
    | PutReply(n: nat)
    | LoseReply
    | ClosePorts
    | PutError(n: nat)
    | LoseError
    | HangUp

  datatype Move = Open(step: LinkMove) | ByClient(cm: ClientMove) | ByServer(sm: ServerMove)

  function StartJobs(c: Config, jobs: seq<Job>, lo: nat, hi: nat): (r: seq<Job>)
    requires c.Sized() && |jobs| == PORTS
    ensures |r| == PORTS
    ensures forall i :: 0 <= i < PORTS ==> r[i] == if lo <= i <= hi && c.send[i] then Sending else jobs[i]
  {
    seq(PORTS, i requires 0 <= i < PORTS => if lo <= i <= hi && c.send[i] then Sending else jobs[i])
  }

  predicate AnyCore(jobs: seq<Job>, job: Job)
    requires |jobs| == PORTS
  {
    jobs[1] == job || jobs[2] == job || jobs[3] == job || jobs[4] == job
  }

  predicate AnyParity(jobs: seq<Job>, job: Job)
    requires |jobs| == PORTS
  {
    jobs[5] == job || jobs[6] == job
  }

  predicate ClientEnabled(c: Config, s: State, m: ClientMove)
    requires c.Sized() && s.Shape()
  {
    var ctl, lanes := s.link.ctl, s.link.lanes;
    match m
    case Omit => s.link.caller.Linked? && s.upload.Omitting? && s.upload.next <= PORTS
    case PutFile(k, n) => k < PORTS && s.jobs[k].Sending? && lanes[k].Fits(n, c.net.cap)
                          && |lanes[k].wire| + n <= |c.net.token| + c.Part(k) && |lanes[k].wire| + n <= |c.Full(k)|
    case CloseFile(k) => k < PORTS && s.jobs[k].Sending? && c.Readable(k) && lanes[k].wire == c.Full(k)
    case BreakFile(k) => k < PORTS && s.jobs[k].Sending?
                         && (lanes[k].hup || (!c.Readable(k) && |lanes[k].wire| == |c.net.token| + c.Part(k)))
    case NextPhase => (s.upload.Cores? && !AnyCore(s.jobs, Sending))
                      || (s.upload.Parities? && !AnyParity(s.jobs, Sending))
    case GetDoc(n) => s.link.caller.Linked? && s.copying.Copying? && s.doc.Available(n)
    case EndDoc => s.link.caller.Linked? && s.copying.Copying? && s.doc.Ended()
    case Join => s.client.Working? && s.upload.Uploaded? && !s.copying.Copying?
    case GetReply(n) => s.client.Reading? && c.frames.parse(s.link.Heard()) == Incomplete && ctl.Available(n)
    case Conclude => s.client.Reading? && (c.frames.parse(s.link.Heard()) != Incomplete || ctl.Ended())
    case Leave => s.client.Returned?
  }

  predicate ServerEnabled(c: Config, s: State, m: ServerMove)
    requires c.Sized() && s.Shape()
  {
    var ctl, lanes := s.link.ctl, s.link.lanes;
    match m
    case WantRead(k) => s.link.host.Ready? && s.server == Coding(Idle) && k < PORTS && c.open[k] && !s.eofs[k]
    case Fill(n) => s.server.Coding? && s.server.want.Read? && s.server.want.port < PORTS
                    && lanes[s.server.want.port].taken == lanes[s.server.want.port].read
                    && lanes[s.server.want.port].Available(n)
    case Take(n) => s.server.Coding? && s.server.want.Read? && s.server.want.port < PORTS
                    && n > 0 && lanes[s.server.want.port].taken + n <= lanes[s.server.want.port].read
    case SeeEof => s.server.Coding? && s.server.want.Read? && s.server.want.port < PORTS
                   && lanes[s.server.want.port].taken == lanes[s.server.want.port].read
                   && lanes[s.server.want.port].Ended()
    case WantWrite(n) => s.link.host.Ready? && s.server == Coding(Idle) && n > 0 && |s.doc.wire| + n <= |c.doc|
    case PutDoc(n) => s.server.Coding? && s.server.want.Write? && n <= s.server.want.left
                      && s.doc.Fits(n, c.net.cap) && |s.doc.wire| + n <= |c.doc|
    case LoseDoc => s.server.Coding? && s.server.want.Write? && s.doc.hup
    case Decoded => s.link.host.Ready? && s.server == Coding(Idle) && s.doc.wire == c.doc
                    && forall k :: 0 <= k < PORTS && c.open[k] ==> s.eofs[k]
    case GiveUp => s.link.host.Ready? && s.server == Coding(Idle)
    case HalfClose => s.server.HalfClosing?
    case PutReply(n) => s.server.Replying? && ctl.Fits(n, c.net.ctlCap) && |ctl.wire| + n <= |c.GoodControl()|
    case LoseReply => s.server.Replying? && ctl.hup
    case ClosePorts => s.server.Closing?
    case PutError(n) => s.server.Complaining? && ctl.Fits(n, c.net.ctlCap) && |ctl.wire| + n <= |c.BadControl()|
    case LoseError => s.server.Complaining? && ctl.hup
    case HangUp => s.server.HangingUp?
  }

  predicate Enabled(c: Config, s: State, m: Move)
    requires c.Sized() && s.Shape()
  {
    match m
    case Open(step) => LinkEnabled(c.net, s.link, step)
    case ByClient(cm) => ClientEnabled(c, s, cm)
    case ByServer(sm) => ServerEnabled(c, s, sm)
  }

  function ClientApply(c: Config, s: State, m: ClientMove): State
    requires c.Sized() && s.Shape() && ClientEnabled(c, s, m)
  {
    var ctl, lanes := s.link.ctl, s.link.lanes;
    match m
    case Omit =>
      var i := s.upload.next;
      if i == PORTS then s.(upload := Cores, jobs := StartJobs(c, s.jobs, 1, 4))
      else if c.send[i] then s.(upload := Omitting(i + 1))
      else s.SetLane(i, lanes[i].Close()).(upload := Omitting(i + 1))
    case PutFile(k, n) => s.SetLane(k, lanes[k].Put(Next(c.Full(k), lanes[k].wire, n)))
    case CloseFile(k) => s.SetLane(k, lanes[k].Close()).(jobs := s.jobs[k := Sent])
    case BreakFile(k) => s.(jobs := s.jobs[k := Broken])
    case NextPhase =>
      if s.upload.Parities? then s.(upload := Uploaded(!AnyParity(s.jobs, Broken)))
      else if AnyCore(s.jobs, Broken) then s.(upload := Uploaded(false))
      else s.(upload := Parities, jobs := StartJobs(c, s.jobs, 5, 6))
    case GetDoc(n) =>
      var seen := s.out + s.doc.wire[s.doc.read..s.doc.read + n];
      s.(doc := s.doc.Fill(n).Take(n), out := c.Kept(seen), copying := if c.Snags(|seen|) then Snagged else Copying)
    case EndDoc => s.(copying := Drained)
    case Join => s.(client := if s.upload.ok && s.copying.Drained? then Reading else Returned(Failed))
    case GetReply(n) => s.SetControl(ctl.Fill(n))
    case Conclude =>
      var reply := c.frames.parse(s.link.Heard());
      s.(client := Returned(if reply.Body? then Trailer(reply.data) else Failed))
    case Leave =>
      s.(client := Gone(s.client.res), doc := s.doc.HangUp(),
         link := s.link.(ctl := ctl.HangUp(), lanes := seq(PORTS, i requires 0 <= i < PORTS => lanes[i].Close())))
  }

  function ServerApply(c: Config, s: State, m: ServerMove): State
    requires c.Sized() && s.Shape() && ServerEnabled(c, s, m)
  {
    var ctl, lanes := s.link.ctl, s.link.lanes;
    match m
    case WantRead(k) => s.(server := Coding(Read(k)))
    case Fill(n) => s.SetLane(s.server.want.port, lanes[s.server.want.port].Fill(n))
    case Take(n) => s.SetLane(s.server.want.port, lanes[s.server.want.port].Take(n)).(server := Coding(Idle))
    case SeeEof => s.(eofs := s.eofs[s.server.want.port := true], server := Coding(Idle))
    case WantWrite(n) => s.(server := Coding(Write(n)))
    case PutDoc(n) =>
      s.(doc := s.doc.Put(Next(c.doc, s.doc.wire, n)),
         server := Coding(if n == s.server.want.left then Idle else Write(s.server.want.left - n)))
    case LoseDoc => s.(server := Closing, verdict := Bad, failed := true)
    case Decoded => s.(server := HalfClosing, verdict := Good)
    case GiveUp => s.(server := Closing, verdict := Bad, failed := true)
    case HalfClose => s.(server := Replying, doc := s.doc.Close())
    case PutReply(n) =>
      var p := ctl.Put(Next(c.GoodControl(), ctl.wire, n));
      s.SetControl(p).(server := if |p.wire| == |c.GoodControl()| then Closing else Replying)
    case LoseReply => s.(server := Closing, failed := true)
    case ClosePorts =>
      s.(server := if s.failed then Complaining else HangingUp, doc := s.doc.Close(),
         link := s.link.(lanes := seq(PORTS, i requires 0 <= i < PORTS => lanes[i].HangUp())))
    case PutError(n) =>
      var p := ctl.Put(Next(c.BadControl(), ctl.wire, n));
      s.SetControl(p).(server := if |p.wire| == |c.BadControl()| then HangingUp else Complaining)
    case LoseError => s.(server := HangingUp)
    case HangUp => s.SetControl(ctl.Close()).(server := Done)
  }

  function Apply(c: Config, s: State, m: Move): State
    requires c.Sized() && s.Shape() && Enabled(c, s, m)
  {
    match m
    case Open(step) => s.(link := LinkApply(c.net, s.link, step))
    case ByClient(cm) => ClientApply(c, s, cm)
    case ByServer(sm) => ServerApply(c, s, sm)
  }

  /** Both sides have closed everything. */
  predicate Final(s: State) {
    s.client.Gone? && s.server.Done?
  }

  // ---- runs ----

  ghost predicate Legal(c: Config, s: State, run: seq<Move>)
    requires c.Sized()
    decreases |run|
  {
    run == [] || (s.Shape() && Enabled(c, s, run[0]) && Legal(c, Apply(c, s, run[0]), run[1..]))
  }

  ghost function After(c: Config, s: State, run: seq<Move>): State
    requires c.Sized() && Legal(c, s, run)
    decreases |run|
  {
    if run == [] then s else After(c, Apply(c, s, run[0]), run[1..])
  }

  // ---- invariant ----

  ghost predicate LaneOk(c: Config, s: State, i: nat)
    requires c.Sized() && s.Shape() && i < PORTS
  {
    var p, job := s.link.lanes[i], s.jobs[i];
    && p.wire <= c.Full(i)
    && (!c.send[i] ==> job.Waiting?)
    && (s.upload.Omitting? ==> job.Waiting?)
    && (c.send[i] && IsCorePort(i) && !s.upload.Omitting? ==> !job.Waiting?)
    && (!IsCorePort(i) && s.upload.Cores? ==> job.Waiting?)
    && (c.send[i] && !IsCorePort(i) && (s.upload.Parities? || s.upload == Uploaded(true)) ==> !job.Waiting?)
    && (job.Sending? ==> if IsCorePort(i) then s.upload.Cores? else s.upload.Parities?)
    && (job.Waiting? ==> p.wire <= c.net.token)
    && |p.wire| <= |c.net.token| + c.Part(i)
    && (job.Sent? ==> p.wire == c.Full(i) && p.fin && c.Readable(i))
    && (job.Broken? ==> !c.Readable(i) || p.hup)
    && (p.fin && !s.client.Gone? ==> i > 0)
    && (p.fin && !(s.client.Gone? && s.upload == Uploaded(false)) ==> p.wire == c.Full(i) && (job.Sent? || !c.send[i]))
    && (s.client.Gone? ==> p.fin)
    && (i > 0 && !c.send[i] && s.link.caller.Linked? && (s.upload.Omitting? ==> i < s.upload.next) ==> p.fin)
    && (p.hup <==> s.PortsClosed())
    && (s.eofs[i] ==> c.open[i] && p.fin && p.taken == p.read == |p.wire|)
    && (s.eofs[i] && !s.Lost() ==> p.wire == c.Full(i) && (job.Sent? || !c.send[i]))
  }

  ghost predicate Phases(c: Config, s: State)
    requires c.Sized() && s.Shape()
  {
    && (s.upload.Omitting? ==> 1 <= s.upload.next <= PORTS)
    && (!s.link.caller.Linked? ==> s.upload == Omitting(1) && s.copying.Copying?)
    && (!s.client.Working? ==> s.upload.Uploaded? && !s.copying.Copying?)
    && (s.client.Reading? ==> s.upload.ok && s.copying.Drained?)
    && (s.upload == Uploaded(false) ==> AnyCore(s.jobs, Broken) || AnyParity(s.jobs, Broken))
    && (s.upload.Parities? ==> !AnyCore(s.jobs, Broken))
    && (s.upload == Uploaded(true) ==> !AnyCore(s.jobs, Broken) && !AnyParity(s.jobs, Broken))
    && (!s.jobs[5].Waiting? || !s.jobs[6].Waiting? ==>
          !AnyCore(s.jobs, Broken) && !AnyCore(s.jobs, Sending) && !s.upload.Omitting? && !s.upload.Cores?)
    && (!s.link.host.Ready? ==> s.server == Coding(Idle) && s.doc.wire == []
                                  && forall i :: 0 <= i < PORTS ==> !s.eofs[i])
    && (s.server.Coding? <==> s.verdict.Pending?)
    && (s.server.HalfClosing? || s.server.Replying? ==> s.verdict.Good? && !s.failed)
    && (s.verdict.Pending? ==> !s.failed)
    && (s.verdict.Bad? ==> s.failed)
    && (s.server.Complaining? ==> s.failed)
    && (s.server.Coding? && s.server.want.Read? ==>
          s.server.want.port < PORTS && c.open[s.server.want.port] && !s.eofs[s.server.want.port])
    && (s.server.Coding? && s.server.want.Write? ==>
          s.server.want.left > 0 && |s.doc.wire| + s.server.want.left <= |c.doc|)
  }

  ghost predicate DocOk(c: Config, s: State)
    requires c.Sized() && s.Shape()
  {
    && s.doc.Sound(c.net.cap) && s.doc.wire <= c.doc
    && s.out == c.Kept(s.doc.wire[..s.doc.read])
    && (s.copying.Snagged? <==> c.Snags(s.doc.read))
    && (s.doc.fin <==> s.server.Replying? || s.PortsClosed() || (s.server.Closing? && s.verdict.Good?))
    && (s.doc.hup <==> s.client.Gone?)
    && (s.copying.Drained? ==> s.doc.Ended())
    && (s.verdict.Good? ==> s.doc.wire == c.doc)
    && (s.verdict.Good? ==> forall k :: 0 <= k < PORTS && c.open[k] ==> s.eofs[k])
    && (s.verdict.Good? && !s.Lost() ==> forall k :: 0 <= k < PORTS && c.send[k] ==> s.jobs[k].Sent?)
  }

  ghost predicate ControlOk(c: Config, s: State)
    requires c.Sized() && s.Shape()
  {
    var ctl := s.link.ctl;
    && (ctl.hup <==> s.client.Gone?)
    && (ctl.fin <==> s.server.Done?)
    && (s.server.Coding? || s.server.HalfClosing? ==> ctl.wire <= c.net.invite)
    && (s.verdict.Good? ==> ctl.wire <= c.GoodControl())
    && (s.verdict.Bad? ==> ctl.wire <= c.BadControl())
    && (s.server.Replying? ==> |ctl.wire| < |c.GoodControl()|)
    && (s.server.Complaining? && !ctl.hup ==> |ctl.wire| < |c.BadControl()|)
    && (s.verdict.Good? && s.failed ==> ctl.hup)
    && (s.verdict.Good? && !s.failed && (s.server.Closing? || s.PortsClosed()) ==> ctl.wire == c.GoodControl())
    && (s.verdict.Bad? && s.server.Closing? ==> ctl.wire == c.net.invite)
    && (s.verdict.Bad? && (s.server.HangingUp? || s.server.Done?) ==> ctl.wire == c.BadControl() || ctl.hup)
  }

  /** A client that returned with a trailer got the server's own, whole. */
  ghost predicate ResultOk(c: Config, s: State) {
    s.client.Returned? || s.client.Gone? ==>
      && (s.client.res.Trailer? ==>
            s.verdict.Good? && s.out == c.doc && c.frames.parse(c.frames.trailer) == Body(s.client.res.body))
      && (s.client.res.Failed? ==>
            s.verdict.Bad? || s.upload == Uploaded(false) || s.copying.Snagged?
            || !c.frames.parse(c.frames.trailer).Body?)
  }

  ghost predicate Inv(c: Config, s: State)
    requires c.Sized()
  {
    && s.Shape() && LinkInv(c.net, s.link)
    && Phases(c, s) && DocOk(c, s) && ControlOk(c, s) && ResultOk(c, s)
    && forall i :: 0 <= i < PORTS ==> LaneOk(c, s, i)
  }

  lemma InvStart(c: Config)
    requires c.Fine()
    ensures Inv(c, Start())
  {
    LinkInvInit(c.net);
  }

  lemma LaneStays(c: Config, s: State, k: nat, p: Pipe)
    requires c.Sized() && s.Shape() && LinkInv(c.net, s.link) && s.link.caller.Linked? && k < PORTS
    requires LaneInv(c.net, s.link.caller, s.link.host, s.link.dialed, k, p)
    ensures LinkInv(c.net, s.SetLane(k, p).link)
  {
  }

  lemma CloseStays(c: Config, s: State, k: nat)
    requires c.Sized() && s.Shape() && LinkInv(c.net, s.link) && s.link.caller.Linked? && k < PORTS
    ensures LinkInv(c.net, s.SetLane(k, s.link.lanes[k].Close()).link)
  {
    var p := s.link.lanes[k];
    assert LaneInv(c.net, s.link.caller, s.link.host, s.link.dialed, k, p);
    LaneStays(c, s, k, p.Close());
  }

  /** Both ends of every port may be closed once the session is open. */
  lemma AllClosed(c: Config, l: Link, ctl: Pipe, lanes: seq<Pipe>)
    requires LinkInv(c.net, l) && l.Open() && |lanes| == PORTS
    requires ctl == l.ctl || ctl == l.ctl.HangUp()
    requires forall i :: 0 <= i < PORTS ==> lanes[i] == l.lanes[i].Close() || lanes[i] == l.lanes[i].HangUp()
    ensures LinkInv(c.net, l.(ctl := ctl, lanes := lanes))
  {
    forall i | 0 <= i < PORTS ensures LaneInv(c.net, l.caller, l.host, l.dialed, i, lanes[i]) {
      assert LaneInv(c.net, l.caller, l.host, l.dialed, i, l.lanes[i]);
    }
  }

  // ---- every move keeps the invariant ----

  lemma KeepOpen(c: Config, s: State, link: Link)
    requires c.Fine() && Inv(c, s) && LinkInv(c.net, link) && LinkFrame(c.net, s.link, link)
    ensures Inv(c, s.(link := link))
  {
    var s' := s.(link := link);
    forall i | 0 <= i < PORTS ensures LaneOk(c, s', i) {
      assert LaneOk(c, s, i);
      assert SameEnds(c.net, s.link.lanes[i], link.lanes[i]);
    }
  }

  lemma KeepOmit(c: Config, s: State)
    requires c.Fine() && Inv(c, s) && ClientEnabled(c, s, Omit) && s.upload.next < PORTS
    requires !c.send[s.upload.next]
    ensures Inv(c, ClientApply(c, s, Omit))
  {
    var s', i := ClientApply(c, s, Omit), s.upload.next;
    assert LaneOk(c, s, i);
    CloseStays(c, s, i);
    forall j | 0 <= j < PORTS ensures LaneOk(c, s', j) {
      assert LaneOk(c, s, j);
    }
  }

  lemma KeepSkip(c: Config, s: State)
    requires c.Fine() && Inv(c, s) && ClientEnabled(c, s, Omit) && s.upload.next < PORTS
    requires c.send[s.upload.next]
    ensures Inv(c, ClientApply(c, s, Omit))
  {
    var s' := ClientApply(c, s, Omit);
    forall j | 0 <= j < PORTS ensures LaneOk(c, s', j) {
      assert LaneOk(c, s, j);
    }
  }

  lemma KeepStartCores(c: Config, s: State)
    requires c.Fine() && Inv(c, s) && ClientEnabled(c, s, Omit) && s.upload.next == PORTS
    ensures Inv(c, ClientApply(c, s, Omit))
  {
    var s' := ClientApply(c, s, Omit);
    forall j | 0 <= j < PORTS && s.verdict.Good? ensures !c.send[j] {
      assert LaneOk(c, s, j);
    }
    forall j | 0 <= j < PORTS ensures LaneOk(c, s', j) {
      assert LaneOk(c, s, j);
    }
  }

  lemma KeepPutFile(c: Config, s: State, k: nat, n: nat)
    requires c.Fine() && Inv(c, s) && ClientEnabled(c, s, PutFile(k, n))
    ensures Inv(c, ClientApply(c, s, PutFile(k, n)))
  {
    var s', p := ClientApply(c, s, PutFile(k, n)), s.link.lanes[k];
    assert LaneOk(c, s, k);
    assert LaneInv(c.net, s.link.caller, s.link.host, s.link.dialed, k, p);
    PutNext(c.Full(k), p.wire, n);
    KeepsHead(c.net.token, p.wire, Next(c.Full(k), p.wire, n));
    LaneStays(c, s, k, s'.link.lanes[k]);
    forall j | 0 <= j < PORTS ensures LaneOk(c, s', j) {
      assert LaneOk(c, s, j);
    }
  }

  lemma KeepCloseFile(c: Config, s: State, k: nat)
    requires c.Fine() && Inv(c, s) && ClientEnabled(c, s, CloseFile(k))
    ensures Inv(c, ClientApply(c, s, CloseFile(k)))
  {
    var s' := ClientApply(c, s, CloseFile(k));
    assert LaneOk(c, s, k);
    CloseStays(c, s, k);
    forall j | 0 <= j < PORTS ensures LaneOk(c, s', j) {
      assert LaneOk(c, s, j);
    }
  }

  lemma KeepBreakFile(c: Config, s: State, k: nat)
    requires c.Fine() && Inv(c, s) && ClientEnabled(c, s, BreakFile(k))
    ensures Inv(c, ClientApply(c, s, BreakFile(k)))
  {
    var s' := ClientApply(c, s, BreakFile(k));
    assert LaneOk(c, s, k);
    forall j | 0 <= j < PORTS ensures LaneOk(c, s', j) {
      assert LaneOk(c, s, j);
    }
  }

  lemma KeepEndParities(c: Config, s: State)
    requires c.Fine() && Inv(c, s) && ClientEnabled(c, s, NextPhase) && s.upload.Parities?
    ensures Inv(c, ClientApply(c, s, NextPhase))
  {
    var s' := ClientApply(c, s, NextPhase);
    forall j | 0 <= j < PORTS ensures LaneOk(c, s', j) {
      assert LaneOk(c, s, j);
      JobAt(s.jobs, j);
    }
  }

  lemma KeepFailCores(c: Config, s: State)
    requires c.Fine() && Inv(c, s) && ClientEnabled(c, s, NextPhase) && s.upload.Cores?
    requires AnyCore(s.jobs, Broken)
    ensures Inv(c, ClientApply(c, s, NextPhase))
  {
    var s' := ClientApply(c, s, NextPhase);
    forall j | 0 <= j < PORTS ensures LaneOk(c, s', j) {
      assert LaneOk(c, s, j);
      JobAt(s.jobs, j);
    }
  }

  lemma JobAt(jobs: seq<Job>, j: nat)
    requires |jobs| == PORTS && j < PORTS
    ensures IsCorePort(j) ==> AnyCore(jobs, jobs[j])
    ensures !IsCorePort(j) && j > 0 ==> AnyParity(jobs, jobs[j])
  {
  }

  lemma KeepStartParities(c: Config, s: State)
    requires c.Fine() && Inv(c, s) && ClientEnabled(c, s, NextPhase) && s.upload.Cores?
    requires !AnyCore(s.jobs, Broken)
    ensures Inv(c, ClientApply(c, s, NextPhase))
  {
    var s' := ClientApply(c, s, NextPhase);
    forall j | 0 <= j < PORTS && s.verdict.Good? && !IsCorePort(j) ensures !c.send[j] {
      assert LaneOk(c, s, j);
    }
    forall j | 0 <= j < PORTS ensures LaneOk(c, s', j) {
      assert LaneOk(c, s, j);
      JobAt(s.jobs, j);
    }
  }

  lemma KeepClient(c: Config, s: State, m: ClientMove)
    requires c.Fine() && Inv(c, s) && ClientEnabled(c, s, m)
    requires m.EndDoc? || m.Join?
    ensures Inv(c, ClientApply(c, s, m))
  {
    var s' := ClientApply(c, s, m);
    forall j | 0 <= j < PORTS ensures LaneOk(c, s', j) {
      assert LaneOk(c, s, j);
    }
  }

  /** A piece of the document copied out: the output holds what it accepts of all that was read. */
  lemma PieceKept(c: Config, s: State, n: nat)
    requires c.Sized() && s.Shape() && DocOk(c, s) && ClientEnabled(c, s, GetDoc(n))
    ensures DocOk(c, ClientApply(c, s, GetDoc(n)))
  {
    var wire, read := s.doc.wire, s.doc.read;
    assert wire[..read] + wire[read..read + n] == wire[..read + n];
  }

  lemma KeepGetDoc(c: Config, s: State, n: nat)
    requires c.Fine() && Inv(c, s) && ClientEnabled(c, s, GetDoc(n))
    ensures Inv(c, ClientApply(c, s, GetDoc(n)))
  {
    var s' := ClientApply(c, s, GetDoc(n));
    PieceKept(c, s, n);
    forall j | 0 <= j < PORTS ensures LaneOk(c, s', j) {
      assert LaneOk(c, s, j);
    }
  }

  lemma KeepGetReply(c: Config, s: State, n: nat)
    requires c.Fine() && Inv(c, s) && ClientEnabled(c, s, GetReply(n))
    ensures Inv(c, ClientApply(c, s, GetReply(n)))
  {
    var s' := ClientApply(c, s, GetReply(n));
    forall j | 0 <= j < PORTS ensures LaneOk(c, s', j) {
      assert LaneOk(c, s, j);
    }
  }

  lemma KeepConclude(c: Config, s: State)
    requires c.Fine() && Framed(c.frames) && Inv(c, s) && ClientEnabled(c, s, Conclude)
    ensures Inv(c, ClientApply(c, s, Conclude))
  {
    var s' := ClientApply(c, s, Conclude);
    HeardIsFrame(c, s);
    forall j | 0 <= j < PORTS ensures LaneOk(c, s', j) {
      assert LaneOk(c, s, j);
    }
  }

  /** What the control reader holds is a piece of the server's one final frame, so a reply it
      accepts as a trailer is the server's trailer, whole. */
  lemma HeardIsFrame(c: Config, s: State)
    requires c.Fine() && Framed(c.frames) && Inv(c, s) && ClientEnabled(c, s, Conclude)
    ensures !s.verdict.Pending?
    ensures var reply := c.frames.parse(s.link.Heard());
            if reply.Body? then s.verdict.Good? && reply == c.frames.parse(c.frames.trailer)
            else s.verdict.Bad? || !c.frames.parse(c.frames.trailer).Body?
  {
    var heard, ctl := s.link.Heard(), s.link.ctl;
    assert Understood(c.frames, heard);
    if s.verdict.Good? {
      assert heard <= c.frames.trailer;
      if ctl.Ended() {
        assert heard == c.frames.trailer;
      }
    } else {
      assert heard <= c.frames.complaint;
    }
  }

  /** A client that leaves has heard from the server, so the session was open. */
  lemma LeavesAnOpenSession(c: Config, s: State)
    requires c.Fine() && Inv(c, s) && s.client.Returned?
    ensures s.link.Open()
  {
  }

  lemma LaneLeft(c: Config, s: State, j: nat)
    requires c.Fine() && Inv(c, s) && s.client.Returned? && s.link.Open() && j < PORTS
    ensures LaneOk(c, ClientApply(c, s, Leave), j)
  {
    assert LaneOk(c, s, j);
    assert LaneInv(c.net, s.link.caller, s.link.host, s.link.dialed, j, s.link.lanes[j]);
  }

  lemma KeepLeave(c: Config, s: State)
    requires c.Fine() && Inv(c, s) && ClientEnabled(c, s, Leave)
    ensures Inv(c, ClientApply(c, s, Leave))
  {
    var s' := ClientApply(c, s, Leave);
    LeavesAnOpenSession(c, s);
    AllClosed(c, s.link, s'.link.ctl, s'.link.lanes);
    forall j | 0 <= j < PORTS ensures LaneOk(c, s', j) {
      LaneLeft(c, s, j);
    }
  }

  lemma ReadStays(c: Config, s: State, m: ServerMove)
    requires c.Fine() && Inv(c, s) && ServerEnabled(c, s, m)
    requires m.Fill? || m.Take?
    ensures LinkInv(c.net, ServerApply(c, s, m).link)
  {
    var k := s.server.want.port;
    assert LaneInv(c.net, s.link.caller, s.link.host, s.link.dialed, k, s.link.lanes[k]);
    LaneStays(c, s, k, ServerApply(c, s, m).link.lanes[k]);
  }

  lemma KeepRead(c: Config, s: State, m: ServerMove)
    requires c.Fine() && Inv(c, s) && ServerEnabled(c, s, m)
    requires m.Fill? || m.Take?
    ensures Inv(c, ServerApply(c, s, m))
  {
    var s' := ServerApply(c, s, m);
    ReadStays(c, s, m);
    assert LaneOk(c, s, s.server.want.port);
    forall j | 0 <= j < PORTS ensures LaneOk(c, s', j) {
      assert LaneOk(c, s, j);
    }
  }

  lemma KeepSeeEof(c: Config, s: State)
    requires c.Fine() && Inv(c, s) && ServerEnabled(c, s, SeeEof)
    ensures Inv(c, ServerApply(c, s, SeeEof))
  {
    var s' := ServerApply(c, s, SeeEof);
    assert LaneOk(c, s, s.server.want.port);
    forall j | 0 <= j < PORTS ensures LaneOk(c, s', j) {
      assert LaneOk(c, s, j);
    }
  }

  lemma KeepWant(c: Config, s: State, m: ServerMove)
    requires c.Fine() && Inv(c, s) && ServerEnabled(c, s, m)
    requires m.WantRead? || m.WantWrite?
    ensures Inv(c, ServerApply(c, s, m))
  {
    var s' := ServerApply(c, s, m);
    forall j | 0 <= j < PORTS ensures LaneOk(c, s', j) {
      assert LaneOk(c, s, j);
    }
  }

  lemma KeepGiveUp(c: Config, s: State, m: ServerMove)
    requires c.Fine() && Inv(c, s) && ServerEnabled(c, s, m)
    requires m.LoseDoc? || m.GiveUp?
    ensures Inv(c, ServerApply(c, s, m))
  {
    var s' := ServerApply(c, s, m);
    forall j | 0 <= j < PORTS ensures LaneOk(c, s', j) {
      assert LaneOk(c, s, j);
    }
  }

  lemma KeepHalfClose(c: Config, s: State)
    requires c.Fine() && Inv(c, s) && ServerEnabled(c, s, HalfClose)
    ensures Inv(c, ServerApply(c, s, HalfClose))
  {
    var s' := ServerApply(c, s, HalfClose);
    forall j | 0 <= j < PORTS ensures LaneOk(c, s', j) {
      assert LaneOk(c, s, j);
    }
  }

  lemma KeepPutDoc(c: Config, s: State, n: nat)
    requires c.Fine() && Inv(c, s) && ServerEnabled(c, s, PutDoc(n))
    ensures Inv(c, ServerApply(c, s, PutDoc(n)))
  {
    var s' := ServerApply(c, s, PutDoc(n));
    PutNext(c.doc, s.doc.wire, n);
    forall j | 0 <= j < PORTS ensures LaneOk(c, s', j) {
      assert LaneOk(c, s, j);
    }
  }

  lemma KeepDecoded(c: Config, s: State)
    requires c.Fine() && Inv(c, s) && ServerEnabled(c, s, Decoded)
    ensures Inv(c, ServerApply(c, s, Decoded))
  {
    var s' := ServerApply(c, s, Decoded);
    forall j | 0 <= j < PORTS ensures LaneOk(c, s', j) && (c.send[j] && !s.Lost() ==> s.jobs[j].Sent?) {
      assert LaneOk(c, s, j);
    }
  }

  lemma KeepPutReply(c: Config, s: State, n: nat)
    requires c.Fine() && Inv(c, s) && ServerEnabled(c, s, PutReply(n))
    ensures Inv(c, ServerApply(c, s, PutReply(n)))
  {
    var s', wire := ServerApply(c, s, PutReply(n)), s.link.ctl.wire;
    PutNext(c.GoodControl(), wire, n);
    KeepsHead(c.net.invite, wire, Next(c.GoodControl(), wire, n));
    forall j | 0 <= j < PORTS ensures LaneOk(c, s', j) {
      assert LaneOk(c, s, j);
    }
  }

  lemma KeepPutError(c: Config, s: State, n: nat)
    requires c.Fine() && Inv(c, s) && ServerEnabled(c, s, PutError(n))
    ensures Inv(c, ServerApply(c, s, PutError(n)))
  {
    var s', wire := ServerApply(c, s, PutError(n)), s.link.ctl.wire;
    PutNext(c.BadControl(), wire, n);
    KeepsHead(c.net.invite, wire, Next(c.BadControl(), wire, n));
    forall j | 0 <= j < PORTS ensures LaneOk(c, s', j) {
      assert LaneOk(c, s, j);
    }
  }

  lemma KeepLose(c: Config, s: State, m: ServerMove)
    requires c.Fine() && Inv(c, s) && ServerEnabled(c, s, m)
    requires m.LoseReply? || m.LoseError?
    ensures Inv(c, ServerApply(c, s, m))
  {
    var s' := ServerApply(c, s, m);
    forall j | 0 <= j < PORTS ensures LaneOk(c, s', j) {
      assert LaneOk(c, s, j);
    }
  }

  lemma KeepHangUp(c: Config, s: State)
    requires c.Fine() && Inv(c, s) && ServerEnabled(c, s, HangUp)
    ensures Inv(c, ServerApply(c, s, HangUp))
  {
    var s' := ServerApply(c, s, HangUp);
    forall j | 0 <= j < PORTS ensures LaneOk(c, s', j) {
      assert LaneOk(c, s, j);
    }
  }

  lemma KeepClosePorts(c: Config, s: State)
    requires c.Fine() && Inv(c, s) && ServerEnabled(c, s, ClosePorts)
    ensures Inv(c, ServerApply(c, s, ClosePorts))
  {
    var s' := ServerApply(c, s, ClosePorts);
    AllClosed(c, s.link, s.link.ctl, s'.link.lanes);
    forall j | 0 <= j < PORTS ensures LaneOk(c, s', j) {
      assert LaneOk(c, s, j);
    }
  }

  lemma KeepByClient(c: Config, s: State, m: ClientMove)
    requires c.Fine() && Framed(c.frames) && Inv(c, s) && ClientEnabled(c, s, m)
    ensures Inv(c, ClientApply(c, s, m))
  {
    match m
    case Omit =>
      if s.upload.next == PORTS {
        KeepStartCores(c, s);
      } else if c.send[s.upload.next] {
        KeepSkip(c, s);
      } else {
        KeepOmit(c, s);
      }
    case PutFile(k, n) => KeepPutFile(c, s, k, n);
    case CloseFile(k) => KeepCloseFile(c, s, k);
    case BreakFile(k) => KeepBreakFile(c, s, k);
    case NextPhase =>
      if s.upload.Parities? {
        KeepEndParities(c, s);
      } else if AnyCore(s.jobs, Broken) {
        KeepFailCores(c, s);
      } else {
        KeepStartParities(c, s);
      }
    case GetDoc(n) => KeepGetDoc(c, s, n);
    case EndDoc => KeepClient(c, s, m);
    case Join => KeepClient(c, s, m);
    case GetReply(n) => KeepGetReply(c, s, n);
    case Conclude => KeepConclude(c, s);
    case Leave => KeepLeave(c, s);
  }

  lemma KeepByServer(c: Config, s: State, m: ServerMove)
    requires c.Fine() && Inv(c, s) && ServerEnabled(c, s, m)
    ensures Inv(c, ServerApply(c, s, m))
  {
    match m
    case WantRead(_) => KeepWant(c, s, m);
    case WantWrite(_) => KeepWant(c, s, m);
    case Fill(_) => KeepRead(c, s, m);
    case Take(_) => KeepRead(c, s, m);
    case SeeEof => KeepSeeEof(c, s);
    case PutDoc(n) => KeepPutDoc(c, s, n);
    case LoseDoc => KeepGiveUp(c, s, m);
    case Decoded => KeepDecoded(c, s);
    case GiveUp => KeepGiveUp(c, s, m);
    case HalfClose => KeepHalfClose(c, s);
    case PutReply(n) => KeepPutReply(c, s, n);
    case LoseReply => KeepLose(c, s, m);
    case ClosePorts => KeepClosePorts(c, s);
    case PutError(n) => KeepPutError(c, s, n);
    case LoseError => KeepLose(c, s, m);
    case HangUp => KeepHangUp(c, s);
  }

  lemma Keep(c: Config, s: State, m: Move)
    requires c.Fine() && Framed(c.frames) && Inv(c, s) && Enabled(c, s, m)
    ensures Inv(c, Apply(c, s, m))
  {
    match m
    case Open(step) =>
      LinkStep(c.net, s.link, step);
      LinkStepFrame(c.net, s.link, step);
      KeepOpen(c, s, LinkApply(c.net, s.link, step));
    case ByClient(cm) => KeepByClient(c, s, cm);
    case ByServer(sm) => KeepByServer(c, s, sm);
  }
}
