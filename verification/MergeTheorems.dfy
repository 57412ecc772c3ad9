/**
  The main facts about merge sessions: exactly when they can never get stuck, what a client
  that returns a trailer holds, what each upload stream carries, and what the server reads
  when both sides planned from the same mask.
*/
module MergeTheorems {
  import opened Prelude
  import opened ControlText
  import opened Channels
  import opened FinalFrames
  import opened Opening
  import opened MergeSession
  import opened MergeRuns
  import opened TrailingFooter
  import Readers
  import P = Particles
  import Plan = MergePlan

  // ---- liveness, both ways ----

  /** No run, whatever the decoder does, leads to a state where nothing can move. */
  ghost predicate NeverStuck(c: Config)
    requires c.Sized()
  {
    forall run :: Legal(c, Start(), run) ==> !Stuck(c, After(c, Start(), run))
  }

  /** Why a session can hang. */
  datatype Cause =
    | LongToken                       // the token does not fit into a port's channel
    | BadFile(k: nat)                 // a file to be sent is refused when opened, or fails while read
    | Starved(parity: nat, core: nat) // the decoder waits for a parity while a core is too big to finish
    | Clogged(k: nat)                 // the output failed, and an upload is too big while the decoder writes

  /** The upload of file j is too big to finish unless the decoder reads it. */
  predicate TooBig(c: Config, j: nat)
    requires c.Sized()
  {
    j < PORTS && c.send[j] && |c.files[j]| > c.net.cap
  }

  ghost predicate Blocked(c: Config, why: Cause)
    requires c.Sized()
  {
    match why
    case LongToken => |c.net.token| > c.net.cap
    case BadFile(k) => k < PORTS && c.send[k] && !c.Readable(k)
    case Starved(p, j) => 5 <= p <= 6 && c.send[p] && IsCorePort(j) && TooBig(c, j) && c.Readable(j)
    case Clogged(j) => Jams(c) && TooBig(c, j) && forall k :: 0 <= k < PORTS && c.send[k] ==> c.Readable(k)
  }

  /** The decoder is idle or waits for a port, and has written nothing. */
  predicate Waits(s: State, k: nat) {
    (s.server == Coding(Idle) || s.server == Coding(Read(k))) && s.doc.wire == []
  }

  /** States from which that cause never lets the session out, if the decoder insists. */
  ghost predicate Trapped(c: Config, s: State, why: Cause)
    requires c.Sized() && s.Shape() && Blocked(c, why)
  {
    match why
    case LongToken => !s.link.caller.Linked? && s.link.dialed <= 1 && s.server.Coding?
    case BadFile(k) => Waits(s, k)
    case Starved(p, j) =>
      && Waits(s, p) && s.link.lanes[j].read <= |c.net.token|
      && (s.upload.Omitting? || s.upload.Cores?) && (s.jobs[j].Waiting? || s.jobs[j].Sending?)
    case Clogged(j) =>
      && (s.server == Coding(Idle) || (s.server.Coding? && s.server.want.Write?))
      && s.link.lanes[j].read <= |c.net.token| && s.doc.read <= c.local.sink.value + 1
      && !s.upload.Uploaded? && (s.jobs[j].Waiting? || s.jobs[j].Sending?)
  }

  /** Whenever something can move inside a trap, something can move and stay inside. */
  lemma StayTrapped(c: Config, s: State, why: Cause, m: Move) returns (m': Move)
    requires c.Fine() && Inv(c, s) && Blocked(c, why) && Trapped(c, s, why)
    requires Enabled(c, s, m) && m != ByServer(GiveUp)
    ensures Enabled(c, s, m') && m' != ByServer(GiveUp)
    ensures Apply(c, s, m').Shape() && Trapped(c, Apply(c, s, m'), why)
  {
    match why
    case LongToken => m' := StayUndialed(c, s, m);
    case BadFile(k) => m' := StayUnread(c, s, k, m);
    case Starved(p, j) => m' := StayStarved(c, s, p, j, m);
    case Clogged(j) => m' := StayClogged(c, s, j, m);
  }

  lemma StayUndialed(c: Config, s: State, m: Move) returns (m': Move)
    requires c.Fine() && Inv(c, s) && Blocked(c, LongToken) && Trapped(c, s, LongToken)
    requires Enabled(c, s, m) && m != ByServer(GiveUp)
    ensures Enabled(c, s, m') && m' != ByServer(GiveUp)
    ensures Apply(c, s, m').Shape() && Trapped(c, Apply(c, s, m'), LongToken)
  {
    assert LaneInv(c.net, s.link.caller, s.link.host, s.link.dialed, 0, s.link.lanes[0]);
    assert s.link.host.Greeting? || s.link.host.Accepting?;
    m' := m;
  }

  /** While no document byte is written and the decoder runs, the client stays. */
  lemma StillWorking(c: Config, s: State)
    requires c.Fine() && Inv(c, s) && s.server.Coding? && s.doc.wire == []
    ensures s.client.Working? && s.copying.Copying?
  {
  }

  /** The decoder never sees the end of a file that cannot be read, or whose upload waits. */
  lemma NoEnd(c: Config, s: State, k: nat)
    requires c.Fine() && Inv(c, s) && s.client.Working? && k < PORTS && c.send[k] && !s.Lost()
    requires s.jobs[k].Waiting? || !c.Readable(k)
    ensures !s.eofs[k] && !s.link.lanes[k].fin
  {
    assert LaneOk(c, s, k);
  }

  /** An idle decoder can start to wait for a port whose end it has not seen; one that waits
      goes on waiting. */
  lemma KeepsWaiting(c: Config, s: State, k: nat, m: ServerMove) returns (m': ServerMove)
    requires c.Sized() && s.Shape() && Waits(s, k) && k < PORTS && c.open[k]
    requires !s.eofs[k] && !s.link.lanes[k].fin && ServerEnabled(c, s, m) && m != GiveUp
    ensures m' == (if s.server == Coding(Idle) then WantRead(k) else m) && ServerEnabled(c, s, m') && m' != GiveUp
    ensures var s' := ServerApply(c, s, m');
            s'.Shape() && Waits(s', k) && s'.upload == s.upload && s'.jobs == s.jobs
  {
    m' := if s.server == Coding(Idle) then WantRead(k) else m;
  }

  lemma ClientLeavesBe(c: Config, s: State, k: nat, m: ClientMove)
    requires c.Sized() && s.Shape() && Waits(s, k) && ClientEnabled(c, s, m)
    ensures ClientApply(c, s, m).Shape() && Waits(ClientApply(c, s, m), k)
  {
  }

  lemma WaitOn(c: Config, s: State, k: nat, m: ServerMove) returns (m': ServerMove)
    requires c.Fine() && Inv(c, s) && Blocked(c, BadFile(k)) && Waits(s, k)
    requires ServerEnabled(c, s, m) && m != GiveUp
    ensures ServerEnabled(c, s, m') && m' != GiveUp
    ensures ServerApply(c, s, m').Shape() && Waits(ServerApply(c, s, m'), k)
  {
    StillWorking(c, s);
    NoEnd(c, s, k);
    m' := KeepsWaiting(c, s, k, m);
  }

  lemma StayUnread(c: Config, s: State, k: nat, m: Move) returns (m': Move)
    requires c.Fine() && Inv(c, s) && Blocked(c, BadFile(k)) && Trapped(c, s, BadFile(k))
    requires Enabled(c, s, m) && m != ByServer(GiveUp)
    ensures Enabled(c, s, m') && m' != ByServer(GiveUp)
    ensures Apply(c, s, m').Shape() && Trapped(c, Apply(c, s, m'), BadFile(k))
  {
    m' := m;
    match m
    case ByServer(sm) =>
      var sm' := WaitOn(c, s, k, sm);
      m' := ByServer(sm');
    case ByClient(cm) => ClientLeavesBe(c, s, k, cm);
    case Open(step) => LinkStepFrame(c.net, s.link, step);
  }

  /** A port whose upload waits gives the decoder nothing: only the token is there. */
  lemma NothingToRead(c: Config, s: State, k: nat)
    requires c.Fine() && Inv(c, s) && s.server == Coding(Read(k)) && c.send[k] && s.jobs[k].Waiting?
    ensures var p := s.link.lanes[k]; p.taken == p.read == |p.wire|
  {
    assert LaneOk(c, s, k);
    assert LaneInv(c.net, s.link.caller, s.link.host, s.link.dialed, k, s.link.lanes[k]);
  }

  /** A file too big for the channel is not finished while nobody reads it. */
  lemma Unfinished(c: Config, s: State, j: nat)
    requires c.Fine() && Inv(c, s) && s.server.Coding? && TooBig(c, j) && s.link.lanes[j].read <= |c.net.token|
    ensures s.link.lanes[j].wire != c.Full(j) && !s.link.lanes[j].hup
    ensures s.jobs[j].Waiting? || s.jobs[j].Sending? ==>
              && (s.upload.Cores? && IsCorePort(j) ==> s.jobs[j].Sending?)
              && (s.upload.Parities? ==> !IsCorePort(j) && s.jobs[j].Sending?)
  {
    assert LaneOk(c, s, j);
    assert LaneInv(c.net, s.link.caller, s.link.host, s.link.dialed, j, s.link.lanes[j]);
  }

  /** Moves of one uploader leave the unfinished one unfinished. */
  lemma FileStays(c: Config, s: State, j: nat, m: ClientMove)
    requires c.Sized() && s.Shape() && j < PORTS && ClientEnabled(c, s, m)
    requires s.link.lanes[j].wire != c.Full(j) && !s.link.lanes[j].hup && c.Readable(j)
    requires m.PutFile? || m.CloseFile? || m.BreakFile?
    ensures var s' := ClientApply(c, s, m);
            && s'.Shape() && s'.jobs[j] == s.jobs[j] && s'.link.lanes[j].read == s.link.lanes[j].read
            && s'.upload == s.upload && s'.server == s.server && s'.doc == s.doc
  {
  }

  lemma OmitStays(c: Config, s: State, j: nat)
    requires c.Sized() && s.Shape() && 0 < j < PORTS && ClientEnabled(c, s, Omit)
    requires s.jobs[j].Waiting? || s.jobs[j].Sending?
    ensures var s' := ClientApply(c, s, Omit);
            && s'.Shape() && (s'.jobs[j].Waiting? || s'.jobs[j].Sending?) && (s'.upload.Omitting? || s'.upload.Cores?)
            && s'.link.lanes[j].read == s.link.lanes[j].read && s'.server == s.server && s'.doc == s.doc
  {
  }

  /** The server may pull in more than the token; pulling one byte at a time is enough. */
  lemma OpenFrugally(c: Config, s: State, j: nat, step: LinkMove) returns (step': LinkMove)
    requires c.Fine() && Inv(c, s) && j < PORTS && s.link.lanes[j].read <= |c.net.token|
    requires LinkEnabled(c.net, s.link, step)
    ensures LinkEnabled(c.net, s.link, step')
    ensures var l' := LinkApply(c.net, s.link, step');
            && s.(link := l').Shape() && l'.lanes[j].read <= |c.net.token|
  {
    assert LaneInv(c.net, s.link.caller, s.link.host, s.link.dialed, j, s.link.lanes[j]);
    step' := if step.FillToken? then FillToken(1) else step;
  }

  lemma CoreStaysBusy(c: Config, s: State, p: nat, j: nat, m: ClientMove)
    requires c.Fine() && Inv(c, s) && Blocked(c, Starved(p, j)) && Trapped(c, s, Starved(p, j))
    requires ClientEnabled(c, s, m)
    ensures ClientApply(c, s, m).Shape() && Trapped(c, ClientApply(c, s, m), Starved(p, j))
  {
    StillWorking(c, s);
    Unfinished(c, s, j);
    match m
    case Omit => OmitStays(c, s, j);
    case PutFile(_, _) => FileStays(c, s, j, m);
    case CloseFile(_) => FileStays(c, s, j, m);
    case BreakFile(_) => FileStays(c, s, j, m);
    case _ =>
  }

  lemma StayStarved(c: Config, s: State, p: nat, j: nat, m: Move) returns (m': Move)
    requires c.Fine() && Inv(c, s) && Blocked(c, Starved(p, j)) && Trapped(c, s, Starved(p, j))
    requires Enabled(c, s, m) && m != ByServer(GiveUp)
    ensures Enabled(c, s, m') && m' != ByServer(GiveUp)
    ensures Apply(c, s, m').Shape() && Trapped(c, Apply(c, s, m'), Starved(p, j))
  {
    match m
    case ByServer(sm) =>
      assert LaneOk(c, s, p);
      StillWorking(c, s);
      NoEnd(c, s, p);
      if s.server == Coding(Read(p)) {
        NothingToRead(c, s, p);
      }
      var sm' := KeepsWaiting(c, s, p, sm);
      m' := ByServer(sm');
    case ByClient(cm) =>
      CoreStaysBusy(c, s, p, j, cm);
      m' := m;
    case Open(step) =>
      var step' := OpenFrugally(c, s, j, step);
      m' := Open(step');
  }

  /** With every file readable and the server at work no upload breaks. */
  lemma NoneBroken(c: Config, s: State)
    requires c.Fine() && Inv(c, s) && s.server.Coding?
    requires forall k :: 0 <= k < PORTS && c.send[k] ==> c.Readable(k)
    ensures !AnyCore(s.jobs, Broken)
  {
    assert LaneOk(c, s, 1) && LaneOk(c, s, 2) && LaneOk(c, s, 3) && LaneOk(c, s, 4);
  }

  /** The core phase may end, and then the file that is too big is the next to be sent. */
  lemma PhaseStays(c: Config, s: State, j: nat)
    requires c.Sized() && s.Shape() && 0 < j < PORTS && c.send[j] && ClientEnabled(c, s, NextPhase)
    requires s.jobs[j].Waiting? || s.jobs[j].Sending?
    requires s.upload.Cores? && IsCorePort(j) ==> s.jobs[j].Sending?
    requires s.upload.Parities? ==> !IsCorePort(j) && s.jobs[j].Sending?
    requires !AnyCore(s.jobs, Broken)
    ensures var s' := ClientApply(c, s, NextPhase);
            && s'.Shape() && s'.upload.Parities? && s'.jobs[j].Sending?
            && s'.link == s.link && s'.server == s.server && s'.doc == s.doc
  {
  }

  lemma UploadStaysBusy(c: Config, s: State, j: nat, m: ClientMove)
    requires c.Fine() && Inv(c, s) && Blocked(c, Clogged(j)) && Trapped(c, s, Clogged(j))
    requires m.Omit? || m.NextPhase? || m.PutFile? || m.CloseFile? || m.BreakFile?
    requires ClientEnabled(c, s, m)
    ensures ClientApply(c, s, m).Shape() && Trapped(c, ClientApply(c, s, m), Clogged(j))
  {
    Unfinished(c, s, j);
    if m.Omit? {
      OmitStays(c, s, j);
    } else if m.NextPhase? {
      NoneBroken(c, s);
      PhaseStays(c, s, j);
    } else {
      FileStays(c, s, j, m);
    }
  }

  /** The client's other move is to copy on, and a byte at a time its output accepts just one
      too many. */
  lemma CopyFrugally(c: Config, s: State, j: nat, m: ClientMove)
    requires c.Fine() && Inv(c, s) && Blocked(c, Clogged(j)) && Trapped(c, s, Clogged(j))
    requires !(m.Omit? || m.NextPhase? || m.PutFile? || m.CloseFile? || m.BreakFile?)
    requires ClientEnabled(c, s, m)
    ensures ClientEnabled(c, s, GetDoc(1))
    ensures ClientApply(c, s, GetDoc(1)).Shape() && Trapped(c, ClientApply(c, s, GetDoc(1)), Clogged(j))
  {
    assert s.client.Working? && m.GetDoc?;
  }

  /** The decoder has always more to write. */
  lemma WritesOn(c: Config, s: State, j: nat, m: ServerMove) returns (m': ServerMove)
    requires c.Fine() && Inv(c, s) && Blocked(c, Clogged(j)) && Trapped(c, s, Clogged(j))
    requires ServerEnabled(c, s, m) && m != GiveUp
    ensures ServerEnabled(c, s, m') && m' != GiveUp
    ensures ServerApply(c, s, m').Shape() && Trapped(c, ServerApply(c, s, m'), Clogged(j))
  {
    assert |s.doc.wire| < |c.doc|;
    assert !s.doc.hup;
    m' := if s.server == Coding(Idle) then WantWrite(1) else m;
  }

  lemma StayClogged(c: Config, s: State, j: nat, m: Move) returns (m': Move)
    requires c.Fine() && Inv(c, s) && Blocked(c, Clogged(j)) && Trapped(c, s, Clogged(j))
    requires Enabled(c, s, m) && m != ByServer(GiveUp)
    ensures Enabled(c, s, m') && m' != ByServer(GiveUp)
    ensures Apply(c, s, m').Shape() && Trapped(c, Apply(c, s, m'), Clogged(j))
  {
    match m
    case ByServer(sm) =>
      var sm' := WritesOn(c, s, j, sm);
      m' := ByServer(sm');
    case ByClient(cm) =>
      if cm.Omit? || cm.NextPhase? || cm.PutFile? || cm.CloseFile? || cm.BreakFile? {
        UploadStaysBusy(c, s, j, cm);
        m' := m;
      } else {
        CopyFrugally(c, s, j, cm);
        m' := ByClient(GetDoc(1));
      }
    case Open(step) =>
      var step' := OpenFrugally(c, s, j, step);
      m' := Open(step');
  }

  lemma TrapStep(c: Config, s: State, why: Cause, m: Move) returns (m': Move)
    requires c.Fine() && Framed(c.frames) && Inv(c, s) && Blocked(c, why) && Trapped(c, s, why)
    requires Enabled(c, s, m) && m != ByServer(GiveUp)
    ensures Enabled(c, s, m') && Inv(c, Apply(c, s, m')) && Trapped(c, Apply(c, s, m'), why)
    ensures 0 <= Measure(c, Apply(c, s, m')) < Measure(c, s)
  {
    m' := StayTrapped(c, s, why, m);
    Keep(c, s, m');
    Falls(c, s, m');
    MeasureNonNegative(c, Apply(c, s, m'));
  }

  lemma TrapIsStuck(c: Config, s: State, why: Cause)
    requires c.Sized() && s.Shape() && Blocked(c, why) && Trapped(c, s, why)
    requires forall m :: Enabled(c, s, m) ==> m == ByServer(GiveUp)
    ensures Stuck(c, s)
  {
  }

  lemma Prepend(c: Config, s: State, m: Move, rest: seq<Move>)
    requires c.Sized() && s.Shape() && Enabled(c, s, m) && Legal(c, Apply(c, s, m), rest)
    ensures Legal(c, s, [m] + rest) && After(c, s, [m] + rest) == After(c, Apply(c, s, m), rest)
  {
    assert ([m] + rest)[1..] == rest;
  }

  /** A trap ends in a stuck state. */
  lemma {:induction false} TrapCloses(c: Config, s: State, why: Cause) returns (run: seq<Move>)
    requires c.Fine() && Framed(c.frames) && Inv(c, s) && Blocked(c, why) && Trapped(c, s, why)
    ensures Legal(c, s, run) && Stuck(c, After(c, s, run))
    decreases Measure(c, s)
  {
    if m :| Enabled(c, s, m) && m != ByServer(GiveUp) {
      var m' := TrapStep(c, s, why, m);
      var rest := TrapCloses(c, Apply(c, s, m'), why);
      Prepend(c, s, m', rest);
      run := [m'] + rest;
    } else {
      TrapIsStuck(c, s, why);
      run := [];
    }
  }

  /** For any file contents, any order of the decoder's reads and writes and any interleaving,
      a merge session cannot get stuck exactly when a port's channel holds the token, every
      file to be sent can be read, if any parity is sent a channel also holds each core file
      that is sent, and if the output fails too far from the document's end it holds every file
      that is sent. */
  lemma MergeLiveness(c: Config)
    requires c.Fine() && Framed(c.frames)
    ensures NeverStuck(c) <==> Roomy(c)
  {
    if Roomy(c) {
      forall run | Legal(c, Start(), run) ensures !Stuck(c, After(c, Start(), run)) {
        InvStart(c);
        RunKeeps(c, Start(), run);
        var s := After(c, Start(), run);
        if !Final(s) {
          var m := Progress(c, s);
        }
      }
    } else {
      var why := FindCause(c);
      InvStart(c);
      var run := TrapCloses(c, Start(), why);
    }
  }

  lemma FindCause(c: Config) returns (why: Cause)
    requires c.Fine() && !Roomy(c)
    ensures Blocked(c, why) && Trapped(c, Start(), why)
  {
    if |c.net.token| > c.net.cap {
      why := LongToken;
    } else if k :| 0 <= k < PORTS && c.send[k] && !c.Readable(k) {
      why := BadFile(k);
    } else if j :| 1 <= j <= 4 && (c.send[5] || c.send[6]) && c.send[j] && |c.files[j]| > c.net.cap {
      why := Starved(if c.send[5] then 5 else 6, j);
    } else {
      var j :| 0 <= j < PORTS && c.send[j] && |c.files[j]| > c.net.cap;
      why := Clogged(j);
    }
  }

  // ---- no partial success ----

  predicate Over(client: Client) { client.Returned? || client.Gone? }

  /** A client that returned a trailer has the server's, whole, the decoder succeeded, and the
      client's output is exactly what the server wrote as document; a client that is through
      after a successful decode has returned the trailer, unless its output refused a byte. */
  predicate WholeOrNothing(c: Config, s: State, body: seq<Byte>) {
    && (Over(s.client) && s.client.res.Trailer? ==>
          s.client.res.body == body && s.verdict.Good? && s.out == s.doc.wire == c.doc)
    && (Over(s.client) && s.verdict.Good? && |body| <= MAX_TRAILER ==>
          s.client.res == if s.copying.Snagged? then Failed else Trailer(body))
    && (s.copying.Snagged? ==> c.Snags(|c.doc|))
  }

  lemma ResultIsWhole(c: Config, s: State, body: seq<Byte>)
    requires c.Fine() && Inv(c, s)
    requires c.frames.parse(c.frames.trailer) == if |body| <= MAX_TRAILER then Body(body) else Malformed
    ensures WholeOrNothing(c, s, body)
  {
    if s.verdict.Good? && !s.Lost() {
      forall j | 0 <= j < PORTS ensures !s.jobs[j].Broken? {
        assert LaneOk(c, s, j);
      }
    }
  }

  /** Holds after every run, so if the decoder fails the client never returns a trailer. */
  lemma NoPartialSuccess(c: Config, run: seq<Move>, body: seq<Byte>, msg: string)
    requires c.Fine() && c.frames.Says(body, msg) && Legal(c, Start(), run)
    ensures WholeOrNothing(c, After(c, Start(), run), body)
  {
    SaysMeansFramed(c.frames, body, msg);
    InvStart(c);
    RunKeeps(c, Start(), run);
    ResultIsWhole(c, After(c, Start(), run), body);
  }

  // ---- control reader thrown away ----

  /** In every run: until the client has its invitation the server has written nothing else,
      and what the client's second control reader hears starts right after it. The reader
      dropped on the document port holds no document bytes either. */
  lemma NothingThrownAway(c: Config, run: seq<Move>)
    requires c.Fine() && Framed(c.frames) && Legal(c, Start(), run)
    ensures var l := After(c, Start(), run).link;
            && (l.caller.Inviting? ==> l.ctl.wire <= c.net.invite)
            && (!l.caller.Inviting? ==> c.net.invite <= l.ctl.wire && l.ctl.taken == |c.net.invite|)
            && |l.lanes| == PORTS && l.lanes[0].wire <= c.net.token
  {
    InvStart(c);
    RunKeeps(c, Start(), run);
    assert LaneOk(c, After(c, Start(), run), 0);
  }

  // ---- the final frame ----

  /** A server that is done has sent its one frame whole behind the invitation, the trailer after
      a successful decode and the error after a failed one, unless the client was gone. */
  ghost predicate FrameSent(c: Config, s: State) {
    s.server.Done? && !s.client.Gone? ==>
      && s.link.ctl.fin
      && s.link.ctl.wire == c.net.invite + if s.verdict.Good? then c.frames.trailer else c.frames.complaint
  }

  lemma ControlIsWhole(c: Config, s: State)
    requires c.Fine() && Inv(c, s)
    ensures FrameSent(c, s)
  {
  }

  lemma FinalFrameSent(c: Config, run: seq<Move>)
    requires c.Fine() && Framed(c.frames) && Legal(c, Start(), run)
    ensures FrameSent(c, After(c, Start(), run))
  {
    InvStart(c);
    RunKeeps(c, Start(), run);
    ControlIsWhole(c, After(c, Start(), run));
  }

  // ---- upload phases ----

  /** An omitted stream carries only the token, and is closed with it once the cores start; a
      stream reported as uploaded is closed and carries token and file; a parity byte means
      every core sent is closed and complete; and with a failed core no parity byte is written. */
  ghost predicate InPhases(c: Config, s: State, k: nat)
    requires c.Sized() && s.Shape() && k < PORTS
  {
    var p := s.link.lanes[k];
    && (!c.send[k] ==> p.wire <= c.net.token)
    && (!c.send[k] && k > 0 && !s.upload.Omitting? ==> p.fin && p.wire == c.net.token)
    && (s.jobs[k].Sent? ==> p.fin && p.wire == c.net.token + c.files[k])
    && (5 <= k && |p.wire| > |c.net.token| ==> forall j: nat :: IsCorePort(j) && c.send[j] ==> s.jobs[j].Sent?)
    && (5 <= k && AnyCore(s.jobs, Broken) ==> p.wire <= c.net.token)
  }

  lemma StreamInPhases(c: Config, s: State, k: nat)
    requires c.Fine() && Inv(c, s) && k < PORTS
    ensures InPhases(c, s, k)
  {
    assert LaneOk(c, s, k);
    assert LaneInv(c.net, s.link.caller, s.link.host, s.link.dialed, k, s.link.lanes[k]);
    forall j: nat | IsCorePort(j) ensures LaneOk(c, s, j) {
    }
  }

  /** In every run every stream keeps to the phases, whichever goroutines run when. */
  lemma UploadPhases(c: Config, run: seq<Move>, k: nat)
    requires c.Fine() && Framed(c.frames) && Legal(c, Start(), run) && k < PORTS
    ensures After(c, Start(), run).Shape() && InPhases(c, After(c, Start(), run), k)
  {
    InvStart(c);
    RunKeeps(c, Start(), run);
    StreamInPhases(c, After(c, Start(), run), k);
  }

  // ---- both sides planned from the same mask ----

  /** The particle ports in the order of the invitation line. */
  function PortKind(k: nat): P.Kind
    requires 1 <= k < PORTS
    ensures IsCorePort(k) <==> P.IsCore(PortKind(k))
  {
    P.ALL_KINDS[k - 1]
  }

  function Ports(kinds: set<P.Kind>): (r: seq<bool>)
    ensures |r| == PORTS && !r[0] && forall k :: 1 <= k < PORTS ==> (r[k] <==> PortKind(k) in kinds)
  {
    seq(PORTS, k requires 0 <= k < PORTS => k > 0 && PortKind(k) in kinds)
  }

  /** The session that results when the client plans from what it has and the mask, and the
      server from the mask alone. */
  ghost predicate Planned(c: Config, present: set<P.Kind>, mask: Mask) {
    && c.net.Fine() && c.net.firstChecked == 0 && |c.files| == |c.local.faults| == PORTS
    && c.frames.NonEmpty()
    && Plan.Mergeable(present, P.Missing(mask))
    && c.send == Ports(Plan.SendSet(present, P.Missing(mask)))
    && c.open == Ports(Plan.OpenSet(mask))
  }

  /** A successful client plan always fits the server's, as the session model demands. */
  lemma PlannedIsFine(c: Config, present: set<P.Kind>, mask: Mask)
    requires Planned(c, present, mask)
    ensures c.Fine()
    ensures c.send == c.open <==> Plan.ParityCovers(present, P.Missing(mask))
  {
    Plan.PlansAgree(present, mask);
    var client, server := Plan.SendSet(present, P.Missing(mask)), Plan.OpenSet(mask);
    forall k | 1 <= k < PORTS && IsCorePort(k) ensures PortKind(k) in client <==> PortKind(k) in server {
      assert PortKind(k) in {P.EC, P.OC, P.EN, P.ON};
    }
    if c.send == c.open {
      forall kind ensures kind in client <==> kind in server {
        var k := KindPort(kind);
        assert c.send[k] == c.open[k];
      }
      assert client == server;
    }
  }

  function KindPort(kind: P.Kind): (k: nat)
    ensures 1 <= k < PORTS && PortKind(k) == kind
  {
    match kind case EC => 1 case OC => 2 case EN => 3 case ON => 4 case CP => 5 case NP => 6
  }

  /** With mask 0 no parity is sent, so channels that hold the token are enough for files of any
      size, as long as the output takes the document. */
  lemma FullMergeLiveness(c: Config, present: set<P.Kind>)
    requires Planned(c, present, 0) && Framed(c.frames)
    ensures NeverStuck(c) <==>
              && |c.net.token| <= c.net.cap
              && (forall k :: 1 <= k <= 4 ==> c.Readable(k))
              && (Jams(c) ==> forall k :: 1 <= k <= 4 ==> |c.files[k]| <= c.net.cap)
  {
    PlannedIsFine(c, present, 0);
    P.NoBits();
    assert {P.EC, P.OC} * P.Missing(0) == {} && {P.EN, P.ON} * P.Missing(0) == {};
    forall k | 1 <= k < PORTS ensures c.send[k] <==> k <= 4 {
      assert PortKind(k) in {P.EC, P.OC, P.EN, P.ON} <==> k <= 4;
    }
    assert !c.send[0] && !c.send[5] && !c.send[6];
    assert (forall k :: 0 <= k < PORTS && c.send[k] ==> c.Readable(k)) <==> (forall k :: 1 <= k <= 4 ==> c.Readable(k));
    MergeLiveness(c);
  }

  /** What the footer reader must yield on port k: payload and footer of the file sent there; a
      file shorter than a footer, or no file at all, is refused as too short. */
  function FileOutcome(c: Config, k: nat): Result<Particle, Readers.Failure>
    requires c.Sized() && k < PORTS
  {
    var sent := if c.send[k] then c.files[k] else [];
    if |sent| >= FOOTER_SIZE then Ok(Particle(Payload(sent), Footer(sent))) else Err(Readers.Short(|sent|))
  }

  lemma WireHasFile(c: Config, k: nat)
    requires c.Sized() && k < PORTS
    ensures OnWire(c.Full(k), Readers.Eof, c.net.token) == FileOutcome(c, k)
  {
    var sent := if c.send[k] then c.files[k] else [];
    assert c.Full(k) == c.net.token + sent && c.Full(k)[|c.net.token|..] == sent;
    if |sent| >= FOOTER_SIZE {
      WireRoundTrip(c.Full(k), c.net.token, sent, Readers.Eof);
    }
  }

  /** A port whose end the decoder has seen is one it opened, and carried the token and the
      whole file to be sent there. */
  ghost predicate SeenWhole(c: Config, s: State, k: nat)
    requires c.Sized() && s.Shape() && k < PORTS
  {
    s.eofs[k] ==> c.open[k] && (!s.Lost() ==> s.link.lanes[k].wire == c.Full(k) && (c.send[k] ==> c.Readable(k)))
  }

  lemma EndMeansWhole(c: Config, s: State, k: nat)
    requires c.Fine() && Inv(c, s) && k < PORTS
    ensures SeenWhole(c, s, k) && (s.Lost() ==> c.Snags(|c.doc|))
  {
    assert LaneOk(c, s, k);
  }

  /** In every run, whatever the files contain: when the decoder has seen the end of a port, the
      footer reader on it yields exactly what the client's file calls for, unless the client left
      because both its output and an upload had failed. Nothing was sent only if the client
      lacks a parity. */
  lemma DecoderSeesFiles(c: Config, run: seq<Move>, present: set<P.Kind>, mask: Mask, k: nat)
    requires Planned(c, present, mask) && Framed(c.frames) && Legal(c, Start(), run) && k < PORTS
    ensures var s := After(c, Start(), run);
            && s.Shape() && SeenWhole(c, s, k) && (s.Lost() ==> c.Snags(|c.doc|))
            && (s.eofs[k] && !s.Lost() ==> OnWire(s.link.lanes[k].wire, Readers.Eof, c.net.token) == FileOutcome(c, k))
            && (Plan.ParityCovers(present, P.Missing(mask)) && s.eofs[k] ==> c.send[k])
  {
    PlannedIsFine(c, present, mask);
    InvStart(c);
    RunKeeps(c, Start(), run);
    EndMeansWhole(c, After(c, Start(), run), k);
    WireHasFile(c, k);
  }
}
