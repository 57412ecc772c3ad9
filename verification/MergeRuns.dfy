/**
  What every run of a merge session has in common: it ends, and, exactly when the channels
  are large enough for what is sent, it never gets stuck before both sides have closed.
*/
module MergeRuns {
  import opened Prelude
  import opened ControlText
  import opened Channels
  import opened FinalFrames
  import opened Opening
  import opened MergeSession

  // ---- every run ends ----

  function JobRank(j: Job): int {
    match j case Waiting => 2 case Sending => 1 case Sent => 0 case Broken => 0
  }

  /** Work left on port i. */
  function Weight(c: Config, s: State, i: nat): int
    requires c.Sized() && s.Shape() && i < PORTS
  {
    PipeWeight(|c.Full(i)|, s.link.lanes[i]) + JobRank(s.jobs[i]) + if s.eofs[i] then 0 else 2
  }

  function Weights(c: Config, s: State): (w: seq<int>)
    requires c.Sized() && s.Shape()
    ensures |w| == PORTS && forall i :: 0 <= i < PORTS ==> w[i] == Weight(c, s, i)
  {
    seq(PORTS, i requires 0 <= i < PORTS => Weight(c, s, i))
  }

  function ControlBytes(c: Config): int {
    |c.net.invite| + |c.frames.trailer| + |c.frames.complaint|
  }

  function UploadRank(u: Upload): int {
    match u case Omitting(i) => 20 - i case Cores => 3 case Parities => 2 case Uploaded(_) => 0
  }

  function ClientRank(c: Client): int {
    match c case Working => 3 case Reading => 2 case Returned(_) => 1 case Gone(_) => 0
  }

  function ServerRank(s: Server): int {
    match s
    case Coding(want) => if want.Idle? then 7 else 6
    case HalfClosing => 5
    case Replying => 4
    case Closing => 3
    case Complaining => 2
    case HangingUp => 1
    case Done => 0
  }

  /** Steps left that move no data. */
  function Ranks(s: State): int {
    LinkRank(s.link) + UploadRank(s.upload) + (if s.copying.Copying? then 1 else 0)
    + ClientRank(s.client) + ServerRank(s.server)
  }

  /** Bytes left on the document port and the control channel. */
  function Bytes(c: Config, s: State): int {
    2 * (|c.doc| - |s.doc.wire|) + (|c.doc| - s.doc.read)
    + (ControlBytes(c) - |s.link.ctl.wire|) + (ControlBytes(c) - s.link.ctl.read)
  }

  function Rest(c: Config, s: State): int {
    Bytes(c, s) + Ranks(s)
  }

  function Measure(c: Config, s: State): int
    requires c.Sized() && s.Shape()
  {
    Total(Weights(c, s)) + Rest(c, s)
  }

  lemma MeasureNonNegative(c: Config, s: State)
    requires c.Fine() && Inv(c, s)
    ensures Measure(c, s) >= 0
  {
    forall i | 0 <= i < PORTS ensures Weights(c, s)[i] >= 0 {
      assert LaneOk(c, s, i);
      assert LaneInv(c.net, s.link.caller, s.link.host, s.link.dialed, i, s.link.lanes[i]);
    }
    TotalNonNegative(Weights(c, s));
  }

  /** Work falls on port k, or elsewhere in exchange, and no other port changes. */
  ghost predicate LaneFalls(c: Config, s: State, s': State, k: nat)
    requires c.Sized() && s.Shape() && s'.Shape() && k < PORTS
  {
    && (forall i :: 0 <= i < PORTS && i != k ==>
          s'.link.lanes[i] == s.link.lanes[i] && s'.jobs[i] == s.jobs[i] && s'.eofs[i] == s.eofs[i])
    && Weight(c, s', k) + Rest(c, s') < Weight(c, s, k) + Rest(c, s)
  }

  /** Work falls apart from the ports, and rises on none of them. */
  ghost predicate RestFalls(c: Config, s: State, s': State)
    requires c.Sized() && s.Shape() && s'.Shape()
  {
    && Rest(c, s') < Rest(c, s)
    && (forall i :: 0 <= i < PORTS ==> Weight(c, s', i) <= Weight(c, s, i))
  }

  lemma FallsSomewhere(c: Config, s: State, s': State, k: nat)
    requires c.Sized() && s.Shape() && s'.Shape() && k < PORTS
    requires LaneFalls(c, s, s', k) || RestFalls(c, s, s')
    ensures Measure(c, s') < Measure(c, s)
  {
    if LaneFalls(c, s, s', k) {
      TotalChange(Weights(c, s), Weights(c, s'), k);
    } else {
      TotalBelow(Weights(c, s), Weights(c, s'));
    }
  }

  lemma OpenFalls(c: Config, s: State, m: LinkMove)
    requires c.Sized() && s.Shape() && LinkEnabled(c.net, s.link, m) && Apply(c, s, Open(m)).Shape()
    requires m.PutInvite? || m.GetInvite? || m.Hear? || m.Dial? || m.Accept?
    requires c.net.firstChecked <= 1
    ensures RestFalls(c, s, Apply(c, s, Open(m)))
  {
  }

  lemma TokenFalls(c: Config, s: State, m: LinkMove)
    requires c.Sized() && s.Shape() && LinkEnabled(c.net, s.link, m) && Apply(c, s, Open(m)).Shape()
    requires m.PutToken? || m.FillToken? || (m.CheckToken? && !Apply(c, s, Open(m)).link.host.Refused?)
    ensures LaneFalls(c, s, Apply(c, s, Open(m)), if m.PutToken? then s.link.dialed - 1 else s.link.host.port)
  {
  }

  lemma FileFalls(c: Config, s: State, m: ClientMove)
    requires c.Sized() && s.Shape() && ClientEnabled(c, s, m) && ClientApply(c, s, m).Shape()
    requires m.PutFile? || m.CloseFile? || m.BreakFile?
    ensures LaneFalls(c, s, ClientApply(c, s, m), m.k)
  {
  }

  lemma PhaseFalls(c: Config, s: State, m: ClientMove)
    requires c.Sized() && s.Shape() && ClientEnabled(c, s, m) && ClientApply(c, s, m).Shape()
    requires m.Omit? || m.NextPhase?
    ensures Rest(c, ClientApply(c, s, m)) < Rest(c, s)
  {
  }

  lemma PhaseWeight(c: Config, s: State, m: ClientMove, i: nat)
    requires c.Sized() && s.Shape() && ClientEnabled(c, s, m) && ClientApply(c, s, m).Shape()
    requires (m.Omit? || m.NextPhase?) && i < PORTS && LaneOk(c, s, i)
    ensures Weight(c, ClientApply(c, s, m), i) <= Weight(c, s, i)
  {
  }

  lemma ClientFalls(c: Config, s: State, m: ClientMove)
    requires c.Sized() && s.Shape() && ClientEnabled(c, s, m) && ClientApply(c, s, m).Shape()
    requires m.GetDoc? || m.EndDoc? || m.Join? || m.GetReply? || m.Conclude? || m.Leave?
    ensures RestFalls(c, s, ClientApply(c, s, m))
  {
  }

  lemma ReadFalls(c: Config, s: State, m: ServerMove)
    requires c.Sized() && s.Shape() && ServerEnabled(c, s, m) && ServerApply(c, s, m).Shape()
    requires m.Fill? || m.Take? || m.SeeEof?
    requires !s.eofs[s.server.want.port]
    ensures LaneFalls(c, s, ServerApply(c, s, m), s.server.want.port)
  {
  }

  lemma ServerFalls(c: Config, s: State, m: ServerMove)
    requires c.Sized() && s.Shape() && ServerEnabled(c, s, m) && ServerApply(c, s, m).Shape()
    requires !(m.Fill? || m.Take? || m.SeeEof?)
    ensures RestFalls(c, s, ServerApply(c, s, m))
  {
  }

  lemma ClientMoveFalls(c: Config, s: State, m: ClientMove) returns (k: nat)
    requires c.Sized() && s.Shape() && ClientEnabled(c, s, m) && ClientApply(c, s, m).Shape()
    requires forall i :: 0 <= i < PORTS ==> LaneOk(c, s, i)
    ensures k < PORTS
    ensures LaneFalls(c, s, ClientApply(c, s, m), k) || RestFalls(c, s, ClientApply(c, s, m))
  {
    k := 0;
    if m.PutFile? || m.CloseFile? || m.BreakFile? {
      FileFalls(c, s, m);
      k := m.k;
    } else if m.Omit? || m.NextPhase? {
      PhaseFalls(c, s, m);
      forall i | 0 <= i < PORTS ensures Weight(c, ClientApply(c, s, m), i) <= Weight(c, s, i) {
        PhaseWeight(c, s, m, i);
      }
    } else {
      ClientFalls(c, s, m);
    }
  }

  lemma Falls(c: Config, s: State, m: Move)
    requires c.Fine() && Inv(c, s) && Enabled(c, s, m) && Apply(c, s, m).Shape()
    ensures Measure(c, Apply(c, s, m)) < Measure(c, s)
  {
    var k := 0;
    match m {
      case Open(step) =>
        if step.PutToken? || step.FillToken? || step.CheckToken? {
          if step.CheckToken? {
            TokenMatches(c.net, s.link);
          }
          TokenFalls(c, s, step);
          k := if step.PutToken? then s.link.dialed - 1 else s.link.host.port;
        } else {
          OpenFalls(c, s, step);
        }
      case ByClient(cm) => k := ClientMoveFalls(c, s, cm);
      case ByServer(sm) =>
        if sm.Fill? || sm.Take? || sm.SeeEof? {
          ReadFalls(c, s, sm);
          k := s.server.want.port;
        } else {
          ServerFalls(c, s, sm);
        }
    }
    FallsSomewhere(c, s, Apply(c, s, m), k);
  }

  /** A run keeps the invariant and spends at least one unit of measure per move. */
  lemma {:induction false} RunKeeps(c: Config, s: State, run: seq<Move>)
    requires c.Fine() && Framed(c.frames) && Inv(c, s) && Legal(c, s, run)
    ensures Inv(c, After(c, s, run))
    ensures Measure(c, After(c, s, run)) + |run| <= Measure(c, s)
    decreases |run|
  {
    if run != [] {
      var m := run[0];
      Keep(c, s, m);
      Falls(c, s, m);
      RunKeeps(c, Apply(c, s, m), run[1..]);
    }
  }

  /** No run is longer than the work the session starts with, whatever the decoder does. */
  lemma RunsEnd(c: Config, run: seq<Move>)
    requires c.Fine() && Framed(c.frames) && Legal(c, Start(), run)
    ensures |run| <= Measure(c, Start())
  {
    InvStart(c);
    RunKeeps(c, Start(), run);
    MeasureNonNegative(c, After(c, Start(), run));
  }

  // ---- progress ----

  /** Nothing can move although somebody is not finished; a decoder giving up is no way out. */
  ghost predicate Stuck(c: Config, s: State)
    requires c.Sized()
  {
    s.Shape() && !Final(s) && forall m :: Enabled(c, s, m) ==> m == ByServer(GiveUp)
  }

  /** The output fails early enough that the rest of the document does not fit into the port's
      channel: the reader gives up after the first byte too many. */
  predicate Jams(c: Config) {
    c.local.sink.Some? && |c.doc| > c.local.sink.value + 1 + c.net.cap
  }

  /** A port's channel holds the token; every file to be sent can be read; once some parity is
      sent, which only happens after all cores are through, a channel also holds each core file
      the decoder may leave unread until then; and if the document gets stuck behind a failed
      output, a channel holds every file the decoder may then not come to. */
  predicate Roomy(c: Config)
    requires c.Sized()
  {
    && |c.net.token| <= c.net.cap
    && (forall k :: 0 <= k < PORTS && c.send[k] ==> c.Readable(k))
    && (c.send[5] || c.send[6] ==> forall k :: 1 <= k <= 4 && c.send[k] ==> |c.files[k]| <= c.net.cap)
    && (Jams(c) ==> forall k :: 0 <= k < PORTS && c.send[k] ==> |c.files[k]| <= c.net.cap)
  }

  /** An uploader that is running can always do something unless its channel is full. */
  lemma Uploading(c: Config, s: State, k: nat) returns (m: ClientMove)
    requires c.Fine() && Inv(c, s) && k < PORTS && s.jobs[k].Sending?
    requires c.Readable(k)
    requires var p := s.link.lanes[k]; p.hup || p.wire == c.Full(k) || |p.wire| < p.read + c.net.cap
    ensures ClientEnabled(c, s, m)
  {
    assert LaneOk(c, s, k);
    var p := s.link.lanes[k];
    if p.hup {
      m := BreakFile(k);
    } else if p.wire == c.Full(k) {
      m := CloseFile(k);
    } else {
      m := PutFile(k, 1);
    }
  }

  /** With every running uploader unblocked, an upload that is not over can go on. */
  lemma UploadProgress(c: Config, s: State) returns (m: ClientMove)
    requires c.Fine() && Inv(c, s) && Roomy(c) && s.link.caller.Linked? && !s.upload.Uploaded?
    requires forall k :: 0 <= k < PORTS && s.jobs[k].Sending? ==>
               var p := s.link.lanes[k]; p.hup || p.wire == c.Full(k) || |p.wire| < p.read + c.net.cap
    ensures ClientEnabled(c, s, m)
  {
    if s.upload.Omitting? {
      m := Omit;
    } else if k :| 0 <= k < PORTS && s.jobs[k].Sending? {
      assert LaneOk(c, s, k);
      m := Uploading(c, s, k);
    } else {
      m := NextPhase;
    }
  }

  /** The decoder waits for bytes on port k: the client can move. */
  lemma FeedDecoder(c: Config, s: State, k: nat) returns (m: ClientMove)
    requires c.Fine() && Inv(c, s) && Roomy(c) && s.link.Open() && s.server == Coding(Read(k))
    requires !s.link.lanes[k].fin && s.link.lanes[k].read == |s.link.lanes[k].wire|
    ensures ClientEnabled(c, s, m)
  {
    assert LaneOk(c, s, k);
    OverMeansClosed(c, s, k);
    if s.jobs[k].Sending? {
      m := Uploading(c, s, k);
    } else {
      forall j | 0 <= j < PORTS && s.jobs[j].Sending?
        ensures var p := s.link.lanes[j]; p.wire == c.Full(j) || |p.wire| < p.read + c.net.cap
      {
        assert LaneOk(c, s, j);
        assert LaneInv(c.net, s.link.caller, s.link.host, s.link.dialed, j, s.link.lanes[j]);
      }
      m := UploadProgress(c, s);
    }
  }

  /** If the upload is over while the decoder runs, every stream it may read is closed. */
  lemma OverMeansClosed(c: Config, s: State, k: nat)
    requires c.Fine() && Inv(c, s) && Roomy(c) && s.link.Open() && s.server.Coding?
    requires k < PORTS && c.open[k]
    ensures s.upload.Uploaded? ==> s.link.lanes[k].fin
  {
    assert LaneOk(c, s, k);
    forall j | 0 <= j < PORTS ensures !s.jobs[j].Broken? {
      assert LaneOk(c, s, j);
    }
  }

  /** Whether its output failed or the document is at its end, a client that no longer copies can
      move on, if its running uploaders can. */
  lemma CopyingOver(c: Config, s: State) returns (m: ClientMove)
    requires c.Fine() && Inv(c, s) && Roomy(c) && s.link.Open() && !s.copying.Copying?
    requires s.client.Working? || s.client.Returned?
    requires forall k :: 0 <= k < PORTS && s.jobs[k].Sending? ==>
               var p := s.link.lanes[k]; p.hup || p.wire == c.Full(k) || |p.wire| < p.read + c.net.cap
    ensures ClientEnabled(c, s, m)
  {
    if s.client.Returned? {
      m := Leave;
    } else if s.upload.Uploaded? {
      m := Join;
    } else {
      m := UploadProgress(c, s);
    }
  }

  /** The decoder waits for room on the document port and nobody reads there any more: every
      upload fits, so the client can finish it and leave. */
  lemma AroundTheJam(c: Config, s: State) returns (m: ClientMove)
    requires c.Fine() && Inv(c, s) && Roomy(c) && s.link.Open() && s.server.Coding? && s.server.want.Write?
    requires !s.doc.hup && |s.doc.wire| >= s.doc.read + c.net.cap && !s.copying.Copying?
    ensures ClientEnabled(c, s, m)
  {
    assert s.copying.Snagged?;
    assert Jams(c);
    forall k | 0 <= k < PORTS && s.jobs[k].Sending?
      ensures var p := s.link.lanes[k]; p.wire == c.Full(k) || |p.wire| < p.read + c.net.cap
    {
      assert LaneOk(c, s, k);
      assert LaneInv(c.net, s.link.caller, s.link.host, s.link.dialed, k, s.link.lanes[k]);
    }
    m := CopyingOver(c, s);
  }

  /** Once the server has closed the document, the client can always move on until it has
      read the control channel empty. */
  lemma ClientProgress(c: Config, s: State) returns (m: ClientMove)
    requires c.Fine() && Inv(c, s) && Roomy(c) && s.link.Open() && s.doc.fin && !s.client.Gone?
    requires s.client.Reading? ==> s.link.ctl.read < |s.link.ctl.wire| || s.link.ctl.fin
    ensures ClientEnabled(c, s, m)
  {
    if s.client.Reading? {
      m := if c.frames.parse(s.link.Heard()) != Incomplete || s.link.ctl.Ended() then Conclude else GetReply(1);
    } else if s.copying.Copying? {
      m := if s.doc.read < |s.doc.wire| then GetDoc(1) else EndDoc;
    } else {
      forall k | 0 <= k < PORTS && s.jobs[k].Sending? ensures s.link.lanes[k].hup {
        assert LaneOk(c, s, k);
      }
      m := CopyingOver(c, s);
    }
  }

  lemma DecoderProgress(c: Config, s: State) returns (m: Move)
    requires c.Fine() && Inv(c, s) && Roomy(c) && s.link.Open() && s.server.Coding?
    ensures Enabled(c, s, m) && m != ByServer(GiveUp)
  {
    match s.server.want
    case Idle =>
      if k :| 0 <= k < PORTS && c.open[k] && !s.eofs[k] {
        m := ByServer(WantRead(k));
      } else {
        m := ByServer(if |s.doc.wire| < |c.doc| then WantWrite(1) else Decoded);
      }
    case Write(left) =>
      if s.doc.hup {
        m := ByServer(LoseDoc);
      } else if |s.doc.wire| < s.doc.read + c.net.cap {
        m := ByServer(PutDoc(1));
      } else if s.copying.Copying? {
        m := ByClient(GetDoc(1));
      } else {
        var cm := AroundTheJam(c, s);
        m := ByClient(cm);
      }
    case Read(k) =>
      var p := s.link.lanes[k];
      assert LaneInv(c.net, s.link.caller, s.link.host, s.link.dialed, k, p);
      if p.taken < p.read {
        m := ByServer(Take(1));
      } else if p.read < |p.wire| {
        m := ByServer(Fill(1));
      } else if p.fin {
        m := ByServer(SeeEof);
      } else {
        var cm := FeedDecoder(c, s, k);
        m := ByClient(cm);
      }
  }

  /** In a roomy session somebody can always move, without the decoder giving up. */
  lemma Progress(c: Config, s: State) returns (m: Move)
    requires c.Fine() && Inv(c, s) && Roomy(c) && !Final(s)
    ensures Enabled(c, s, m) && m != ByServer(GiveUp)
  {
    if !s.link.Open() {
      var step := LinkProgress(c.net, s.link);
      return Open(step);
    }
    var ctl := s.link.ctl;
    match s.server
    case Coding(_) => m := DecoderProgress(c, s);
    case HalfClosing => m := ByServer(HalfClose);
    case Replying =>
      if ctl.hup {
        m := ByServer(LoseReply);
      } else if |ctl.wire| < ctl.read + c.net.ctlCap {
        m := ByServer(PutReply(1));
      } else {
        var cm := ClientProgress(c, s);
        m := ByClient(cm);
      }
    case Closing => m := ByServer(ClosePorts);
    case Complaining =>
      if ctl.hup {
        m := ByServer(LoseError);
      } else if |ctl.wire| < ctl.read + c.net.ctlCap {
        m := ByServer(PutError(1));
      } else {
        var cm := ClientProgress(c, s);
        m := ByClient(cm);
      }
    case HangingUp => m := ByServer(HangUp);
    case Done =>
      var cm := ClientProgress(c, s);
      m := ByClient(cm);
  }
}
