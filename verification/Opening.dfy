/**
  How a session is opened: the server sends one invitation line, the client dials seven
  ports and writes the token on each, the server accepts all seven and then checks the
  tokens one port after the other. Both session modes start this way.
*/
module Opening {
  import opened Prelude
  import opened ControlText
  import opened Channels

  const PORTS := 7

  /** What a session is run over. `firstChecked` is the first port whose token is checked by
      the accept step: the document port in a merge, the port after it in a split. */
  datatype Net = Net(token: seq<Byte>, invite: seq<Byte>, cap: nat, ctlCap: nat, firstChecked: nat) {
    ghost predicate Fine() {
      token != [] && IsLine(invite) && cap > 0 && ctlCap > 0 && firstChecked <= 1
    }
  }

  datatype Caller = Inviting | Dialing | Linked
  datatype Host = Greeting | Accepting | Checking(port: nat) | Ready | Refused

  /** The control channel towards the client and the seven data channels towards the server. */
  datatype Link = Link(ctl: Pipe, lanes: seq<Pipe>, dialed: nat, caller: Caller, host: Host) {
    /** Bytes the client's current control reader holds. */
    function Heard(): seq<Byte>
      requires ctl.taken <= ctl.read <= |ctl.wire|
    {
      ctl.wire[ctl.taken..ctl.read]
    }

    predicate Open() { caller.Linked? && host.Ready? }
  }

  function ClosedLink(): Link {
    Link(FRESH, seq(PORTS, i => FRESH), 0, Inviting, Greeting)
  }

  datatype LinkMove =
    | PutInvite(n: nat)   // server writes part of the invitation line
    | GetInvite(n: nat)   // client's buffered reader pulls whatever has arrived
    | Hear                // the line is complete; the client drops that reader
    | Dial                // client connects to the next port
    | PutToken(n: nat)    // client writes part of the token on the port just dialed
    | Accept              // all seven connections are there
    | FillToken(n: nat)   // server's buffered reader pulls bytes of the port being checked
    | CheckToken          // server compares one byte

  predicate LinkEnabled(net: Net, l: Link, m: LinkMove)
    requires |l.lanes| == PORTS && l.dialed <= PORTS && l.ctl.taken <= l.ctl.read <= |l.ctl.wire|
  {
    match m
    case PutInvite(n) => l.host.Greeting? && l.ctl.Fits(n, net.ctlCap) && |l.ctl.wire| + n <= |net.invite|
    case GetInvite(n) => l.caller.Inviting? && '\n' !in l.Heard() && l.ctl.Available(n)
    case Hear => l.caller.Inviting? && '\n' in l.Heard()
    case Dial => l.caller.Dialing? && l.dialed < PORTS
                 && (l.dialed > 0 ==> |l.lanes[l.dialed - 1].wire| >= |net.token|)
    case PutToken(n) => l.caller.Dialing? && l.dialed > 0
                        && l.lanes[l.dialed - 1].Fits(n, net.cap)
                        && |l.lanes[l.dialed - 1].wire| + n <= |net.token|
    case Accept => l.host.Accepting? && l.dialed == PORTS
    case FillToken(n) => l.host.Checking? && l.host.port < PORTS
                         && l.lanes[l.host.port].taken == l.lanes[l.host.port].read
                         && l.lanes[l.host.port].Available(n)
    case CheckToken => l.host.Checking? && l.host.port < PORTS
                       && l.lanes[l.host.port].taken < l.lanes[l.host.port].read <= |l.lanes[l.host.port].wire|
                       && l.lanes[l.host.port].taken < |net.token|
  }

  function LinkApply(net: Net, l: Link, m: LinkMove): Link
    requires |l.lanes| == PORTS && l.dialed <= PORTS && l.ctl.taken <= l.ctl.read <= |l.ctl.wire|
    requires LinkEnabled(net, l, m)
  {
    match m
    case PutInvite(n) =>
      var c := l.ctl.Put(Next(net.invite, l.ctl.wire, n));
      l.(ctl := c, host := if |c.wire| == |net.invite| then Accepting else Greeting)
    case GetInvite(n) => l.(ctl := l.ctl.Fill(n))
    case Hear => l.(ctl := l.ctl.(taken := l.ctl.read), caller := Dialing)
    case Dial => l.(dialed := l.dialed + 1)
    case PutToken(n) =>
      var k := l.dialed - 1;
      var p := l.lanes[k].Put(Next(net.token, l.lanes[k].wire, n));
      l.(lanes := l.lanes[k := p],
         caller := if l.dialed == PORTS && |p.wire| == |net.token| then Linked else Dialing)
    case Accept => l.(host := Checking(net.firstChecked))
    case FillToken(n) => l.(lanes := l.lanes[l.host.port := l.lanes[l.host.port].Fill(n)])
    case CheckToken =>
      var k := l.host.port;
      var p := l.lanes[k];
      if p.wire[p.taken] != net.token[p.taken] then l.(host := Refused)
      else
        l.(lanes := l.lanes[k := p.Take(1)],
           host := if p.taken + 1 < |net.token| then Checking(k)
                   else if k + 1 < PORTS then Checking(k + 1) else Ready)
  }

  // ---- invariant ----

  ghost predicate Checked(net: Net, host: Host, i: nat) {
    i >= net.firstChecked && (host.Ready? || (host.Checking? && i < host.port))
  }

  ghost predicate Untouched(net: Net, host: Host, i: nat) {
    host.Greeting? || host.Accepting? || (host.Checking? && (i > host.port || i < net.firstChecked))
  }

  ghost predicate LaneInv(net: Net, caller: Caller, host: Host, dialed: nat, i: nat, p: Pipe) {
    && p.Sound(net.cap)
    && (i >= dialed ==> p == FRESH)
    && (i + 1 < dialed || caller.Linked? ==> net.token <= p.wire)
    && (!caller.Linked? ==> p.wire <= net.token && !p.fin && !p.hup)
    && (Checked(net, host, i) ==> |net.token| <= p.taken)
    && (Untouched(net, host, i) ==> p.read == 0)
    && (host == Checking(i) ==> p.taken < |net.token|)
  }

  ghost predicate LinkInv(net: Net, l: Link) {
    && |l.lanes| == PORTS && l.dialed <= PORTS
    && l.ctl.Sound(net.ctlCap)
    && (if l.caller.Inviting? then l.dialed == 0 && l.ctl.taken == 0 && l.ctl.wire <= net.invite
        else net.invite <= l.ctl.wire && l.ctl.taken == |net.invite|)
    && (if l.host.Greeting? then l.ctl.wire < net.invite && l.caller.Inviting? else net.invite <= l.ctl.wire)
    && (!l.host.Ready? ==> !l.ctl.fin && !l.ctl.hup && l.ctl.wire <= net.invite)
    && (l.caller.Dialing? ==> l.ctl.read == |net.invite|)
    && (l.host.Checking? ==> net.firstChecked <= l.host.port < PORTS)
    && (l.host.Checking? || l.host.Ready? || l.caller.Linked? ==> l.dialed == PORTS)
    && (l.caller.Dialing? && l.dialed == PORTS ==> |l.lanes[PORTS - 1].wire| < |net.token|)
    && !l.host.Refused?
    && (forall i :: 0 <= i < PORTS ==> LaneInv(net, l.caller, l.host, l.dialed, i, l.lanes[i]))
  }

  lemma LinkInvInit(net: Net)
    requires net.Fine()
    ensures LinkInv(net, ClosedLink())
  {
  }

  lemma LinkStep(net: Net, l: Link, m: LinkMove)
    requires net.Fine() && LinkInv(net, l) && LinkEnabled(net, l, m)
    ensures LinkInv(net, LinkApply(net, l, m))
  {
    match m
    case PutInvite(n) => PutNext(net.invite, l.ctl.wire, n);
    case GetInvite(n) =>
    case Hear => HeardWholeLine(net, l);
    case Dial =>
    case PutToken(n) => PutTokenStep(net, l, n);
    case Accept =>
    case FillToken(n) =>
    case CheckToken => CheckTokenStep(net, l);
  }

  lemma PutTokenStep(net: Net, l: Link, n: nat)
    requires net.Fine() && LinkInv(net, l) && LinkEnabled(net, l, PutToken(n))
    ensures LinkInv(net, LinkApply(net, l, PutToken(n)))
  {
    var l' := LinkApply(net, l, PutToken(n));
    PutNext(net.token, l.lanes[l.dialed - 1].wire, n);
    forall i | 0 <= i < PORTS ensures LaneInv(net, l'.caller, l'.host, l'.dialed, i, l'.lanes[i]) {
      assert LaneInv(net, l.caller, l.host, l.dialed, i, l.lanes[i]);
    }
  }

  lemma CheckTokenStep(net: Net, l: Link)
    requires net.Fine() && LinkInv(net, l) && LinkEnabled(net, l, CheckToken)
    ensures LinkInv(net, LinkApply(net, l, CheckToken))
  {
    TokenMatches(net, l);
    var l' := LinkApply(net, l, CheckToken);
    forall i | 0 <= i < PORTS ensures LaneInv(net, l'.caller, l'.host, l'.dialed, i, l'.lanes[i]) {
      assert LaneInv(net, l.caller, l.host, l.dialed, i, l.lanes[i]);
    }
  }

  /** When the client has heard a whole line it has read exactly the invitation: nothing sits
      behind it in the reader that is thrown away. */
  lemma HeardWholeLine(net: Net, l: Link)
    requires net.Fine() && LinkInv(net, l) && l.caller.Inviting? && '\n' in l.Heard()
    ensures l.ctl.wire == net.invite && l.ctl.read == |net.invite| && l.Heard() == net.invite
  {
    var heard := l.Heard();
    assert heard <= net.invite;
    if heard < net.invite {
      PrefixOfLine(net.invite, heard);
      assert false;
    }
    assert heard == net.invite && |heard| == l.ctl.read;
  }

  lemma TokenMatches(net: Net, l: Link)
    requires net.Fine() && LinkInv(net, l) && LinkEnabled(net, l, CheckToken)
    ensures var p := l.lanes[l.host.port]; p.wire[p.taken] == net.token[p.taken]
  {
    assert LaneInv(net, l.caller, l.host, l.dialed, l.host.port, l.lanes[l.host.port]);
  }

  // ---- only tokens pass, whoever writes ----

  predicate Shaped(l: Link) {
    |l.lanes| == PORTS && l.dialed <= PORTS && l.ctl.taken <= l.ctl.read <= |l.ctl.wire|
  }

  /** A step of the opening, or bytes that anybody else writes on a data port. */
  datatype Event = Step(m: LinkMove) | Intrude(k: nat, data: seq<Byte>)

  predicate Possible(net: Net, l: Link, e: Event) {
    Shaped(l) && match e case Step(m) => LinkEnabled(net, l, m) case Intrude(k, _) => k < PORTS
  }

  function Happen(net: Net, l: Link, e: Event): Link
    requires Possible(net, l, e)
  {
    match e
    case Step(m) => LinkApply(net, l, m)
    case Intrude(k, data) => l.(lanes := l.lanes[k := l.lanes[k].Put(data)])
  }

  ghost predicate Happens(net: Net, l: Link, run: seq<Event>)
    decreases |run|
  {
    run == [] || (Possible(net, l, run[0]) && Happens(net, Happen(net, l, run[0]), run[1..]))
  }

  ghost function Outcome(net: Net, l: Link, run: seq<Event>): Link
    requires Happens(net, l, run)
    decreases |run|
  {
    if run == [] then l else Outcome(net, Happen(net, l, run[0]), run[1..])
  }

  /** The two differ at some position both have. */
  ghost predicate Differ(token: seq<Byte>, wire: seq<Byte>) {
    exists j :: 0 <= j < |token| && j < |wire| && wire[j] != token[j]
  }

  /** What the server knows of port i when it looks at nothing but the bytes that arrive. */
  ghost predicate Vouched(net: Net, host: Host, i: nat, p: Pipe) {
    && p.taken <= p.read <= |p.wire|
    && (Checked(net, host, i) ==> net.token <= p.wire)
    && (host == Checking(i) ==> p.taken <= |net.token| && p.wire[..p.taken] == net.token[..p.taken])
    && (Untouched(net, host, i) ==> p.taken == 0)
  }

  ghost predicate AllVouched(net: Net, l: Link)
    requires Shaped(l)
  {
    && (forall i :: 0 <= i < PORTS ==> Vouched(net, l.host, i, l.lanes[i]))
    && (l.host.Checking? ==> net.firstChecked <= l.host.port)
    && (l.host.Refused? ==> exists i :: net.firstChecked <= i < PORTS && Differ(net.token, l.lanes[i].wire))
  }

  lemma VouchCheck(net: Net, l: Link)
    requires net.Fine() && Shaped(l) && AllVouched(net, l) && LinkEnabled(net, l, CheckToken)
    ensures Shaped(LinkApply(net, l, CheckToken)) && AllVouched(net, LinkApply(net, l, CheckToken))
  {
    var l', k := LinkApply(net, l, CheckToken), l.host.port;
    var p := l.lanes[k];
    assert Vouched(net, l.host, k, p);
    if p.wire[p.taken] != net.token[p.taken] {
      assert Differ(net.token, l'.lanes[k].wire);
    } else {
      assert p.wire[..p.taken + 1] == p.wire[..p.taken] + [p.wire[p.taken]];
      assert net.token[..p.taken + 1] == net.token[..p.taken] + [net.token[p.taken]];
      if p.taken + 1 == |net.token| {
        assert p.wire[..|net.token|] == net.token[..|net.token|] == net.token;
      }
      assert Vouched(net, l'.host, k, l'.lanes[k]);
    }
    forall i | 0 <= i < PORTS ensures Vouched(net, l'.host, i, l'.lanes[i]) {
      assert Vouched(net, l.host, i, l.lanes[i]);
    }
  }

  lemma VouchWrite(net: Net, l: Link, k: nat, data: seq<Byte>)
    requires Shaped(l) && AllVouched(net, l) && k < PORTS
    ensures AllVouched(net, l.(lanes := l.lanes[k := l.lanes[k].Put(data)]))
  {
    var l' := l.(lanes := l.lanes[k := l.lanes[k].Put(data)]);
    forall i | 0 <= i < PORTS
      ensures Vouched(net, l'.host, i, l'.lanes[i])
      ensures Differ(net.token, l.lanes[i].wire) ==> Differ(net.token, l'.lanes[i].wire)
    {
      assert Vouched(net, l.host, i, l.lanes[i]);
      if j :| 0 <= j < |net.token| && j < |l.lanes[i].wire| && l.lanes[i].wire[j] != net.token[j] {
        assert l'.lanes[i].wire[j] != net.token[j];
      }
    }
  }

  lemma VouchStep(net: Net, l: Link, m: LinkMove)
    requires net.Fine() && Shaped(l) && AllVouched(net, l) && LinkEnabled(net, l, m)
    ensures Shaped(LinkApply(net, l, m)) && AllVouched(net, LinkApply(net, l, m))
  {
    match m
    case CheckToken => VouchCheck(net, l);
    case PutToken(n) => VouchWrite(net, l, l.dialed - 1, Next(net.token, l.lanes[l.dialed - 1].wire, n));
    case _ =>
      var l' := LinkApply(net, l, m);
      forall i | 0 <= i < PORTS ensures Vouched(net, l'.host, i, l'.lanes[i]) {
        assert Vouched(net, l.host, i, l.lanes[i]);
      }
  }

  lemma {:induction false} RunVouches(net: Net, l: Link, run: seq<Event>)
    requires net.Fine() && Shaped(l) && AllVouched(net, l) && Happens(net, l, run)
    ensures Shaped(Outcome(net, l, run)) && AllVouched(net, Outcome(net, l, run))
    decreases |run|
  {
    if run != [] {
      match run[0] {
        case Step(m) => VouchStep(net, l, m);
        case Intrude(k, data) => VouchWrite(net, l, k, data);
      }
      RunVouches(net, Happen(net, l, run[0]), run[1..]);
    }
  }

  /** Whoever writes on the data ports and however it interleaves: the server only gets ready if
      every port it checks carries the token first, and only refuses if some port does not. */
  lemma OnlyTokensPass(net: Net, run: seq<Event>)
    requires net.Fine() && Happens(net, ClosedLink(), run)
    ensures var l := Outcome(net, ClosedLink(), run);
            && Shaped(l)
            && (l.host.Ready? ==> forall i :: net.firstChecked <= i < PORTS ==> net.token <= l.lanes[i].wire)
            && (l.host.Refused? ==> exists i :: net.firstChecked <= i < PORTS && Differ(net.token, l.lanes[i].wire))
  {
    RunVouches(net, ClosedLink(), run);
    var l := Outcome(net, ClosedLink(), run);
    forall i | net.firstChecked <= i < PORTS && l.host.Ready? ensures net.token <= l.lanes[i].wire {
      assert Vouched(net, l.host, i, l.lanes[i]);
    }
  }

  /** What an opening step leaves alone: it only happens before the server is ready, it
      closes nothing, and it writes nothing but tokens and the invitation. */
  ghost predicate LinkFrame(net: Net, l: Link, l': Link) {
    && |l.lanes| == |l'.lanes| == PORTS && !l.host.Ready?
    && (l.caller.Linked? ==> l'.caller.Linked?)
    && (l'.caller.Linked? ==> l'.ctl.read == if l.caller.Linked? then l.ctl.read else |net.invite|)
    && !l'.ctl.fin && !l'.ctl.hup && l'.ctl.wire <= net.invite
    && (forall i :: 0 <= i < PORTS ==> SameEnds(net, l.lanes[i], l'.lanes[i]))
  }

  predicate SameEnds(net: Net, p: Pipe, q: Pipe) {
    q.fin == p.fin && q.hup == p.hup && (q.wire == p.wire || (q.wire <= net.token && !p.fin))
  }

  lemma LinkStepFrame(net: Net, l: Link, m: LinkMove)
    requires net.Fine() && LinkInv(net, l) && LinkEnabled(net, l, m)
    ensures LinkFrame(net, l, LinkApply(net, l, m))
  {
    assert LaneInv(net, l.caller, l.host, l.dialed, PORTS - 1, l.lanes[PORTS - 1]);
    match m
    case PutInvite(n) => PutNext(net.invite, l.ctl.wire, n);
    case PutToken(n) =>
      assert LaneInv(net, l.caller, l.host, l.dialed, l.dialed - 1, l.lanes[l.dialed - 1]);
      PutNext(net.token, l.lanes[l.dialed - 1].wire, n);
    case _ =>
  }

  /** Until the session is open some opening step can be taken, if a port's channel can hold
      the token. */
  lemma LinkProgress(net: Net, l: Link) returns (m: LinkMove)
    requires net.Fine() && LinkInv(net, l) && !l.Open() && |net.token| <= net.cap
    ensures LinkEnabled(net, l, m)
  {
    if l.host.Greeting? && |l.ctl.wire| < l.ctl.read + net.ctlCap {
      m := PutInvite(1);
    } else if l.caller.Inviting? {
      if !l.host.Greeting? && l.ctl.read == |l.ctl.wire| {
        assert l.Heard() == net.invite;
        assert net.invite[|net.invite| - 1] in l.Heard();
      }
      m := if '\n' in l.Heard() then Hear else GetInvite(1);
    } else if l.caller.Dialing? {
      if l.dialed > 0 {
        var p := l.lanes[l.dialed - 1];
        assert LaneInv(net, l.caller, l.host, l.dialed, l.dialed - 1, p);
        m := if |p.wire| < |net.token| then PutToken(1) else Dial;
      } else {
        m := Dial;
      }
    } else if l.host.Accepting? {
      m := Accept;
    } else {
      var p := l.lanes[l.host.port];
      assert LaneInv(net, l.caller, l.host, l.dialed, l.host.port, p);
      m := if p.taken < p.read then CheckToken else FillToken(1);
    }
  }

  /** Falls with every opening step that moves no data. */
  function LinkRank(l: Link): int {
    CallerRank(l.caller) + (PORTS - l.dialed) + HostRank(l.host)
  }

  function CallerRank(c: Caller): int {
    match c case Inviting => 2 case Dialing => 1 case Linked => 0
  }

  function HostRank(h: Host): int {
    match h
    case Greeting => PORTS + 2
    case Accepting => PORTS + 1
    case Checking(i) => PORTS - i
    case Ready => 0
    case Refused => 0
  }
}
