/**
  The session token and the 64-byte look-behind that separates a particle file's
  payload from its trailing footer while both are still streaming.
*/
module TrailingFooter {
  import opened Prelude
  import opened Readers

  const FOOTER_SIZE := 64

  function Payload(file: seq<Byte>): seq<Byte>
    requires |file| >= FOOTER_SIZE
  {
    file[..|file| - FOOTER_SIZE]
  }

  function Footer(file: seq<Byte>): seq<Byte>
    requires |file| >= FOOTER_SIZE
  {
    file[|file| - FOOTER_SIZE..]
  }

  /** What reading the payload of a whole stream must give, however it is cut up. */
  function PayloadOutcome(all: seq<Byte>, end: Failure): (seq<Byte>, Failure) {
    if |all| >= FOOTER_SIZE then (Payload(all), end)
    else ([], if end == Eof then Short(|all|) else end)
  }

  /** Once a stream is used up, the held-back tail decides what was emitted. */
  lemma TailDecides(all: seq<Byte>, emitted: seq<Byte>, tail: seq<Byte>)
    requires all == emitted + tail && |tail| <= FOOTER_SIZE
    requires emitted != [] ==> |tail| == FOOTER_SIZE
    ensures |all| >= FOOTER_SIZE ==> emitted == Payload(all) && tail == Footer(all)
    ensures |all| < FOOTER_SIZE ==> emitted == [] && tail == all
  {
  }

  /** A chunk just read joins the held-back tail. */
  lemma HoldBack(all: seq<Byte>, emitted: seq<Byte>, tail: seq<Byte>, chunk: seq<Byte>, rest: seq<Byte>)
    requires all == emitted + tail + (chunk + rest)
    ensures all == emitted + (tail + chunk) + rest
  {
  }

  /** Emitting the first `k` held bytes leaves the stream in one piece. */
  lemma Emit(all: seq<Byte>, emitted: seq<Byte>, held: seq<Byte>, rest: seq<Byte>, k: nat)
    requires all == emitted + held + rest && k <= |held|
    ensures all == emitted + held[..k] + held[k..] + rest
  {
    assert held == held[..k] + held[k..];
  }

  /** A data connection whose token has been consumed; reads go through the buffer. */
  class PayloadConn {
    const r: BufReader

    constructor (r: BufReader)
      ensures this.r == r
    {
      this.r := r;
    }

    ghost predicate Valid()
      reads this, r, r.conn
    {
      r.Valid()
    }

    ghost function Rest(): seq<Byte>
      reads this, r, r.conn
    {
      r.Rest()
    }

    method Read(p: array<Byte>) returns (n: nat, err: Option<Failure>)
      requires Valid()
      modifies r, r.conn, p
      ensures Valid() && n <= p.Length
      ensures Delivered(old(Rest()), Rest(), r.conn.end, p.Length, p[..n], err)
      ensures p.Length > 0 && n == 0 && err.None? ==> r.conn.Stalls() < old(r.conn.Stalls())
    {
      var data;
      data, err := r.Read(p.Length);
      CopyInto(p, data);
      n := |data|;
    }
  }

  /** Compares the first bytes of a fresh connection with the token, one at a time. */
  method ConsumeToken(conn: Conn, token: seq<Byte>) returns (res: Result<PayloadConn, Failure>)
    modifies conn
    ensures res.Ok? ==> fresh(res.value) && fresh(res.value.r) && res.value.r.conn == conn
    ensures res.Ok? ==> res.value.Valid() && old(conn.rest) == token + res.value.Rest()
    ensures res.Err? ==> GaveUp(conn, res.error) || TokenFails(token, old(conn.rest), conn.end, res.error)
  {
    var br := new BufReader(conn);
    var i := 0;
    while i < |token|
      invariant 0 <= i <= |token| && br.Valid() && br.conn == conn && fresh(br)
      invariant old(conn.rest) == token[..i] + br.Rest()
    {
      var b := br.ReadByte();
      if b.Err? {
        return Err(b.error);
      }
      if b.value != token[i] {
        assert old(conn.rest)[i] == b.value;
        return Err(BadToken);
      }
      i := i + 1;
    }
    var pc := new PayloadConn(br);
    res := Ok(pc);
  }

  class TrailingFooterReader {
    const r: PayloadConn
    var tail: seq<Byte>
    var payloadDone: bool
    var footPhase: bool
    var footOff: nat
    var peakTail: nat
    ghost const all: seq<Byte>      // the whole particle file on the wire
    ghost var emitted: seq<Byte>    // payload bytes handed out so far

    ghost predicate Valid()
      reads this, r, r.r, r.r.conn
    {
      && r.Valid()
      && |tail| <= peakTail <= FOOTER_SIZE
      && all == emitted + tail + r.Rest()
      && (emitted != [] ==> |tail| == FOOTER_SIZE)
      && (payloadDone ==> |tail| == FOOTER_SIZE && r.Rest() == [] && End() == Eof)
      && (footPhase ==> payloadDone)
      && footOff <= FOOTER_SIZE
      && (!footPhase ==> footOff == 0)
    }

    function End(): Failure {
      r.r.conn.end
    }

    constructor (r: PayloadConn)
      requires r.Valid()
      ensures this.r == r && Valid() && all == r.Rest() && emitted == []
      ensures !payloadDone && footOff == 0 && peakTail == 0
    {
      this.r := r;
      tail, payloadDone, footPhase, footOff, peakTail := [], false, false, 0, 0;
      all, emitted := r.Rest(), [];
    }

    method NoteTail()
      modifies this`peakTail
      ensures peakTail == Max(old(peakTail), |tail|)
    {
      if |tail| > peakTail {
        peakTail := |tail|;
      }
    }

    method Read(p: array<Byte>) returns (n: nat, err: Option<Failure>)
      requires Valid()
      modifies this, r.r, r.r.conn, p
      ensures Valid() && n <= p.Length && peakTail == Max(old(peakTail), |tail|)
      // payload phase: bytes come out in order, and the clean end comes exactly
      // when all but the last 64 bytes are out
      ensures !old(payloadDone) ==> emitted == old(emitted) + p[..n] && footOff == 0
      ensures !old(payloadDone) ==> (err == Some(Eof) <==> payloadDone)
      ensures !old(payloadDone) && err.Some? ==> r.Rest() == [] && (emitted, err.value) == PayloadOutcome(all, End())
      ensures !old(payloadDone) && p.Length > 0 && err.None? ==>
                |r.Rest()| < |old(r.Rest())|
                || (n == 0 && |r.Rest()| == |old(r.Rest())| && r.r.conn.Stalls() < old(r.r.conn.Stalls()))
      // footer phase: the next bytes of the last 64
      ensures old(payloadDone) ==> payloadDone && emitted == old(emitted)
      ensures old(payloadDone) ==> footOff == old(footOff) + n && n == Min(p.Length, FOOTER_SIZE - old(footOff))
      ensures old(payloadDone) ==> p[..n] == Footer(all)[old(footOff)..footOff]
      ensures old(payloadDone) ==> err == if footOff == FOOTER_SIZE then Some(Eof) else None
      decreases !footPhase
    {
      if footPhase {
        assert tail == Footer(all);
        if footOff >= FOOTER_SIZE {
          return 0, Some(Eof);
        }
        n := Min(p.Length, FOOTER_SIZE - footOff);
        CopyInto(p, tail[footOff..footOff + n]);
        footOff := footOff + n;
        return n, if footOff >= FOOTER_SIZE then Some(Eof) else None;
      }
      if payloadDone {
        footPhase := true;
        n, err := Read(p);
        return;
      }
      n, err := ReadPayload(p);
    }

    /** The part of `Read` that runs before the payload is finished. */
    method ReadPayload(p: array<Byte>) returns (n: nat, err: Option<Failure>)
      requires Valid() && !payloadDone
      modifies this, r.r, r.r.conn, p
      ensures Valid() && n <= p.Length && emitted == old(emitted) + p[..n] && footOff == 0
      ensures peakTail == Max(old(peakTail), |tail|)
      ensures err == Some(Eof) <==> payloadDone
      ensures err.Some? ==> r.Rest() == [] && (emitted, err.value) == PayloadOutcome(all, End())
      ensures p.Length > 0 && err.None? ==>
                |r.Rest()| < |old(r.Rest())|
                || (n == 0 && |r.Rest()| == |old(r.Rest())| && r.r.conn.Stalls() < old(r.r.conn.Stalls()))
    {
      n, err := r.Read(p);
      if n > 0 {
        HoldBack(all, emitted, tail, p[..n], r.Rest());
        n, err := Absorb(p, n, err);
        return;
      }
      if err.Some? {
        TailDecides(all, emitted, tail);
      }
      if err == Some(Eof) {
        if |tail| < FOOTER_SIZE {
          return 0, Some(Short(|tail|));
        }
        payloadDone := true;
        return 0, Some(Eof);
      }
    }

    /** Handles the `n` bytes just read into `p`: keeps the newest 64, emits the older ones. */
    method Absorb(p: array<Byte>, n: nat, err: Option<Failure>) returns (m: nat, err': Option<Failure>)
      requires r.Valid() && 0 < n <= p.Length && footOff == 0 && !footPhase && !payloadDone
      requires all == emitted + (tail + p[..n]) + r.Rest()
      requires |tail| <= peakTail <= FOOTER_SIZE && (emitted != [] ==> |tail| == FOOTER_SIZE)
      requires err.Some? ==> r.Rest() == [] && err.value == End()
      modifies this, p
      ensures Valid() && m <= n && emitted == old(emitted) + p[..m] && footOff == 0
      ensures peakTail == Max(old(peakTail), |tail|)
      ensures err' == Some(Eof) <==> payloadDone
      ensures err'.Some? ==> r.Rest() == [] && (emitted, err'.value) == PayloadOutcome(all, End())
    {
      m := Slide(p, n);
      err' := None;
      if err == Some(Eof) {
        TailDecides(all, emitted, tail);
        if |tail| < FOOTER_SIZE {
          return 0, Some(Short(|tail|));
        }
        payloadDone, err' := true, err;
      }
    }

    method Slide(p: array<Byte>, n: nat) returns (m: nat)
      requires r.Valid() && 0 < n <= p.Length
      requires all == emitted + (tail + p[..n]) + r.Rest()
      requires |tail| <= peakTail <= FOOTER_SIZE && (emitted != [] ==> |tail| == FOOTER_SIZE)
      modifies this`tail, this`emitted, this`peakTail, p
      ensures m <= n && emitted == old(emitted) + p[..m]
      ensures peakTail == Max(old(peakTail), |tail|)
      ensures |tail| <= peakTail <= FOOTER_SIZE && (emitted != [] ==> |tail| == FOOTER_SIZE)
      ensures all == emitted + tail + r.Rest()
    {
      var combined := tail + p[..n];
      m := if |combined| <= FOOTER_SIZE then 0 else |combined| - FOOTER_SIZE;
      Emit(all, emitted, combined, r.Rest(), m);
      CopyInto(p, combined[..m]);
      tail := combined[m..];
      emitted := emitted + combined[..m];
      NoteTail();
    }

    /** The most bytes ever held back at once. */
    function PeakTailHold(): (n: nat)
      requires Valid()
      reads this, r, r.r, r.r.conn
      ensures |tail| <= n <= 64 && n == peakTail
    {
      peakTail
    }

    method ParsedFooter() returns (raw: Option<seq<Byte>>)
      requires Valid()
      ensures raw == if footOff == FOOTER_SIZE then Some(Footer(all)) else None
    {
      if !footPhase || footOff < FOOTER_SIZE {
        return None;
      }
      assert tail == Footer(all);
      raw := Some(tail);
    }
  }

  /** Reads the payload with caller buffers of arbitrary sizes until an error comes back. */
  method DrainPayload(t: TrailingFooterReader) returns (payload: seq<Byte>, err: Failure)
    requires t.Valid() && t.emitted == [] && !t.payloadDone
    modifies t, t.r.r, t.r.r.conn
    ensures t.Valid() && t.PeakTailHold() <= FOOTER_SIZE
    ensures (payload, err) == PayloadOutcome(t.all, t.End())
    ensures t.payloadDone <==> err == Eof
    ensures t.footOff == 0
  {
    payload := [];
    while true
      invariant t.Valid() && t.emitted == payload && !t.payloadDone
      decreases |t.r.Rest()|, t.r.r.conn.Stalls()
    {
      var size: nat :| size > 0;
      var p := new Byte[size];
      var n, e := t.Read(p);
      payload := payload + p[..n];
      if e.Some? {
        err := e.value;
        return;
      }
    }
  }

  /** Reads what follows the payload until the second clean end. */
  method DrainFooter(t: TrailingFooterReader) returns (footer: seq<Byte>)
    requires t.Valid() && t.payloadDone && t.footOff == 0
    modifies t, t.r.r, t.r.r.conn
    ensures t.Valid() && t.footOff == FOOTER_SIZE
    ensures footer == Footer(t.all)
  {
    footer := [];
    while true
      invariant t.Valid() && t.payloadDone
      invariant footer == Footer(t.all)[..t.footOff]
      decreases FOOTER_SIZE - t.footOff
    {
      var size: nat :| size > 0;
      var p := new Byte[size];
      var n, e := t.Read(p);
      footer := footer + p[..n];
      if e.Some? {
        return;
      }
    }
  }

  datatype Particle = Particle(payload: seq<Byte>, footer: seq<Byte>)

  /** What the server must get from one particle port, given everything the client wrote on it. */
  function OnWire(wire: seq<Byte>, end: Failure, token: seq<Byte>): Result<Particle, Failure> {
    if !(token <= wire) then
      Err(if wire <= token then end else BadToken)
    else
      var (payload, err) := PayloadOutcome(wire[|token|..], end);
      if err == Eof then Ok(Particle(payload, Footer(wire[|token|..]))) else Err(err)
  }

  /** One particle port of a merge session: token, then payload, then footer. */
  method ReceiveParticle(conn: Conn, token: seq<Byte>) returns (res: Result<Particle, Failure>)
    modifies conn
    ensures res == OnWire(old(conn.rest), conn.end, token) || (res.Err? && GaveUp(conn, res.error))
  {
    var pc := ConsumeToken(conn, token);
    if pc.Err? {
      return Err(pc.error);
    }
    var t := new TrailingFooterReader(pc.value);
    var payload, err := DrainPayload(t);
    if err != Eof {
      return Err(err);
    }
    var footer := DrainFooter(t);
    res := Ok(Particle(payload, footer));
  }

  /** Whatever file the client sends after the token is what the server reads back, no
      other bytes can be mistaken for it, and nothing else than a clean stream of token and
      at least a footer is accepted. */
  lemma WireRoundTrip(wire: seq<Byte>, token: seq<Byte>, file: seq<Byte>, end: Failure)
    requires |file| >= FOOTER_SIZE
    ensures OnWire(wire, end, token).Ok? <==> end == Eof && token <= wire && |wire| >= |token| + 64
    ensures OnWire(wire, Eof, token) == Ok(Particle(Payload(file), Footer(file))) <==> wire == token + file
    // and why anything else is not accepted
    ensures !(token <= wire) ==> OnWire(wire, end, token).Err?
                                 && TokenFails(token, wire, end, OnWire(wire, end, token).error)
    ensures token <= wire && end != Eof ==> OnWire(wire, end, token) == Err(end)
    ensures token <= wire && end == Eof && |wire| < |token| + FOOTER_SIZE ==>
              OnWire(wire, end, token) == Err(Short(|wire| - |token|))
  {
    assert Payload(file) + Footer(file) == file;
    if token <= wire {
      var sent := wire[|token|..];
      assert wire == token + sent;
      if |sent| >= FOOTER_SIZE {
        assert Payload(sent) + Footer(sent) == sent;
      }
    }
    assert (token + file)[|token|..] == file;
  }
}
