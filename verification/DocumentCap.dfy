/**
  The size cap on documents: the reader a split encodes from (token stripped, then
  capped) and the writer a merge decodes into.
*/
module DocumentCap {
  import opened Prelude
  import opened Readers

  class StripTokenReader {
    const token: seq<Byte>
    const r: BufReader
    var done: bool
    ghost var asked: seq<nat>            // the room of every Read so far
    ghost var failed: Option<Failure>    // what the last one reported

    constructor (conn: Conn, token: seq<Byte>)
      ensures this.token == token && !done && fresh(r) && r.conn == conn && asked == []
      ensures r.Valid() && r.Rest() == conn.rest
    {
      this.token, this.done, this.asked, this.failed := token, false, [], None;
      this.r := new BufReader(conn);
    }

    /** The token is already gone, or it is what comes next. */
    ghost predicate Matches()
      reads this, r, r.conn
    {
      r.Valid() && (done || token <= r.Rest())
    }

    /** The document bytes still to be read. */
    ghost function Document(): seq<Byte>
      requires Matches()
      reads this, r, r.conn
    {
      if done then r.Rest() else r.Rest()[|token|..]
    }

    method ConsumeToken() returns (err: Option<Failure>)
      requires r.Valid()
      modifies this`done, r, r.conn
      ensures r.Valid()
      ensures err.None? ==> done && old(r.Rest()) == token + r.Rest()
      ensures err.Some? ==> done == old(done)
      ensures err.Some? ==> GaveUp(r.conn, err.value) || TokenFails(token, old(r.Rest()), r.conn.end, err.value)
    {
      var i := 0;
      while i < |token|
        invariant 0 <= i <= |token| && r.Valid() && done == old(done)
        invariant old(r.Rest()) == token[..i] + r.Rest()
      {
        var b := r.ReadByte();
        if b.Err? {
          return Some(b.error);
        }
        if b.value != token[i] {
          assert old(r.Rest())[i] == b.value;
          return Some(BadToken);
        }
        i := i + 1;
      }
      done := true;
      err := None;
    }

    /** Delivers document bytes, or nothing and the reason why the token is not behind us. */
    method Read(room: nat) returns (data: seq<Byte>, err: Option<Failure>)
      requires r.Valid()
      modifies this, r, r.conn
      ensures r.Valid() && asked == old(asked) + [room] && failed == err
      ensures done ==> old(Matches()) && Delivered(old(Document()), Document(), r.conn.end, room, data, err)
      ensures done && room > 0 && data == [] && err.None? && old(done) ==> r.conn.Stalls() < old(r.conn.Stalls())
      ensures done && data != [] && err.Some? ==> r.conn.coupled
      // a truncated token looks like the end of the stream, a wrong one is refused
      ensures !done ==> !old(done) && data == [] && err.Some?
      ensures !done ==> GaveUp(r.conn, err.value) || TokenFails(token, old(r.Rest()), r.conn.end, err.value)
    {
      asked := asked + [room];
      if !done {
        var e := ConsumeToken();
        failed := e;
        if e.Some? {
          return [], e;
        }
      }
      data, err := r.Read(room);
      failed := err;
    }
  }

  class MaxSizeReader {
    const r: StripTokenReader
    const max: nat
    var read: nat
    var exceed: bool

    constructor (r: StripTokenReader, max: nat)
      requires 0 < max < TWO63
      ensures this.r == r && this.max == max && read == 0 && !exceed
    {
      this.r, this.max, this.read, this.exceed := r, max, 0, false;
    }

    /** The document is refused already, or the next read will refuse it. */
    predicate Refused()
      reads this
    {
      exceed || read >= max
    }

    method Read(p: array<Byte>) returns (n: nat, err: Option<Failure>)
      requires r.r.Valid() && max < TWO63
      modifies this, r, r.r, r.r.conn, p
      ensures r.r.Valid() && n <= p.Length && read == old(read) + n
      ensures old(Refused()) ==> err == Some(TooBig) && Refused()
      ensures !old(Refused()) ==> !exceed
      ensures !old(Refused()) && max - old(read) == MAX_INT64 ==> err == Some(Panic)
      ensures old(Refused()) || max - old(read) == MAX_INT64 ==>
                n == 0 && r.done == old(r.done) && r.r.Rest() == old(r.r.Rest()) && r.asked == old(r.asked)
      // otherwise one read of at most one byte beyond the cap, and its own error within the cap
      ensures !old(Refused()) && max - old(read) < MAX_INT64 ==>
                && r.asked == old(r.asked) + [Min(p.Length, max - old(read) + 1)]
                && err == if read > max then Some(TooBig) else r.failed
      ensures !old(Refused()) && max - old(read) < MAX_INT64 && !r.done ==>
                && n == 0 && !old(r.done) && err.Some?
                && (GaveUp(r.r.conn, err.value)
                    || TokenFails(r.token, old(r.r.Rest()), r.r.conn.end, err.value))
      ensures !old(Refused()) && max - old(read) < MAX_INT64 && r.done ==>
                && old(r.Matches()) && old(r.Document()) == p[..n] + r.Document()
                && read <= max + 1
                && (read > max ==> err == Some(TooBig))
                && (read <= max && err.Some? ==> err.value == r.r.conn.end && r.Document() == [])
                && (read == max && err.Some? ==> r.r.conn.coupled)
                && (old(r.done) && p.Length > 0 && n == 0 && err.None? ==>
                      r.r.conn.Stalls() < old(r.r.conn.Stalls()))
    {
      if exceed {
        return 0, Some(TooBig);
      }
      if read >= max {
        exceed := true;
        return 0, Some(TooBig);
      }
      var remain := max - read;
      var limit := Wrap64(remain + 1);
      var room := p.Length;
      if room > limit {
        if limit < 0 {
          return 0, Some(Panic);
        }
        room := limit;
      }
      var data;
      data, err := r.Read(room);
      CopyInto(p, data);
      n := |data|;
      read := read + n;
      if read > max {
        return n, Some(TooBig);
      }
    }
  }

  /** What an encoder may see of document `d` under a cap: a document below the cap arrives
      whole, a longer one is cut and refused, and one of exactly the cap is accepted only by a
      connection that reports its end together with the last bytes. A cap of the largest 64-bit
      integer makes the very first read fail. */
  ghost predicate CappedOutcome(d: seq<Byte>, max: nat, end: Failure, coupled: bool, doc: seq<Byte>, err: Failure) {
    if max == MAX_INT64 then
      doc == [] && err == Panic
    else
      && doc <= d
      && |doc| <= max + 1
      && (|d| < max ==> doc == d && err == end)
      && (|d| == max ==> doc == d && (err == TooBig || (err == end && coupled)))
      && (|d| > max ==> |doc| >= max && err == TooBig)
  }

  /** One more piece read: what is left shrinks by it. */
  lemma OneMore(d: seq<Byte>, doc: seq<Byte>, left: seq<Byte>, piece: seq<Byte>, left': seq<Byte>)
    requires d == doc + left && left == piece + left'
    ensures d == (doc + piece) + left' && |left'| == |left| - |piece|
  {
  }

  /** What comes of reading everything behind the token: the capped outcome, or nothing if the
      token is not there or the connection stalls too long while it is read. */
  ghost predicate DrainOutcome(conn: Conn, bytes: seq<Byte>, token: seq<Byte>, max: nat,
                               doc: seq<Byte>, err: Failure)
    reads conn
  {
    || (token <= bytes && CappedOutcome(bytes[|token|..], max, conn.end, conn.coupled, doc, err))
    || (doc == [] && max < MAX_INT64 && (GaveUp(conn, err) || TokenFails(token, bytes, conn.end, err)))
    || (doc == [] && max == MAX_INT64 && err == Panic)
  }

  /** Reads a whole document with caller buffers of arbitrary sizes; a refusal is final. */
  method DrainDocument(m: MaxSizeReader) returns (doc: seq<Byte>, err: Failure)
    requires m.r.r.Valid() && !m.r.done
    requires m.read == 0 && !m.exceed && 0 < m.max < TWO63
    modifies m, m.r, m.r.r, m.r.r.conn
    ensures DrainOutcome(m.r.r.conn, old(m.r.r.Rest()), m.r.token, m.max, doc, err)
    ensures err == TooBig && m.r.r.conn.end != TooBig ==> m.Refused()
  {
    ghost var bytes := m.r.r.Rest();
    doc := [];
    while true
      invariant m.r.r.Valid() && |doc| == m.read <= m.max && !m.exceed
      invariant m.max == MAX_INT64 ==> doc == []
      invariant if m.r.done then m.r.token <= bytes && bytes[|m.r.token|..] == doc + m.r.r.Rest()
                else doc == [] && bytes == m.r.r.Rest()
      decreases !m.r.done, |m.r.r.Rest()|, m.r.r.conn.Stalls(), m.max - m.read
    {
      var size: nat :| size > 0;
      var p := new Byte[size];
      ghost var left := if m.r.Matches() then m.r.Document() else [];
      var n, e := m.Read(p);
      var piece := p[..n];
      if m.r.done {
        OneMore(bytes[|m.r.token|..], doc, left, piece, m.r.Document());
      }
      doc := doc + piece;
      if e.Some? {
        err := e.value;
        return;
      }
    }
  }

  /** On a connection that reports its end on its own, as TCP does, a document comes through
      whole and cleanly exactly when it is strictly smaller than the cap. */
  lemma AcceptedBelowCap(d: seq<Byte>, max: nat, doc: seq<Byte>, err: Failure)
    requires max <= MAX_INT64 && CappedOutcome(d, max, Eof, false, doc, err)
    ensures err == Eof <==> |d| < max < MAX_INT64
    ensures err == Eof ==> doc == d
  {
  }

  /** The document connection of a merge, seen from the writer: it accepts a prefix of each
      write and says so with an error when the prefix is proper. */
  class Sink {
    var got: seq<Byte>
    ghost var offered: seq<seq<Byte>>    // every buffer written
    ghost var count: nat                 // how the last write was answered
    ghost var failed: Option<Failure>

    constructor ()
      ensures got == [] && offered == []
    {
      got, offered, count, failed := [], [], 0, None;
    }

    method Write(data: seq<Byte>) returns (n: nat, err: Option<Failure>)
      modifies this
      ensures n <= |data| && got == old(got) + data[..n]
      ensures offered == old(offered) + [data] && count == n && failed == err
      ensures n < |data| ==> err.Some?
      ensures err.Some? ==> err.value == Broken
    {
      n, err := |data|, None;
      var cut: bool := *;
      if cut {
        n :| 0 <= n <= |data|;
        err := Some(Broken);
      }
      got := got + data[..n];
      offered, count, failed := offered + [data], n, err;
    }
  }

  /** One call of the capped writer: what was offered and the count that came back. */
  datatype Call = Call(offered: seq<Byte>, count: nat) {
    predicate Whole() { count == |offered| }
  }

  /** The bytes that the returned counts claim were accepted, in call order. */
  function Accepted(calls: seq<Call>): seq<Byte>
    requires forall c | c in calls :: c.count <= |c.offered|
  {
    if calls == [] then [] else
      var last := calls[|calls| - 1];
      Accepted(calls[..|calls| - 1]) + last.offered[..last.count]
  }

  function Offered(calls: seq<Call>): seq<Byte> {
    if calls == [] then [] else Offered(calls[..|calls| - 1]) + calls[|calls| - 1].offered
  }

  class MaxSizeWriter {
    const w: Sink
    const max: nat
    var wrote: nat
    ghost var calls: seq<Call>   // every Write so far

    ghost predicate Valid()
      reads this, w
    {
      && (forall c | c in calls :: c.count <= |c.offered|)
      && w.got == Accepted(calls)
      && wrote == |w.got| <= max
    }

    constructor (w: Sink, max: nat)
      requires w.got == []
      ensures Valid() && this.w == w && this.max == max && calls == []
    {
      this.w, this.max, this.wrote, this.calls := w, max, 0, [];
    }

    method Write(p: seq<Byte>) returns (n: nat, err: Option<Failure>)
      requires Valid()
      modifies this, w
      ensures Valid() && n <= |p| && calls == old(calls) + [Call(p, n)]
      ensures err == Some(TooBig) <==> old(wrote) == max
      // at the cap nothing is written; below it just what fits, and the sink's answer is passed on
      ensures old(wrote) == max ==> n == 0 && w.offered == old(w.offered)
      ensures old(wrote) < max ==>
                && w.offered == old(w.offered) + [p[..Min(|p|, max - old(wrote))]]
                && n == w.count && err == w.failed
      // a write that crosses the cap is cut, and a cut alone is not reported
      ensures err.None? ==> n == Min(|p|, max - old(wrote))
    {
      if wrote >= max {
        calls := calls + [Call(p, 0)];
        assert calls[..|calls| - 1] == old(calls);
        return 0, Some(TooBig);
      }
      var remain := max - wrote;
      var q := if |p| > remain then p[..remain] else p;
      assert q == p[..Min(|p|, remain)];
      n, err := w.Write(q);
      wrote := wrote + n;
      calls := calls + [Call(p, n)];
      assert calls[..|calls| - 1] == old(calls);
      if wrote > max {
        return n, Some(TooBig);
      }
    }
  }

  /** Calls that each accepted their whole buffer have forwarded everything; if any call was
      cut, the forwarded bytes are strictly fewer. */
  lemma {:induction false} WholeCallsForwardAll(calls: seq<Call>)
    requires forall c | c in calls :: c.count <= |c.offered|
    ensures (forall c | c in calls :: c.Whole()) <==> |Accepted(calls)| == |Offered(calls)|
    ensures (forall c | c in calls :: c.Whole()) ==> Accepted(calls) == Offered(calls)
    ensures |Accepted(calls)| <= |Offered(calls)|
  {
    if calls != [] {
      var front, last := calls[..|calls| - 1], calls[|calls| - 1];
      assert calls == front + [last];
      forall c | c in front ensures c in calls && c.count <= |c.offered| {
      }
      WholeCallsForwardAll(front);
      OneCallMore(front, last);
      assert |Accepted(calls)| == |Accepted(front)| + last.count;
      assert |Offered(calls)| == |Offered(front)| + |last.offered|;
      if last.Whole() {
        assert last.offered[..last.count] == last.offered;
      }
    }
  }

  lemma OneCallMore(front: seq<Call>, last: Call)
    ensures (forall c | c in front + [last] :: c.Whole()) <==> (forall c | c in front :: c.Whole()) && last.Whole()
  {
    var calls := front + [last];
    assert last in calls && forall c | c in front :: c in calls;
  }
}
