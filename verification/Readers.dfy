/**
  Byte sources. `Conn` is an adversarial connection: it decides how many bytes a
  read returns, which reads come back empty (finitely many in a row), and whether the end of the stream
  arrives with the last bytes or after them. `BufReader` is the buffered reader of
  the Go library, `PayloadConn` the connection left after the session token.
*/
module Readers {
  import opened Prelude

  datatype Failure =
    | Eof                // clean end of stream
    | Broken             // any other transport error
    | NoProgress         // too many empty reads in a row
    | BadToken           // first bytes differ from the session token
    | Short(held: nat)   // stream ended before a whole footer was seen
    | TooBig             // document larger than the configured cap
    | Panic              // slice bounds out of range

  const MAX_EMPTY_READS := 100
  const BUFFER_SIZE := 4096

  /** One read of at most `room` bytes took `data` off the front of `before`; an
      error is only reported once nothing is left, and it is the stream's own end. */
  ghost predicate Delivered(before: seq<Byte>, after: seq<Byte>, end: Failure,
                            room: nat, data: seq<Byte>, err: Option<Failure>)
  {
    && before == data + after
    && |data| <= room
    && (err.Some? ==> after == [] && err.value == end)
  }

  class Conn {
    var rest: seq<Byte>    // bytes not yet read
    const end: Failure     // how the stream ends, reported again on every later read
    const coupled: bool    // may the end be reported together with the last bytes?
    const patience: nat    // how many reads in a row may come back empty
    var idle: nat          // how many did since the last byte

    constructor (bytes: seq<Byte>, end: Failure, coupled: bool, patience: nat)
      ensures rest == bytes && this.end == end && this.coupled == coupled
      ensures this.patience == patience && idle == 0
    {
      this.rest, this.end, this.coupled, this.patience, this.idle := bytes, end, coupled, patience, 0;
    }

    /** Empty reads that may still follow before the next byte or the end. */
    function Stalls(): (n: nat)
      reads this
      ensures n <= patience
    {
      if idle < patience then patience - idle else 0
    }

    method Read(room: nat) returns (data: seq<Byte>, err: Option<Failure>)
      modifies this
      ensures Delivered(old(rest), rest, end, room, data, err)
      ensures data == [] ==> Stalls() <= old(Stalls())
      ensures room > 0 && data == [] && err.None? ==> Stalls() < old(Stalls()) && idle == old(idle) + 1
      ensures data != [] && err.Some? ==> coupled
    {
      data, err := [], None;
      if room == 0 {
        return;
      }
      var stall: bool := *;
      if stall && idle < patience {
        idle := idle + 1;
        return;
      }
      if rest == [] {
        err := Some(end);
        return;
      }
      var n: nat :| 1 <= n <= room && n <= |rest|;
      data, rest, idle := rest[..n], rest[n..], 0;
      var together: bool := *;
      if together && coupled && rest == [] {
        err := Some(end);
      }
    }
  }

  /** The connection may stall too often in a row for a buffered reader, and just did. */
  predicate Stalled(conn: Conn)
    reads conn
  {
    conn.patience >= MAX_EMPTY_READS && conn.idle >= MAX_EMPTY_READS
  }

  /** A buffered reader lost patience with such a connection. */
  predicate GaveUp(conn: Conn, err: Failure)
    reads conn
  {
    err == NoProgress && Stalled(conn)
  }

  class BufReader {
    const conn: Conn
    var buf: seq<Byte>            // read from the connection, not yet handed out
    var held: Option<Failure>     // error seen by the last fill, not yet reported

    ghost predicate Valid()
      reads this, conn
    {
      held.Some? ==> held.value == conn.end && conn.rest == []
    }

    /** Everything this reader will still hand out. */
    ghost function Rest(): seq<Byte>
      reads this, conn
    {
      buf + conn.rest
    }

    constructor (conn: Conn)
      ensures this.conn == conn && buf == [] && held == None
      ensures Valid() && Rest() == conn.rest
    {
      this.conn, this.buf, this.held := conn, [], None;
    }

    /** Reads until something arrives; gives up after MAX_EMPTY_READS empty reads. */
    method Fill() returns (stuck: bool)
      requires Valid() && buf == [] && held.None?
      modifies this, conn
      ensures Valid() && Rest() == old(Rest())
      ensures stuck ==> buf == [] && held.None? && Stalled(conn) && conn.idle >= 100
      ensures !stuck ==> buf != [] || held.Some?
    {
      var tries := 0;
      while tries < MAX_EMPTY_READS
        invariant Valid() && Rest() == old(Rest()) && buf == [] && held.None?
        invariant tries <= MAX_EMPTY_READS && conn.Stalls() + tries <= old(conn.Stalls()) && conn.idle >= tries
      {
        var data, err := conn.Read(BUFFER_SIZE);
        buf, held := data, err;
        if buf != [] || held.Some? {
          return false;
        }
        tries := tries + 1;
      }
      stuck := true;
    }

    method ReadByte() returns (b: Result<Byte, Failure>)
      requires Valid()
      modifies this, conn
      ensures Valid()
      ensures b.Ok? ==> old(Rest()) == [b.value] + Rest()
      ensures b.Err? ==> Rest() == old(Rest())
      ensures b.Err? ==> (b.error == conn.end && old(Rest()) == [])
                         || GaveUp(conn, b.error)
    {
      if buf == [] && held.None? {
        var stuck := Fill();
        if stuck {
          return Err(NoProgress);
        }
      }
      if buf == [] {
        b, held := Err(held.value), None;
        return;
      }
      b := Ok(buf[0]);
      buf := buf[1..];
    }

    method Read(room: nat) returns (data: seq<Byte>, err: Option<Failure>)
      requires Valid()
      modifies this, conn
      ensures Valid()
      ensures Delivered(old(Rest()), Rest(), conn.end, room, data, err)
      ensures room > 0 && data == [] && err.None? ==> conn.Stalls() < old(conn.Stalls())
      ensures data != [] && err.Some? ==> conn.coupled
    {
      if room == 0 || (buf == [] && held.Some?) {
        data := [];
        if buf != [] {
          return data, None;
        }
        err, held := held, None;
        return;
      }
      if buf == [] {
        if room >= BUFFER_SIZE {
          data, err := conn.Read(room);
          return;
        }
        var got, fault := conn.Read(BUFFER_SIZE);
        if got == [] {
          return [], fault;
        }
        buf, held := got, fault;
      }
      var n := Min(room, |buf|);
      data, buf, err := buf[..n], buf[n..], None;
    }

    /** Reads up to and including the first newline. */
    method ReadLine() returns (line: seq<Byte>, err: Option<Failure>)
      requires Valid()
      modifies this, conn
      ensures Valid() && old(Rest()) == line + Rest()
      ensures err.None? ==> line != [] && line[|line| - 1] == '\n' && '\n' !in line[..|line| - 1]
      ensures err.Some? ==> '\n' !in line
      ensures err.Some? ==> (err.value == conn.end && Rest() == [])
                            || GaveUp(conn, err.value)
    {
      ghost var start := Rest();
      line, err := [], None;
      while '\n' !in buf
        invariant Valid() && start == line + Rest()
        invariant '\n' !in line
        decreases |conn.rest|, held.None?
      {
        Regroup(line, buf, conn.rest, |buf|);
        line, buf := line + buf, [];
        if held.Some? {
          err, held := held, None;
          return;
        }
        var stuck := Fill();
        if stuck {
          return line, Some(NoProgress);
        }
      }
      ghost var left := Rest();
      var last := CutLine();
      JoinsOn(start, line, left, last, Rest());
      line := line + last;
    }

    /** Takes what belongs to the line out of the buffer, newline included. */
    method CutLine() returns (last: seq<Byte>)
      requires Valid() && '\n' in buf
      modifies this`buf
      ensures Valid() && old(Rest()) == last + Rest()
      ensures last != [] && last[|last| - 1] == '\n' && '\n' !in last[..|last| - 1]
    {
      var i := NewlineAt(buf);
      Regroup([], buf, conn.rest, i + 1);
      last, buf := buf[..i + 1], buf[i + 1..];
    }

    /** Reads exactly `want` bytes, or reports why it could not. */
    method ReadFull(want: nat) returns (data: seq<Byte>, err: Option<Failure>)
      requires Valid()
      modifies this, conn
      ensures Valid() && old(Rest()) == data + Rest() && |data| <= want
      ensures err.None? <==> |data| == want
      ensures err.Some? ==> Rest() == []
    {
      data, err := [], None;
      ghost var start := Rest();
      while |data| < want
        invariant Valid() && start == data + Rest() && |data| <= want
        invariant err.Some? ==> Rest() == []
        decreases want - |data|, err.None?, conn.Stalls()
      {
        if err.Some? {
          return;
        }
        var more;
        more, err := Read(want - |data|);
        Assoc(data, more, Rest());
        data := data + more;
      }
      err := None;
    }
  }

  /** Why a stream does not start with the token: it ends inside it, or it differs. */
  predicate TokenFails(token: seq<Byte>, bytes: seq<Byte>, end: Failure, err: Failure) {
    !(token <= bytes) && err == if bytes <= token then end else BadToken
  }

  /** A stream that ends inside the token reports its own end, one that differs from the token
      at some byte is refused, and there is no third way to fail. */
  lemma TokenFailure(token: seq<Byte>, bytes: seq<Byte>, end: Failure, err: Failure)
    ensures TokenFails(token, bytes, end, err) <==>
              || (bytes < token && err == end)
              || ((exists i :: 0 <= i < |token| && i < |bytes| && bytes[i] != token[i]) && err == BadToken)
  {
    if forall i :: 0 <= i < |token| && i < |bytes| ==> bytes[i] == token[i] {
      Comparable(bytes, token);
    }
  }

  lemma Comparable(a: seq<Byte>, b: seq<Byte>)
    requires forall i :: 0 <= i < |b| && i < |a| ==> a[i] == b[i]
    ensures a <= b || b <= a
  {
  }

  /** A line and its last piece, of a stream whose rest follows. */
  lemma JoinsOn(start: seq<Byte>, line: seq<Byte>, left: seq<Byte>, last: seq<Byte>, rest: seq<Byte>)
    requires start == line + left && left == last + rest && '\n' !in line
    requires last != [] && last[|last| - 1] == '\n' && '\n' !in last[..|last| - 1]
    ensures start == (line + last) + rest
    ensures var l := line + last; l != [] && l[|l| - 1] == '\n' && '\n' !in l[..|l| - 1]
  {
    var l := line + last;
    assert l[..|l| - 1] == line + last[..|last| - 1];
  }

  method NewlineAt(s: seq<Byte>) returns (i: nat)
    requires '\n' in s
    ensures i < |s| && s[i] == '\n' && '\n' !in s[..i]
  {
    i := 0;
    while s[i] != '\n'
      invariant i < |s| && '\n' !in s[..i] && '\n' in s[i..]
      decreases |s| - i
    {
      i := i + 1;
    }
  }

  method CopyInto(p: array<Byte>, data: seq<Byte>)
    requires |data| <= p.Length
    modifies p
    ensures p[..|data|] == data
    ensures p[|data|..] == old(p[|data|..])
  {
    forall i | 0 <= i < |data| {
      p[i] := data[i];
    }
  }
}
