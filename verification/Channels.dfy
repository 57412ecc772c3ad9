/** Bounded FIFO byte channels between two processes, and sums used as run measures. */
module Channels {
  import opened Prelude

  /** One direction of a connection. `wire` is everything ever written; the reader has pulled
      the first `read` bytes out of the channel and its consumer has used the first `taken`. */
  datatype Pipe = Pipe(wire: seq<Byte>, read: nat, taken: nat, fin: bool, hup: bool) {

    ghost predicate Sound(cap: nat) {
      taken <= read <= |wire| && |wire| - read <= cap
    }

    /** The writer may push n more bytes without blocking or failing. */
    predicate Fits(n: nat, cap: nat) {
      !fin && !hup && n > 0 && |wire| + n <= read + cap
    }

    predicate Available(n: nat) {
      n > 0 && read + n <= |wire|
    }

    /** The reader has everything and the writer will send nothing more. */
    predicate Ended() {
      fin && read == |wire|
    }

    function Put(data: seq<Byte>): Pipe { this.(wire := wire + data) }

    function Fill(n: nat): Pipe { this.(read := read + n) }

    function Take(n: nat): Pipe { this.(taken := taken + n) }

    function Close(): Pipe { this.(fin := true) }

    function HangUp(): Pipe { this.(hup := true) }
  }

  const FRESH := Pipe([], 0, 0, false, false)

  /** The next n bytes of an intended stream of which `wire` has been written. */
  function Next(full: seq<Byte>, wire: seq<Byte>, n: nat): seq<Byte>
    requires |wire| + n <= |full|
  {
    full[|wire|..|wire| + n]
  }

  lemma PutNext(full: seq<Byte>, wire: seq<Byte>, n: nat)
    requires wire <= full && |wire| + n <= |full|
    ensures wire + Next(full, wire, n) <= full
    ensures |wire + Next(full, wire, n)| == |wire| + n
  {
  }

  /** Growing a prefix of a stream that starts with `head` keeps `head` in front. */
  lemma KeepsHead(head: seq<Byte>, wire: seq<Byte>, more: seq<Byte>)
    requires head <= wire
    ensures head <= wire + more
  {
  }

  /** Work left on a pipe that is to carry `full` bytes: taking them also ends a wait for them. */
  function PipeWeight(full: nat, p: Pipe): int {
    (full - |p.wire|) + (full - p.read) + 2 * (full - p.taken)
  }

  function Total(s: seq<int>): int {
    if s == [] then 0 else s[0] + Total(s[1..])
  }

  lemma {:induction false} TotalChange(a: seq<int>, b: seq<int>, k: nat)
    requires |a| == |b| && k < |a|
    requires forall i :: 0 <= i < |a| && i != k ==> a[i] == b[i]
    ensures Total(b) == Total(a) - a[k] + b[k]
  {
    if k == 0 {
      assert a[1..] == b[1..];
    } else {
      TotalChange(a[1..], b[1..], k - 1);
    }
  }

  lemma {:induction false} TotalBelow(a: seq<int>, b: seq<int>)
    requires |a| == |b| && forall i :: 0 <= i < |a| ==> b[i] <= a[i]
    ensures Total(b) <= Total(a)
  {
    if a != [] {
      TotalBelow(a[1..], b[1..]);
    }
  }

  lemma {:induction false} TotalNonNegative(a: seq<int>)
    requires forall i :: 0 <= i < |a| ==> a[i] >= 0
    ensures Total(a) >= 0
  {
    if a != [] {
      TotalNonNegative(a[1..]);
    }
  }
}
