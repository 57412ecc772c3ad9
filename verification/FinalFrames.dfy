/**
  The one frame the server sends behind the invitation, and what a client that has read
  some of it makes of it.
*/
module FinalFrames {
  import opened Prelude
  import opened ControlText
  import Text

  datatype Outcome = Trailer(body: seq<Byte>) | Failed

  datatype Verdict = Pending | Good | Bad   // of the encoder or decoder

  /** The frame sent if all goes well, the frame sent if not, and how a reader understands
      what it has of either. */
  datatype Frames = Frames(trailer: seq<Byte>, complaint: seq<Byte>, parse: seq<Byte> -> Reply) {
    predicate NonEmpty() { trailer != [] && complaint != [] }

    /** The frames are the protocol's own, saying a trailer body or an error text. */
    ghost predicate Says(body: seq<Byte>, msg: string) {
      parse == FinalReply && trailer == TrailerFrame(body) && complaint == ErrorFrame(msg) && |body| <= MAX_INT64
    }
  }

  /** A piece of the trailer frame reads as its trailer or as nothing yet; a piece of an
      error frame never reads as a trailer. */
  ghost predicate Understood(f: Frames, heard: seq<Byte>) {
    && (heard <= f.trailer && f.parse(heard).Body? ==> f.parse(heard) == f.parse(f.trailer))
    && (heard <= f.trailer && f.parse(f.trailer).Body? ==>
          f.parse(heard) == Incomplete || f.parse(heard) == f.parse(f.trailer))
    && (heard <= f.complaint ==> !f.parse(heard).Body?)
  }

  ghost predicate Framed(f: Frames) {
    forall heard :: Understood(f, heard)
  }

  lemma SaysMeansFramed(f: Frames, body: seq<Byte>, msg: string)
    requires f.Says(body, msg)
    ensures Framed(f)
    ensures FinalReply(f.trailer) == if |body| <= MAX_TRAILER then Body(body) else Malformed
  {
    TrailerFrameRoundTrip(body, []);
    assert f.trailer + [] == f.trailer;
    forall heard ensures Understood(f, heard) {
      if heard <= f.trailer {
        PrefixBody(body, heard);
      }
      if heard <= f.complaint {
        PrefixError(msg, heard);
      }
    }
  }

  lemma PrefixBody(body: seq<Byte>, heard: seq<Byte>)
    requires heard <= TrailerFrame(body) && |body| <= MAX_INT64
    ensures FinalReply(heard).Body? ==> FinalReply(heard) == Body(body)
    ensures |body| <= MAX_TRAILER && FinalReply(heard) != Incomplete ==> FinalReply(heard) == Body(body)
  {
    if |body| > MAX_TRAILER {
      PrefixOfHugeFrame(body, heard);
    } else if heard < TrailerFrame(body) {
      TrailerPrefixIsIncomplete(body, heard);
    } else {
      TrailerFrameRoundTrip(body, []);
      assert heard == TrailerFrame(body) + [];
    }
  }

  lemma PrefixOfHugeFrame(body: seq<Byte>, heard: seq<Byte>)
    requires heard <= TrailerFrame(body) && MAX_TRAILER < |body| <= MAX_INT64
    ensures !FinalReply(heard).Body?
  {
    var line := Text.Numeral(10, |body|) + "\n";
    LengthLine(|body|, if |heard| < |line| then [] else heard[|line|..]);
    if |heard| < |line| {
      assert heard < line;
      PrefixOfLine(line, heard);
    } else {
      assert heard == line + heard[|line|..];
    }
  }

  lemma PrefixError(msg: string, heard: seq<Byte>)
    requires heard <= ErrorFrame(msg)
    ensures !FinalReply(heard).Body?
  {
    ErrorFrameRoundTrip(msg, []);
    assert ErrorFrame(msg) + [] == ErrorFrame(msg);
    if heard < ErrorFrame(msg) {
      ErrorPrefixIsIncomplete(msg, heard);
    }
  }
}
