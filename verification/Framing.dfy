/**
 Cutting APDUs out of an octet stream: which streams start with a frame, that the
 two readers agree on every stream, and that a stream of frames, with anything but
 start octets between them, comes apart into exactly those frames.
 */
module Framing {
  import opened Frame
  import opened Transport

  ghost predicate Garbage(octets: seq<Octet>) {
    START_BYTE !in octets
  }

  lemma {:induction false} GarbageSkipped(garbage: seq<Octet>, stream: seq<Octet>)
    requires Garbage(garbage)
    ensures ReadClient(garbage + stream) == ReadClient(stream) && ReadMock(garbage + stream) == ReadMock(stream)
    decreases |garbage|
  {
    if garbage == [] {
      assert garbage + stream == stream;
    } else {
      assert (garbage + stream)[0] == garbage[0] && (garbage + stream)[1..] == garbage[1..] + stream;
      GarbageSkipped(garbage[1..], stream);
    }
  }

  lemma FrameTaken(frame: seq<Octet>, rest: seq<Octet>)
    requires IsValidApdu(frame)
    ensures ReadClient(frame + rest) == ReadMock(frame + rest) == Accepted(frame, rest)
  {
    var stream := frame + rest;
    assert stream[..|frame|] == frame && stream[|frame|..] == rest;
  }

  /** A reader accepts a frame exactly when the stream is that frame behind octets that hold no start octet. */
  lemma {:induction false} AcceptedExactly(stream: seq<Octet>, frame: seq<Octet>, rest: seq<Octet>)
    ensures ReadClient(stream) == Accepted(frame, rest)
       <==> exists garbage :: Garbage(garbage) && IsValidApdu(frame) && stream == garbage + frame + rest
  {
    if ReadClient(stream) == Accepted(frame, rest) {
      var garbage := Skipped(stream, frame, rest);
    }
    if garbage :| Garbage(garbage) && IsValidApdu(frame) && stream == garbage + frame + rest {
      GarbageSkipped(garbage, frame + rest);
      assert stream == garbage + (frame + rest);
      FrameTaken(frame, rest);
    }
  }

  lemma {:induction false} Skipped(stream: seq<Octet>, frame: seq<Octet>, rest: seq<Octet>)
    returns (garbage: seq<Octet>)
    requires ReadClient(stream) == Accepted(frame, rest)
    ensures Garbage(garbage) && IsValidApdu(frame) && stream == garbage + frame + rest
    decreases |stream|
  {
    if stream[0] != START_BYTE {
      var tail := Skipped(stream[1..], frame, rest);
      garbage := [stream[0]] + tail;
      assert stream == [stream[0]] + stream[1..];
    } else {
      garbage := [];
      assert stream == frame + rest;
    }
  }

  /** On every octet stream both readers accept the same frame and leave the same rest, or neither accepts. */
  lemma {:induction false} ReadersAgree(stream: seq<Octet>)
    ensures ReadClient(stream).Accepted? <==> ReadMock(stream).Accepted?
    ensures ReadClient(stream).Accepted? ==> ReadClient(stream) == ReadMock(stream)
    decreases |stream|
  {
    if stream != [] && stream[0] != START_BYTE {
      ReadersAgree(stream[1..]);
    }
  }

  /** A frame that passed the client's length check always passes its final validity check. */
  lemma LengthCheckSuffices(frame: seq<Octet>)
    requires |frame| >= 2 && frame[0] == START_BYTE && 4 <= frame[1] <= MAX_APDU_LENGTH - 2
    requires |frame| == frame[1] as int + 2
    ensures IsValidApdu(frame)
  {
  }

  // ------------------------------------------------------------- whole streams

  /** A frame and the octets that precede it. */
  datatype Chunk = Chunk(garbage: seq<Octet>, frame: seq<Octet>)

  ghost predicate WellFormed(chunks: seq<Chunk>) {
    forall c <- chunks :: Garbage(c.garbage) && IsValidApdu(c.frame)
  }

  function Stream(chunks: seq<Chunk>): seq<Octet> {
    if chunks == [] then [] else chunks[0].garbage + chunks[0].frame + Stream(chunks[1..])
  }

  function FramesOf(chunks: seq<Chunk>): seq<seq<Octet>> {
    if chunks == [] then [] else [chunks[0].frame] + FramesOf(chunks[1..])
  }

  lemma {:induction false} AcceptedShortens(stream: seq<Octet>)
    ensures ReadClient(stream).Accepted? ==> |ReadClient(stream).rest| < |stream|
    decreases |stream|
  {
    if stream != [] && stream[0] != START_BYTE {
      AcceptedShortens(stream[1..]);
    }
  }

  /** Everything repeated calls of the client's reader return before one fails. */
  function AllFrames(stream: seq<Octet>): seq<seq<Octet>>
    decreases |stream|
  {
    AcceptedShortens(stream);
    match ReadClient(stream)
    case Accepted(frame, rest) => [frame] + AllFrames(rest)
    case _ => []
  }

  /** Repeated reading returns exactly the frames of the stream, in order, whatever lies between and after them. */
  lemma {:induction false} StreamComesApart(chunks: seq<Chunk>, trailer: seq<Octet>)
    requires WellFormed(chunks) && Garbage(trailer)
    ensures AllFrames(Stream(chunks) + trailer) == FramesOf(chunks)
    decreases |chunks|
  {
    if chunks == [] {
      NoFrameWithoutStart(trailer);
      assert Stream(chunks) + trailer == trailer;
    } else {
      var Chunk(garbage, frame) := chunks[0];
      var rest := Stream(chunks[1..]) + trailer;
      StreamComesApart(chunks[1..], trailer);
      GarbageSkipped(garbage, frame + rest);
      FrameTaken(frame, rest);
      assert Stream(chunks) + trailer == garbage + (frame + rest);
    }
  }

  /** The same loop over a socket, under any chunking: a steady socket yields exactly those frames. */
  method ReadAllApdus(client: TcpClient) returns (frames: seq<seq<Octet>>)
    requires client.steady && client.connected
    modifies client`incoming
    ensures frames == AllFrames(old(client.incoming))
  {
    frames := [];
    var more := true;
    while more
      invariant if more then frames + AllFrames(client.incoming) == AllFrames(old(client.incoming))
                else frames == AllFrames(old(client.incoming))
      decreases more, |client.incoming|
    {
      ghost var stream := client.incoming;
      AcceptedShortens(stream);
      var frame;
      more, frame := ReadApdu(client);
      if more {
        frames := frames + [frame[..]];
      }
    }
  }

  // ------------------------------------------------- frames back to back, cut short

  function Concat(frames: seq<seq<Octet>>): seq<Octet> {
    if frames == [] then [] else frames[0] + Concat(frames[1..])
  }

  ghost predicate AllValid(frames: seq<seq<Octet>>) {
    forall f <- frames :: IsValidApdu(f)
  }

  lemma {:induction false} ConcatAppend(frames: seq<seq<Octet>>, more: seq<seq<Octet>>)
    ensures Concat(frames + more) == Concat(frames) + Concat(more)
    decreases |frames|
  {
    if frames == [] {
      assert frames + more == more;
    } else {
      assert (frames + more)[0] == frames[0] && (frames + more)[1..] == frames[1..] + more;
      ConcatAppend(frames[1..], more);
    }
  }

  /** What a reader finds on a stream of frames that may end in the middle of one: the first frame, or nothing. */
  lemma ReadOfCut(frames: seq<seq<Octet>>, stream: seq<Octet>)
    requires AllValid(frames) && stream <= Concat(frames)
    ensures if frames == [] || |stream| < |frames[0]| then ReadClient(stream) == ReadMock(stream) == Starved
            else && ReadClient(stream) == ReadMock(stream) == Accepted(frames[0], stream[|frames[0]|..])
                 && stream[|frames[0]|..] <= Concat(frames[1..])
  {
    if frames != [] && |stream| >= |frames[0]| {
      assert stream == frames[0] + stream[|frames[0]|..];
      FrameTaken(frames[0], stream[|frames[0]|..]);
    } else if frames != [] && |stream| >= 2 {
      assert stream[0] == frames[0][0] && stream[1] == frames[0][1];
    }
  }
}
