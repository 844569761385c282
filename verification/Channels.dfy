/**
 One direction of a link as a FIFO of octets that may be cut after any octet, and that a failed send may leave with a
 torn frame in it. Next to its octets a channel remembers the frames that were written and not read, so that what is
 lost stays countable.
 */
module Channels {
  import opened Frame
  import opened Transport
  import opened Framing

  /**
   Whole frames, then perhaps the octets of a torn one, then the frames written behind it, which no reader can find. If
   octets go out behind a torn frame the channel is garbled: its octets still are what they are, but the frames no
   longer say how they will be read.
   */
  datatype Channel = Channel(frames: seq<seq<Octet>>, fragment: seq<Octet>, behind: seq<seq<Octet>>, octets: seq<Octet>,
                             cut: bool, garbled: bool)

  const NO_CHANNEL := Channel([], [], [], [], false, false)

  /** What a failed send can leave behind: the proper beginning of a frame. */
  ghost predicate IsTorn(fragment: seq<Octet>) {
    exists whole :: IsValidApdu(whole) && |fragment| < |whole| && fragment <= whole
  }

  ghost predicate ValidChannel(c: Channel) {
    && AllValid(c.frames) && AllValid(c.behind) && IsTorn(c.fragment)
    && c.octets <= Concat(c.frames) + c.fragment
    && (!c.cut ==> c.octets == Concat(c.frames) + c.fragment && c.behind == [])
    && (c.fragment == [] ==> c.behind == [])
    && !c.garbled
  }

  /** Everything written and not read. */
  function Held(c: Channel): seq<seq<Octet>> {
    c.frames + c.behind
  }

  function Put(c: Channel, frames: seq<seq<Octet>>): Channel {
    var octets := if c.cut then c.octets else c.octets + Concat(frames);
    if frames == [] then c
    else if c.fragment == [] then c.(frames := c.frames + frames, octets := octets)
    else c.(behind := c.behind + frames, octets := octets, garbled := c.garbled || !c.cut)
  }

  /** The octets of a send that failed go out; nobody keeps them for a frame. */
  function Tear(c: Channel, fragment: seq<Octet>): Channel {
    if fragment == [] || c.cut then c
    else if c.fragment == [] then c.(fragment := fragment, octets := c.octets + fragment)
    else c.(octets := c.octets + fragment, garbled := true)
  }

  function Take(c: Channel): Channel {
    match ReadClient(c.octets)
    case Accepted(frame, rest) => c.(frames := if c.frames == [] then [] else c.frames[1..], octets := rest)
    case _ => c
  }

  function CutAfter(c: Channel, keep: nat): Channel {
    c.(octets := if keep <= |c.octets| then c.octets[..keep] else c.octets, cut := true)
  }

  // -------------------------------------------------------------- what is kept

  lemma PutKeeps(c: Channel, frames: seq<seq<Octet>>)
    requires ValidChannel(c) && AllValid(frames) && !Put(c, frames).garbled
    ensures ValidChannel(Put(c, frames)) && Held(Put(c, frames)) == Held(c) + frames
  {
    hide IsTorn, AllValid, Concat;
    if frames == [] {
      assert Held(c) + frames == Held(c);
    } else if c.fragment == [] {
      PutBesides(c.octets, c.frames, frames);
      AllValidAppend(c.frames, frames);
      assert Concat(c.frames) + c.fragment == Concat(c.frames) && c.frames + frames + [] == c.frames + [] + frames;
      assert Concat(c.frames + frames) + c.fragment == Concat(c.frames + frames);
    } else {
      AllValidAppend(c.behind, frames);
      assert c.frames + (c.behind + frames) == c.frames + c.behind + frames;
    }
  }

  lemma PutBesides(octets: seq<Octet>, frames: seq<seq<Octet>>, more: seq<seq<Octet>>)
    requires octets <= Concat(frames)
    ensures Concat(frames + more) == Concat(frames) + Concat(more) && octets <= Concat(frames + more)
  {
    ConcatAppend(frames, more);
  }

  lemma AllValidAppend(a: seq<seq<Octet>>, b: seq<seq<Octet>>)
    requires AllValid(a) && AllValid(b)
    ensures AllValid(a + b)
  {
    hide IsValidApdu;
  }

  lemma TearKeeps(c: Channel, fragment: seq<Octet>)
    requires ValidChannel(c) && IsTorn(fragment) && !Tear(c, fragment).garbled
    ensures ValidChannel(Tear(c, fragment)) && Held(Tear(c, fragment)) == Held(c)
  {
    hide IsTorn;
    assert c.fragment == [] ==> c.octets + fragment == c.octets + c.fragment + fragment;
  }

  /** Whichever side reads, it takes the oldest frame written, whole, and never a torn one. */
  lemma TakeKeeps(c: Channel)
    requires ValidChannel(c)
    requires ReadClient(c.octets).Accepted? || ReadMock(c.octets).Accepted?
    ensures c.frames != [] && ReadClient(c.octets) == ReadMock(c.octets) && ReadClient(c.octets).Accepted?
    ensures ReadClient(c.octets).frame == c.frames[0] && ValidChannel(Take(c))
    ensures Held(c) == [c.frames[0]] + Held(Take(c))
  {
    hide ReadClient, ReadMock, IsValidApdu;
    var whole :| IsValidApdu(whole) && |c.fragment| < |whole| && c.fragment <= whole;
    assert c.frames == [] ==> c.frames + [whole] == [whole] && |c.octets| <= |c.fragment|;
    WholeAtEnd(c.frames, c.fragment, whole, c.octets);
    ReadOfCut(c.frames + [whole], c.octets);
    var first := c.frames[0];
    assert (c.frames + [whole])[0] == first;
    var later := Concat(c.frames[1..]) + c.fragment;
    assert Concat(c.frames) + c.fragment == first + later;
    assert c.octets[|first|..] <= later;
    assert c.frames == [first] + c.frames[1..];
    assert c.frames + c.behind == [first] + (c.frames[1..] + c.behind);
  }

  lemma WholeAtEnd(frames: seq<seq<Octet>>, fragment: seq<Octet>, whole: seq<Octet>, octets: seq<Octet>)
    requires octets <= Concat(frames) + fragment && fragment <= whole
    ensures octets <= Concat(frames + [whole])
  {
    ConcatAppend(frames, [whole]);
    assert Concat([whole]) == whole by {
      assert [whole][1..] == [] && whole + [] == whole;
    }
    assert whole == fragment + whole[|fragment|..];
    assert Concat(frames) + whole == Concat(frames) + fragment + whole[|fragment|..];
  }

  lemma CutKeeps(c: Channel, keep: nat)
    requires ValidChannel(c)
    ensures ValidChannel(CutAfter(c, keep)) && Held(CutAfter(c, keep)) == Held(c)
  {
    hide IsTorn;
  }

  lemma EmptyChannel()
    ensures ValidChannel(NO_CHANNEL) && Held(NO_CHANNEL) == []
  {
    var whole := FixedU(0x07);
    assert IsValidApdu(whole) && [] <= whole;
  }

  /** What was garbled stays garbled. */
  lemma GarbledStays(c: Channel, frames: seq<seq<Octet>>, fragment: seq<Octet>)
    requires c.garbled
    ensures Put(c, frames).garbled && Tear(c, fragment).garbled && Take(c).garbled
  {
  }
}
