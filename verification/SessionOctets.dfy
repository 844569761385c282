/**
 What a session puts on the wire and hands over, said of the octets themselves: which reply opens the transfer, and what
 every turn of the loop sends in answer to what it read.
 */
module SessionOctets {
  import opened Frame
  import opened Session
  import opened LinkComposition

  // ------------------------------------------------------------ fixed U frames

  lemma FixedOctets(frame: seq<Octet>, control: Octet)
    ensures IsFixedU(frame, control) <==> frame == [0x68, 4, control, 0, 0, 0]
  {
    if IsFixedU(frame, control) {
      assert |frame| == 6;
    }
  }

  // ------------------------------------------------------ what opens a transfer

  /** The attempt got a connection, and the first APDU read after STARTDT act was STARTDT con, octet for octet. */
  predicate Confirmed(attempt: Attempt) {
    attempt.Connected? && attempt.handshake.Reply? && attempt.handshake.frame == [0x68, 4, 0x0b, 0, 0, 0]
  }

  /** An attempt opens the transfer exactly if it was confirmed, and delivers nothing unless it was. */
  lemma AttemptOpens(options: Options, attempt: Attempt)
    ensures StartConfirmed in AttemptOutput(options, attempt) <==> Confirmed(attempt)
    ensures forall content :: Delivered(content) in AttemptOutput(options, attempt) ==> Confirmed(attempt)
  {
    hide RunLoop, IsFixedU;
    if attempt.Connected? && attempt.handshake.Reply? {
      FixedOctets(attempt.handshake.frame, 0x0b);
    }
    if Confirmed(attempt) {
      assert AttemptOutput(options, attempt)[2] == StartConfirmed;
    }
  }

  /** A run opens a transfer exactly if one of its attempts was confirmed, and whatever it delivers is a confirmed
      attempt's. */
  lemma {:induction false} RunOpens(options: Options, attempts: seq<Attempt>)
    ensures StartConfirmed in RunOutput(options, attempts) <==> exists a <- attempts :: Confirmed(a)
    ensures forall content :: Delivered(content) in RunOutput(options, attempts) ==>
              exists a <- attempts :: Confirmed(a) && Delivered(content) in AttemptOutput(options, a)
    decreases |attempts|
  {
    hide AttemptOutput, Confirmed;
    if attempts != [] {
      AttemptOpens(options, attempts[0]);
      RunOpens(options, attempts[1..]);
      assert attempts == [attempts[0]] + attempts[1..];
    }
  }

  /** What goes out first in an attempt, if anything does, is STARTDT act. */
  lemma FirstSent(options: Options, attempt: Attempt)
    ensures FramesSent(AttemptOutput(options, attempt)) != [] <==> attempt.Connected? && !attempt.handshake.NotSent?
    ensures FramesSent(AttemptOutput(options, attempt)) != [] ==>
              FramesSent(AttemptOutput(options, attempt))[0] == [0x68, 4, 0x07, 0, 0, 0]
  {
    hide RunLoop;
    if attempt.Connected? {
      var output := AttemptOutput(options, attempt);
      assert output[0] == Notified(true) && FramesSent(output) == FramesSent(output[1..]);
      if attempt.handshake.NotSent? {
        assert output[1..] == [Notified(false)] && output[1..][1..] == [];
      } else {
        assert output[1..][0] == Sent(STARTDT_ACT, attempt.start);
      }
    }
  }

  // ------------------------------------------------------- what a turn sends

  /** Whether the deadline of a pending heartbeat has passed at a head time, in milliseconds of the options. */
  predicate Overdue(options: Options, link: Link, now: int) {
    && link.heartbeatPending && options.heartbeatTimeoutMs > 0
    && now - link.heartbeatSentAt >= options.heartbeatTimeoutMs * 1_000_000
  }

  predicate Due(options: Options, link: Link, now: int) {
    && !link.heartbeatPending && options.heartbeatIntervalMs > 0
    && now - link.lastRx >= options.heartbeatIntervalMs * 1_000_000
  }

  /** The turn gets as far as reading, and something is there. */
  predicate Reads(options: Options, link: Link, turn: Turn) {
    && !Overdue(options, link, turn.now) && (Due(options, link, turn.now) ==> turn.heartbeatOk)
    && turn.poll.Received?
  }

  /** A valid APDU with the lowest bit of its first control octet clear. */
  predicate IsData(frame: seq<Octet>) {
    IsValidApdu(frame) && frame[2] % 2 == 0
  }

  /** The S frame with N(R) one more than the N(S) of a data frame, shifted left by one. */
  function Acknowledgement(frame: seq<Octet>): seq<Octet>
    requires |frame| >= 4
  {
    var shifted := 2 * ((frame[2] as int + 0x100 * frame[3] as int) / 2 + 1);
    [0x68, 4, 1, 0, shifted % 0x100, shifted / 0x100 % 0x100]
  }

  function ReplyTo(frame: seq<Octet>): seq<seq<Octet>> {
    if frame == [0x68, 4, 0x43, 0, 0, 0] then [[0x68, 4, 0x83, 0, 0, 0]]
    else if IsData(frame) then [Acknowledgement(frame)]
    else []
  }

  lemma AcknowledgementOctets(frame: seq<Octet>)
    requires IsData(frame)
    ensures AckOf(frame) == Acknowledgement(frame)
  {
    var n := (frame[2] as int + 0x100 * frame[3] as int) / 2;
    assert SendSequence(frame) == n < 0x8000;
    ShiftedOctets(n + 1);
  }

  lemma ShiftedOctets(number: Word)
    requires number <= 0x8000
    ensures number * 2 % 0x1_0000 % 0x100 == 2 * number % 0x100
    ensures number * 2 % 0x1_0000 / 0x100 == 2 * number / 0x100 % 0x100
  {
    if number < 0x8000 {
      assert number * 2 % 0x1_0000 == 2 * number && 0 <= 2 * number / 0x100 < 0x100;
    }
  }

  lemma DataIsFormatI(frame: seq<Octet>)
    ensures IsData(frame) <==> FormatOf(frame) == I
    ensures IsData(frame) ==> frame != [0x68, 4, 0x43, 0, 0, 0] && frame != [0x68, 4, 0x83, 0, 0, 0]
  {
  }

  /** What follows a read: the confirmation of an act, the acknowledgement of data, or nothing. */
  lemma FrameAnswered(link: Link, frame: seq<Octet>, now: int, at: int, replyOk: bool)
    ensures var outcome := OnFrame(link, frame, now, at, replyOk);
            && FramesSent(outcome.output) == (if replyOk then ReplyTo(frame) else [])
            && ObjectsDelivered(outcome.output) == (if replyOk && IsData(frame) then FrameObjects(frame) else [])
            && (outcome.Ended? <==> !replyOk && ReplyTo(frame) != [])
  {
    FixedOctets(frame, 0x83);
    FixedOctets(frame, 0x43);
    DataIsFormatI(frame);
    DeliveriesPutOut(FrameObjects(frame));
    hide IsFixedU, FormatOf, SendSequence, FrameObjects, IsData, SFormat;
    var output := OnFrame(link, frame, now, at, replyOk).output;
    if replyOk && IsData(frame) {
      AcknowledgementOctets(frame);
      PutOutAppend(Sent(AckOf(frame), at), Deliveries(FrameObjects(frame)));
    } else if output != [] {
      assert output == [Sent(TESTFR_CON, at)] && output[1..] == [];
    }
  }

  /**
   Every turn of the loop sends TESTFR act exactly if the interval has passed with nothing pending, then what answers
   the frame it read, and delivers exactly the objects of acknowledged data.
   */
  lemma TurnOnTheWire(options: Options, link: Link, turn: Turn)
    ensures var outcome := LoopTurn(options, link, turn);
            var beats := !Overdue(options, link, turn.now) && Due(options, link, turn.now) && turn.heartbeatOk;
            var answers := Reads(options, link, turn) && turn.poll.replyOk;
            && FramesSent(outcome.output)
               == (if beats then [[0x68, 4, 0x43, 0, 0, 0]] else []) + (if answers then ReplyTo(turn.poll.frame)
                                                                        else [])
            && ObjectsDelivered(outcome.output)
               == (if answers && IsData(turn.poll.frame) then FrameObjects(turn.poll.frame) else [])
  {
    hide OnFrame, ReplyTo, IsData, FrameObjects;
    var beats := !Overdue(options, link, turn.now) && Due(options, link, turn.now) && turn.heartbeatOk;
    var after := if beats then link.(heartbeatPending := true, heartbeatSentAt := turn.now) else link;
    var rest := OnPoll(after, turn.now, turn.poll).output;
    if turn.poll.Received? {
      FrameAnswered(after, turn.poll.frame, turn.now, turn.poll.at, turn.poll.replyOk);
    }
    if beats {
      PutOutAppend(Sent(TESTFR_ACT, turn.now), rest);
    }
  }
}
