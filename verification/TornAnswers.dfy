/**
 What becomes of a link when the server's answer to a heartbeat does not get through and the server, which does not
 look, goes on: a lost confirmation ends the session at its deadline, and a torn one followed by data costs the
 framing.
 */
module TornAnswers {
  import opened Frame
  import opened FrameProperties
  import opened Transport
  import opened Framing
  import opened Session
  import opened SessionProperties
  import opened Mock
  import opened Channels
  import opened LinkComposition

  // ------------------------------------------------------------ a lost answer

  /** The deadline of the heartbeat that is pending. */
  function Deadline(options: Options, link: Link): int {
    link.heartbeatSentAt + options.heartbeatTimeoutMs * 1_000_000
  }

  lemma NoConfirmationHeld(w: World)
    requires Sound(w) && w.client.Transferring? && w.lost > 0
    ensures w.client.link.heartbeatPending && CountControl(Held(w.down), 0x83) == 0
  {
    hide Ordered, Conserved, CountControl, Held;
  }

  lemma LostClientTurn(options: Options, w: World, turn: Turn)
    requires Sound(w) && Enabled(w, ClientTurn(turn)) && w.lost > 0 && options.heartbeatTimeoutMs > 0
    ensures var link, outcome := w.client.link, LoopTurn(options, w.client.link, turn);
            && (turn.now >= Deadline(options, link) ==> outcome.Ended? && outcome.reason == HeartbeatTimeout)
            && (outcome.Continue? ==>
                  outcome.link.heartbeatPending && outcome.link.heartbeatSentAt == link.heartbeatSentAt)
  {
    NoConfirmationHeld(w);
    if turn.poll.Received? {
      HeadIsNotIt(w.down, turn.poll.frame, w.read);
    }
    TurnEnd(options, w.client.link, turn);
    if LoopTurn(options, w.client.link, turn).Continue? {
      TurnPending(options, w.client.link, turn);
    }
  }

  lemma HeadIsNotIt(c: Channel, frame: seq<Octet>, k: nat)
    requires ValidChannel(c) && ReadClient(c.octets).Accepted? && frame == ReadClient(c.octets).frame
    requires CountControl(Held(c), 0x83) == 0
    ensures !IsFixedU(frame, 0x83)
  {
    hide ReadClient, ValidChannel, Held, IsFixedU, CountControl;
    Taken(c, k, 0x83);
  }

  /** A step of a session that lost a confirmation leaves the deadline where it is, and ends the session at or past it.
      */
  lemma LostStep(options: Options, mockOptions: MockOptions, w: World, action: LinkComposition.Action)
    requires Sound(w) && Enabled(w, action) && w.client.Transferring? && w.lost > 0 && options.heartbeatTimeoutMs > 0
    ensures var w' := Step(options, mockOptions, w, action);
            && w'.lost > 0 && (w'.client.Transferring? || w'.client.Closed?)
            && (w'.client.Transferring? ==> w'.client.link.heartbeatSentAt == w.client.link.heartbeatSentAt)
            && (action.ClientTurn? && action.turn.now >= Deadline(options, w.client.link) ==> w'.client.Closed?)
  {
    hide LoopTurn, MockStep, Sound, Put, Take, ReadClient, ReadMock, FramesSent, ObjectsDelivered, LastAck, Replied,
      Answers, FormatOf, IsFixedU, SendsData, Serves, Encoded, CountControl;
    if action.ClientTurn? {
      LostClientTurn(options, w, action.turn);
    }
  }

  lemma {:induction false} ClosedStays(options: Options, mockOptions: MockOptions, w: World,
                                       actions: seq<LinkComposition.Action>)
    requires w.client.Closed? && Possible(options, mockOptions, w, actions)
    ensures After(options, mockOptions, w, actions).client.Closed?
    decreases |actions|
  {
    hide MockStep, Put, Take, ReadClient, ReadMock, Replied, Answers, IsFixedU, SendsData, Serves, Encoded,
      CountControl;
    if actions != [] {
      ClosedStays(options, mockOptions, Step(options, mockOptions, w, actions[0]), actions[1..]);
    }
  }

  lemma {:induction false} GarbledRun(options: Options, mockOptions: MockOptions, w: World,
                                      actions: seq<LinkComposition.Action>)
    requires w.down.garbled && Possible(options, mockOptions, w, actions)
    ensures After(options, mockOptions, w, actions).down.garbled
    decreases |actions|
  {
    hide Step, Enabled;
    if actions != [] {
      StaysGarbled(options, mockOptions, w, actions[0]);
      GarbledRun(options, mockOptions, Step(options, mockOptions, w, actions[0]), actions[1..]);
    }
  }

  /** From a lost confirmation on, the session outlives no head at or past the deadline of the heartbeat it answered. */
  lemma {:induction false} LostConfirmationEnds(options: Options, mockOptions: MockOptions, w: World,
                                                actions: seq<LinkComposition.Action>)
    requires Sound(w) && w.client.Transferring? && w.lost > 0 && options.heartbeatTimeoutMs > 0
    requires Possible(options, mockOptions, w, actions) && !After(options, mockOptions, w, actions).down.garbled
    ensures var w' := After(options, mockOptions, w, actions);
            && (w'.client.Transferring? || w'.client.Closed?)
            && (w'.client.Transferring? ==>
                  && w'.client.link.heartbeatPending && w'.client.link.heartbeatSentAt == w.client.link.heartbeatSentAt
                  && forall a <- actions :: a.ClientTurn? ==> a.turn.now < Deadline(options, w.client.link))
    decreases |actions|
  {
    hide Step, Enabled, Sound;
    if actions == [] {
      NoConfirmationHeld(w);
    } else {
      var next := Step(options, mockOptions, w, actions[0]);
      LostStep(options, mockOptions, w, actions[0]);
      if next.client.Closed? {
        ClosedStays(options, mockOptions, next, actions[1..]);
      } else {
        if next.down.garbled {
          GarbledRun(options, mockOptions, next, actions[1..]);
        }
        StepKeeps(options, mockOptions, w, actions[0]);
        LostConfirmationEnds(options, mockOptions, next, actions[1..]);
        assert actions == [actions[0]] + actions[1..];
      }
    }
  }

  // ------------------------------------------------------------ a torn answer

  /**
   With everything earlier read, the next read returns the next frame, and leaves what follows it, exactly if no torn
   answer precedes it.
   */
  lemma ReadsOnExactly(c: Channel, frame: seq<Octet>, later: seq<seq<Octet>>)
    requires ValidChannel(c) && !c.cut && c.frames == [] && IsValidApdu(frame)
    ensures ReadClient(Put(c, [frame] + later).octets) == Accepted(frame, Concat(later)) <==> c.fragment == []
  {
    hide ReadClient, IsValidApdu;
    var whole :| IsValidApdu(whole) && |c.fragment| < |whole| && c.fragment <= whole;
    assert ([frame] + later)[1..] == later;
    assert c.octets == c.fragment;
    var stream := Put(c, [frame] + later).octets;
    assert stream == c.fragment + (frame + Concat(later));
    if c.fragment == [] {
      assert stream == frame + Concat(later);
      FrameTaken(frame, Concat(later));
    } else {
      StartsWithStart(whole);
      assert stream[0] == START_BYTE;
      AcceptedAtOnce(stream);
    }
  }

  lemma StartsWithStart(frame: seq<Octet>)
    requires IsValidApdu(frame)
    ensures frame[0] == START_BYTE
  {
  }

  /** A stream that begins with a start octet is accepted from there or not at all. */
  lemma AcceptedAtOnce(stream: seq<Octet>)
    requires stream != [] && stream[0] == START_BYTE
    ensures ReadClient(stream).Accepted? ==>
              var length := ReadClient(stream).frame;
              stream == ReadClient(stream).frame + ReadClient(stream).rest && |length| == stream[1] as int + 2
  {
  }

  /**
   What a read makes of a torn confirmation and the data frame behind it: if it accepts anything, that confirms nothing
   and carries no object, and the beginning of the data frame is gone with it.
   */
  lemma TornSwallows(octets: nat, frame: seq<Octet>, rest: seq<Octet>)
    requires 0 < octets < 6 && IsValidApdu(frame) && frame[5] == 0
    ensures var result := ReadClient(TESTFR_CON[..octets] + frame + rest);
            result.Accepted? ==>
              && !IsFixedU(result.frame, 0x83) && FrameObjects(result.frame) == []
              && |result.rest| < |frame + rest| && result.rest == (frame + rest)[|frame + rest| - |result.rest|..]
  {
    var stream := TESTFR_CON[..octets] + frame + rest;
    assert stream[0] == START_BYTE && stream[octets] == START_BYTE && stream[octets + 5] == 0;
    hide ReadClient, FrameObjects, IsFixedU;
    AcceptedAtOnce(stream);
    var result := ReadClient(stream);
    if result.Accepted? {
      assert stream[1] == (if octets == 1 then 0x68 else 4);
      assert |result.frame| == stream[1] as int + 2 > octets;
      assert result.rest == stream[|result.frame|..];
      if octets == 1 {
        assert result.frame[1] == 0x68 && result.frame[6] == stream[6];
        NoObjects(result.frame);
      } else {
        assert result.frame == stream[..6];
        ShortFrame(result.frame, octets);
      }
    }
  }

  lemma NoObjects(frame: seq<Octet>)
    requires |frame| == 106 && frame[1] == 0x68 && frame[6] == 0
    ensures !IsFixedU(frame, 0x83) && FrameObjects(frame) == []
  {
    hide IsValidApdu;
    assert frame[6..][0] == 0;
    assert FormatOf(frame) == I ==> DecodeFrame(frame) == DecodeAsdu(frame[6..]);
    NoObjectsOfTypeZero(frame[6..]);
  }

  lemma NoObjectsOfTypeZero(asdu: seq<Octet>)
    requires |asdu| >= 6 && asdu[0] == 0
    ensures DecodeObjects(asdu) == []
  {
  }

  lemma ShortFrame(frame: seq<Octet>, octets: nat)
    requires |frame| == 6 && 1 < octets < 6 && frame[octets] == START_BYTE
    ensures !IsFixedU(frame, 0x83) && FrameObjects(frame) == []
  {
  }

  // ------------------------------------------------------- a run that breaks the link

  lemma NextStep(options: Options, mockOptions: MockOptions, w: World, action: LinkComposition.Action,
                 rest: seq<LinkComposition.Action>)
    requires Enabled(w, action) && Possible(options, mockOptions, Step(options, mockOptions, w, action), rest)
    ensures Possible(options, mockOptions, w, [action] + rest)
    ensures After(options, mockOptions, w, [action] + rest)
         == After(options, mockOptions, Step(options, mockOptions, w, action), rest)
  {
    hide Enabled, Step;
    assert ([action] + rest)[1..] == rest;
  }

  lemma Single(frame: seq<Octet>)
    ensures Concat([frame]) == frame && [] + [frame] == [frame]
  {
    assert [frame][1..] == [] && frame + [] == frame;
  }

  lemma ReadsControl(control: Octet)
    requires control in {0x07, 0x0b, 0x43}
    ensures ReadClient(FixedU(control)) == ReadMock(FixedU(control)) == Accepted(FixedU(control), [])
    ensures IsFixedU(FixedU(control), control)
  {
    assert FixedU(control) + [] == FixedU(control);
    FrameTaken(FixedU(control), []);
  }

  /** A channel in which some octets wait that are one frame. */
  function Waiting(frame: seq<Octet>): Channel {
    NO_CHANNEL.(frames := [frame], octets := frame)
  }

  lemma PutsOne(frame: seq<Octet>)
    ensures Put(NO_CHANNEL, [frame]) == Waiting(frame)
  {
    Single(frame);
    assert [] + frame == frame;
  }

  lemma TakesOne(control: Octet)
    requires control in {0x07, 0x0b, 0x43}
    ensures Take(Waiting(FixedU(control))) == NO_CHANNEL
  {
    ReadsControl(control);
    assert [FixedU(control)][1..] == [];
  }

  const LINKED := INITIAL.(client := Transferring(Fresh(0)), mock := Serving(0, MockState(0, 0)))

  /** The handshake, up to a session in which nothing has been sent yet. */
  lemma Handshaken(options: Options, mockOptions: MockOptions, rest: seq<LinkComposition.Action>)
    returns (actions: seq<LinkComposition.Action>)
    requires Possible(options, mockOptions, LINKED, rest)
    ensures Possible(options, mockOptions, INITIAL, actions)
    ensures After(options, mockOptions, INITIAL, actions) == After(options, mockOptions, LINKED, rest)
  {
    PutsOne(STARTDT_ACT);
    PutsOne(STARTDT_CON);
    TakesOne(0x07);
    TakesOne(0x0b);
    ReadsControl(0x07);
    ReadsControl(0x0b);
    hide Put, Take, ReadClient, ReadMock, IsFixedU, Possible, After;
    var connected := INITIAL.(client := Handshaking, up := Waiting(STARTDT_ACT));
    var accepted := INITIAL.(client := Handshaking, mock := Serving(0, MockState(0, 0)), down := Waiting(STARTDT_CON));
    assert Step(options, mockOptions, INITIAL, Connect) == connected;
    assert Step(options, mockOptions, connected, Accept(0)) == accepted;
    assert Step(options, mockOptions, accepted, Confirm(0)) == LINKED;
    NextStep(options, mockOptions, accepted, Confirm(0), rest);
    NextStep(options, mockOptions, connected, Accept(0), [Confirm(0)] + rest);
    NextStep(options, mockOptions, INITIAL, Connect, [Accept(0)] + ([Confirm(0)] + rest));
    actions := [Connect] + ([Accept(0)] + ([Confirm(0)] + rest));
  }

  /** The session once its first heartbeat went out. */
  function Beating(options: Options): World {
    LINKED.(client := Transferring(Link(0, options.Interval(), true, 0)), up := Waiting(TESTFR_ACT))
  }

  lemma FirstHeartbeat(options: Options, mockOptions: MockOptions)
    requires options.heartbeatIntervalMs > 0
    ensures Step(options, mockOptions, LINKED, ClientTurn(Turn(options.Interval(), true, Quiet))) == Beating(options)
  {
    PutsOne(TESTFR_ACT);
    ControlFrames(0x43);
    hide Put, IsFixedU, FormatOf;
    var turn := Turn(options.Interval(), true, Quiet);
    var outcome := LoopTurn(options, Fresh(0), turn);
    assert outcome.output == [Sent(TESTFR_ACT, options.Interval())];
    assert FramesSent(outcome.output) == [TESTFR_ACT] && ObjectsDelivered(outcome.output) == [] by {
      PutOutAppend(Sent(TESTFR_ACT, options.Interval()), []);
    }
    assert LastAck([TESTFR_ACT], []) == [] by {
      assert [TESTFR_ACT][1..] == [];
    }
  }

  /** The first five octets of the confirmation get through; then the data of a period follow. */
  function TornTurn(values: Values): MockTurn {
    MockTurn(0, Got(TESTFR_ACT), Torn(5), values, true)
  }

  const PIECE := TESTFR_CON[..5]

  function Torn5(options: Options, mockOptions: MockOptions, values: Values): World {
    var data := DataFrames(mockOptions, 0, values);
    LINKED.(client := Beating(options).client,
            mock := Serving(0, MockState(3, mockOptions.sendIntervalMs * 1_000_000)),
            down := Channel([], PIECE, data, PIECE + Concat(data), false, true),
            encoded := Encoded(mockOptions, values), sent := 3, lost := 1)
  }

  /** The server is not yet quiet when its session begins. */
  predicate SendsAtOnce(mockOptions: MockOptions) {
    !(mockOptions.stale && mockOptions.quietAfterSeconds <= 0)
  }

  const TORN_CHANNEL := NO_CHANNEL.(fragment := PIECE, octets := PIECE)

  lemma ReplyTorn()
    ensures Replied(NO_CHANNEL, [TESTFR_CON], Torn(5)) == TORN_CHANNEL
    ensures CountControl([TESTFR_CON], 0x83) == 1
  {
    ControlFrames(0x83);
    assert OnWire(TESTFR_CON, Torn(5)) == PIECE;
    assert [TESTFR_CON][1..] == [];
    assert [] + PIECE == PIECE;
  }

  lemma DataBehind(data: seq<seq<Octet>>)
    requires data != []
    ensures Put(TORN_CHANNEL, data) == Channel([], PIECE, data, PIECE + Concat(data), false, true)
  {
    assert |PIECE| == 5;
    hide Concat;
    assert [] + data == data;
  }

  lemma TornStep(mockOptions: MockOptions, values: Values)
    requires SendsAtOnce(mockOptions)
    ensures var outcome := MockStep(mockOptions, 0, MockState(0, 0), TornTurn(values));
            && outcome.goOn && outcome.state == MockState(3, mockOptions.sendIntervalMs * 1_000_000)
            && outcome.data == DataFrames(mockOptions, 0, values)
    ensures SendsData(mockOptions, 0, MockState(0, 0), TornTurn(values)) && Serves(mockOptions, 0, TornTurn(values))
  {
    hide DataFrames, AnswerOnWire;
  }

  lemma AnswerTorn(options: Options, mockOptions: MockOptions, values: Values)
    requires SendsAtOnce(mockOptions)
    ensures Enabled(Beating(options), ServerTurn(TornTurn(values)))
    ensures Step(options, mockOptions, Beating(options), ServerTurn(TornTurn(values)))
            == Torn5(options, mockOptions, values)
  {
    ReadsControl(0x43);
    TakesOne(0x43);
    var w, turn, data := Beating(options), TornTurn(values), DataFrames(mockOptions, 0, values);
    assert Answers(mockOptions, 0, turn) == [TESTFR_CON] by {
      TornStep(mockOptions, values);
    }
    hide ReadClient, ReadMock, Take, Put, IsFixedU, DataFrames, Encoded, Answer, CountControl, Concat, Replied,
      MockStep, Answers, SendsData, Serves, FixedU;
    ReplyTorn();
    DataBehind(data);
    TornStep(mockOptions, values);
    assert [] + Encoded(mockOptions, values) == Encoded(mockOptions, values);
  }

  // The client takes the piece and the first octet of the load frame for a frame of its own, skips the rest of the load
  // frame, and goes on with the voltage frame.

  /** The load frame has no start octet but its first, and the client can tell load and voltage apart. */
  predicate Telling(mockOptions: MockOptions, values: Values) {
    && START_BYTE !in LoadFrame(mockOptions, 0, values)[1..]
    && mockOptions.loadIoa % 0x100_0000 != mockOptions.voltageIoa % 0x100_0000
  }

  function AfterLoad(mockOptions: MockOptions, values: Values): seq<Octet> {
    Concat([VoltageFrame(mockOptions, 1, values), BreakerFrame(mockOptions, 2, values)])
  }

  lemma ReadsPiece(load: seq<Octet>, later: seq<Octet>)
    requires IsValidApdu(load)
    ensures load[0] == START_BYTE
    ensures ReadClient(PIECE + (load + later)) == Accepted(PIECE + [START_BYTE], load[1..] + later)
  {
    var frame := PIECE + [START_BYTE];
    assert IsValidApdu(frame);
    hide ReadClient;
    StartsWithStart(load);
    assert PIECE + (load + later) == frame + (load[1..] + later);
    FrameTaken(frame, load[1..] + later);
  }

  lemma DataOnWire(mockOptions: MockOptions, values: Values)
    ensures Concat(DataFrames(mockOptions, 0, values)) == LoadFrame(mockOptions, 0, values)
            + AfterLoad(mockOptions, values)
    ensures AfterLoad(mockOptions, values)
         == VoltageFrame(mockOptions, 1, values) + Concat([BreakerFrame(mockOptions, 2, values)])
  {
    hide LoadFrame, VoltageFrame, BreakerFrame;
    var load, voltage, breaker := LoadFrame(mockOptions, 0, values), VoltageFrame(mockOptions, 1, values),
                                  BreakerFrame(mockOptions, 2, values);
    assert [load, voltage, breaker][1..] == [voltage, breaker] && [voltage, breaker][1..] == [breaker];
  }

  lemma FirstRead(mockOptions: MockOptions, values: Values)
    ensures var load := LoadFrame(mockOptions, 0, values);
            && |load| > 0 && load[0] == START_BYTE
            && ReadClient(PIECE + Concat(DataFrames(mockOptions, 0, values)))
               == Accepted(PIECE + [START_BYTE], load[1..] + AfterLoad(mockOptions, values))
  {
    BuiltDataFrames(mockOptions, 0, values, 0);
    hide ReadClient, LoadFrame, VoltageFrame, BreakerFrame, AfterLoad, Concat;
    StartsWithStart(LoadFrame(mockOptions, 0, values));
    hide IsValidApdu;
    DataOnWire(mockOptions, values);
    ReadsPiece(LoadFrame(mockOptions, 0, values), AfterLoad(mockOptions, values));
  }

  lemma SecondRead(mockOptions: MockOptions, values: Values)
    requires Telling(mockOptions, values)
    ensures var load, voltage := LoadFrame(mockOptions, 0, values), VoltageFrame(mockOptions, 1, values);
            && |load| > 0
            && ReadClient(load[1..] + AfterLoad(mockOptions, values))
               == Accepted(voltage, Concat([BreakerFrame(mockOptions, 2, values)]))
  {
    var load, voltage := LoadFrame(mockOptions, 0, values), VoltageFrame(mockOptions, 1, values);
    var rest := Concat([BreakerFrame(mockOptions, 2, values)]);
    BuiltDataFrames(mockOptions, 0, values, 0);
    hide ReadClient, LoadFrame, VoltageFrame, BreakerFrame, IsValidApdu, AfterLoad, Concat;
    DataOnWire(mockOptions, values);
    GarbageSkipped(load[1..], voltage + rest);
    FrameTaken(voltage, rest);
  }

  function Reading(options: Options, frame: seq<Octet>): Turn {
    Turn(options.Interval(), true, Received(frame, options.Interval(), true))
  }

  /** The client between the two reads: its heartbeat is still pending. */
  function Misled(options: Options, mockOptions: MockOptions, values: Values): World {
    var interval, torn := options.Interval(), Torn5(options, mockOptions, values);
    var load := LoadFrame(mockOptions, 0, values);
    torn.(client := Transferring(Link(interval, interval, true, 0)),
          down := torn.down.(octets := (if load == [] then [] else load[1..]) + AfterLoad(mockOptions, values)))
  }

  lemma PieceIsNoise(link: Link, now: int)
    ensures OnFrame(link, PIECE + [START_BYTE], now, now, true) == Continue(link.(lastRx := now), [])
    ensures FormatOf(PIECE + [START_BYTE]) == U
  {
    var frame := PIECE + [START_BYTE];
    assert frame == [START_BYTE, 4, 0x83, 0, 0, START_BYTE];
  }

  lemma NothingPut(c: Channel)
    ensures FramesSent([]) == [] && ObjectsDelivered([]) == [] && Put(c, []) == c && LastAck([], []) == []
  {
  }

  lemma PieceRead(options: Options, mockOptions: MockOptions, values: Values)
    requires options.heartbeatIntervalMs > 0
    ensures var w, action := Torn5(options, mockOptions, values), ClientTurn(Reading(options, PIECE + [START_BYTE]));
            Enabled(w, action) && Step(options, mockOptions, w, action) == Misled(options, mockOptions, values)
  {
    FirstRead(mockOptions, values);
    PieceIsNoise(Beating(options).client.link, options.Interval());
    var w, turn := Torn5(options, mockOptions, values), Reading(options, PIECE + [START_BYTE]);
    NothingPut(w.up);
    hide ReadClient, DataFrames, LoadFrame, AfterLoad, OnFrame, FormatOf, Encoded, Put, FramesSent, ObjectsDelivered,
      LastAck, Concat;
    assert LoopTurn(options, w.client.link, turn) == Continue(Link(options.Interval(), options.Interval(), true, 0),
                                                              []);
    assert [] + ObjectsDelivered([]) == [];
  }

  /** A data frame that is read and acknowledged, as it goes into the world. */
  lemma DataGoesIn(options: Options, w: World, link: Link, turn: Turn)
    requires w.read == 0 && w.delivered == [] && w.ack == []
    requires LoopTurn(options, link, turn).Continue? && ReadsFrame(options, link, turn)
    requires FormatOf(turn.poll.frame) == I && turn.poll.replyOk
    ensures var w' := ClientStep(options, w, link, turn);
            && w'.client.Transferring? && w'.encoded == w.encoded && w'.read == 1
            && w'.delivered == FrameObjects(turn.poll.frame) && w'.ack == AckOf(turn.poll.frame)
  {
    hide LoopTurn, FramesSent, ObjectsDelivered, LastAck, FrameObjects, AckOf, Take, Put, FormatOf, IsFixedU, AllValid,
      CountControl;
    TurnPutsOut(options, link, turn, []);
    assert [] + FrameObjects(turn.poll.frame) == FrameObjects(turn.poll.frame);
  }

  /** The first data frame a client reads. */
  lemma FirstData(options: Options, mockOptions: MockOptions, w: World, frame: seq<Octet>)
    requires w.client == Transferring(Link(options.Interval(), options.Interval(), true, 0))
    requires w.read == 0 && w.delivered == [] && w.ack == []
    requires ReadClient(w.down.octets).Accepted? && ReadClient(w.down.octets).frame == frame && FormatOf(frame) == I
    ensures var action := ClientTurn(Reading(options, frame));
            && Enabled(w, action)
            && var w' := Step(options, mockOptions, w, action);
               && w'.client.Transferring? && w'.encoded == w.encoded && w'.read == 1
               && w'.delivered == FrameObjects(frame) && w'.ack == AckOf(frame)
  {
    hide LoopTurn, ReadsFrame, ClientStep, FrameObjects, AckOf, FormatOf, ReadClient;
    VoltageGoesOn(options, w.client.link, frame);
    DataGoesIn(options, w, w.client.link, Reading(options, frame));
  }

  lemma VoltageData(mockOptions: MockOptions, values: Values)
    ensures var frame := VoltageFrame(mockOptions, 1, values);
            FormatOf(frame) == I && SendSequence(frame) == 1 && FrameObjects(frame) == [Encoded(mockOptions, values)[1]]
  {
    hide FormatOf, SendSequence, FrameObjects, VoltageFrame, LoadFrame, BreakerFrame, Encoded, IsValidApdu, IsFixedU;
    BuiltDataFrames(mockOptions, 0, values, 0);
  }

  lemma MisledParts(options: Options, mockOptions: MockOptions, values: Values)
    requires LoadFrame(mockOptions, 0, values) != []
    ensures var w := Misled(options, mockOptions, values);
            && w.client == Transferring(Link(options.Interval(), options.Interval(), true, 0))
            && w.read == 0 && w.delivered == [] && w.ack == [] && w.encoded == Encoded(mockOptions, values)
            && w.down.octets == LoadFrame(mockOptions, 0, values)[1..] + AfterLoad(mockOptions, values)
  {
    hide LoadFrame, AfterLoad, DataFrames, Encoded;
  }

  lemma VoltageRead(options: Options, mockOptions: MockOptions, values: Values)
    requires options.heartbeatIntervalMs > 0 && Telling(mockOptions, values)
    ensures var w, action := Misled(options, mockOptions, values),
                             ClientTurn(Reading(options, VoltageFrame(mockOptions, 1, values)));
            && Enabled(w, action)
            && var w' := Step(options, mockOptions, w, action);
               && w'.client.Transferring? && w'.encoded == Encoded(mockOptions, values)
               && w'.delivered == [Encoded(mockOptions, values)[1]] && w'.read == 1 && w'.ack == SFormat(2)
  {
    hide *;
    SecondRead(mockOptions, values);
    VoltageData(mockOptions, values);
    MisledParts(options, mockOptions, values);
    AckOfOne(VoltageFrame(mockOptions, 1, values));
    FirstData(options, mockOptions, Misled(options, mockOptions, values), VoltageFrame(mockOptions, 1, values));
  }

  lemma AckOfOne(frame: seq<Octet>)
    requires SendSequence(frame) == 1
    ensures AckOf(frame) == SFormat(2)
  {
  }

  lemma VoltageGoesOn(options: Options, link: Link, frame: seq<Octet>)
    requires link.heartbeatPending && link.heartbeatSentAt == options.Interval() && FormatOf(frame) == I
    ensures LoopTurn(options, link, Reading(options, frame)).Continue?
    ensures ReadsFrame(options, link, Reading(options, frame))
  {
    OnlyDataCarries(frame);
  }

  /**
   A run that breaks the link, for any client with a heartbeat and any server that sends at once: five octets of a
   confirmation get through, data follow, and the client, still in session, has delivered the voltage but never the
   load and acknowledged two frames having read one.
   */
  lemma TornAnswerBreaks(options: Options, mockOptions: MockOptions, values: Values)
    returns (actions: seq<LinkComposition.Action>)
    requires options.heartbeatIntervalMs > 0 && SendsAtOnce(mockOptions) && Telling(mockOptions, values)
    ensures Possible(options, mockOptions, INITIAL, actions)
    ensures var w := After(options, mockOptions, INITIAL, actions);
            && w.client.Transferring? && !(w.delivered <= w.encoded)
            && !Counts(w.ack, w.read) && !(w.read > 0 && Counts(w.ack, w.read - 1) && w.client.Closed?)
  {
    var a4, a5 := ClientTurn(Turn(options.Interval(), true, Quiet)), ServerTurn(TornTurn(values));
    var a6 := ClientTurn(Reading(options, PIECE + [START_BYTE]));
    var a7 := ClientTurn(Reading(options, VoltageFrame(mockOptions, 1, values)));
    FirstHeartbeat(options, mockOptions);
    AnswerTorn(options, mockOptions, values);
    PieceRead(options, mockOptions, values);
    VoltageRead(options, mockOptions, values);
    TwoForOne(mockOptions, values);
    assert Enabled(LINKED, a4);
    hide Step, Enabled, Torn5, Misled, Beating, SFormat, VoltageFrame, Encoded, Counts, Telling;
    var end := Step(options, mockOptions, Misled(options, mockOptions, values), a7);
    Stop(options, mockOptions, end);
    NextStep(options, mockOptions, Misled(options, mockOptions, values), a7, []);
    NextStep(options, mockOptions, Torn5(options, mockOptions, values), a6, [a7] + []);
    NextStep(options, mockOptions, Beating(options), a5, [a6] + ([a7] + []));
    NextStep(options, mockOptions, LINKED, a4, [a5] + ([a6] + ([a7] + [])));
    actions := Handshaken(options, mockOptions, [a4] + ([a5] + ([a6] + ([a7] + []))));
  }

  lemma Stop(options: Options, mockOptions: MockOptions, w: World)
    ensures Possible(options, mockOptions, w, []) && After(options, mockOptions, w, []) == w
  {
  }

  lemma TwoForOne(mockOptions: MockOptions, values: Values)
    requires Telling(mockOptions, values)
    ensures !Counts(SFormat(2), 1) && !([Encoded(mockOptions, values)[1]] <= Encoded(mockOptions, values))
  {
    SFormatFields(2);
    hide LoadFrame, ReceiveSequence, SFormat, FormatOf;
    assert [Encoded(mockOptions, values)[1]][0] != Encoded(mockOptions, values)[0];
  }
}
