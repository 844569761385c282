/**
 The mock server's side of a link: it answers STARTDT and TESTFR and sends three
 numbered I frames per period.  Times, what the socket delivered and the simulated
 values are inputs of each turn.
 */
module Mock {
  import opened Wrappers
  import opened Frame
  import opened Time

  datatype MockOptions = MockOptions(
    commonAddress: Word, loadIoa: int, voltageIoa: int, breakerIoa: int,
    sendIntervalMs: int, dropEverySeconds: int, stale: bool, quietAfterSeconds: int)

  type Raw = r: seq<Octet> | |r| == 4 witness [0, 0, 0, 0]

  /** The simulated process at one tick. */
  datatype Values = Values(load: Raw, loadQuality: Octet, voltage: Raw, voltageQuality: Octet,
                           breakerClosed: bool, breakerQuality: Octet)

  datatype MockPoll = NoInput | Broken | Got(frame: seq<Octet>)

  /** How far a send got: to the end, or only over so many octets. */
  datatype Delivery = Whole | Torn(octets: nat)

  /** One turn of the serving loop; reply says how far an answer got, dataOk whether the three data frames could be
      sent. */
  datatype MockTurn = MockTurn(now: int, poll: MockPoll, reply: Delivery, values: Values, dataOk: bool)

  datatype MockState = MockState(sendSequence: Word, nextSend: int)

  function Next(sequence: Word): Word {
    (sequence + 1) % 0x1_0000
  }

  /** What the server sends back for a frame it read. */
  function Answer(frame: seq<Octet>): seq<seq<Octet>> {
    if IsFixedU(frame, 0x43) then [TESTFR_CON]
    else if IsFixedU(frame, 0x07) then [STARTDT_CON]
    else []
  }

  /** A send that fails has put out a proper prefix of its frame, perhaps nothing. */
  function OnWire(frame: seq<Octet>, delivery: Delivery): seq<Octet> {
    match delivery
    case Whole => frame
    case Torn(octets) => if frame == [] then [] else frame[..Min(octets, |frame| - 1)]
  }

  /** What the answer to a frame puts on the wire; the server does not look whether it got through. */
  function AnswerOnWire(frame: seq<Octet>, reply: Delivery): seq<seq<Octet>> {
    var answer := Answer(frame);
    if answer == [] then [] else [OnWire(answer[0], reply)]
  }

  function LoadFrame(options: MockOptions, sequence: Word, values: Values): seq<Octet> {
    IFormat(sequence, 0, FloatAsdu(options.commonAddress, options.loadIoa, values.load, values.loadQuality))
  }

  function VoltageFrame(options: MockOptions, sequence: Word, values: Values): seq<Octet> {
    IFormat(sequence, 0, FloatAsdu(options.commonAddress, options.voltageIoa, values.voltage, values.voltageQuality))
  }

  function BreakerFrame(options: MockOptions, sequence: Word, values: Values): seq<Octet> {
    IFormat(sequence, 0,
            SinglePointAsdu(options.commonAddress, options.breakerIoa, values.breakerClosed, values.breakerQuality))
  }

  function DataFrames(options: MockOptions, sequence: Word, values: Values): seq<seq<Octet>> {
    [LoadFrame(options, sequence, values), VoltageFrame(options, Next(sequence), values),
     BreakerFrame(options, Next(Next(sequence)), values)]
  }

  /** Whether the loop goes on, and what its sends put on the wire: an answer, then data. */
  datatype MockOutcome = MockOutcome(goOn: bool, state: MockState, answer: seq<seq<Octet>>, data: seq<seq<Octet>>)

  function MockStep(options: MockOptions, start: int, state: MockState, turn: MockTurn): MockOutcome {
    var elapsed := WholeSeconds(turn.now - start);
    if options.dropEverySeconds > 0 && elapsed >= options.dropEverySeconds then MockOutcome(false, state, [], [])
    else if turn.poll.Broken? then MockOutcome(false, state, [], [])
    else
      var answer := if turn.poll.Got? then AnswerOnWire(turn.poll.frame, turn.reply) else [];
      var later := state.(nextSend := turn.now + options.sendIntervalMs * TICKS_PER_MS);
      if turn.now < state.nextSend then MockOutcome(true, state, answer, [])
      else if options.stale && elapsed >= options.quietAfterSeconds then MockOutcome(true, later, answer, [])
      else
        var sequence := Next(Next(Next(state.sendSequence)));
        if turn.dataOk then
          MockOutcome(true, later.(sendSequence := sequence), answer,
                      DataFrames(options, state.sendSequence, turn.values))
        else
          MockOutcome(false, state.(sendSequence := sequence), answer, [])
  }

  function MockOutput(options: MockOptions, start: int, state: MockState, turns: seq<MockTurn>): seq<seq<Octet>>
    decreases |turns|
  {
    if turns == [] then []
    else
      var outcome := MockStep(options, start, state, turns[0]);
      outcome.answer + outcome.data + if outcome.goOn then MockOutput(options, start, outcome.state, turns[1..]) else []
  }

  /** Everything the server puts on the wire for a client whose first frame was opening (none if it could not be read).
      */
  function SessionOutput(options: MockOptions, opening: seq<Octet>, confirmation: Delivery, start: int,
                         turns: seq<MockTurn>)
    : seq<seq<Octet>>
  {
    if !IsFixedU(opening, 0x07) then []
    else
      [OnWire(STARTDT_CON, confirmation)]
      + if confirmation.Whole? then MockOutput(options, start, MockState(0, start), turns) else []
  }

  class MockIec104Server {
    const options: MockOptions

    constructor (options: MockOptions)
      ensures this.options == options
    {
      this.options := options;
    }

    method ServeClient(opening: seq<Octet>, confirmation: Delivery, start: int, turns: seq<MockTurn>)
      returns (sent: seq<seq<Octet>>)
      ensures sent == SessionOutput(options, opening, confirmation, start, turns)
    {
      hide MockStep, OnWire;
      if !IsFixedU(opening, 0x07) {
        return [];
      }
      sent := [OnWire(STARTDT_CON, confirmation)];
      if !confirmation.Whole? {
        return;
      }
      var sendSequence: Word, nextSend := 0, start;
      var index := 0;
      while index < |turns|
        invariant 0 <= index <= |turns|
        invariant sent + MockOutput(options, start, MockState(sendSequence, nextSend), turns[index..])
               == SessionOutput(options, opening, confirmation, start, turns)
      {
        var turn := turns[index];
        assert turns[index..][0] == turn && turns[index..][1..] == turns[index + 1..];
        var goOn, answer, data;
        goOn, sendSequence, nextSend, answer, data := ServeTurn(start, sendSequence, nextSend, turn);
        sent := sent + answer + data;
        if !goOn {
          return;
        }
        index := index + 1;
      }
    }

    method ServeTurn(start: int, sendSequence: Word, nextSend: int, turn: MockTurn)
      returns (goOn: bool, sendSequence': Word, nextSend': int, answer: seq<seq<Octet>>, data: seq<seq<Octet>>)
      ensures MockStep(options, start, MockState(sendSequence, nextSend), turn)
           == MockOutcome(goOn, MockState(sendSequence', nextSend'), answer, data)
    {
      hide IFormat, FloatAsdu, SinglePointAsdu, IsFixedU, WholeSeconds, OnWire;
      sendSequence', nextSend', answer, data := sendSequence, nextSend, [], [];
      var elapsed := WholeSeconds(turn.now - start);
      if options.dropEverySeconds > 0 && elapsed >= options.dropEverySeconds {
        return false, sendSequence', nextSend', answer, data;
      }
      if turn.poll.Broken? {
        return false, sendSequence', nextSend', answer, data;
      }
      if turn.poll.Got? {
        if IsFixedU(turn.poll.frame, 0x43) {
          answer := [OnWire(TESTFR_CON, turn.reply)];
        } else if IsFixedU(turn.poll.frame, 0x07) {
          answer := [OnWire(STARTDT_CON, turn.reply)];
        }
      }
      goOn := true;
      if turn.now >= nextSend {
        if options.stale && elapsed >= options.quietAfterSeconds {
          nextSend' := turn.now + options.sendIntervalMs * TICKS_PER_MS;
          return;
        }
        data := BuildData(sendSequence, turn.values);
        sendSequence' := Next(Next(Next(sendSequence)));
        if !turn.dataOk {
          return false, sendSequence', nextSend', answer, [];
        }
        nextSend' := turn.now + options.sendIntervalMs * TICKS_PER_MS;
      }
    }

    /** The three frames of a period, numbered one after the other. */
    method BuildData(sendSequence: Word, values: Values) returns (data: seq<seq<Octet>>)
      ensures data == DataFrames(options, sendSequence, values)
    {
      hide IFormat, FloatAsdu, SinglePointAsdu;
      var next := sendSequence;
      var load := BuildFloatMeasurementAsdu(options.commonAddress, options.loadIoa, values.load, values.loadQuality);
      var loadFrame := BuildIFormat(next, 0, load);
      next := Next(next);
      var voltage := BuildFloatMeasurementAsdu(options.commonAddress, options.voltageIoa, values.voltage,
                                               values.voltageQuality);
      var voltageFrame := BuildIFormat(next, 0, voltage);
      next := Next(next);
      var breaker := BuildSinglePointAsdu(options.commonAddress, options.breakerIoa, values.breakerClosed,
                                          values.breakerQuality);
      var breakerFrame := BuildIFormat(next, 0, breaker);
      data := [loadFrame, voltageFrame, breakerFrame];
    }
  }
}
