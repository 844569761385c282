/**
 One session of the client against the mock server over two channels, each of which may be cut after any octet.  The two
 sides run their own step functions; a frame is read only when the octets that have arrived contain it.

 A send after which its side ends the session is a cut made before it.  The one send whose failure its side ignores, the
 server's answer, is a step of its own kind: it may be lost, or torn after any of its octets, and the server goes on.
 */
module LinkComposition {
  import opened Frame
  import opened FrameProperties
  import opened Transport
  import opened Framing
  import opened Session
  import opened SessionProperties
  import opened Mock
  import opened Channels
  import opened Time

  // -------------------------------------------------- what a list of frames holds

  function Carried(frames: seq<seq<Octet>>): seq<InfoObject> {
    if frames == [] then [] else FrameObjects(frames[0]) + Carried(frames[1..])
  }

  function CountData(frames: seq<seq<Octet>>): nat {
    if frames == [] then 0 else (if FormatOf(frames[0]) == I then 1 else 0) + CountData(frames[1..])
  }

  function CountControl(frames: seq<seq<Octet>>, control: Octet): nat {
    if frames == [] then 0 else (if IsFixedU(frames[0], control) then 1 else 0) + CountControl(frames[1..], control)
  }

  /** The data frames carry consecutive send sequence numbers, the first one k, modulo 2^15. */
  ghost predicate Numbered(frames: seq<seq<Octet>>, k: nat) {
    frames == [] ||
    if FormatOf(frames[0]) == I then SendSequence(frames[0]) == k % 0x8000 && Numbered(frames[1..], k + 1)
    else Numbered(frames[1..], k)
  }

  lemma {:induction false} HoldsAppend(a: seq<seq<Octet>>, b: seq<seq<Octet>>, k: nat, control: Octet)
    ensures Carried(a + b) == Carried(a) + Carried(b)
    ensures CountData(a + b) == CountData(a) + CountData(b)
    ensures CountControl(a + b, control) == CountControl(a, control) + CountControl(b, control)
    ensures Numbered(a + b, k) <==> Numbered(a, k) && Numbered(b, k + CountData(a))
    decreases |a|
  {
    hide FrameObjects, FormatOf, IsFixedU, SendSequence;
    if a == [] {
      assert a + b == b;
    } else {
      assert (a + b)[0] == a[0] && (a + b)[1..] == a[1..] + b;
      HoldsAppend(a[1..], b, if FormatOf(a[0]) == I then k + 1 else k, control);
    }
  }

  /** The objects that the three data frames of one period stand for. */
  function Encoded(options: MockOptions, values: Values): seq<InfoObject> {
    [InfoObject(options.loadIoa % 0x100_0000, ShortFloat(values.load), QualityOf(values.loadQuality, true)),
     InfoObject(options.voltageIoa % 0x100_0000, ShortFloat(values.voltage), QualityOf(values.voltageQuality, true)),
     InfoObject(options.breakerIoa % 0x100_0000, SinglePoint(values.breakerClosed),
                QualityOf(values.breakerQuality, false))]
  }

  lemma ControlFrames(control: Octet)
    requires control in {0x07, 0x0b, 0x43, 0x83}
    ensures var f := FixedU(control);
            && IsValidApdu(f) && FormatOf(f) == U && FrameObjects(f) == []
            && forall other: Octet :: IsFixedU(f, other) <==> other == control
  {
  }

  /** What matters here of one data frame: its number and its single object. */
  ghost predicate IsDataFrame(frame: seq<Octet>, k: nat, content: InfoObject) {
    && IsValidApdu(frame) && FormatOf(frame) == I && SendSequence(frame) == k % 0x8000
    && FrameObjects(frame) == [content]
    && !IsFixedU(frame, 0x43) && !IsFixedU(frame, 0x83) && !IsFixedU(frame, 0x0b)
  }

  lemma FloatFrame(frame: seq<Octet>, sequence: Word, k: nat, commonAddress: Word, address: int, raw: Raw,
                   quality: Octet)
    requires frame == IFormat(sequence, 0, FloatAsdu(commonAddress, address, raw, quality))
    requires sequence % 0x8000 == k % 0x8000
    ensures IsDataFrame(frame, k, InfoObject(address % 0x100_0000, ShortFloat(raw), QualityOf(quality, true)))
  {
    FloatRoundTrip(sequence, 0, commonAddress, address, raw, quality);
    hide DecodeFrame, IFormat, FloatAsdu, QualityOf, SendSequence;
    DecodedIsData(frame);
  }

  lemma PointFrame(frame: seq<Octet>, sequence: Word, k: nat, commonAddress: Word, address: int, state: bool,
                   quality: Octet)
    requires frame == IFormat(sequence, 0, SinglePointAsdu(commonAddress, address, state, quality))
    requires sequence % 0x8000 == k % 0x8000
    ensures IsDataFrame(frame, k, InfoObject(address % 0x100_0000, SinglePoint(state), QualityOf(quality, false)))
  {
    SinglePointRoundTrip(sequence, 0, commonAddress, address, state, quality);
    hide DecodeFrame, IFormat, SinglePointAsdu, QualityOf, SendSequence;
    DecodedIsData(frame);
  }

  /** A frame that decodes at all is a valid I frame, and no control frame. */
  lemma DecodedIsData(frame: seq<Octet>)
    ensures DecodeFrame(frame).Some? ==> IsValidApdu(frame) && FormatOf(frame) == I
    ensures FormatOf(frame) == I ==> forall control: Octet :: control % 2 == 1 ==> !IsFixedU(frame, control)
  {
    hide DecodeAsdu;
  }

  lemma BuiltDataFrames(options: MockOptions, sequence: Word, values: Values, k: nat)
    requires sequence == k % 0x1_0000
    ensures var frames, objects := DataFrames(options, sequence, values), Encoded(options, values);
            && IsDataFrame(frames[0], k, objects[0])
            && IsDataFrame(frames[1], k + 1, objects[1])
            && IsDataFrame(frames[2], k + 2, objects[2])
  {
    hide IsDataFrame, IFormat, FloatAsdu, SinglePointAsdu, QualityOf;
    WireNumbers(sequence, k);
    FloatFrame(LoadFrame(options, sequence, values), sequence, k, options.commonAddress, options.loadIoa,
               values.load, values.loadQuality);
    FloatFrame(VoltageFrame(options, Next(sequence), values), Next(sequence), k + 1, options.commonAddress,
               options.voltageIoa, values.voltage, values.voltageQuality);
    PointFrame(BreakerFrame(options, Next(Next(sequence)), values), Next(Next(sequence)), k + 2, options.commonAddress,
               options.breakerIoa, values.breakerClosed, values.breakerQuality);
  }

  lemma WireNumbers(sequence: Word, k: nat)
    requires sequence == k % 0x1_0000
    ensures sequence % 0x8000 == k % 0x8000
    ensures Next(sequence) == (k + 1) % 0x1_0000 && Next(Next(sequence)) == (k + 2) % 0x1_0000
    ensures Next(Next(Next(sequence))) == (k + 3) % 0x1_0000
    ensures Next(sequence) % 0x8000 == (k + 1) % 0x8000 && Next(Next(sequence)) % 0x8000 == (k + 2) % 0x8000
  {
    hide Next;
    NextNumber(sequence, k);
    NextNumber(Next(sequence), k + 1);
    NextNumber(Next(Next(sequence)), k + 2);
  }

  lemma NextNumber(sequence: Word, k: nat)
    requires sequence == k % 0x1_0000
    ensures sequence % 0x8000 == k % 0x8000 && Next(sequence) == (k + 1) % 0x1_0000
  {
    var q, c := k / 0x1_0000, sequence / 0x8000;
    var low: nat := sequence % 0x8000;
    Remainder(k, 2 * q + c, low, 0x8000);
    if sequence + 1 < 0x1_0000 {
      Remainder(k + 1, q, sequence + 1, 0x1_0000);
    } else {
      Remainder(k + 1, q + 1, 0, 0x1_0000);
    }
  }

  lemma ThreeFrames(f0: seq<Octet>, f1: seq<Octet>, f2: seq<Octet>, k: nat, o0: InfoObject, o1: InfoObject,
                    o2: InfoObject)
    requires IsDataFrame(f0, k, o0) && IsDataFrame(f1, k + 1, o1) && IsDataFrame(f2, k + 2, o2)
    ensures var frames := [f0, f1, f2];
            && AllValid(frames) && CountData(frames) == 3 && Numbered(frames, k)
            && Carried(frames) == [o0, o1, o2]
            && CountControl(frames, 0x43) == CountControl(frames, 0x83) == 0
  {
    hide FrameObjects, FormatOf, IsFixedU, SendSequence, IsValidApdu;
    assert [f0, f1, f2][1..] == [f1, f2] && [f1, f2][1..] == [f2] && [f2][1..] == [];
    assert Carried([f2]) == [o2] && CountData([f2]) == 1 && Numbered([f2], k + 2)
           && CountControl([f2], 0x43) == CountControl([f2], 0x83) == 0;
    assert Carried([f1, f2]) == [o1, o2] && CountData([f1, f2]) == 2 && Numbered([f1, f2], k + 1)
           && CountControl([f1, f2], 0x43) == CountControl([f1, f2], 0x83) == 0;
  }

  lemma DataFramesHold(options: MockOptions, sequence: Word, values: Values, k: nat)
    requires sequence == k % 0x1_0000
    ensures var frames := DataFrames(options, sequence, values);
            && AllValid(frames) && CountData(frames) == 3 && Numbered(frames, k)
            && Carried(frames) == Encoded(options, values)
            && CountControl(frames, 0x43) == CountControl(frames, 0x83) == 0
  {
    hide IsDataFrame, LoadFrame, VoltageFrame, BreakerFrame, CountControl, CountData, Numbered, Carried, AllValid;
    BuiltDataFrames(options, sequence, values, k);
    var frames, objects := DataFrames(options, sequence, values), Encoded(options, values);
    ThreeFrames(frames[0], frames[1], frames[2], k, objects[0], objects[1], objects[2]);
    assert frames == [frames[0], frames[1], frames[2]] && objects == [objects[0], objects[1], objects[2]];
  }

  // -------------------------------------------------------------------- worlds

  datatype ClientPhase = Idle | Handshaking | Transferring(link: Link) | Closed

  datatype MockPhase = Waiting | Serving(start: int, state: MockState) | Gone

  /**
   Both ends, both channels, and what has happened: the objects the mock encoded, the objects the client delivered, the
   data frames sent and read, the last acknowledgement the client sent, and the confirmations of a TESTFR act that did
   not get through.
   */
  datatype World = World(client: ClientPhase, mock: MockPhase, up: Channel, down: Channel, encoded: seq<InfoObject>,
                         delivered: seq<InfoObject>, sent: nat, read: nat, ack: seq<Octet>, lost: nat)

  datatype Action =
    | Connect
    | Accept(start: int)
    | AcceptFailed
    | Confirm(start: int)
    | ConfirmFailed
    | ClientTurn(turn: Turn)
    | ServerTurn(serverTurn: MockTurn)
    | CutUp(keep: nat)
    | CutDown(keep: nat)

  const INITIAL := World(Idle, Waiting, NO_CHANNEL, NO_CHANNEL, [], [], 0, 0, [], 0)

  /** Whether a turn of the client's loop gets as far as reading. */
  predicate Polls(options: Options, link: Link, turn: Turn) {
    !HeartbeatOverdue(options, link, turn.now) && (HeartbeatDue(options, link, turn.now) ==> turn.heartbeatOk)
  }

  predicate Enabled(w: World, action: Action) {
    match action
    case Connect => w.client.Idle?
    case Accept(_) => w.mock.Waiting? && ReadMock(w.up.octets).Accepted?
    case AcceptFailed => w.mock.Waiting?
    case Confirm(_) => w.client.Handshaking? && ReadClient(w.down.octets).Accepted?
    case ConfirmFailed => w.client.Handshaking?
    case ClientTurn(turn) =>
      w.client.Transferring? &&
      (turn.poll.Received? ==> ReadClient(w.down.octets).Accepted?
                               && turn.poll.frame == ReadClient(w.down.octets).frame)
    case ServerTurn(turn) =>
      w.mock.Serving? &&
      (turn.poll.Got? ==> ReadMock(w.up.octets).Accepted? && turn.poll.frame == ReadMock(w.up.octets).frame)
    case _ => true
  }

  function FramesSent(output: seq<Output>): seq<seq<Octet>> {
    if output == [] then [] else (if output[0].Sent? then [output[0].frame] else []) + FramesSent(output[1..])
  }

  function ObjectsDelivered(output: seq<Output>): seq<InfoObject> {
    if output == [] then []
    else (if output[0].Delivered? then [output[0].content] else []) + ObjectsDelivered(output[1..])
  }

  function LastAck(frames: seq<seq<Octet>>, previous: seq<Octet>): seq<Octet> {
    if frames == [] then previous
    else LastAck(frames[1..], if FormatOf(frames[0]) == S then frames[0] else previous)
  }

  function ClientStep(options: Options, w: World, link: Link, turn: Turn): World {
    var outcome := LoopTurn(options, link, turn);
    var taken := Polls(options, link, turn) && turn.poll.Received?;
    var frames := FramesSent(outcome.output);
    w.(client := if outcome.Continue? then Transferring(outcome.link) else Closed,
       up := Put(w.up, frames),
       down := if taken then Take(w.down) else w.down,
       delivered := w.delivered + ObjectsDelivered(outcome.output),
       read := w.read + (if taken && FormatOf(turn.poll.frame) == I then 1 else 0),
       ack := LastAck(frames, w.ack))
  }

  /** Whether a turn of the server's loop gets as far as its poll. */
  predicate Serves(options: MockOptions, start: int, turn: MockTurn) {
    !(options.dropEverySeconds > 0 && WholeSeconds(turn.now - start) >= options.dropEverySeconds)
  }

  /** Whether the turn sends a period's data. */
  predicate SendsData(options: MockOptions, start: int, state: MockState, turn: MockTurn) {
    && Serves(options, start, turn) && !turn.poll.Broken? && turn.now >= state.nextSend && turn.dataOk
    && !(options.stale && WholeSeconds(turn.now - start) >= options.quietAfterSeconds)
  }

  /** The frames a turn answers with; there is at most one. */
  function Answers(options: MockOptions, start: int, turn: MockTurn): seq<seq<Octet>> {
    if Serves(options, start, turn) && turn.poll.Got? then Answer(turn.poll.frame) else []
  }

  /** An answer that gets through is a frame in the channel, one that does not at most a torn one. */
  function Replied(c: Channel, answer: seq<seq<Octet>>, reply: Delivery): Channel {
    if answer == [] || reply.Whole? then Put(c, answer) else Tear(c, OnWire(answer[0], reply))
  }

  function ServerStep(options: MockOptions, w: World, start: int, state: MockState, turn: MockTurn): World {
    var outcome := MockStep(options, start, state, turn);
    var sends := SendsData(options, start, state, turn);
    var answer := Answers(options, start, turn);
    w.(mock := if outcome.goOn then Serving(start, outcome.state) else Gone,
       up := if Serves(options, start, turn) && turn.poll.Got? then Take(w.up) else w.up,
       down := Put(Replied(w.down, answer, turn.reply), outcome.data),
       encoded := if sends then w.encoded + Encoded(options, turn.values) else w.encoded,
       sent := if sends then w.sent + 3 else w.sent,
       lost := if turn.reply.Whole? then w.lost else w.lost + CountControl(answer, 0x83))
  }

  function Step(options: Options, mockOptions: MockOptions, w: World, action: Action): World
    requires Enabled(w, action)
  {
    match action
    case Connect => w.(client := Handshaking, up := Put(w.up, [STARTDT_ACT]))
    case Accept(start) =>
      if IsFixedU(ReadMock(w.up.octets).frame, 0x07) then
        w.(mock := Serving(start, MockState(0, start)), up := Take(w.up), down := Put(w.down, [STARTDT_CON]))
      else w.(mock := Gone, up := Take(w.up))
    case AcceptFailed => w.(mock := Gone)
    case Confirm(start) =>
      w.(client := if Started(Reply(ReadClient(w.down.octets).frame)) then Transferring(Fresh(start)) else Closed,
         down := Take(w.down))
    case ConfirmFailed => w.(client := Closed)
    case ClientTurn(turn) => ClientStep(options, w, w.client.link, turn)
    case ServerTurn(turn) => ServerStep(mockOptions, w, w.mock.start, w.mock.state, turn)
    case CutUp(keep) => w.(up := CutAfter(w.up, keep))
    case CutDown(keep) => w.(down := CutAfter(w.down, keep))
  }

  // ----------------------------------------------------------------- invariant

  ghost predicate Ordered(w: World) {
    && ValidChannel(w.up) && w.up.fragment == [] && ValidChannel(w.down)
    && Numbered(Held(w.down), w.read) && w.read + CountData(Held(w.down)) == w.sent
    && (w.mock.Serving? ==> w.mock.state.sendSequence == w.sent % 0x1_0000)
    && (w.mock.Waiting? ==> Held(w.down) == [] && w.sent == 0 && w.lost == 0)
  }

  ghost predicate Conserved(w: World) {
    if w.client.Closed? then w.delivered <= w.encoded else w.delivered + Carried(Held(w.down)) == w.encoded
  }

  /** Heartbeat exchanges under way: acts not yet read by the mock and confirmations not yet read by the client. */
  ghost function InFlight(w: World): nat {
    CountControl(Held(w.up), 0x43) + CountControl(Held(w.down), 0x83)
  }

  /** The last acknowledgement counts n data frames, if any were read. */
  ghost predicate Counts(ack: seq<Octet>, n: nat) {
    n > 0 ==> FormatOf(ack) == S && ReceiveSequence(ack) == n % 0x8000
  }

  ghost predicate Phased(w: World) {
    match w.client
    case Idle => Held(w.up) == [] && Held(w.down) == [] && w.read == 0 && !w.mock.Serving? && w.lost == 0
    case Handshaking =>
      && w.read == 0 && (w.mock.Serving? ==> Held(w.down) != []) && InFlight(w) == 0 && w.lost == 0
      && (Held(w.down) != [] ==> IsFixedU(Held(w.down)[0], 0x0b))
    case Transferring(link) =>
      && !w.mock.Waiting?
      && InFlight(w) + w.lost == (if link.heartbeatPending then 1 else 0)
      && Counts(w.ack, w.read)
    case Closed => Counts(w.ack, w.read) || (w.read > 0 && Counts(w.ack, w.read - 1))
  }

  ghost predicate Sound(w: World) {
    Ordered(w) && Conserved(w) && Phased(w)
  }

  /** Everything holds unless octets went out behind a torn answer. */
  ghost predicate Inv(w: World) {
    w.down.garbled || Sound(w)
  }

  // ------------------------------------------------- what a client turn puts out

  lemma {:induction false} DeliveriesPutOut(objects: seq<InfoObject>)
    ensures FramesSent(Deliveries(objects)) == [] && ObjectsDelivered(Deliveries(objects)) == objects
    decreases |objects|
  {
    if objects != [] {
      DeliveriesPutOut(objects[1..]);
      assert Deliveries(objects)[1..] == Deliveries(objects[1..]);
    }
  }

  /** Whether a frame is read as data and its acknowledgement goes out. */
  predicate Acknowledges(frame: seq<Octet>, replyOk: bool) {
    FormatOf(frame) == I && replyOk
  }

  function AckOf(frame: seq<Octet>): seq<Octet> {
    SendSequenceBound(frame);
    SFormat(NextSequence(frame))
  }

  /** The frames and objects put out after a read: one acknowledgement and the objects of a data frame, or no objects.
      */
  lemma FramePutsOut(link: Link, frame: seq<Octet>, now: int, at: int, replyOk: bool, previous: seq<Octet>)
    ensures var output := OnFrame(link, frame, now, at, replyOk).output;
            && AllValid(FramesSent(output)) && CountControl(FramesSent(output), 0x43) == 0
            && ObjectsDelivered(output) == (if Acknowledges(frame, replyOk) then FrameObjects(frame) else [])
            && LastAck(FramesSent(output), previous) == (if Acknowledges(frame, replyOk) then AckOf(frame)
                                                         else previous)
  {
    var output := OnFrame(link, frame, now, at, replyOk).output;
    DeliveriesPutOut(FrameObjects(frame));
    ControlFrames(0x83);
    if Acknowledges(frame, replyOk) {
      var ack := AckOf(frame);
      SFormatFields(NextSequence(frame));
      assert output[1..] == Deliveries(FrameObjects(frame)) && FramesSent(output) == [ack];
      assert ack[2] == 1 && !IsFixedU(ack, 0x43);
      assert LastAck([ack][1..], ack) == ack;
    } else if output != [] {
      assert output == [Sent(TESTFR_CON, at)] && FramesSent(output[1..]) == [];
      assert FramesSent(output) == [TESTFR_CON];
      assert LastAck([TESTFR_CON][1..], previous) == previous;
    }
  }

  lemma {:induction false} PutOutAppend(act: Output, rest: seq<Output>)
    requires act.Sent?
    ensures FramesSent([act] + rest) == [act.frame] + FramesSent(rest)
    ensures ObjectsDelivered([act] + rest) == ObjectsDelivered(rest)
  {
    assert ([act] + rest)[1..] == rest;
  }

  /** The frame a turn reads, if it reads one. */
  predicate ReadsFrame(options: Options, link: Link, turn: Turn) {
    Polls(options, link, turn) && turn.poll.Received?
  }

  lemma TurnPutsOut(options: Options, link: Link, turn: Turn, previous: seq<Octet>)
    ensures var output := LoopTurn(options, link, turn).output;
            var acked := ReadsFrame(options, link, turn) && Acknowledges(turn.poll.frame, turn.poll.replyOk);
            && AllValid(FramesSent(output))
            && CountControl(FramesSent(output), 0x43) == (if SendsAct(options, link, turn) then 1 else 0)
            && ObjectsDelivered(output) == (if acked then FrameObjects(turn.poll.frame) else [])
            && LastAck(FramesSent(output), previous) == (if acked then AckOf(turn.poll.frame) else previous)
  {
    hide OnFrame, Acknowledges, AckOf;
    var sends := SendsAct(options, link, turn);
    var after := if sends then link.(heartbeatPending := true, heartbeatSentAt := turn.now) else link;
    var rest := OnPoll(after, turn.now, turn.poll).output;
    ControlFrames(0x43);
    if turn.poll.Received? {
      FramePutsOut(after, turn.poll.frame, turn.now, turn.poll.at, turn.poll.replyOk, previous);
    }
    if sends {
      PutOutAppend(Sent(TESTFR_ACT, turn.now), rest);
      assert ([TESTFR_ACT] + FramesSent(rest))[1..] == FramesSent(rest);
    }
  }

  /** How the loop goes on: a confirmation clears the pending heartbeat, and data sets the receive sequence. */
  lemma TurnGoesOn(options: Options, link: Link, turn: Turn)
    requires LoopTurn(options, link, turn).Continue?
    ensures var next := LoopTurn(options, link, turn).link;
            && next.heartbeatPending ==
               ((link.heartbeatPending || SendsAct(options, link, turn))
                && !(ReadsFrame(options, link, turn) && IsFixedU(turn.poll.frame, 0x83)))
            && (ReadsFrame(options, link, turn) && FormatOf(turn.poll.frame) == I ==> turn.poll.replyOk)
  {
  }

  // -------------------------------------------------------- every step keeps it

  /** What reading the oldest frame takes out of a channel. */
  lemma Taken(c: Channel, k: nat, control: Octet)
    requires ValidChannel(c) && (ReadClient(c.octets).Accepted? || ReadMock(c.octets).Accepted?)
    ensures c.frames != [] && ReadClient(c.octets).Accepted? && ReadClient(c.octets).frame == c.frames[0]
    ensures ReadMock(c.octets) == ReadClient(c.octets)
    ensures ValidChannel(Take(c)) && Take(c).fragment == c.fragment && Held(c) == [c.frames[0]] + Held(Take(c))
    ensures var f, after := c.frames[0], Held(Take(c));
            && CountControl(Held(c), control) == (if IsFixedU(f, control) then 1 else 0) + CountControl(after, control)
            && CountData(Held(c)) == (if FormatOf(f) == I then 1 else 0) + CountData(after)
            && Carried(Held(c)) == FrameObjects(f) + Carried(after)
            && (Numbered(Held(c), k) <==>
                if FormatOf(f) == I then SendSequence(f) == k % 0x8000 && Numbered(after, k + 1)
                else Numbered(after, k))
  {
    hide ReadClient, ReadMock, FrameObjects, FormatOf, IsFixedU, SendSequence, ValidChannel, Held;
    TakeKeeps(c);
    assert Held(c)[0] == c.frames[0] && Held(c)[1..] == Held(Take(c));
  }

  lemma OnlyDataCarries(frame: seq<Octet>)
    ensures FormatOf(frame) != I ==> FrameObjects(frame) == []
    ensures FormatOf(frame) == I ==> forall control: Octet :: control % 2 == 1 ==> !IsFixedU(frame, control)
  {
  }

  lemma AckNumber(frame: seq<Octet>, k: nat)
    requires FormatOf(frame) == I && SendSequence(frame) == k % 0x8000
    ensures FormatOf(AckOf(frame)) == S && ReceiveSequence(AckOf(frame)) == (k + 1) % 0x8000
  {
    hide FormatOf, ReceiveSequence, SFormat, SendSequence;
    SFormatFields(NextSequence(frame));
    assert (k % 0x8000 + 1) % 0x8000 == (k + 1) % 0x8000;
  }

  lemma ClientKeeps(options: Options, w: World, turn: Turn)
    requires Sound(w) && Enabled(w, ClientTurn(turn))
    ensures Sound(ClientStep(options, w, w.client.link, turn))
  {
    hide LoopTurn, Carried, CountData, CountControl, Numbered, FrameObjects, FormatOf, IsFixedU, SendSequence,
      ReceiveSequence, LastAck, FramesSent, ObjectsDelivered, AckOf, Put, Take, ValidChannel, SFormat, AllValid,
      SendsAct, Held;
    var link, w' := w.client.link, ClientStep(options, w, w.client.link, turn);
    var outcome := LoopTurn(options, link, turn);
    var frames := FramesSent(outcome.output);
    TurnPutsOut(options, link, turn, w.ack);
    UpHolds(w.up, frames);
    if ReadsFrame(options, link, turn) {
      var f := turn.poll.frame;
      Taken(w.down, w.read, 0x83);
      OnlyDataCarries(f);
      if FormatOf(f) == I {
        AckNumber(f, w.read);
      }
    }
    if outcome.Continue? {
      TurnGoesOn(options, link, turn);
      ActNeedsNoPending(options, link, turn);
    }
  }

  /** The client's frames always get into its channel whole: a send that fails ends its session. */
  lemma UpHolds(c: Channel, frames: seq<seq<Octet>>)
    requires ValidChannel(c) && c.fragment == [] && AllValid(frames)
    ensures ValidChannel(Put(c, frames)) && Put(c, frames).fragment == []
    ensures Held(Put(c, frames)) == Held(c) + frames
    ensures CountControl(Held(Put(c, frames)), 0x43) == CountControl(Held(c), 0x43) + CountControl(frames, 0x43)
  {
    hide CountControl;
    NotGarbled(c, frames);
    PutKeeps(c, frames);
    HoldsAppend(Held(c), frames, 0, 0x43);
  }

  lemma NotGarbled(c: Channel, frames: seq<seq<Octet>>)
    requires !c.garbled && c.fragment == []
    ensures !Put(c, frames).garbled && Put(c, frames).fragment == []
  {
  }

  lemma ActNeedsNoPending(options: Options, link: Link, turn: Turn)
    ensures SendsAct(options, link, turn) ==> !link.heartbeatPending
  {
  }

  /** What the server puts out in one turn: perhaps a period's data, with consecutive numbers. */
  lemma ServerPutsOut(options: MockOptions, start: int, state: MockState, turn: MockTurn)
    ensures var outcome := MockStep(options, start, state, turn);
            if SendsData(options, start, state, turn) then
              && outcome.data == DataFrames(options, state.sendSequence, turn.values)
              && outcome.state.sendSequence == Next(Next(Next(state.sendSequence)))
            else outcome.data == [] && (outcome.goOn ==> outcome.state.sendSequence == state.sendSequence)
  {
    hide DataFrames, AnswerOnWire, Next;
  }

  lemma AnswerHolds(frame: seq<Octet>, k: nat)
    ensures var frames := Answer(frame);
            && AllValid(frames) && Carried(frames) == [] && CountData(frames) == 0 && Numbered(frames, k)
            && CountControl(frames, 0x83) == (if IsFixedU(frame, 0x43) then 1 else 0)
            && (frames != [] ==> frames[0] == FixedU(0x83) || frames[0] == FixedU(0x0b))
  {
    hide FormatOf, FrameObjects, IsFixedU;
    ControlFrames(0x83);
    ControlFrames(0x0b);
    var frames := Answer(frame);
    assert frames != [] ==> frames[1..] == [];
  }

  /** Frames put into the downward channel: what it holds afterwards. */
  lemma DownHolds(c: Channel, frames: seq<seq<Octet>>, k: nat)
    requires ValidChannel(c) && AllValid(frames) && !Put(c, frames).garbled
    requires Numbered(Held(c), k) && Numbered(frames, k + CountData(Held(c)))
    ensures var after := Put(c, frames);
            && ValidChannel(after) && Held(after) == Held(c) + frames
            && Numbered(Held(after), k)
            && CountData(Held(after)) == CountData(Held(c)) + CountData(frames)
            && Carried(Held(after)) == Carried(Held(c)) + Carried(frames)
            && CountControl(Held(after), 0x83) == CountControl(Held(c), 0x83) + CountControl(frames, 0x83)
  {
    hide Numbered, CountData, Carried, CountControl, Held, Put;
    PutKeeps(c, frames);
    HoldsAppend(Held(c), frames, k, 0x83);
  }

  lemma TornIsTorn(frame: seq<Octet>, delivery: Delivery)
    requires IsValidApdu(frame) && delivery.Torn?
    ensures IsTorn(OnWire(frame, delivery)) && |OnWire(frame, delivery)| < |frame|
  {
    assert OnWire(frame, delivery) <= frame;
  }

  /** Held after an answer: one confirmation more if it got through, and otherwise nothing. */
  lemma RepliedHolds(c: Channel, answer: seq<seq<Octet>>, reply: Delivery, k: nat)
    requires ValidChannel(c) && AllValid(answer) && |answer| <= 1 && !Replied(c, answer, reply).garbled
    requires Numbered(Held(c), k) && Numbered(answer, k + CountData(Held(c))) && CountData(answer) == 0
             && Carried(answer) == []
    ensures var after := Replied(c, answer, reply);
            && ValidChannel(after) && Held(after) == (if reply.Whole? then Held(c) + answer else Held(c))
            && Numbered(Held(after), k) && CountData(Held(after)) == CountData(Held(c))
            && Carried(Held(after)) == Carried(Held(c))
            && CountControl(Held(after), 0x83) + (if reply.Whole? then 0 else CountControl(answer, 0x83))
               == CountControl(Held(c), 0x83) + CountControl(answer, 0x83)
  {
    if answer == [] || reply.Whole? {
      hide Numbered, CountData, Carried, CountControl, Held, Put;
      DownHolds(c, answer, k);
      assert Held(c) + [] == Held(c) && Carried(Held(c)) + [] == Carried(Held(c));
    } else {
      hide Numbered, CountData, Carried, CountControl, Held, OnWire, Tear;
      TornIsTorn(answer[0], reply);
      TearKeeps(c, OnWire(answer[0], reply));
    }
  }

  lemma NothingAnswered(k: nat)
    ensures var none: seq<seq<Octet>> := [];
            && Carried(none) == [] && CountData(none) == 0 && Numbered(none, k) && AllValid(none)
            && CountControl(none, 0x43) == CountControl(none, 0x83) == 0
  {
  }

  lemma AnswersHold(options: MockOptions, start: int, turn: MockTurn, k: nat)
    ensures var answer := Answers(options, start, turn);
            && AllValid(answer) && |answer| <= 1 && Numbered(answer, k) && CountData(answer) == 0
            && Carried(answer) == []
            && CountControl(answer, 0x83)
               == (if Serves(options, start, turn) && turn.poll.Got? && IsFixedU(turn.poll.frame, 0x43) then 1 else 0)
            && (answer != [] ==> Serves(options, start, turn) && turn.poll.Got?)
  {
    hide IsFixedU, FormatOf, FrameObjects, Carried, CountData, Numbered, CountControl, AllValid, Serves;
    NothingAnswered(k);
    if Serves(options, start, turn) && turn.poll.Got? {
      AnswerHolds(turn.poll.frame, k);
    }
  }

  /** The data of a turn: three frames numbered from k on, or none. */
  lemma DataHold(options: MockOptions, start: int, state: MockState, turn: MockTurn, k: nat)
    requires state.sendSequence == k % 0x1_0000
    ensures var outcome, sends := MockStep(options, start, state, turn), SendsData(options, start, state, turn);
            && AllValid(outcome.data) && Numbered(outcome.data, k)
            && CountData(outcome.data) == (if sends then 3 else 0)
            && Carried(outcome.data) == (if sends then Encoded(options, turn.values) else [])
            && CountControl(outcome.data, 0x83) == 0
            && (outcome.goOn ==> outcome.state.sendSequence == (k + (if sends then 3 else 0)) % 0x1_0000)
  {
    hide Carried, CountData, CountControl, Numbered, FrameObjects, FormatOf, IsFixedU, DataFrames, Encoded, MockStep,
      Next, SendsData, AllValid;
    ServerPutsOut(options, start, state, turn);
    NothingAnswered(k);
    if SendsData(options, start, state, turn) {
      DataFramesHold(options, state.sendSequence, turn.values, k);
      WireNumbers(state.sendSequence, k);
    }
  }

  /** The downward channel after a turn of the server, if nothing went out behind a torn answer. */
  lemma DownAfterTurn(options: MockOptions, w: World, turn: MockTurn)
    requires Ordered(w) && w.mock.Serving?
    requires !ServerStep(options, w, w.mock.start, w.mock.state, turn).down.garbled
    ensures var start, state := w.mock.start, w.mock.state;
            var w', sends := ServerStep(options, w, start, state, turn), SendsData(options, start, state, turn);
            var con := Serves(options, start, turn) && turn.poll.Got? && IsFixedU(turn.poll.frame, 0x43);
            && ValidChannel(w'.down) && Held(w.down) <= Held(w'.down)
            && Numbered(Held(w'.down), w.read)
            && CountData(Held(w'.down)) == CountData(Held(w.down)) + (if sends then 3 else 0)
            && Carried(Held(w'.down)) == Carried(Held(w.down)) + (if sends then Encoded(options, turn.values) else [])
            && CountControl(Held(w'.down), 0x83) + w'.lost
               == CountControl(Held(w.down), 0x83) + w.lost + (if con then 1 else 0)
  {
    hide Carried, CountData, CountControl, Numbered, IsFixedU, MockStep, Put, Tear, ValidChannel, AllValid, SendsData,
      Serves, Encoded, Answers, Held, Replied;
    var start, state := w.mock.start, w.mock.state;
    var data, answer := MockStep(options, start, state, turn).data, Answers(options, start, turn);
    var replied := Replied(w.down, answer, turn.reply);
    if replied.garbled {
      GarbledStays(replied, data, []);
    }
    AnswersHold(options, start, turn, w.sent);
    RepliedHolds(w.down, answer, turn.reply, w.read);
    DataHold(options, start, state, turn, w.sent);
    DownHolds(replied, data, w.read);
  }

  /** What a turn of the server does apart from the downward channel. */
  lemma UpAfterTurn(options: MockOptions, w: World, turn: MockTurn)
    requires Ordered(w) && Enabled(w, ServerTurn(turn))
    ensures var start, state := w.mock.start, w.mock.state;
            var w', sends := ServerStep(options, w, start, state, turn), SendsData(options, start, state, turn);
            var con := Serves(options, start, turn) && turn.poll.Got? && IsFixedU(turn.poll.frame, 0x43);
            && ValidChannel(w'.up) && w'.up.fragment == []
            && CountControl(Held(w.up), 0x43) == CountControl(Held(w'.up), 0x43) + (if con then 1 else 0)
            && w'.client == w.client && w'.delivered == w.delivered && w'.read == w.read && w'.ack == w.ack
            && w'.sent == w.sent + (if sends then 3 else 0)
            && w'.encoded == w.encoded + (if sends then Encoded(options, turn.values) else [])
            && !w'.mock.Waiting? && (w'.mock.Serving? ==> w'.mock.state.sendSequence == w'.sent % 0x1_0000)
  {
    hide Carried, CountData, CountControl, Numbered, IsFixedU, MockStep, Put, Tear, Take, ValidChannel, AllValid,
      SendsData, Serves, Encoded, Answers, Held, Replied, FormatOf, FrameObjects, SendSequence;
    DataHold(options, w.mock.start, w.mock.state, turn, w.sent);
    assert w.encoded + [] == w.encoded;
    if Serves(options, w.mock.start, turn) && turn.poll.Got? {
      Taken(w.up, 0, 0x43);
    }
  }

  /** The two halves of a server's turn put together. */
  lemma TurnKeeps(w: World, w': World, con: nat, three: nat, objects: seq<InfoObject>)
    requires Sound(w) && !w.mock.Waiting? && !w'.mock.Waiting?
    requires ValidChannel(w'.up) && w'.up.fragment == [] && ValidChannel(w'.down)
    requires w'.client == w.client && w'.delivered == w.delivered && w'.read == w.read && w'.ack == w.ack
    requires w'.sent == w.sent + three && w'.encoded == w.encoded + objects
    requires w'.mock.Serving? ==> w'.mock.state.sendSequence == w'.sent % 0x1_0000
    requires Held(w.down) <= Held(w'.down) && Numbered(Held(w'.down), w.read)
    requires CountData(Held(w'.down)) == CountData(Held(w.down)) + three
    requires Carried(Held(w'.down)) == Carried(Held(w.down)) + objects
    requires CountControl(Held(w.up), 0x43) == CountControl(Held(w'.up), 0x43) + con
    requires CountControl(Held(w'.down), 0x83) + w'.lost == CountControl(Held(w.down), 0x83) + w.lost + con
    requires w.mock.Serving?
    ensures Sound(w')
  {
    hide Carried, CountData, CountControl, Numbered, IsFixedU, ValidChannel, Held, Counts;
    assert w'.delivered + Carried(Held(w'.down)) == w'.delivered + Carried(Held(w.down)) + objects;
  }

  lemma ServerKeeps(options: MockOptions, w: World, turn: MockTurn)
    requires Sound(w) && Enabled(w, ServerTurn(turn))
    requires !ServerStep(options, w, w.mock.start, w.mock.state, turn).down.garbled
    ensures Sound(ServerStep(options, w, w.mock.start, w.mock.state, turn))
  {
    DownAfterTurn(options, w, turn);
    UpAfterTurn(options, w, turn);
    var start, state := w.mock.start, w.mock.state;
    var con := Serves(options, start, turn) && turn.poll.Got? && IsFixedU(turn.poll.frame, 0x43);
    var sends := SendsData(options, start, state, turn);
    hide *;
    TurnKeeps(w, ServerStep(options, w, start, state, turn), if con then 1 else 0, if sends then 3 else 0,
              if sends then Encoded(options, turn.values) else []);
  }

  lemma ConnectKeeps(w: World)
    requires Sound(w) && w.client.Idle?
    ensures Sound(w.(client := Handshaking, up := Put(w.up, [STARTDT_ACT])))
  {
    ControlFrames(0x07);
    assert [STARTDT_ACT][1..] == [];
    hide IsFixedU, FormatOf, FrameObjects, Carried, CountData, Numbered, ValidChannel, Put, Held;
    UpHolds(w.up, [STARTDT_ACT]);
  }

  /** The two channels of a session that was just accepted. */
  lemma AcceptedKeeps(w: World, up: Channel, down: Channel, start: int)
    requires Sound(w) && w.mock.Waiting? && ValidChannel(up) && up.fragment == [] && ValidChannel(down)
    requires Held(w.up) != [] && CountControl(Held(up), 0x43) == CountControl(Held(w.up), 0x43)
    requires Held(down) == [STARTDT_CON]
    ensures Sound(w.(mock := Serving(start, MockState(0, start)), up := up, down := down))
  {
    StartConfirmation(w.read);
    NothingAnswered(w.read);
    hide FormatOf, FrameObjects, ValidChannel, Held, IsFixedU, Carried, CountData, Numbered, CountControl, FixedU,
      SendSequence, ReceiveSequence;
  }

  lemma AcceptKeeps(w: World, start: int)
    requires Sound(w) && w.mock.Waiting? && ReadMock(w.up.octets).Accepted?
    requires IsFixedU(ReadMock(w.up.octets).frame, 0x07)
    requires !Put(w.down, [STARTDT_CON]).garbled
    ensures Sound(w.(mock := Serving(start, MockState(0, start)), up := Take(w.up), down := Put(w.down, [STARTDT_CON])))
  {
    StartConfirmation(w.read);
    StartsOnly(ReadMock(w.up.octets).frame);
    hide FormatOf, FrameObjects, ValidChannel, Put, Take, Held, IsFixedU, Carried, CountData, Numbered, CountControl,
      FixedU, ReadMock, ReadClient, SendSequence, ReceiveSequence, Conserved, Phased;
    Taken(w.up, 0, 0x43);
    PutKeeps(w.down, [STARTDT_CON]);
    assert [] + [STARTDT_CON] == [STARTDT_CON];
    AcceptedKeeps(w, Take(w.up), Put(w.down, [STARTDT_CON]), start);
  }

  lemma StartsOnly(frame: seq<Octet>)
    requires IsFixedU(frame, 0x07)
    ensures !IsFixedU(frame, 0x43)
  {
  }

  lemma StartConfirmation(k: nat)
    ensures var frames := [STARTDT_CON];
            && AllValid(frames) && Numbered(frames, k) && CountData(frames) == 0 && Carried(frames) == []
            && CountControl(frames, 0x83) == 0 && IsFixedU(frames[0], 0x0b)
  {
    ControlFrames(0x0b);
    assert [STARTDT_CON][1..] == [];
    NothingAnswered(k);
  }

  lemma AcceptRefusedKeeps(w: World)
    requires Sound(w) && w.mock.Waiting? && ReadMock(w.up.octets).Accepted?
    ensures Sound(w.(mock := Gone, up := Take(w.up)))
  {
    hide FormatOf, FrameObjects, ValidChannel, Take, Held, IsFixedU, Carried, CountData, Numbered, CountControl;
    Taken(w.up, 0, 0x43);
  }

  lemma ConfirmKeeps(w: World, start: int)
    requires Sound(w) && w.client.Handshaking? && ReadClient(w.down.octets).Accepted?
    ensures IsFixedU(ReadClient(w.down.octets).frame, 0x0b)
    ensures Sound(w.(client := Transferring(Fresh(start)), down := Take(w.down)))
  {
    hide FormatOf, FrameObjects, ValidChannel, Take, Held, IsFixedU, Carried, CountData, Numbered, CountControl,
      ReadClient, ReadMock, ReceiveSequence, SendSequence;
    Taken(w.down, w.read, 0x83);
    ConfirmsOnly(w.down.frames[0]);
    assert Held(w.down) != [] && Held(w.down)[0] == w.down.frames[0];
  }

  lemma ConfirmsOnly(frame: seq<Octet>)
    requires IsFixedU(frame, 0x0b)
    ensures !IsFixedU(frame, 0x83) && FormatOf(frame) == U && FrameObjects(frame) == []
  {
  }

  lemma CutsKeep(w: World, keep: nat)
    requires Sound(w)
    ensures Sound(w.(up := CutAfter(w.up, keep))) && Sound(w.(down := CutAfter(w.down, keep)))
  {
    hide FormatOf, FrameObjects, ValidChannel, Held, IsFixedU, Carried, CountData, Numbered, CountControl;
    CutKeeps(w.up, keep);
    CutKeeps(w.down, keep);
  }

  lemma StepKeeps(options: Options, mockOptions: MockOptions, w: World, action: Action)
    requires Sound(w) && Enabled(w, action) && !Step(options, mockOptions, w, action).down.garbled
    ensures Sound(Step(options, mockOptions, w, action))
  {
    hide ClientStep, ServerStep;
    match action
    case Connect => ConnectKeeps(w);
    case Accept(start) =>
      if IsFixedU(ReadMock(w.up.octets).frame, 0x07) {
        AcceptKeeps(w, start);
      } else {
        AcceptRefusedKeeps(w);
      }
    case Confirm(start) => ConfirmKeeps(w, start);
    case ClientTurn(turn) => ClientKeeps(options, w, turn);
    case ServerTurn(turn) => ServerKeeps(mockOptions, w, turn);
    case CutUp(keep) => CutsKeep(w, keep);
    case CutDown(keep) => CutsKeep(w, keep);
    case _ =>
  }

  /** Once octets went out behind a torn answer, nothing undoes it. */
  lemma StaysGarbled(options: Options, mockOptions: MockOptions, w: World, action: Action)
    requires w.down.garbled && Enabled(w, action)
    ensures Step(options, mockOptions, w, action).down.garbled
  {
    hide LoopTurn, MockStep, ReadClient, ReadMock, Concat, OnWire, IsFixedU;
    if action.ServerTurn? {
      var turn, start := action.serverTurn, w.mock.start;
      var answer := Answers(mockOptions, start, turn);
      GarbledStays(w.down, answer, if answer == [] then [] else OnWire(answer[0], turn.reply));
      GarbledStays(Replied(w.down, answer, turn.reply), MockStep(mockOptions, start, w.mock.state, turn).data, []);
    }
  }

  // ---------------------------------------------------------------------- runs

  /** A run from a world: every action enabled where it is taken. */
  ghost predicate Possible(options: Options, mockOptions: MockOptions, w: World, actions: seq<Action>)
    decreases |actions|
  {
    actions == [] ||
    (Enabled(w, actions[0]) && Possible(options, mockOptions, Step(options, mockOptions, w, actions[0]), actions[1..]))
  }

  ghost function After(options: Options, mockOptions: MockOptions, w: World, actions: seq<Action>): World
    requires Possible(options, mockOptions, w, actions)
    decreases |actions|
  {
    if actions == [] then w
    else After(options, mockOptions, Step(options, mockOptions, w, actions[0]), actions[1..])
  }

  lemma {:induction false} RunKeeps(options: Options, mockOptions: MockOptions, w: World, actions: seq<Action>)
    requires Inv(w) && Possible(options, mockOptions, w, actions)
    ensures Inv(After(options, mockOptions, w, actions))
    decreases |actions|
  {
    hide Sound, Step, Enabled;
    if actions != [] {
      if w.down.garbled {
        StaysGarbled(options, mockOptions, w, actions[0]);
      } else if !Step(options, mockOptions, w, actions[0]).down.garbled {
        StepKeeps(options, mockOptions, w, actions[0]);
      }
      RunKeeps(options, mockOptions, Step(options, mockOptions, w, actions[0]), actions[1..]);
    }
  }

  lemma Untouched(w: World)
    requires w.client.Idle? && w.mock.Waiting? && ValidChannel(w.up) && w.up.fragment == [] && ValidChannel(w.down)
    requires Held(w.up) == [] && Held(w.down) == [] && w.sent == w.read == w.lost == 0
    requires w.delivered == [] && w.encoded == []
    ensures Sound(w)
  {
    NothingAnswered(0);
    hide FormatOf, IsFixedU, FrameObjects, SendSequence, ValidChannel, Held, Carried, CountData, Numbered, CountControl;
  }

  lemma InitialInv()
    ensures Sound(INITIAL)
  {
    EmptyChannel();
    hide Sound, ValidChannel, Held;
    Untouched(INITIAL);
  }

  lemma InvAtAllTimes(options: Options, mockOptions: MockOptions, actions: seq<Action>)
    requires Possible(options, mockOptions, INITIAL, actions)
    ensures Inv(After(options, mockOptions, INITIAL, actions))
  {
    hide Sound, Possible, After;
    InitialInv();
    RunKeeps(options, mockOptions, INITIAL, actions);
  }

  /**
   In every run in which nothing went out behind a torn answer, the delivered objects are a prefix, in order and with
   equal fields, of the objects the mock encoded, and all of them once nothing is in flight.
   */
  lemma DeliveredIsPrefix(options: Options, mockOptions: MockOptions, actions: seq<Action>)
    requires Possible(options, mockOptions, INITIAL, actions)
    requires !After(options, mockOptions, INITIAL, actions).down.garbled
    ensures var w := After(options, mockOptions, INITIAL, actions);
            && w.delivered <= w.encoded
            && (!w.client.Closed? && Held(w.down) == [] ==> w.delivered == w.encoded)
  {
    hide FormatOf, IsFixedU, FrameObjects, SendSequence, ReceiveSequence, Possible, After, Ordered, Phased;
    InvAtAllTimes(options, mockOptions, actions);
    NothingAnswered(0);
  }

  /** In every such run the last acknowledgement counts the data frames received so far, modulo 2^15; once the session
      is over, possibly all but the last of them, whose acknowledgement could not be sent. */
  lemma LastAckCountsFrames(options: Options, mockOptions: MockOptions, actions: seq<Action>)
    requires Possible(options, mockOptions, INITIAL, actions)
    requires !After(options, mockOptions, INITIAL, actions).down.garbled
    ensures var w := After(options, mockOptions, INITIAL, actions);
            && (!w.client.Closed? ==> Counts(w.ack, w.read))
            && (w.client.Closed? ==> Counts(w.ack, w.read) || (w.read > 0 && Counts(w.ack, w.read - 1)))
  {
    hide FormatOf, IsFixedU, FrameObjects, SendSequence, ReceiveSequence, Possible, After, Ordered;
    InvAtAllTimes(options, mockOptions, actions);
  }

  /** In every such run a heartbeat is pending exactly when one exchange is under way or its confirmation was lost, and
      there never is more than one. */
  lemma PendingMeansInFlight(options: Options, mockOptions: MockOptions, actions: seq<Action>)
    requires Possible(options, mockOptions, INITIAL, actions)
    requires !After(options, mockOptions, INITIAL, actions).down.garbled
    ensures var w := After(options, mockOptions, INITIAL, actions);
            w.client.Transferring? ==>
              InFlight(w) + w.lost <= 1 && (w.client.link.heartbeatPending <==> InFlight(w) + w.lost == 1)
  {
    hide FormatOf, IsFixedU, FrameObjects, SendSequence, ReceiveSequence, Possible, After, Ordered;
    InvAtAllTimes(options, mockOptions, actions);
  }
}
