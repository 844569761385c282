/**
 The client side of one IEC 60870-5-104 link: connecting, STARTDT, the receive loop
 with its TESTFR heartbeat and its acknowledgements, and reconnecting.

 The clock, the socket and the thread that asks to stop are inputs: a run is given the
 attempts it makes, each attempt the turns of its loop, and each turn its head time and
 what the socket did.  An input list that ends stands for running_ becoming false.
 Effects are collected in order as outputs.
 */
module Session {
  import opened Frame
  import opened Time

  datatype Options = Options(heartbeatIntervalMs: int, heartbeatTimeoutMs: int) {
    function Interval(): int { heartbeatIntervalMs * TICKS_PER_MS }
    function Timeout(): int { heartbeatTimeoutMs * TICKS_PER_MS }
  }

  datatype Link = Link(lastRx: int, heartbeatSentAt: int, heartbeatPending: bool, receiveSequence: Word)

  /** What waiting for input led to: nothing, a failed read, or an APDU and whether the reply to it could be sent. */
  datatype Poll = Quiet | Failed | Received(frame: seq<Octet>, at: int, replyOk: bool)

  datatype Turn = Turn(now: int, heartbeatOk: bool, poll: Poll)

  datatype Handshake = NotSent | NotRead | Reply(frame: seq<Octet>)

  datatype Attempt = ConnectFailed | Connected(handshake: Handshake, start: int, turns: seq<Turn>)

  datatype Output =
    | Notified(connected: bool)
    | StartConfirmed
    | Sent(frame: seq<Octet>, at: int)
    | Delivered(content: InfoObject)

  datatype Reason = HeartbeatTimeout | HeartbeatNotSent | ReceiveFailed | ReplyNotSent

  datatype Outcome =
    | Continue(link: Link, output: seq<Output>)
    | Ended(reason: Reason, at: int, link: Link, output: seq<Output>)

  // ------------------------------------------------------- the loop as a function

  function Fresh(start: int): Link {
    Link(start, start, false, 0)
  }

  function Deliveries(objects: seq<InfoObject>): seq<Output> {
    if objects == [] then [] else [Delivered(objects[0])] + Deliveries(objects[1..])
  }

  function NextSequence(frame: seq<Octet>): Word
    requires SendSequence(frame) < 0x8000
  {
    SendSequence(frame) + 1
  }

  lemma SendSequenceBound(frame: seq<Octet>)
    ensures SendSequence(frame) < 0x8000
  {
  }

  predicate HeartbeatDue(options: Options, link: Link, now: int) {
    !link.heartbeatPending && options.heartbeatIntervalMs > 0 && now - link.lastRx >= options.Interval()
  }

  predicate HeartbeatOverdue(options: Options, link: Link, now: int) {
    link.heartbeatPending && options.heartbeatTimeoutMs > 0 && now - link.heartbeatSentAt >= options.Timeout()
  }

  /** The part of a turn that follows a successful read. */
  function OnFrame(link: Link, frame: seq<Octet>, now: int, at: int, replyOk: bool): Outcome {
    var heard := link.(lastRx := at);
    if IsFixedU(frame, 0x83) then Continue(heard.(heartbeatPending := false), [])
    else if IsFixedU(frame, 0x43) then
      if replyOk then Continue(heard, [Sent(TESTFR_CON, at)]) else Ended(ReplyNotSent, now, heard, [])
    else if FormatOf(frame) != I then Continue(heard, [])
    else
      SendSequenceBound(frame);
      var counted := heard.(receiveSequence := NextSequence(frame));
      if replyOk then Continue(counted, [Sent(SFormat(counted.receiveSequence), at)] + Deliveries(FrameObjects(frame)))
      else Ended(ReplyNotSent, now, counted, [])
  }

  function Prefixed(output: seq<Output>, outcome: Outcome): Outcome {
    outcome.(output := output + outcome.output)
  }

  function OnPoll(link: Link, now: int, poll: Poll): Outcome {
    match poll
    case Quiet => Continue(link, [])
    case Failed => Ended(ReceiveFailed, now, link, [])
    case Received(frame, at, replyOk) => OnFrame(link, frame, now, at, replyOk)
  }

  function LoopTurn(options: Options, link: Link, turn: Turn): Outcome {
    if HeartbeatOverdue(options, link, turn.now) then Ended(HeartbeatTimeout, turn.now, link, [])
    else if !HeartbeatDue(options, link, turn.now) then OnPoll(link, turn.now, turn.poll)
    else if !turn.heartbeatOk then Ended(HeartbeatNotSent, turn.now, link, [])
    else Prefixed([Sent(TESTFR_ACT, turn.now)],
                  OnPoll(link.(heartbeatPending := true, heartbeatSentAt := turn.now), turn.now, turn.poll))
  }

  function RunLoop(options: Options, link: Link, turns: seq<Turn>): Outcome
    decreases |turns|
  {
    if turns == [] then Continue(link, [])
    else
      var outcome := LoopTurn(options, link, turns[0]);
      if outcome.Ended? then outcome
      else Prefixed(outcome.output, RunLoop(options, outcome.link, turns[1..]))
  }

  predicate Started(handshake: Handshake) {
    handshake.Reply? && IsFixedU(handshake.frame, 0x0b)
  }

  function AttemptOutput(options: Options, attempt: Attempt): seq<Output> {
    match attempt
    case ConnectFailed => []
    case Connected(handshake, start, turns) =>
      [Notified(true)]
      + (if handshake.NotSent? then [] else [Sent(STARTDT_ACT, start)])
      + (if Started(handshake) then [StartConfirmed] + RunLoop(options, Fresh(start), turns).output else [])
      + [Notified(false)]
  }

  function RunOutput(options: Options, attempts: seq<Attempt>): seq<Output> {
    if attempts == [] then []
    else AttemptOutput(options, attempts[0]) + RunOutput(options, attempts[1..])
  }

  function Flatten(runs: seq<seq<Attempt>>): seq<Attempt> {
    if runs == [] then [] else runs[0] + Flatten(runs[1..])
  }

  lemma {:induction false} RunOutputAppend(options: Options, a: seq<Attempt>, b: seq<Attempt>)
    ensures RunOutput(options, a + b) == RunOutput(options, a) + RunOutput(options, b)
    decreases |a|
  {
    hide AttemptOutput;
    if a == [] {
      assert a + b == b;
    } else {
      assert (a + b)[0] == a[0] && (a + b)[1..] == a[1..] + b;
      RunOutputAppend(options, a[1..], b);
    }
  }

  // ---------------------------------------------------------------- the client

  class Iec104Client {
    const options: Options
    var running: bool
    var connected: bool
    var receiveSequence: Word
    var output: seq<Output>

    constructor (options: Options)
      ensures this.options == options && !running && !connected && output == []
    {
      this.options, running, connected, receiveSequence, output := options, false, false, 0, [];
    }

    /** Whether a worker is to be launched: not if one is already running. */
    method Start() returns (launch: bool)
      modifies this`running
      ensures running && launch == !old(running)
    {
      launch := !running;
      running := true;
    }

    /** Withdraws the permission to run, joins the worker and reports the link as down. */
    method Stop(attempts: seq<Attempt>)
      requires !connected
      modifies this
      ensures !running && !connected
      ensures output == old(output) + if old(running) then RunOutput(options, attempts) else []
    {
      if !running {
        return;
      }
      running := false;
      Run(attempts);
      NotifyConnection(false);
    }

    /** A client started and stopped again and again; a worker makes its attempts between a start and the stop that
        joins it. */
    method Lifetime(runs: seq<seq<Attempt>>)
      requires !running && !connected
      modifies this
      ensures !running && !connected
      ensures output == old(output) + RunOutput(options, Flatten(runs))
    {
      hide AttemptOutput;
      var index := 0;
      while index < |runs|
        invariant 0 <= index <= |runs| && !running && !connected
        invariant output + RunOutput(options, Flatten(runs[index..])) == old(output) + RunOutput(options, Flatten(runs))
      {
        assert runs[index..][0] == runs[index] && runs[index..][1..] == runs[index + 1..];
        RunOutputAppend(options, runs[index], Flatten(runs[index + 1..]));
        var launched := Start();
        Stop(runs[index]);
        index := index + 1;
      }
      assert runs[index..] == [];
    }

    /** Tells the handler only when the state changes. */
    method NotifyConnection(now: bool)
      modifies this`connected, this`output
      ensures connected == now
      ensures output == old(output) + if old(connected) != now then [Notified(now)] else []
    {
      var previous := connected;
      connected := now;
      if previous != now {
        output := output + [Notified(now)];
      }
    }

    method PerformStartDt(handshake: Handshake, start: int) returns (ok: bool)
      modifies this`output
      ensures ok == Started(handshake)
      ensures output == old(output) + if handshake.NotSent? then [] else [Sent(STARTDT_ACT, start)]
    {
      if handshake.NotSent? {
        return false;
      }
      output := output + [Sent(STARTDT_ACT, start)];
      if handshake.NotRead? {
        return false;
      }
      return IsFixedU(handshake.frame, 0x0b);
    }

    method Deliver(objects: seq<InfoObject>)
      modifies this`output
      ensures output == old(output) + Deliveries(objects)
    {
      var index := 0;
      while index < |objects|
        invariant 0 <= index <= |objects|
        invariant output + Deliveries(objects[index..]) == old(output) + Deliveries(objects)
      {
        output := output + [Delivered(objects[index])];
        assert objects[index..][1..] == objects[index + 1..];
        index := index + 1;
      }
    }

    /** The rest of a turn once an APDU was read: U frames, other frames, data. */
    method HandleFrame(ghost link: Link, pending: bool, frame: seq<Octet>, now: int, at: int, replyOk: bool)
      returns (goOn: bool, stillPending: bool)
      requires pending == link.heartbeatPending && receiveSequence == link.receiveSequence
      modifies this`receiveSequence, this`output
      ensures var outcome := OnFrame(link, frame, now, at, replyOk);
              && goOn == outcome.Continue? && stillPending == outcome.link.heartbeatPending
              && receiveSequence == outcome.link.receiveSequence && output == old(output) + outcome.output
    {
      hide IsFixedU, FormatOf, SendSequence, SFormat, FrameObjects, Deliveries;
      stillPending := pending;
      if IsFixedU(frame, 0x83) {
        return true, false;
      }
      if IsFixedU(frame, 0x43) {
        if !replyOk {
          return false, stillPending;
        }
        output := output + [Sent(TESTFR_CON, at)];
        return true, stillPending;
      }
      if FormatOf(frame) != I {
        return true, stillPending;
      }
      HandleData(frame, at, replyOk);
      return replyOk, stillPending;
    }

    /** A data frame: the next expected number, its acknowledgement and, if that got out, its objects. */
    method HandleData(frame: seq<Octet>, at: int, replyOk: bool)
      modifies this`receiveSequence, this`output
      ensures SendSequence(frame) < 0x8000 && receiveSequence == NextSequence(frame)
      ensures output == old(output)
                        + if replyOk then [Sent(SFormat(receiveSequence), at)] + Deliveries(FrameObjects(frame)) else []
    {
      SendSequenceBound(frame);
      hide SendSequence, SFormat, FrameObjects, Deliveries;
      receiveSequence := SendSequence(frame) + 1;
      if !replyOk {
        return;
      }
      output := output + [Sent(SFormat(receiveSequence), at)];
      Deliver(FrameObjects(frame));
    }

    /** The receive loop of one session, from the moment the transfer was started. */
    method RunSession(start: int, turns: seq<Turn>)
      requires receiveSequence == 0
      modifies this`receiveSequence, this`output
      ensures output == old(output) + RunLoop(options, Fresh(start), turns).output
      ensures receiveSequence == RunLoop(options, Fresh(start), turns).link.receiveSequence
    {
      hide LoopTurn, OnPoll, OnFrame;
      var lastRx, heartbeatSentAt, heartbeatPending := start, start, false;
      var index := 0;
      ghost var expected := RunLoop(options, Fresh(start), turns);
      assert turns[0..] == turns;
      while index < |turns|
        invariant 0 <= index <= |turns|
        invariant Resumes(options, Link(lastRx, heartbeatSentAt, heartbeatPending, receiveSequence), turns, index,
                          old(output), output, expected)
      {
        var turn := turns[index];
        ghost var link := Link(lastRx, heartbeatSentAt, heartbeatPending, receiveSequence);
        ghost var sofar := output;
        ghost var outcome := LoopTurn(options, link, turn);
        assert turns[index..][0] == turn && turns[index..][1..] == turns[index + 1..];
        var goOn;
        goOn, lastRx, heartbeatSentAt, heartbeatPending := OneTurn(lastRx, heartbeatSentAt, heartbeatPending, turn);
        if !goOn {
          return;
        }
        index := index + 1;
      }
    }

    /** One turn of the loop: the overdue check, the heartbeat, the poll. */
    method OneTurn(lastRx: int, heartbeatSentAt: int, heartbeatPending: bool, turn: Turn)
      returns (goOn: bool, lastRx': int, heartbeatSentAt': int, heartbeatPending': bool)
      modifies this`receiveSequence, this`output
      ensures var outcome := LoopTurn(options, Link(lastRx, heartbeatSentAt, heartbeatPending, old(receiveSequence)),
                                      turn);
              && goOn == outcome.Continue?
              && output == old(output) + outcome.output
              && receiveSequence == outcome.link.receiveSequence
              && (goOn ==> outcome.link == Link(lastRx', heartbeatSentAt', heartbeatPending', receiveSequence))
    {
      lastRx', heartbeatSentAt', heartbeatPending' := lastRx, heartbeatSentAt, heartbeatPending;
      if heartbeatPending && options.heartbeatTimeoutMs > 0 && turn.now - heartbeatSentAt >= options.Timeout() {
        return false, lastRx', heartbeatSentAt', heartbeatPending';
      }
      if !heartbeatPending && options.heartbeatIntervalMs > 0 && turn.now - lastRx >= options.Interval() {
        if !turn.heartbeatOk {
          return false, lastRx', heartbeatSentAt', heartbeatPending';
        }
        output := output + [Sent(TESTFR_ACT, turn.now)];
        heartbeatPending' := true;
        heartbeatSentAt' := turn.now;
      }
      if turn.poll.Quiet? {
        return true, lastRx', heartbeatSentAt', heartbeatPending';
      }
      if turn.poll.Failed? {
        return false, lastRx', heartbeatSentAt', heartbeatPending';
      }
      ghost var link := Link(lastRx', heartbeatSentAt', heartbeatPending', receiveSequence);
      lastRx' := turn.poll.at;
      goOn, heartbeatPending' := HandleFrame(link, heartbeatPending', turn.poll.frame, turn.now, turn.poll.at,
                                             turn.poll.replyOk);
    }

    /** Attempt after attempt until asked to stop; it always leaves the client disconnected. */
    method Run(attempts: seq<Attempt>)
      requires !connected
      modifies this`connected, this`receiveSequence, this`output
      ensures !connected
      ensures output == old(output) + RunOutput(options, attempts)
    {
      hide AttemptOutput;
      var index := 0;
      while index < |attempts|
        invariant 0 <= index <= |attempts| && !connected
        invariant output + RunOutput(options, attempts[index..]) == old(output) + RunOutput(options, attempts)
      {
        assert attempts[index..][0] == attempts[index] && attempts[index..][1..] == attempts[index + 1..];
        RunAttempt(attempts[index]);
        index := index + 1;
      }
      assert attempts[index..] == [];
    }

    method RunAttempt(attempt: Attempt)
      requires !connected
      modifies this`connected, this`receiveSequence, this`output
      ensures !connected
      ensures output == old(output) + AttemptOutput(options, attempt)
    {
      hide RunLoop, Started, IsFixedU;
      if attempt.ConnectFailed? {
        NotifyConnection(false);
        return;
      }
      NotifyConnection(true);
      receiveSequence := 0;
      var ok := PerformStartDt(attempt.handshake, attempt.start);
      ghost var opening := output;
      if ok {
        output := output + [StartConfirmed];
        RunSession(attempt.start, attempt.turns);
        assert output == opening + ([StartConfirmed] + RunLoop(options, Fresh(attempt.start), attempt.turns).output);
      }
      NotifyConnection(false);
    }
  }

  /** From turn index on, the function still owes what the method has not put out yet. */
  ghost predicate Resumes(options: Options, link: Link, turns: seq<Turn>, index: nat, before: seq<Output>,
                          output: seq<Output>, expected: Outcome)
    requires index <= |turns|
  {
    var rest := RunLoop(options, link, turns[index..]);
    output + rest.output == before + expected.output && rest.link.receiveSequence == expected.link.receiveSequence
  }
}
