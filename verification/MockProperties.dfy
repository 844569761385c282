/**
 When the mock server speaks: what opens a session, what it answers, and at which times data goes out.
 */
module MockProperties {
  import opened Frame
  import opened Time
  import opened Mock
  import opened SessionOctets

  /** A duration in nanoseconds, rounded toward zero to whole seconds, reaches a number of seconds. */
  predicate Reached(duration: int, seconds: int) {
    if seconds > 0 then duration >= seconds * 1_000_000_000 else duration > (seconds - 1) * 1_000_000_000
  }

  lemma WholeSecondsReach(duration: int, seconds: int)
    ensures WholeSeconds(duration) >= seconds <==> Reached(duration, seconds)
  {
  }

  predicate Dropped(options: MockOptions, elapsed: int) {
    options.dropEverySeconds > 0 && elapsed >= options.dropEverySeconds * 1_000_000_000
  }

  predicate Quiet(options: MockOptions, elapsed: int) {
    options.stale && Reached(elapsed, options.quietAfterSeconds)
  }

  /**
   A turn sends data exactly if the time has come, the link is not dropped nor broken, the server is not in its quiet
   phase and the socket takes the frames; the next time is then one interval later.
   */
  lemma TurnSendsExactly(options: MockOptions, start: int, state: MockState, turn: MockTurn)
    ensures var outcome, elapsed := MockStep(options, start, state, turn), turn.now - start;
            && (outcome.data != [] <==>
                  && turn.now >= state.nextSend && turn.dataOk && !turn.poll.Broken?
                  && !Dropped(options, elapsed) && !Quiet(options, elapsed))
            && (outcome.data != [] ==>
                  && |outcome.data| == 3 && outcome.goOn
                  && outcome.state.nextSend == turn.now + options.sendIntervalMs * 1_000_000)
    ensures var outcome := MockStep(options, start, state, turn);
            outcome.goOn ==>
              || outcome.state.nextSend == state.nextSend
              || (turn.now >= state.nextSend
                  && outcome.state.nextSend == turn.now + options.sendIntervalMs * 1_000_000
                  && (outcome.data != [] || options.stale))
  {
    hide WholeSeconds, IsFixedU, AnswerOnWire, LoadFrame, VoltageFrame, BreakerFrame, Reached;
    WholeSecondsReach(turn.now - start, options.dropEverySeconds);
    WholeSecondsReach(turn.now - start, options.quietAfterSeconds);
    DropTime(turn.now - start, options.dropEverySeconds);
  }

  lemma DropTime(duration: int, seconds: int)
    ensures seconds > 0 ==> (Reached(duration, seconds) <==> duration >= seconds * 1_000_000_000)
  {
  }

  /** The times at which a session sends data. */
  function DataTimes(options: MockOptions, start: int, state: MockState, turns: seq<MockTurn>): seq<int>
    decreases |turns|
  {
    if turns == [] then []
    else
      var outcome := MockStep(options, start, state, turns[0]);
      (if outcome.data != [] then [turns[0].now] else [])
      + if outcome.goOn then DataTimes(options, start, outcome.state, turns[1..]) else []
  }

  ghost predicate Spaced(times: seq<int>, gap: int) {
    forall i :: 0 <= i < |times| - 1 ==> times[i + 1] >= times[i] + gap
  }

  lemma NoneSpaced(gap: int)
    ensures Spaced([], gap)
  {
  }

  lemma SpacedAfter(time: int, times: seq<int>, gap: int)
    requires Spaced(times, gap) && (times != [] ==> times[0] >= time + gap)
    ensures Spaced([time] + times, gap)
  {
  }

  lemma {:induction false} LaterPeriods(options: MockOptions, start: int, state: MockState, turns: seq<MockTurn>)
    requires options.sendIntervalMs >= 0 || !options.stale
    ensures var times := DataTimes(options, start, state, turns);
            Spaced(times, options.sendIntervalMs * 1_000_000) && (times != [] ==> times[0] >= state.nextSend)
    decreases |turns|
  {
    hide MockStep, Dropped, Quiet, Spaced;
    var gap := options.sendIntervalMs * 1_000_000;
    NoneSpaced(gap);
    if turns != [] {
      var now := turns[0].now;
      TurnSendsExactly(options, start, state, turns[0]);
      var outcome := MockStep(options, start, state, turns[0]);
      if outcome.goOn {
        LaterPeriods(options, start, outcome.state, turns[1..]);
        var rest := DataTimes(options, start, outcome.state, turns[1..]);
        if outcome.data != [] {
          assert DataTimes(options, start, state, turns) == [now] + rest;
          SpacedAfter(now, rest, gap);
        } else {
          assert DataTimes(options, start, state, turns) == rest;
        }
      } else {
        assert DataTimes(options, start, state, turns) == [];
      }
    }
  }

  lemma {:induction false} PeriodsAllowed(options: MockOptions, start: int, state: MockState, turns: seq<MockTurn>)
    ensures forall t <- DataTimes(options, start, state, turns) ::
              !Dropped(options, t - start) && !Quiet(options, t - start)
    decreases |turns|
  {
    hide MockStep, Dropped, Quiet;
    if turns != [] {
      TurnSendsExactly(options, start, state, turns[0]);
      var outcome := MockStep(options, start, state, turns[0]);
      if outcome.goOn {
        PeriodsAllowed(options, start, outcome.state, turns[1..]);
      }
    }
  }

  /** The data periods of a session begin at its start, are at least an interval apart (if the server has a quiet phase,
      for any interval that is not negative), and none of them falls into the quiet phase or after the time of the drop,
      whatever the clock does. */
  lemma PeriodsSpaced(options: MockOptions, start: int, turns: seq<MockTurn>)
    ensures var times := DataTimes(options, start, MockState(0, start), turns);
            && (options.sendIntervalMs >= 0 || !options.stale ==>
                  && (times != [] ==> times[0] >= start)
                  && forall i :: 0 <= i < |times| - 1 ==>
                       times[i + 1] >= times[i] + options.sendIntervalMs * 1_000_000)
            && (forall t <- times :: options.dropEverySeconds > 0 ==>
                  t - start < options.dropEverySeconds * 1_000_000_000)
            && (forall t <- times :: options.stale ==> !Reached(t - start, options.quietAfterSeconds))
  {
    hide DataTimes;
    if options.sendIntervalMs >= 0 || !options.stale {
      LaterPeriods(options, start, MockState(0, start), turns);
    }
    PeriodsAllowed(options, start, MockState(0, start), turns);
  }

  /** What a frame is answered with: TESTFR act and STARTDT act with their confirmations, anything else with nothing. */
  lemma AnswersExactly(frame: seq<Octet>, delivery: Delivery)
    ensures var answer := AnswerOnWire(frame, delivery);
            if frame == [0x68, 4, 0x43, 0, 0, 0] then
              |answer| == 1 && answer[0] <= [0x68, 4, 0x83, 0, 0, 0] && (delivery.Whole? <==> |answer[0]| == 6)
            else if frame == [0x68, 4, 0x07, 0, 0, 0] then
              |answer| == 1 && answer[0] <= [0x68, 4, 0x0b, 0, 0, 0] && (delivery.Whole? <==> |answer[0]| == 6)
            else answer == []
  {
    hide IsFixedU;
    FixedOctets(frame, 0x43);
    FixedOctets(frame, 0x07);
  }

  /** A session answers STARTDT act first, and without it there is none. */
  lemma SessionOpens(options: MockOptions, opening: seq<Octet>, confirmation: Delivery, start: int,
                     turns: seq<MockTurn>)
    ensures var sent := SessionOutput(options, opening, confirmation, start, turns);
            && (sent != [] <==> opening == [0x68, 4, 0x07, 0, 0, 0])
            && (sent != [] ==> sent[0] <= [0x68, 4, 0x0b, 0, 0, 0])
            && (sent != [] && sent[0] != [0x68, 4, 0x0b, 0, 0, 0] ==> |sent| == 1)
  {
    hide IsFixedU, MockOutput;
    FixedOctets(opening, 0x07);
  }
}
