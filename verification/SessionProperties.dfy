/**
 What the client keeps over all runs: the connection handler hears strict alternation,
 nothing is delivered before the transfer was confirmed, heartbeats are paced and
 matched, a pending heartbeat cannot be kept alive by data, and a dead link is found
 within a known time.
 */
module SessionProperties {
  import opened Frame
  import opened Session

  // -------------------------------------------------------- connection reports

  function Notifications(output: seq<Output>): seq<bool> {
    if output == [] then []
    else (if output[0].Notified? then [output[0].connected] else []) + Notifications(output[1..])
  }

  ghost predicate Alternates(flags: seq<bool>) {
    forall i :: 0 <= i < |flags| ==> flags[i] == (i % 2 == 0)
  }

  lemma {:induction false} NotificationsAppend(a: seq<Output>, b: seq<Output>)
    ensures Notifications(a + b) == Notifications(a) + Notifications(b)
    decreases |a|
  {
    if a == [] {
      assert a + b == b;
    } else {
      assert (a + b)[0] == a[0] && (a + b)[1..] == a[1..] + b;
      NotificationsAppend(a[1..], b);
    }
  }

  ghost predicate Silent(output: seq<Output>) {
    forall o <- output :: !o.Notified?
  }

  lemma {:induction false} SilentNotifications(output: seq<Output>)
    requires Silent(output)
    ensures Notifications(output) == []
    decreases |output|
  {
    if output != [] {
      SilentNotifications(output[1..]);
    }
  }

  lemma {:induction false} DeliveriesSilent(objects: seq<InfoObject>)
    ensures Silent(Deliveries(objects)) && forall o <- Deliveries(objects) :: o.Delivered?
    decreases |objects|
  {
    if objects != [] {
      DeliveriesSilent(objects[1..]);
    }
  }

  lemma TurnSilent(options: Options, link: Link, turn: Turn)
    ensures Silent(LoopTurn(options, link, turn).output)
    ensures forall o <- LoopTurn(options, link, turn).output :: o.Sent? || o.Delivered?
  {
    if turn.poll.Received? {
      DeliveriesSilent(FrameObjects(turn.poll.frame));
    }
  }

  lemma {:induction false} LoopSilent(options: Options, link: Link, turns: seq<Turn>)
    ensures Silent(RunLoop(options, link, turns).output)
    ensures forall o <- RunLoop(options, link, turns).output :: o.Sent? || o.Delivered?
    decreases |turns|
  {
    hide LoopTurn;
    if turns != [] {
      TurnSilent(options, link, turns[0]);
      LoopSilent(options, LoopTurn(options, link, turns[0]).link, turns[1..]);
    }
  }

  lemma AttemptNotifications(options: Options, attempt: Attempt)
    ensures Notifications(AttemptOutput(options, attempt)) == if attempt.ConnectFailed? then [] else [true, false]
  {
    hide RunLoop;
    if attempt.Connected? {
      var Connected(handshake, start, turns) := attempt;
      LoopSilent(options, Fresh(start), turns);
      var sent := if handshake.NotSent? then [] else [Sent(STARTDT_ACT, start)];
      var body := if Started(handshake) then [StartConfirmed] + RunLoop(options, Fresh(start), turns).output else [];
      SilentNotifications(sent);
      SilentNotifications(body);
      NotificationsAppend([Notified(true)] + sent + body, [Notified(false)]);
      NotificationsAppend([Notified(true)] + sent, body);
      NotificationsAppend([Notified(true)], sent);
    }
  }

  /** Whatever the attempts do, the handler hears true and false in turn, true first and false last. */
  lemma {:induction false} ConnectionReportsAlternate(options: Options, attempts: seq<Attempt>)
    ensures var flags := Notifications(RunOutput(options, attempts)); Alternates(flags) && |flags| % 2 == 0
    decreases |attempts|
  {
    hide AttemptOutput;
    if attempts != [] {
      var first, rest := AttemptOutput(options, attempts[0]), RunOutput(options, attempts[1..]);
      AttemptNotifications(options, attempts[0]);
      ConnectionReportsAlternate(options, attempts[1..]);
      NotificationsAppend(first, rest);
      var head, tail := Notifications(first), Notifications(rest);
      forall i | 0 <= i < |head + tail| ensures (head + tail)[i] == (i % 2 == 0) {
        if i >= |head| {
          assert (head + tail)[i] == tail[i - |head|];
        }
      }
    }
  }

  // ------------------------------------------------------- nothing before STARTDT

  /** Scanning a trace: a delivery is in order only between a start confirmation and the next connection report. */
  ghost predicate StartsFirst(output: seq<Output>, started: bool) {
    output == [] ||
    (&& (output[0].Delivered? ==> started)
     && StartsFirst(output[1..], if output[0].Notified? then false else started || output[0].StartConfirmed?))
  }

  lemma {:induction false} StartsFirstAppend(a: seq<Output>, b: seq<Output>, started: bool)
    requires a != [] && a[|a| - 1].Notified? && StartsFirst(a, started) && StartsFirst(b, false)
    ensures StartsFirst(a + b, started)
    decreases |a|
  {
    var after := if a[0].Notified? then false else started || a[0].StartConfirmed?;
    assert (a + b)[1..] == a[1..] + b;
    if |a| == 1 {
      assert a[1..] + b == b;
    } else {
      StartsFirstAppend(a[1..], b, after);
    }
  }

  lemma {:induction false} StartedBody(body: seq<Output>)
    requires forall o <- body :: o.Sent? || o.Delivered?
    ensures StartsFirst(body + [Notified(false)], true)
    decreases |body|
  {
    if body == [] {
      assert body + [Notified(false)] == [Notified(false)];
    } else {
      StartedBody(body[1..]);
      assert body[0] in body;
      assert (body + [Notified(false)])[1..] == body[1..] + [Notified(false)];
    }
  }

  lemma AttemptStartsFirst(options: Options, attempt: Attempt)
    ensures StartsFirst(AttemptOutput(options, attempt), false)
  {
    hide RunLoop, Started, IsFixedU;
    if attempt.Connected? {
      var Connected(handshake, start, turns) := attempt;
      var closing := [Notified(false)];
      var body := RunLoop(options, Fresh(start), turns).output;
      LoopSilent(options, Fresh(start), turns);
      StartedBody(body);
      var tail := closing;
      assert StartsFirst(closing, false);
      if Started(handshake) {
        tail := [StartConfirmed] + (body + closing);
        assert tail[0] == StartConfirmed && tail[1..] == body + closing;
      }
      assert StartsFirst(tail, false);
      var sent := if handshake.NotSent? then tail else [Sent(STARTDT_ACT, start)] + tail;
      assert sent != tail ==> sent[1..] == tail;
      assert StartsFirst(sent, false);
      var whole := [Notified(true)] + sent;
      assert whole[1..] == sent;
      assert AttemptOutput(options, attempt) == whole;
    }
  }

  /** In every run, no object reaches the handler in a session that has not received STARTDT con. */
  lemma {:induction false} NoDeliveryBeforeStart(options: Options, attempts: seq<Attempt>)
    ensures StartsFirst(RunOutput(options, attempts), false)
    decreases |attempts|
  {
    hide AttemptOutput;
    if attempts != [] {
      var first, rest := AttemptOutput(options, attempts[0]), RunOutput(options, attempts[1..]);
      AttemptStartsFirst(options, attempts[0]);
      NoDeliveryBeforeStart(options, attempts[1..]);
      if attempts[0].ConnectFailed? {
        assert first == [] && first + rest == rest by { AttemptShape(options, attempts[0]); }
      } else {
        AttemptShape(options, attempts[0]);
        StartsFirstAppend(first, rest, false);
      }
    }
  }

  lemma AttemptShape(options: Options, attempt: Attempt)
    ensures var output := AttemptOutput(options, attempt);
            if attempt.ConnectFailed? then output == []
            else output != [] && output[|output| - 1] == Notified(false)
  {
    hide RunLoop;
  }

  // --------------------------------------------------------- heartbeat discipline

  /** The clock never runs backwards, from one head to the read that follows it and on to the next head. */
  ghost predicate Monotone(turns: seq<Turn>, from: int) {
    turns == [] ||
    (&& from <= turns[0].now
     && (turns[0].poll.Received? ==> turns[0].now <= turns[0].poll.at)
     && Monotone(turns[1..], if turns[0].poll.Received? then turns[0].poll.at else turns[0].now))
  }

  predicate IsAct(output: Output) {
    output.Sent? && output.frame == TESTFR_ACT
  }

  /** The times at which a TESTFR act went out. */
  function ActTimes(output: seq<Output>): seq<int> {
    if output == [] then [] else (if IsAct(output[0]) then [output[0].at] else []) + ActTimes(output[1..])
  }

  /** How many of the turns that were run read a TESTFR con. */
  function ConsRead(options: Options, link: Link, turns: seq<Turn>): nat
    decreases |turns|
  {
    if turns == [] then 0
    else
      var outcome := LoopTurn(options, link, turns[0]);
      (if ReadsCon(options, link, turns[0]) then 1 else 0)
      + (if outcome.Ended? then 0 else ConsRead(options, outcome.link, turns[1..]))
  }

  predicate ReadsCon(options: Options, link: Link, turn: Turn) {
    && !HeartbeatOverdue(options, link, turn.now)
    && (HeartbeatDue(options, link, turn.now) ==> turn.heartbeatOk)
    && turn.poll.Received? && IsFixedU(turn.poll.frame, 0x83)
  }

  predicate SendsAct(options: Options, link: Link, turn: Turn) {
    && !HeartbeatOverdue(options, link, turn.now) && HeartbeatDue(options, link, turn.now) && turn.heartbeatOk
  }

  lemma {:induction false} ActTimesAppend(a: seq<Output>, b: seq<Output>)
    ensures ActTimes(a + b) == ActTimes(a) + ActTimes(b)
    decreases |a|
  {
    hide IsAct;
    if a == [] {
      assert a + b == b;
    } else {
      assert (a + b)[0] == a[0] && (a + b)[1..] == a[1..] + b;
      ActTimesAppend(a[1..], b);
    }
  }

  lemma {:induction false} DeliveriesHoldNoAct(objects: seq<InfoObject>)
    ensures ActTimes(Deliveries(objects)) == []
    decreases |objects|
  {
    if objects != [] {
      DeliveriesHoldNoAct(objects[1..]);
    }
  }

  lemma FrameHoldsNoAct(link: Link, frame: seq<Octet>, now: int, at: int, replyOk: bool)
    ensures ActTimes(OnFrame(link, frame, now, at, replyOk).output) == []
  {
    var deliveries := Deliveries(FrameObjects(frame));
    DeliveriesHoldNoAct(FrameObjects(frame));
    SendSequenceBound(frame);
    var ack := SFormat(NextSequence(frame));
    assert ack[2] == 1 && ack != TESTFR_ACT && TESTFR_CON != TESTFR_ACT;
    assert ([Sent(ack, at)] + deliveries)[1..] == deliveries;
  }

  /** A turn sends an act exactly when its heartbeat is due, at the time of its head. */
  lemma TurnActs(options: Options, link: Link, turn: Turn)
    ensures ActTimes(LoopTurn(options, link, turn).output) == if SendsAct(options, link, turn) then [turn.now] else []
  {
    hide OnFrame;
    var after := if SendsAct(options, link, turn) then link.(heartbeatPending := true, heartbeatSentAt := turn.now)
                 else link;
    var rest := OnPoll(after, turn.now, turn.poll).output;
    if turn.poll.Received? {
      FrameHoldsNoAct(after, turn.poll.frame, turn.now, turn.poll.at, turn.poll.replyOk);
    }
    assert ActTimes(rest) == [];
    if SendsAct(options, link, turn) {
      assert ([Sent(TESTFR_ACT, turn.now)] + rest)[1..] == rest;
    }
  }

  lemma TurnPending(options: Options, link: Link, turn: Turn)
    requires LoopTurn(options, link, turn).Continue?
    ensures var next := LoopTurn(options, link, turn).link;
            && next.heartbeatPending
               == ((link.heartbeatPending || SendsAct(options, link, turn)) && !ReadsCon(options, link, turn))
            && next.heartbeatSentAt == (if SendsAct(options, link, turn) then turn.now else link.heartbeatSentAt)
            && next.lastRx == (if turn.poll.Received? then turn.poll.at else link.lastRx)
  {
  }

  /** Acts sent never exceed confirmations read by more than the one that may be outstanding. */
  lemma {:induction false} ActsMatched(options: Options, link: Link, turns: seq<Turn>)
    ensures var outcome := RunLoop(options, link, turns);
            && |ActTimes(outcome.output)| + (if link.heartbeatPending then 1 else 0)
               <= ConsRead(options, link, turns) + 1
            && (outcome.Continue? ==>
                  |ActTimes(outcome.output)| + (if link.heartbeatPending then 1 else 0)
                  <= ConsRead(options, link, turns) + (if outcome.link.heartbeatPending then 1 else 0))
    decreases |turns|
  {
    hide LoopTurn;
    if turns != [] {
      var outcome := LoopTurn(options, link, turns[0]);
      TurnActs(options, link, turns[0]);
      if outcome.Continue? {
        TurnPending(options, link, turns[0]);
        ActsMatched(options, outcome.link, turns[1..]);
        ActTimesAppend(outcome.output, RunLoop(options, outcome.link, turns[1..]).output);
      }
    }
  }

  ghost predicate Spaced(times: seq<int>, gap: int) {
    forall i :: 0 < i < |times| ==> times[i] - times[i - 1] >= gap
  }

  /** Under a monotone clock consecutive acts are at least the interval apart, the first that far after the start. */
  lemma {:induction false} ActsSpaced(options: Options, link: Link, turns: seq<Turn>, from: int)
    requires Monotone(turns, from)
    requires if link.heartbeatPending then link.heartbeatSentAt <= from
             else link.heartbeatSentAt <= link.lastRx <= from
    ensures Spaced([link.heartbeatSentAt] + ActTimes(RunLoop(options, link, turns).output),
                   options.heartbeatIntervalMs * 1_000_000)
    decreases |turns|
  {
    hide LoopTurn;
    if turns != [] {
      var outcome := LoopTurn(options, link, turns[0]);
      TurnActs(options, link, turns[0]);
      if outcome.Continue? {
        var rest := RunLoop(options, outcome.link, turns[1..]).output;
        TurnPending(options, link, turns[0]);
        ActsSpaced(options, outcome.link, turns[1..], if turns[0].poll.Received? then turns[0].poll.at
                                                      else turns[0].now);
        ActTimesAppend(outcome.output, rest);
        SpacedPrepend(link.heartbeatSentAt, outcome.link.heartbeatSentAt, ActTimes(rest), options.Interval(),
                      SendsAct(options, link, turns[0]));
      }
    }
  }

  lemma SpacedPrepend(earlier: int, first: int, rest: seq<int>, gap: int, sends: bool)
    requires Spaced([first] + rest, gap) && if sends then first - earlier >= gap else first == earlier
    ensures Spaced([earlier] + ((if sends then [first] else []) + rest), gap)
  {
    var times := [earlier] + ((if sends then [first] else []) + rest);
    forall i | 0 < i < |times| ensures times[i] - times[i - 1] >= gap {
      if sends && i > 1 {
        assert times[i] == ([first] + rest)[i - 1] && times[i - 1] == ([first] + rest)[i - 2];
      } else if !sends {
        assert times[i] == ([first] + rest)[i] && times[i - 1] == ([first] + rest)[i - 1];
      }
    }
  }

  /** While a heartbeat is pending and unanswered, no frame moves its deadline: the session outlives no head at or past
      it. */
  lemma {:induction false} DeadlineHolds(options: Options, link: Link, turns: seq<Turn>)
    requires link.heartbeatPending && options.heartbeatTimeoutMs > 0
    requires forall t <- turns :: !(t.poll.Received? && IsFixedU(t.poll.frame, 0x83))
    ensures var outcome := RunLoop(options, link, turns);
            if outcome.Continue? then
              && outcome.link.heartbeatPending && outcome.link.heartbeatSentAt == link.heartbeatSentAt
              && forall t <- turns :: t.now < link.heartbeatSentAt + options.heartbeatTimeoutMs * 1_000_000
            else
              outcome.at >= link.heartbeatSentAt + options.heartbeatTimeoutMs * 1_000_000 ==>
                    outcome.reason == HeartbeatTimeout
    decreases |turns|
  {
    if turns != [] {
      var outcome := LoopTurn(options, link, turns[0]);
      TurnEnd(options, link, turns[0]);
      if outcome.Continue? {
        TurnPending(options, link, turns[0]);
        DeadlineHolds(options, outcome.link, turns[1..]);
      }
    }
  }

  /** A turn whose head is past the deadline reads nothing, sends nothing and ends the session. */
  lemma TurnEnd(options: Options, link: Link, turn: Turn)
    ensures var outcome := LoopTurn(options, link, turn);
            && (HeartbeatOverdue(options, link, turn.now) <==> outcome.Ended? && outcome.reason == HeartbeatTimeout)
            && (HeartbeatOverdue(options, link, turn.now) ==> outcome.link == link && outcome.output == [])
            && (outcome.Ended? ==> outcome.at == turn.now)
  {
  }

  // ------------------------------------------------------------- dead-link bound

  /** Loop heads at most period apart, the first at most period after from. */
  ghost predicate Paced(from: int, heads: seq<int>, period: nat)
    decreases |heads|
  {
    heads == [] || (from <= heads[0] <= from + period && Paced(heads[0], heads[1..], period))
  }

  /** Turns in which nothing arrives and every heartbeat can be sent. */
  function QuietTurns(heads: seq<int>): seq<Turn> {
    if heads == [] then [] else [Turn(heads[0], true, Quiet)] + QuietTurns(heads[1..])
  }

  lemma {:induction false} DeadLinkPending(options: Options, link: Link, heads: seq<int>, period: nat, from: int)
    requires options.heartbeatTimeoutMs > 0 && link.heartbeatPending
    requires Paced(from, heads, period) && from < link.heartbeatSentAt + options.heartbeatTimeoutMs * 1_000_000
    ensures var outcome, deadline := RunLoop(options, link, QuietTurns(heads)),
                                     link.heartbeatSentAt + options.heartbeatTimeoutMs * 1_000_000;
            if outcome.Ended? then outcome.reason == HeartbeatTimeout && deadline <= outcome.at < deadline + period
            else outcome.link == link && forall h <- heads :: h < deadline
    decreases |heads|
  {
    if heads != [] {
      assert heads == [heads[0]] + heads[1..];
      assert QuietTurns(heads)[1..] == QuietTurns(heads[1..]);
      if !HeartbeatOverdue(options, link, heads[0]) {
        DeadLinkPending(options, link, heads[1..], period, heads[0]);
      }
    }
  }

  /**
   If nothing arrives and sends succeed, the session can only end by heartbeat timeout, at a head between
   interval + timeout and interval + timeout + 2 * period after the last reception; and it cannot outlast that time.
   */
  lemma {:induction false} DeadLinkBound(options: Options, link: Link, heads: seq<int>, period: nat, from: int)
    requires options.heartbeatIntervalMs > 0 && options.heartbeatTimeoutMs > 0 && !link.heartbeatPending
    requires Paced(from, heads, period) && from < link.lastRx + options.heartbeatIntervalMs * 1_000_000
    ensures var outcome, least := RunLoop(options, link, QuietTurns(heads)),
                                  link.lastRx + options.heartbeatIntervalMs * 1_000_000 + options.heartbeatTimeoutMs *
                                  1_000_000;
            if outcome.Ended? then outcome.reason == HeartbeatTimeout && least <= outcome.at < least + 2 * period
            else forall h <- heads :: h < least + period
    decreases |heads|
  {
    if heads != [] {
      var now, turns := heads[0], QuietTurns(heads);
      assert heads == [heads[0]] + heads[1..] && turns[1..] == QuietTurns(heads[1..]);
      var outcome := LoopTurn(options, link, turns[0]);
      if HeartbeatDue(options, link, now) {
        DeadLinkPending(options, outcome.link, heads[1..], period, now);
      } else {
        DeadLinkBound(options, link, heads[1..], period, now);
      }
    }
  }

  /** The bound for a session from its start: any paced schedule reaching interval + timeout + 2 * period ends it. */
  lemma DeadLinkDetected(options: Options, start: int, heads: seq<int>, period: nat)
    requires options.heartbeatIntervalMs > 0 && options.heartbeatTimeoutMs > 0 && Paced(start, heads, period)
    requires heads != [] && heads[|heads| - 1] >= start + options.heartbeatIntervalMs * 1_000_000
             + options.heartbeatTimeoutMs * 1_000_000 + period
    ensures var outcome, least := RunLoop(options, Fresh(start), QuietTurns(heads)),
                                  start + options.heartbeatIntervalMs * 1_000_000 + options.heartbeatTimeoutMs *
                                  1_000_000;
            outcome.Ended? && outcome.reason == HeartbeatTimeout && least <= outcome.at < least + 2 * period
  {
    DeadLinkBound(options, Fresh(start), heads, period, start);
    assert heads[|heads| - 1] in heads;
  }
}
