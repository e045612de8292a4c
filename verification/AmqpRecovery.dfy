/** What makes a connected machine leave its state, and where each cause leads: the calls that follow and how it ends. */
module AmqpRecovery {
  import opened Base
  import opened Amqp
  import opened AmqpStart
  import opened AmqpLedger

  /** The event a connected machine handles next, if it looks at its events. */
  predicate Handles(w: World, o: Outcome) {
    w.state.Connected? && o.branch.OnEvent? && w.state.events.queue != []
  }

  predicate AsksForShutdown(w: World, o: Outcome) {
    w.state.Connected? && o.branch.OnShutdown? && w.shutdown
  }

  /** The event needs a new connection. */
  predicate LosesConnection(w: World, o: Outcome) {
    Handles(w, o) && w.state.events.queue[0].ConnectionClose?
  }

  /** The event needs a new channel only. */
  predicate LosesChannel(w: World, o: Outcome) {
    Handles(w, o) && (w.state.events.queue[0].ChannelClose? || Unroutable(w, o))
  }

  lemma EventLeaves(w: World, o: Outcome)
    requires Handles(w, o)
    ensures Run(w, o).state.Connected? <==> !LosesConnection(w, o) && !LosesChannel(w, o)
    ensures Run(w, o).state.Connected? ==>
              Run(w, o).state == Connected(w.state.conn, w.state.chan, w.state.events.(queue := w.state.events.queue[1..]))
    ensures LosesConnection(w, o) ==> Leaves(w, Run(w, o), ConnectionClosed)
    ensures LosesChannel(w, o) ==> Leaves(w, Run(w, o), ChannelClosed) || Leaves(w, Run(w, o), PublishNoRoute)
  {
    hide Report;
  }

  /** Nothing was called yet, and the channel is about to be closed. */
  predicate Leaves(w: World, w': World, reason: CloseReason)
    requires w.state.Connected?
  {
    && w'.state.ClosingChannel? && w'.state.conn == w.state.conn && w'.state.closing == Some(w.state.chan) && w'.state.reason == reason
    && w'.net == w.net && w'.startup == Report(w.startup) && w'.shutdown == w.shutdown
  }

  lemma OtherLeaves(w: World, o: Outcome)
    requires w.state.Connected? && Holds(w.state, w.out) && !Handles(w, o)
    ensures Run(w, o).state.Connected? <==> !AsksForShutdown(w, o)
    ensures Run(w, o).state.Connected? ==> Run(w, o).state == w.state
    ensures AsksForShutdown(w, o) ==> Leaves(w, Run(w, o), Shutdown)
  {
    hide Report;
  }

  /**
   * After every run a connected machine stays connected, on the same connection and channel, exactly unless it notices a
   * shutdown request or handles an event that takes its connection or its channel.
   */
  lemma LeavesConnectedIff(wantsConsumer: bool, actions: seq<Action>, o: Outcome)
    requires ActAll(Init(wantsConsumer), actions).state.Connected?
    ensures var w := ActAll(Init(wantsConsumer), actions);
            && (Run(w, o).state.Connected? <==> !AsksForShutdown(w, o) && !LosesConnection(w, o) && !LosesChannel(w, o))
            && (Run(w, o).state.Connected? ==> Run(w, o).state.conn == w.state.conn && Run(w, o).state.chan == w.state.chan)
  {
    ControlAlways(wantsConsumer, actions);
    var w := ActAll(Init(wantsConsumer), actions);
    hide ActAll, Run, Handshake;
    if Handles(w, o) {
      EventLeaves(w, o);
    } else {
      OtherLeaves(w, o);
    }
  }

  // ------------------------------------------------------------------ recovery

  /** The reason does not end the machine, and either it needs a new connection or closing the channel fails. */
  predicate NeedsConnection(reason: CloseReason, o: Outcome) {
    reason.ConnectionClosed? || reason.Other? || (reason.ChannelOnly() && !o.closeOk)
  }

  /** Three steps close channel and connection, whatever closing answers, and then the machine reconnects. */
  lemma Abandons(w: World, a: Outcome, b: Outcome, c: Outcome)
    requires w.state.ClosingChannel? && w.state.closing.Some? && NeedsConnection(w.state.reason, a)
    ensures var w' := Run(Run(Run(w, a), b), c);
            && w'.state == Reconnecting && w'.out == w.out && w'.startup == w.startup
            && w'.net == w.net.(log := w.net.log + [ClosedChannelCall(w.state.closing.value)] + [ClosedConnectionCall(w.state.conn)])
  {
    hide Returns;
    var w1 := Run(w, a);
    assert w1.state == ClosingConnection(Some(w.state.conn), w.state.reason);
    var w2 := Run(w1, b);
    assert w2.state == ClosedConnection(w.state.reason);
  }

  /**
   * A machine that loses its connection closes channel and connection once each, and the next attempt to connect that
   * succeeds gives it a new connection.
   */
  lemma LostConnectionIsReplaced(w: World, event: Outcome, a: Outcome, b: Outcome, c: Outcome, d: Outcome, e: Outcome)
    requires LosesConnection(w, event) && e.openOk && e.registerOk
    ensures var w' := Run(Run(Run(Run(Run(Run(w, event), a), b), c), d), e);
            && w'.state.OpeningChannel? && w'.state.conn == w.net.nextId && w'.out == w.out
            && w'.net.log == w.net.log + [ClosedChannelCall(w.state.chan)] + [ClosedConnectionCall(w.state.conn)]
                             + [OpenedConnection(w.net.nextId)]
  {
    EventLeaves(w, event);
    SameOutgoing(w, event);
    var w1 := Run(w, event);
    Abandons(w1, a, b, c);
    var w4 := Run(Run(Run(w1, a), b), c);
    Connects(w4, d, e);
  }

  lemma SameOutgoing(w: World, o: Outcome)
    requires LosesConnection(w, o)
    ensures Run(w, o).out == w.out
  {
    hide Report;
  }

  lemma Connects(w: World, d: Outcome, e: Outcome)
    requires w.state == Reconnecting && e.openOk && e.registerOk
    ensures var w' := Run(Run(w, d), e);
            && w'.state.OpeningChannel? && w'.state.conn == w.net.nextId && w'.out == w.out
            && w'.net.log == w.net.log + [OpenedConnection(w.net.nextId)]
  {
  }

  /**
   * A machine that loses only its channel closes it, keeps the connection, and opens, registers and declares another one;
   * if closing fails, the connection is given up as well.
   */
  lemma LostChannelIsReplaced(w: World, event: Outcome, a: Outcome, b: Outcome, c: Outcome)
    requires LosesChannel(w, event)
    ensures a.closeOk && c.openOk && c.registerOk && c.declareOk ==>
              var w' := Run(Run(Run(Run(w, event), a), b), c);
              && w'.state.HasEvents() && w'.state.conn == w.state.conn
              && w'.state.events.queue == w.state.events.queue[1..]
              && w'.net.log == w.net.log + [ClosedChannelCall(w.state.chan)] + [OpenedChannel(w.state.conn, w.net.nextId)]
                               + [RegisteredCallback(w.net.nextId)] + [DeclaredQueue(w.net.nextId)]
    ensures !a.closeOk ==>
              var w' := Run(Run(Run(Run(w, event), a), b), c);
              w'.state == Reconnecting
              && w'.net.log == w.net.log + [ClosedChannelCall(w.state.chan)] + [ClosedConnectionCall(w.state.conn)]
  {
    EventLeaves(w, event);
    RestOfQueue(w, event);
    var w1 := Run(w, event);
    hide Run;
    if !a.closeOk {
      Abandons(w1, a, b, c);
    } else if c.openOk && c.registerOk && c.declareOk {
      Reopens(w1, a, b, c);
    }
  }

  lemma RestOfQueue(w: World, o: Outcome)
    requires LosesChannel(w, o)
    ensures Run(w, o).state.HasEvents() && Run(w, o).state.events.queue == w.state.events.queue[1..]
  {
    hide Report;
  }

  lemma Reopens(w: World, a: Outcome, b: Outcome, c: Outcome)
    requires w.state.ClosingChannel? && w.state.closing.Some? && w.state.reason.ChannelOnly() && a.closeOk
    requires c.openOk && c.registerOk && c.declareOk
    ensures var w' := Run(Run(Run(w, a), b), c);
            && w'.state.HasEvents() && w'.state.conn == w.state.conn && w'.state.events.queue == w.state.events.queue
            && w'.net.log == w.net.log + [ClosedChannelCall(w.state.closing.value)] + [OpenedChannel(w.state.conn, w.net.nextId)]
                             + [RegisteredCallback(w.net.nextId)] + [DeclaredQueue(w.net.nextId)]
  {
    hide Returns;
    var w1 := Run(w, a);
    assert w1.state == ReopeningChannel(w.state.conn, w.state.events);
    var w2 := Run(w1, b);
    assert w2.state == OpeningChannel(w.state.conn, w.state.events);
  }

  /** A shutdown that is noticed closes channel and connection, once each, and ends the machine for that reason. */
  lemma ShutdownCloses(w: World, ask: Outcome, a: Outcome, b: Outcome, c: Outcome, d: Outcome)
    requires AsksForShutdown(w, ask)
    ensures var w4 := Run(Run(Run(Run(w, ask), a), b), c);
            && w4.state == Finished(Shutdown) && Run(w4, d).state == Exited
            && w4.net.log == w.net.log + [ClosedChannelCall(w.state.chan)] + [ClosedConnectionCall(w.state.conn)]
  {
    hide Returns, Report;
    var w1 := Run(w, ask);
    assert w1.state.ClosingChannel? && w1.state.reason == Shutdown && w1.state.closing == Some(w.state.chan) && w1.net == w.net;
    hide ReportStarted;
    var w2 := Run(w1, a);
    assert w2.state == ClosingConnection(Some(w.state.conn), Shutdown);
    var w3 := Run(w2, b);
    assert w3.state == ClosedConnection(Shutdown);
  }

  // ------------------------------------------------------------------- failures

  /** A call that sets up the connection or the channel fails. */
  predicate SetupFails(w: World, o: Outcome) {
    || (w.state.Connecting? && !(o.openOk && o.registerOk))
    || (w.state.OpeningChannel? && !(o.openOk && o.registerOk && o.declareOk))
    || (w.state.DeclaringConsumer? && !o.consumeOk)
  }

  /** A start error on its way to the user. */
  predicate Reports(w: World, error: string) {
    && w.startup.startTx && w.startup.startRx
    && (w.state.ClosedConnection? || (w.state.ClosingConnection? && w.state.conn_.Some?) || (w.state.ClosingChannel? && w.state.closing.Some?))
    && Carried(w.state) == Some(StartError(Some(error)))
  }

  lemma StartFailureReports(w: World, o: Outcome)
    requires SetupFails(w, o) && w.startup.startTx && w.startup.startRx
    ensures Reports(Run(w, o), o.error)
  {
    hide Returns;
  }

  /** The error is out: the user has it, and the machine has finished for it. */
  predicate Reported(w: World, error: string) {
    w.startup.oneShot == Sent(Some(error)) && (w.state == Finished(Fatal(ErrorWhileStarting)) || w.state == Exited)
  }

  lemma ReportsOn(w: World, o: Outcome, error: string)
    requires Reports(w, error)
    ensures if w.state.ClosedConnection? then Reported(Run(w, o), error) else Reports(Run(w, o), error)
    ensures w.state.ClosingChannel? ==> Run(w, o).state.ClosingConnection?
    ensures w.state.ClosingConnection? ==> Run(w, o).state.ClosedConnection?
  {
    hide Returns;
  }

  lemma ReportedStays(w: World, o: Outcome, error: string)
    requires Reported(w, error) && !w.startup.startTx
    ensures Reported(Run(w, o), error) && !Run(w, o).startup.startTx
    ensures w.state.Finished? ==> Run(w, o).state == Exited
  {
  }

  lemma ReportTakes(w: World, o: Outcome, error: string)
    requires Reports(w, error) && w.state.ClosedConnection?
    ensures !Run(w, o).startup.startTx
  {
  }

  /**
   * While starting, as long as somebody waits, a call that fails ends the machine within four further steps, and the user
   * gets the error of that very call.
   */
  lemma StartFailureReachesUser(w: World, o: Outcome, a: Outcome, b: Outcome, c: Outcome, d: Outcome)
    requires SetupFails(w, o) && w.startup.startTx && w.startup.startRx
    ensures var w' := Run(Run(Run(Run(Run(w, o), a), b), c), d);
            w'.state == Exited && WaitStart(w'.startup) == Some(Err(Some(o.error)))
  {
    StartFailureReports(w, o);
    var w1 := Run(w, o);
    hide Run, SetupFails;
    ToClosed(w1, a, b, o.error);
    var w3 := Run(Run(w1, a), b);
    if w1.state.ClosingChannel? {
      ReportsOn(w3, c, o.error);
      ReportTakes(w3, c, o.error);
      ReportedStays(Run(w3, c), d, o.error);
    } else {
      ReportedStays(w3, c, o.error);
      ReportedStays(Run(w3, c), d, o.error);
    }
  }

  lemma ToClosed(w: World, a: Outcome, b: Outcome, error: string)
    requires Reports(w, error)
    ensures var w' := Run(Run(w, a), b);
            if w.state.ClosingChannel? then Reports(w', error) && w'.state.ClosedConnection?
            else Reported(w', error) && !w'.startup.startTx
  {
    hide Run;
    ReportsOn(w, a, error);
    if w.state.ClosedConnection? {
      ReportTakes(w, a, error);
      ReportedStays(Run(w, a), b, error);
    } else {
      ReportsOn(Run(w, a), b, error);
      if w.state.ClosingConnection? {
        ReportTakes(Run(w, a), b, error);
      }
    }
  }

  /** Later on a failure is not the end: whatever was opened is closed, and the machine tries again. */
  lemma LaterFailureRetries(w: World, o: Outcome, a: Outcome, b: Outcome, c: Outcome)
    requires SetupFails(w, o) && !w.startup.startTx
    ensures w.state.Connecting? && !o.openOk ==> Run(w, o) == w.(state := Reconnecting)
    ensures w.state.Connecting? && o.openOk ==>
              var w' := Run(Run(Run(w, o), a), b);
              w'.state == Reconnecting
              && w'.net.log == w.net.log + [OpenedConnection(w.net.nextId)] + [ClosedConnectionCall(w.net.nextId)]
    ensures w.state.OpeningChannel? && !o.openOk ==> Run(w, o) == w.(state := ReopeningChannel(w.state.conn, w.state.events))
    ensures (w.state.OpeningChannel? && o.openOk) || w.state.DeclaringConsumer? ==>
              var w' := Run(Run(Run(Run(w, o), a), b), c);
              w'.state == Reconnecting && w'.startup == w.startup
              && |w'.net.log| >= 2 && w'.net.log[|w'.net.log| - 1] == ClosedConnectionCall(w.state.conn)
              && w'.net.log[|w'.net.log| - 2]
                 == ClosedChannelCall(if w.state.OpeningChannel? then w.net.nextId else w.state.chan)
  {
    hide Returns;
    if w.state.Connecting? && o.openOk {
      ConnectingRetries(w, o, a, b);
    } else if !w.state.Connecting? && (o.openOk || w.state.DeclaringConsumer?) {
      SetupAbandons(w, o);
      hide Run;
      Abandons(Run(w, o), a, b, c);
    }
  }

  lemma ConnectingRetries(w: World, o: Outcome, a: Outcome, b: Outcome)
    requires w.state.Connecting? && o.openOk && !o.registerOk && !w.startup.startTx
    ensures var w' := Run(Run(Run(w, o), a), b);
            w'.state == Reconnecting
            && w'.net.log == w.net.log + [OpenedConnection(w.net.nextId)] + [ClosedConnectionCall(w.net.nextId)]
  {
  }

  lemma SetupAbandons(w: World, o: Outcome)
    requires SetupFails(w, o) && !w.startup.startTx && !w.state.Connecting? && (o.openOk || w.state.DeclaringConsumer?)
    ensures var w' := Run(w, o);
            && w'.state.ClosingChannel? && w'.state.conn == w.state.conn && w'.state.reason == Other && w'.startup == w.startup
            && w'.state.closing == Some(if w.state.OpeningChannel? then w.net.nextId else w.state.chan)
  {
    hide Returns;
  }
}
