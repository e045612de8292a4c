/**
 * The connection as the program runs it: one object whose fields each state's run changes in place, and the
 * handle the user holds. Every method computes what the specification says of the step it stands for, so what
 * is proved of runs of the specification holds of runs of the object.
 */
module AmqpConnections {
  import opened Base
  import opened Amqp
  import opened AmqpLedger
  import opened AmqpResources
  import opened AmqpStart

  class AmqpConnection {
    var state: State

    var recvAlive: bool
    var sendQueue: seq<Payload>
    var sendTx: bool
    var userSenders: nat
    var start: bool
    var startTx: bool
    var startRx: bool
    var oneShot: OneShot
    var shutdown: bool
    var nextId: Id
    const wantsConsumer: bool

    ghost var log: seq<Call>
    ghost var taken: nat
    ghost var connectedOnce: bool
    ghost var book: Book

    ghost function StartupView(): Startup
      reads this
    {
      Startup(start, startTx, startRx, oneShot, taken, connectedOnce)
    }

    ghost function View(): World
      reads this
    {
      World(state, shutdown, wantsConsumer, recvAlive, StartupView(),
            Outgoing(sendQueue, sendTx, userSenders), Network(nextId, log), book)
    }

    constructor (wantsConsumer: bool)
      ensures View() == Init(wantsConsumer)
    {
      this.wantsConsumer := wantsConsumer;
      state, recvAlive, shutdown := NotStarted, true, false;
      sendQueue, sendTx, userSenders := [], true, 1;
      start, startTx, startRx, oneShot := false, true, true, Pending;
      nextId := 0;
      log, taken, connectedOnce := [], 0, false;
      book := Book(multiset{}, multiset{}, multiset{}, [], [], []);
    }

    // ------------------------------------------------------------ the states

    method RunConnecting(o: Outcome)
      requires state.Connecting?
      modifies this
      ensures View() == Amqp.RunConnecting(old(View()), o)
    {
      if !o.openOk {
        if startTx {
          state := ClosedConnection(StartError(Some(o.error)));
          return;
        }
        state := Reconnecting;
        return;
      }
      var conn := nextId;
      nextId, log := nextId + 1, log + [OpenedConnection(conn)];
      if !o.registerOk {
        if startTx {
          state := ClosingConnection(Some(conn), StartError(Some(o.error)));
          return;
        }
        state := ClosingConnection(Some(conn), Other);
        return;
      }
      state := OpeningChannel(conn, Events([], true, 1));
    }

    /** Drops the event queue together with the state that owned it. */
    method CloseConnection(conn: Id, events: Events, reason: CloseReason)
      modifies this
      ensures View() == Amqp.CloseConnection(old(View()), conn, events, reason)
    {
      state := ClosingConnection(Some(conn), reason);
      book := Dropping(book, Returns(events.queue));
    }

    /** No channel could be opened: the start has failed, or it is tried again. */
    method OpeningFails(o: Outcome)
      requires state.OpeningChannel? && !o.openOk
      modifies this
      ensures View() == Amqp.RunOpeningChannel(old(View()), o)
    {
      hide Amqp.CloseConnection;
      if startTx {
        CloseConnection(state.conn, state.events, StartError(Some(o.error)));
        return;
      }
      state := ReopeningChannel(state.conn, state.events);
    }

    method RunOpeningChannel(o: Outcome)
      requires state.OpeningChannel?
      modifies this
      ensures View() == Amqp.RunOpeningChannel(old(View()), o)
    {
      hide Returns, Amqp.CloseConnection;
      if !o.openOk {
        OpeningFails(o);
        return;
      }
      var conn, events := state.conn, state.events;
      var chan := nextId;
      nextId, log := nextId + 1, log + [OpenedChannel(conn, chan)];
      events := events.AddHandler();
      if o.registerOk {
        log := log + [RegisteredCallback(chan)];
        if o.declareOk {
          log := log + [DeclaredQueue(chan)];
          if wantsConsumer {
            state := DeclaringConsumer(conn, chan, events);
          } else {
            state := Connected(conn, chan, events);
          }
          return;
        }
      }
      var reason := if startTx then StartError(Some(o.error)) else Other;
      state := ClosingChannel(conn, Some(chan), events, reason);
    }

    method RunDeclaringConsumer(o: Outcome)
      requires state.DeclaringConsumer?
      modifies this
      ensures View() == Amqp.RunDeclaringConsumer(old(View()), o)
    {
      var conn, chan, events := state.conn, state.chan, state.events.AddHandler();
      if !o.consumeOk {
        var reason := if startTx then StartError(Some(o.error)) else Other;
        state := ClosingChannel(conn, Some(chan), events, reason);
        return;
      }
      log := log + [DeclaredConsumer(chan)];
      state := Connected(conn, chan, events);
    }

    /** Tells the user that the connection is up, if nobody was told yet. */
    method ReportStarted()
      modifies this
      ensures View() == Amqp.ReportStarted(old(View()))
    {
      if startTx {
        startTx, taken, connectedOnce := false, taken + 1, true;
        oneShot := if startRx then Sent(None) else Undelivered;
      }
    }

    method CloseChannel(events: Events, reason: CloseReason)
      requires state.Connected?
      modifies this
      ensures View() == LeaveConnected(old(View()), events, reason)
    {
      state := ClosingChannel(state.conn, Some(state.chan), events, reason);
    }

    method HandleEvent(event: Event, rest: Events)
      requires state.Connected?
      modifies this
      ensures View() == Amqp.HandleEvent(old(View()), event, rest)
    {
      match event
      case ConnectionClose => CloseChannel(rest, ConnectionClosed);
      case ChannelClose => CloseChannel(rest, ChannelClosed);
      case PublishReturn(code, data) =>
        if code == NO_ROUTE {
          sendQueue := sendQueue + [data];
          book := book.(enqueued := book.enqueued + [data]);
          CloseChannel(rest, PublishNoRoute);
        } else {
          state := Connected(state.conn, state.chan, rest);
          book := Dropping(book, multiset{data});
        }
      case MessageReceived(data) =>
        state := Connected(state.conn, state.chan, rest);
        if wantsConsumer && recvAlive {
          book := book.(forwarded := book.forwarded + [data]);
        }
      case Ignored =>
        state := Connected(state.conn, state.chan, rest);
    }

    method PublishNext(ok: bool)
      requires state.Connected? && sendQueue != []
      modifies this
      ensures View() == Amqp.PublishNext(old(View()), ok)
    {
      var p := sendQueue[0];
      sendQueue := sendQueue[1..];
      book := book.(attempted := book.attempted + [p]);
      if ok {
        log := log + [Published(state.chan)];
        book := book.(outstanding := book.outstanding + multiset{p});
      } else {
        book := Dropping(book, multiset{p});
      }
    }

    /** One turn of the select loop. */
    method RunConnected(o: Outcome)
      requires state.Connected?
      modifies this
      ensures View() == Amqp.RunConnected(old(View()), o)
    {
      hide Amqp.HandleEvent, Amqp.PublishNext, LeaveConnected;
      ReportStarted();
      var events := state.events;
      match o.branch
      case OnShutdown =>
        if shutdown {
          CloseChannel(events, Shutdown);
        }
      case OnEvent =>
        if events.queue != [] {
          HandleEvent(events.queue[0], events.(queue := events.queue[1..]));
        } else if events.Closed() {
          CloseChannel(events, Fatal(EventRxClosed));
        }
      case OnSend =>
        if sendQueue != [] {
          PublishNext(o.publishOk);
        } else if !sendTx && userSenders == 0 {
          CloseChannel(events, Fatal(SendRxClosed));
        }
    }

    method RunClosingChannel(o: Outcome)
      requires state.ClosingChannel?
      modifies this
      ensures View() == Amqp.RunClosingChannel(old(View()), o)
    {
      hide Returns;
      var conn, events, reason := state.conn, state.events, state.reason;
      match state.closing
      case None => state := Panicked;
      case Some(chan) =>
        log := log + [ClosedChannelCall(chan)];
        if !o.closeOk {
          CloseConnection(conn, events, reason);
          return;
        }
        match reason
        case ChannelClosed => state := ReopeningChannel(conn, events);
        case PublishNoRoute => state := ReopeningChannel(conn, events);
        case _ => CloseConnection(conn, events, reason);
    }

    method RunClosingConnection()
      requires state.ClosingConnection?
      modifies this
      ensures View() == Amqp.RunClosingConnection(old(View()))
    {
      match state.conn_
      case None => state := Panicked;
      case Some(conn) =>
        log := log + [ClosedConnectionCall(conn)];
        state := ClosedConnection(state.reason);
    }

    /** Hands the error of the start to the user; the reason says how far that went. */
    method ReportError(err: Option<string>) returns (cause: FatalCause)
      modifies `startTx, `taken, `oneShot
      ensures (StartupView(), cause) == Amqp.ReportError(old(StartupView()), err)
    {
      if !startTx {
        return StartTxConsumed(err);
      }
      startTx, taken := false, taken + 1;
      match err
      case None =>
        oneShot := SenderDropped;
        return InnerErrorMissing;
      case Some(e) =>
        if !startRx {
          oneShot := Undelivered;
          return StartErrorUndelivered(e);
        }
        oneShot := Sent(err);
        return ErrorWhileStarting;
    }

    method RunClosedConnection()
      requires state.ClosedConnection?
      modifies this
      ensures View() == Amqp.RunClosedConnection(old(View()))
    {
      hide Amqp.ReportError;
      var reason := state.reason;
      match reason
      case Fatal(_) => state := Finished(reason);
      case Shutdown => state := Finished(Shutdown);
      case StartError(err) =>
        var cause := ReportError(err);
        state := Finished(Fatal(cause));
      case _ => state := Reconnecting;
    }

    /** Whoever waits for the one-shot learns that its sender is gone. */
    method DropStart()
      modifies `startTx, `oneShot
      ensures !startTx && oneShot == if old(startTx) then SenderDropped else old(oneShot)
    {
      if startTx {
        startTx, oneShot := false, SenderDropped;
      }
    }

    /** The spawned task returns and drops what it owns. */
    method Exit()
      modifies this
      ensures View() == Amqp.Exit(old(View()))
    {
      hide Dropping;
      DropStart();
      book := Dropping(book, multiset(sendQueue));
      state, sendQueue, sendTx := Exited, [], false;
    }

    method Run(o: Outcome)
      modifies this
      ensures View() == Amqp.Run(old(View()), o)
    {
      hide Amqp.RunConnecting, Amqp.RunOpeningChannel, Amqp.RunDeclaringConsumer, Amqp.RunConnected,
           Amqp.RunClosingChannel, Amqp.RunClosingConnection, Amqp.RunClosedConnection, Amqp.Exit;
      match state
      case NotStarted =>
        if start {
          if shutdown {
            Exit();
          } else {
            state := Disconnected;
          }
        }
      case Disconnected => state := Connecting;
      case Connecting => RunConnecting(o);
      case Reconnecting => state := Connecting;
      case OpeningChannel(_, _) => RunOpeningChannel(o);
      case ReopeningChannel(conn, events) => state := OpeningChannel(conn, events);
      case DeclaringConsumer(_, _, _) => RunDeclaringConsumer(o);
      case Connected(_, _, _) => RunConnected(o);
      case ClosingChannel(_, _, _, _) => RunClosingChannel(o);
      case ClosingConnection(_, _) => RunClosingConnection();
      case ClosedConnection(_) => RunClosedConnection();
      case Finished(reason) =>
        if reason.Displayable() {
          Exit();
        } else {
          state := Panicked;
        }
      case Exited =>
      case Panicked =>
    }

    // ------------------------------------------------------- broker and callbacks

    method Deliver(e: Event)
      requires !e.PublishReturn?
      modifies `state
      ensures View() == Act(old(View()), Action.Deliver(e))
    {
      hide Amqp.Run;
      if Listening(state) {
        state := Queued(state, e);
      }
    }

    method Return(code: nat, p: Payload, reaches: bool)
      requires p in book.outstanding
      modifies `state, `book
      ensures View() == Act(old(View()), Action.Return(code, p, reaches))
    {
      hide Amqp.Run;
      book := book.(outstanding := book.outstanding - multiset{p});
      if reaches && Listening(state) {
        state := Queued(state, PublishReturn(code, p));
      } else {
        book := Dropping(book, multiset{p});
      }
    }

    /** A payload arrives in the outgoing queue from a user's sender; after the end nobody receives it. */
    method Receive(p: Payload) returns (accepted: bool)
      modifies `sendQueue, `book
      ensures View() == Act(old(View()), UserSend(p))
      ensures accepted <==> !state.Over() && userSenders > 0
    {
      hide Amqp.Run;
      accepted := !state.Over() && userSenders > 0;
      if accepted {
        sendQueue := sendQueue + [p];
        book := book.(enqueued := book.enqueued + [p], handed := book.handed + multiset{p});
      }
    }

    /** The user's other moves: handing senders and receivers on or dropping them, and callbacks that go away. */
    method Rearrange(a: Action)
      requires a.UserStart? || a.UserShutdown? || a.DropStartRx? || a.CloneUserSender? || a.DropUserSender? || a.DropReceiver? || a.DropHandler?
      modifies this
      ensures View() == Act(old(View()), a)
    {
      hide Amqp.Run;
      match a
      case UserStart => start := true;
      case UserShutdown => shutdown := true;
      case DropStartRx => startRx := false;
      case CloneUserSender => if userSenders > 0 { userSenders := userSenders + 1; }
      case DropUserSender => if userSenders > 0 { userSenders := userSenders - 1; }
      case DropReceiver => recvAlive := false;
      case DropHandler =>
        if Listening(state) {
          state := WithEvents(state, state.events.(handlers := state.events.handlers - 1));
        }
    }

    /** Whatever happens next: a step of the machine, or a move of the broker, a callback or the user. */
    method Perform(a: Action)
      requires a.Return? ==> a.p in book.outstanding
      modifies this
      ensures View() == Act(old(View()), a)
    {
      hide Amqp.Run, ReturnPayload, Enqueue, Queued, WithEvents;
      match a
      case Step(o) => Run(o);
      case UserSend(p) => var _ := Receive(p);
      case Deliver(e) => if !e.PublishReturn? { Deliver(e); }
      case Return(code, p, reaches) => Return(code, p, reaches);
      case _ => Rearrange(a);
    }

    /**
     * A run: any actions in any order, of which only the returns must be of payloads the broker has. The object then is
     * in the specified world, and so keeps what every run keeps.
     */
    method RunScript(actions: seq<Action>)
      requires View() == Init(wantsConsumer)
      requires forall i :: 0 <= i < |actions| && actions[i].Return? ==>
                 actions[i].p in ActAll(Init(wantsConsumer), actions[..i]).book.outstanding
      modifies this
      ensures View() == ActAll(Init(wantsConsumer), actions)
      ensures Control(View()) && Disciplined(View()) && Ledger(View()) && Fifo(View())
    {
      hide Act, Control, Disciplined, Ledger, Fifo;
      for n := 0 to |actions|
        invariant View() == ActAll(Init(wantsConsumer), actions[..n])
      {
        Perform(actions[n]);
        assert actions[..n + 1][..n] == actions[..n];
      }
      assert actions[..|actions|] == actions;
      ControlAlways(wantsConsumer, actions);
      DisciplineAlways(wantsConsumer, actions);
      LedgerKept(wantsConsumer, actions);
      FifoKept(wantsConsumer, actions);
    }

    /** The loop of the spawned task over a script of outcomes: it runs one state after the other until it has ended. */
    method RunLoop(outcomes: seq<Outcome>) returns (n: nat)
      modifies this
      ensures n <= |outcomes| && View() == ActAll(old(View()), StepsOf(outcomes[..n]))
      ensures n < |outcomes| ==> state.Over()
    {
      n := 0;
      while n < |outcomes| && !state.Over()
        invariant n <= |outcomes| && View() == ActAll(old(View()), StepsOf(outcomes[..n]))
      {
        hide Amqp.Run, ActAll, StepsOf;
        Run(outcomes[n]);
        StepsSnoc(outcomes[..n], outcomes[n]);
        assert outcomes[..n + 1] == outcomes[..n] + [outcomes[n]];
        n := n + 1;
      }
    }
  }

  function StepsOf(outcomes: seq<Outcome>): seq<Action> {
    seq(|outcomes|, i requires 0 <= i < |outcomes| => Step(outcomes[i]))
  }

  lemma StepsSnoc(outcomes: seq<Outcome>, o: Outcome)
    ensures StepsOf(outcomes + [o]) == StepsOf(outcomes) + [Step(o)]
    ensures forall w :: ActAll(w, StepsOf(outcomes + [o])) == Amqp.Run(ActAll(w, StepsOf(outcomes)), o)
  {
  }

  /** Why the user got no success. */
  datatype StartFailure = AlreadyWaited | Reported(error: string) | Abandoned

  datatype JoinFailure = AlreadyJoined | TaskPanicked

  /** The handle: what it holds it gives up once. */
  class AmqpHandle {
    const connection: AmqpConnection
    var startRx: bool
    var handle: bool

    constructor (wantsConsumer: bool)
      ensures fresh(connection) && connection.View() == Init(wantsConsumer) && startRx && handle
    {
      connection := new AmqpConnection(wantsConsumer);
      startRx, handle := true, true;
    }

    method Start()
      modifies connection`start
      ensures connection.View() == Act(old(connection.View()), UserStart)
    {
      connection.start := true;
    }

    /**
     * Opens the start gate and waits for the one-shot, None meaning that it is still open. A second call
     * fails at once: the receiver is gone.
     */
    method WaitStart() returns (r: Option<Result<(), StartFailure>>)
      modifies connection`start, `startRx
      ensures connection.View() == Act(old(connection.View()), UserStart) && !startRx
      ensures !old(startRx) ==> r == Some(Err(AlreadyWaited))
      ensures old(startRx) ==>
                match Amqp.WaitStart(connection.View().startup)
                case None => r == None
                case Some(Ok(_)) => r == Some(Ok(()))
                case Some(Err(Some(err))) => r == Some(Err(Reported(err)))
                case Some(Err(None)) => r == Some(Err(Abandoned))
    {
      connection.start := true;
      if !startRx {
        return Some(Err(AlreadyWaited));
      }
      startRx := false;
      match connection.oneShot
      case Sent(None) => r := Some(Ok(()));
      case Sent(Some(err)) => r := Some(Err(Reported(err)));
      case SenderDropped => r := Some(Err(Abandoned));
      case _ => r := None;
    }

    method Shutdown()
      modifies connection`shutdown
      ensures connection.View() == Act(old(connection.View()), UserShutdown)
    {
      connection.shutdown := true;
    }

    method Sender()
      requires connection.userSenders > 0
      modifies connection`userSenders
      ensures connection.View() == Act(old(connection.View()), CloneUserSender)
    {
      connection.userSenders := connection.userSenders + 1;
    }

    /** Waits for the spawned task, None meaning that it still runs; it can be joined once. */
    method Join() returns (r: Option<Result<(), JoinFailure>>)
      modifies `handle
      ensures !handle
      ensures !old(handle) ==> r == Some(Err(AlreadyJoined))
      ensures old(handle) ==> r == if connection.state.Exited? then Some(Ok(()))
                                   else if connection.state.Panicked? then Some(Err(TaskPanicked)) else None
    {
      if !handle {
        return Some(Err(AlreadyJoined));
      }
      handle := false;
      match connection.state
      case Exited => r := Some(Ok(()));
      case Panicked => r := Some(Err(TaskPanicked));
      case _ => r := None;
    }
  }
}
