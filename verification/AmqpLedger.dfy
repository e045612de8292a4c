/** Where the payloads are: nothing is lost or duplicated, and losses have named causes. */
module AmqpLedger {
  import opened Base
  import opened Amqp
  import opened AmqpStart

  function PendingReturns(s: State): multiset<Payload> {
    if s.HasEvents() then Returns(s.events.queue) else multiset{}
  }

  /** Every payload handed in is in exactly one of four places. */
  ghost predicate Balanced(handed: multiset<Payload>, queued: multiset<Payload>, outstanding: multiset<Payload>,
                           pending: multiset<Payload>, dropped: multiset<Payload>)
  {
    handed == queued + outstanding + pending + dropped
  }

  ghost predicate Ledger(w: World) {
    Balanced(w.book.handed, multiset(w.out.queue), w.book.outstanding, PendingReturns(w.state), w.book.dropped)
  }

  /** Payloads are attempted in the order in which they entered the queue, each entry once. */
  ghost predicate InOrder(exited: bool, queue: seq<Payload>, attempted: seq<Payload>, enqueued: seq<Payload>) {
    if exited then queue == [] && attempted <= enqueued else enqueued == attempted + queue
  }

  ghost predicate Fifo(w: World) {
    InOrder(w.state.Exited?, w.out.queue, w.book.attempted, w.book.enqueued)
  }

  // ------------------------------------------------------ moving one payload

  lemma MoveOut(h: multiset<Payload>, q: multiset<Payload>, o: multiset<Payload>, r: multiset<Payload>, d: multiset<Payload>,
                x: Payload, rest: multiset<Payload>)
    requires Balanced(h, q, o, r, d) && q == multiset{x} + rest
    ensures Balanced(h, rest, o + multiset{x}, r, d) && Balanced(h, rest, o, r, d + multiset{x})
  {
  }

  lemma MoveReturn(h: multiset<Payload>, q: multiset<Payload>, o: multiset<Payload>, r: multiset<Payload>, d: multiset<Payload>,
                   x: Payload)
    requires Balanced(h, q, o, r, d) && x in o
    ensures Balanced(h, q, o - multiset{x}, r + multiset{x}, d) && Balanced(h, q, o - multiset{x}, r, d + multiset{x})
  {
  }

  lemma ReturnsSnoc(queue: seq<Event>, e: Event)
    ensures Returns(queue + [e]) == Returns(queue) + (if e.PublishReturn? then multiset{e.data} else multiset{})
  {
  }

  lemma {:induction false} ReturnsHead(queue: seq<Event>)
    requires queue != []
    ensures Returns(queue) == (if queue[0].PublishReturn? then multiset{queue[0].data} else multiset{}) + Returns(queue[1..])
  {
    if |queue| == 1 {
      assert queue[..0] == [] && queue[1..] == [];
    } else {
      var init := queue[..|queue| - 1];
      ReturnsHead(init);
      assert queue[1..] == init[1..] + [queue[|queue| - 1]];
      ReturnsSnoc(init[1..], queue[|queue| - 1]);
    }
  }

  lemma QueueHead(s: seq<Payload>)
    requires s != []
    ensures multiset(s) == multiset{s[0]} + multiset(s[1..])
  {
    assert s == [s[0]] + s[1..];
  }

  // ------------------------------------------------------------ preservation

  /** Replacing queues and books by what one move makes of them. */
  lemma CloseLedger(w: World, conn: Id, events: Events, reason: CloseReason)
    requires Ledger(w) && PendingReturns(w.state) == Returns(events.queue)
    ensures Ledger(CloseConnection(w, conn, events, reason))
  {
  }

  lemma OpeningLedger(w: World, o: Outcome)
    requires Ledger(w) && w.state.OpeningChannel?
    ensures Ledger(RunOpeningChannel(w, o))
  {
    hide Balanced, Returns;
    if !o.openOk && w.startup.startTx {
      CloseLedger(w, w.state.conn, w.state.events, StartError(Some(o.error)));
    } else {
      UntouchedLedger(w, RunOpeningChannel(w, o));
    }
  }

  /** A returned payload leaves the event queue: into the outgoing queue again, or dropped. */
  lemma ReturnedLedger(w: World, data: Payload, w': World)
    requires Ledger(w) && PendingReturns(w.state) == multiset{data} + PendingReturns(w'.state)
    requires || (w'.out == Enqueue(w, data).out && w'.book == Enqueue(w, data).book)
             || (w'.out == w.out && w'.book == Dropping(w.book, multiset{data}))
    ensures Ledger(w')
  {
  }

  lemma EventLedger(w: World, event: Event, rest: Events)
    requires Ledger(w) && w.state.Connected?
    requires PendingReturns(w.state) == (if event.PublishReturn? then multiset{event.data} else multiset{}) + Returns(rest.queue)
    ensures Ledger(HandleEvent(w, event, rest))
  {
    hide Ledger, Returns;
    if event.PublishReturn? {
      ReturnedLedger(w, event.data, HandleEvent(w, event, rest));
    } else {
      assert PendingReturns(w.state) == Returns(rest.queue);
      UntouchedLedger(w, HandleEvent(w, event, rest));
    }
  }

  lemma UntouchedLedger(w: World, w': World)
    requires Ledger(w) && w'.out.queue == w.out.queue && PendingReturns(w'.state) == PendingReturns(w.state)
    requires w'.book.handed == w.book.handed && w'.book.outstanding == w.book.outstanding && w'.book.dropped == w.book.dropped
    ensures Ledger(w')
  {
  }

  lemma PublishLedger(w: World, ok: bool)
    requires Ledger(w) && w.state.Connected? && w.out.queue != []
    ensures Ledger(PublishNext(w, ok))
  {
    hide Balanced, Returns;
    QueueHead(w.out.queue);
    MoveOut(w.book.handed, multiset(w.out.queue), w.book.outstanding, PendingReturns(w.state), w.book.dropped,
            w.out.queue[0], multiset(w.out.queue[1..]));
  }

  lemma ConnectedLedger(w: World, o: Outcome)
    requires Ledger(w) && w.state.Connected?
    ensures Ledger(RunConnected(w, o))
  {
    hide Balanced, Returns, HandleEvent, PublishNext;
    var w := ReportStarted(w);
    if o.branch.OnEvent? && w.state.events.queue != [] {
      ReturnsHead(w.state.events.queue);
      EventLedger(w, w.state.events.queue[0], w.state.events.(queue := w.state.events.queue[1..]));
    } else if o.branch.OnSend? && w.out.queue != [] {
      PublishLedger(w, o.publishOk);
    }
  }

  lemma ClosingLedger(w: World, o: Outcome)
    requires Ledger(w) && w.state.ClosingChannel? && w.state.closing.Some?
    ensures Ledger(RunClosingChannel(w, o))
  {
  }

  lemma ExitLedger(w: World)
    requires Ledger(w) && !w.state.HasEvents()
    ensures Ledger(Exit(w))
  {
  }

  /** States that touch neither payloads nor the event queue. */
  predicate Quiet(s: State) {
    || s.Disconnected? || s.Connecting? || s.Reconnecting? || s.ReopeningChannel? || s.DeclaringConsumer?
    || s.ClosingConnection? || s.ClosedConnection? || s.Over()
  }

  lemma QuietConnecting(w: World, o: Outcome)
    requires w.state.Connecting?
    ensures RunConnecting(w, o).out == w.out && RunConnecting(w, o).book == w.book
    ensures PendingReturns(RunConnecting(w, o).state) == multiset{} && !RunConnecting(w, o).state.Exited?
  {
  }

  lemma QuietDeclaring(w: World, o: Outcome)
    requires w.state.DeclaringConsumer?
    ensures RunDeclaringConsumer(w, o).out == w.out && RunDeclaringConsumer(w, o).book == w.book
    ensures PendingReturns(RunDeclaringConsumer(w, o).state) == PendingReturns(w.state)
    ensures !RunDeclaringConsumer(w, o).state.Exited?
  {
  }

  lemma QuietClosed(w: World)
    requires w.state.ClosedConnection?
    ensures RunClosedConnection(w).out == w.out && RunClosedConnection(w).book == w.book
    ensures PendingReturns(RunClosedConnection(w).state) == multiset{} && !RunClosedConnection(w).state.Exited?
  {
    hide Returns, ReportError;
  }

  lemma QuietStep(w: World, o: Outcome)
    requires Quiet(w.state)
    ensures Run(w, o).out == w.out && Run(w, o).book == w.book
    ensures PendingReturns(Run(w, o).state) == PendingReturns(w.state)
    ensures Run(w, o).state.Exited? <==> w.state.Exited?
  {
    hide Returns, RunConnecting, RunDeclaringConsumer, RunClosedConnection;
    if w.state.Connecting? {
      QuietConnecting(w, o);
    } else if w.state.DeclaringConsumer? {
      QuietDeclaring(w, o);
    } else if w.state.ClosedConnection? {
      QuietClosed(w);
    }
  }

  lemma RunLedger(w: World, o: Outcome)
    requires Ledger(w) && (w.state.ClosingChannel? ==> w.state.closing.Some?)
    ensures Ledger(Run(w, o))
  {
    hide Balanced, PendingReturns, RunOpeningChannel, RunConnected, RunClosingChannel;
    if Quiet(w.state) {
      QuietStep(w, o);
      hide Run;
      UntouchedLedger(w, Run(w, o));
    } else if w.state.OpeningChannel? {
      OpeningLedger(w, o);
    } else if w.state.Connected? {
      ConnectedLedger(w, o);
    } else if w.state.ClosingChannel? {
      ClosingLedger(w, o);
    } else {
      EndsLedger(w, o);
    }
  }

  lemma EndsLedger(w: World, o: Outcome)
    requires Ledger(w) && (w.state.NotStarted? || w.state.Finished?)
    ensures Ledger(Run(w, o))
  {
    hide Balanced, Returns, Exit;
    ExitLedger(w);
    if Run(w, o) != Exit(w) {
      UntouchedLedger(w, Run(w, o));
    }
  }

  lemma ReturnLedger(w: World, code: nat, p: Payload, reaches: bool)
    requires Ledger(w) && p in w.book.outstanding
    ensures Ledger(ReturnPayload(w, code, p, reaches))
  {
    hide Balanced, Returns;
    MoveReturn(w.book.handed, multiset(w.out.queue), w.book.outstanding, PendingReturns(w.state), w.book.dropped, p);
    if reaches && Listening(w.state) {
      ReturnsSnoc(w.state.events.queue, PublishReturn(code, p));
    }
  }

  lemma SendLedger(w: World, p: Payload)
    requires Ledger(w)
    ensures Ledger(Act(w, UserSend(p)))
  {
  }

  lemma DeliverLedger(w: World, e: Event)
    requires Ledger(w) && Listening(w.state) && !e.PublishReturn?
    ensures Ledger(w.(state := Queued(w.state, e)))
  {
    hide Balanced, Returns;
    ReturnsSnoc(w.state.events.queue, e);
    UntouchedLedger(w, w.(state := Queued(w.state, e)));
  }

  lemma ActLedger(w: World, a: Action)
    requires Ledger(w) && (w.state.ClosingChannel? ==> w.state.closing.Some?)
    ensures Ledger(Act(w, a))
  {
    hide Balanced, Returns, Run, ReturnPayload;
    if a.Step? {
      RunLedger(w, a.o);
    } else if a.UserSend? {
      SendLedger(w, a.p);
    } else if a.Return? && a.p in w.book.outstanding {
      ReturnLedger(w, a.code, a.p, a.reaches);
    } else if a.Deliver? && Listening(w.state) && !a.e.PublishReturn? {
      DeliverLedger(w, a.e);
    } else {
      UntouchedLedger(w, Act(w, a));
    }
  }

  lemma NextInOrder(queue: seq<Payload>, attempted: seq<Payload>, enqueued: seq<Payload>)
    requires InOrder(false, queue, attempted, enqueued)
    ensures queue != [] ==> InOrder(false, queue[1..], attempted + [queue[0]], enqueued)
    ensures InOrder(true, [], attempted, enqueued)
  {
  }

  lemma AddInOrder(queue: seq<Payload>, attempted: seq<Payload>, enqueued: seq<Payload>)
    requires InOrder(false, queue, attempted, enqueued)
    ensures forall p :: InOrder(false, queue + [p], attempted, enqueued + [p])
  {
  }

  lemma EventFifo(w: World, event: Event, rest: Events)
    requires Fifo(w) && w.state.Connected?
    ensures Fifo(HandleEvent(w, event, rest))
  {
  }

  lemma PublishFifo(w: World, ok: bool)
    requires Fifo(w) && w.state.Connected? && w.out.queue != []
    ensures Fifo(PublishNext(w, ok))
  {
  }

  lemma ConnectedFifo(w: World, o: Outcome)
    requires Fifo(w) && w.state.Connected?
    ensures Fifo(RunConnected(w, o))
  {
    hide InOrder, HandleEvent, PublishNext;
    var w := ReportStarted(w);
    if o.branch.OnEvent? && w.state.events.queue != [] {
      EventFifo(w, w.state.events.queue[0], w.state.events.(queue := w.state.events.queue[1..]));
    } else if o.branch.OnSend? && w.out.queue != [] {
      PublishFifo(w, o.publishOk);
    }
  }

  lemma OpeningFifo(w: World, o: Outcome)
    requires w.state.OpeningChannel? && Fifo(w)
    ensures Fifo(RunOpeningChannel(w, o))
  {
  }

  lemma EndsFifo(w: World, o: Outcome)
    requires Fifo(w) && (w.state.NotStarted? || w.state.Finished? || w.state.ClosingChannel?)
    ensures Fifo(Run(w, o))
  {
    hide InOrder, Returns;
    NextInOrder(w.out.queue, w.book.attempted, w.book.enqueued);
  }

  lemma RunFifo(w: World, o: Outcome)
    requires Fifo(w)
    ensures Fifo(Run(w, o))
  {
    hide InOrder, RunConnected, RunOpeningChannel, PendingReturns;
    if Quiet(w.state) {
      hide Run;
      QuietStep(w, o);
    } else if w.state.Connected? {
      ConnectedFifo(w, o);
    } else if w.state.OpeningChannel? {
      OpeningFifo(w, o);
    } else {
      hide Run;
      EndsFifo(w, o);
    }
  }

  lemma ActFifo(w: World, a: Action)
    requires Fifo(w)
    ensures Fifo(Act(w, a))
  {
    hide InOrder, Returns, Run;
    if a.Step? {
      RunFifo(w, a.o);
    } else if a.UserSend? && !w.state.Over() {
      AddInOrder(w.out.queue, w.book.attempted, w.book.enqueued);
    }
  }

  // ----------------------------------------------------------------- theorems

  /** In every run every payload handed in is queued, with the broker, waiting as a return, or dropped. */
  lemma {:induction false} LedgerAlways(wantsConsumer: bool, actions: seq<Action>)
    ensures var w := ActAll(Init(wantsConsumer), actions);
            w.book.handed == multiset(w.out.queue) + w.book.outstanding + PendingReturns(w.state) + w.book.dropped
  {
    LedgerKept(wantsConsumer, actions);
  }

  lemma {:induction false} LedgerKept(wantsConsumer: bool, actions: seq<Action>)
    ensures Ledger(ActAll(Init(wantsConsumer), actions))
  {
    if actions != [] {
      var before, last := actions[..|actions| - 1], actions[|actions| - 1];
      LedgerKept(wantsConsumer, before);
      ControlAlways(wantsConsumer, before);
      hide Ledger, Act, Handshake;
      ActLedger(ActAll(Init(wantsConsumer), before), last);
    }
  }

  /** In every run payloads are attempted in queue order, each queue entry once; the rest still waits in order. */
  lemma {:induction false} FifoAlways(wantsConsumer: bool, actions: seq<Action>)
    ensures var w := ActAll(Init(wantsConsumer), actions);
            && w.book.attempted <= w.book.enqueued
            && (!w.state.Exited? ==> w.book.enqueued == w.book.attempted + w.out.queue)
  {
    FifoKept(wantsConsumer, actions);
  }

  lemma {:induction false} FifoKept(wantsConsumer: bool, actions: seq<Action>)
    ensures Fifo(ActAll(Init(wantsConsumer), actions))
  {
    if actions != [] {
      var before, last := actions[..|actions| - 1], actions[|actions| - 1];
      FifoKept(wantsConsumer, before);
      hide Fifo, Act;
      ActFifo(ActAll(Init(wantsConsumer), before), last);
    }
  }

  /** What a connected state loses: a payload it fails to publish, and one returned for any reason but a missing route. */
  function LostConnected(w: World, o: Outcome): multiset<Payload>
    requires w.state.Connected?
  {
    var queue := w.state.events.queue;
    if o.branch.OnSend? && w.out.queue != [] && !o.publishOk then multiset{w.out.queue[0]}
    else if o.branch.OnEvent? && queue != [] && queue[0].PublishReturn? && queue[0].code != 312 then multiset{queue[0].data}
    else multiset{}
  }

  /** What an action loses, told by the guards of the branches that lose payloads. */
  function Lost(w: World, a: Action): multiset<Payload> {
    match a
    case Step(o) =>
      (match w.state
       case Connected(_, _, _) => LostConnected(w, o)
       case OpeningChannel(_, events) => if !o.openOk && w.startup.startTx then Returns(events.queue) else multiset{}
       case ClosingChannel(_, _, events, reason) => if o.closeOk && reason.ChannelOnly() then multiset{} else Returns(events.queue)
       case NotStarted => if w.startup.start && w.shutdown then multiset(w.out.queue) else multiset{}
       case Finished(_) => multiset(w.out.queue)
       case _ => multiset{})
    case Return(_, p, reaches) =>
      if p in w.book.outstanding && !(reaches && Listening(w.state)) then multiset{p} else multiset{}
    case _ => multiset{}
  }

  lemma OpeningDrops(w: World, o: Outcome)
    requires w.state.OpeningChannel?
    ensures RunOpeningChannel(w, o).book.dropped == w.book.dropped + Lost(w, Step(o))
  {
  }

  lemma ConnectedDrops(w: World, o: Outcome)
    requires w.state.Connected?
    ensures RunConnected(w, o).book.dropped == w.book.dropped + LostConnected(w, o)
  {
    hide Returns, Report;
  }

  lemma ClosingDrops(w: World, o: Outcome)
    requires w.state.ClosingChannel? && w.state.closing.Some?
    ensures RunClosingChannel(w, o).book.dropped == w.book.dropped + Lost(w, Step(o))
  {
  }

  lemma EndDrops(w: World, o: Outcome)
    requires w.state.NotStarted? || (w.state.Finished? && w.state.reason.Displayable())
    ensures Run(w, o).book.dropped == w.book.dropped + Lost(w, Step(o))
  {
  }

  lemma RunDrops(w: World, o: Outcome)
    requires Holds(w.state, w.out) && (w.state.Finished? ==> w.state.reason.Displayable())
    ensures Run(w, o).book.dropped == w.book.dropped + Lost(w, Step(o))
  {
    hide Returns, RunOpeningChannel, RunConnected, RunClosingChannel, PendingReturns, LostConnected, Exit;
    if Quiet(w.state) {
      QuietStep(w, o);
      hide Run;
    } else if w.state.OpeningChannel? {
      OpeningDrops(w, o);
    } else if w.state.Connected? {
      ConnectedDrops(w, o);
    } else if w.state.ClosingChannel? {
      ClosingDrops(w, o);
    } else {
      EndDrops(w, o);
    }
  }

  /** In every run an action drops exactly what its guards say; what is dropped stays dropped. */
  lemma DropsExactly(wantsConsumer: bool, actions: seq<Action>, a: Action)
    ensures var w := ActAll(Init(wantsConsumer), actions); Act(w, a).book.dropped == w.book.dropped + Lost(w, a)
  {
    ControlAlways(wantsConsumer, actions);
    FinishReasons(wantsConsumer, actions);
    var w := ActAll(Init(wantsConsumer), actions);
    hide ActAll, Handshake, Run, Returns;
    if a.Step? {
      RunDrops(w, a.o);
    }
  }

  /** A run none of whose actions loses a payload has dropped none. */
  lemma {:induction false} NothingLost(wantsConsumer: bool, actions: seq<Action>)
    requires forall i :: 0 <= i < |actions| ==> Lost(ActAll(Init(wantsConsumer), actions[..i]), actions[i]) == multiset{}
    ensures ActAll(Init(wantsConsumer), actions).book.dropped == multiset{}
  {
    if actions != [] {
      var before, last := actions[..|actions| - 1], actions[|actions| - 1];
      forall i | 0 <= i < |before| ensures Lost(ActAll(Init(wantsConsumer), before[..i]), before[i]) == multiset{} {
        assert before[..i] == actions[..i];
      }
      NothingLost(wantsConsumer, before);
      DropsExactly(wantsConsumer, before, last);
      hide Lost, Act;
      assert Lost(ActAll(Init(wantsConsumer), actions[..|actions| - 1]), actions[|actions| - 1]) == multiset{};
    }
  }

  /** Steps that keep the connection but set up a channel anew keep both queues and every payload. */
  lemma ReopeningKeepsPayloads(w: World, o: Outcome)
    requires w.state.HasEvents() && !w.state.Connected? && Run(w, o).state.HasEvents()
    ensures Run(w, o).state.conn == w.state.conn && Run(w, o).state.events.queue == w.state.events.queue
    ensures Run(w, o).out == w.out && Run(w, o).book == w.book
  {
    hide Returns, RunOpeningChannel;
    if w.state.OpeningChannel? {
      OpeningKeepsPayloads(w, o);
    }
  }

  lemma OpeningKeepsPayloads(w: World, o: Outcome)
    requires w.state.OpeningChannel? && RunOpeningChannel(w, o).state.HasEvents()
    ensures var w' := RunOpeningChannel(w, o);
            && w'.state.conn == w.state.conn && w'.state.events.queue == w.state.events.queue
            && w'.out == w.out && w'.book == w.book
  {
  }

  /** Whether the next thing a connected state handles is a payload returned for want of a route. */
  predicate Unroutable(w: World, o: Outcome) {
    && w.state.Connected? && o.branch.OnEvent? && w.state.events.queue != []
    && w.state.events.queue[0].PublishReturn? && w.state.events.queue[0].code == 312
  }

  /** An unroutable payload goes to the end of the outgoing queue, and the channel is closed in order to be reopened. */
  lemma UnroutableRequeued(w: World, o: Outcome)
    requires Unroutable(w, o)
    ensures var w' := Run(w, o);
            && w'.out == Enqueue(w, w.state.events.queue[0].data).out && w'.book == Enqueue(w, w.state.events.queue[0].data).book
            && w'.state.ClosingChannel? && w'.state.reason.ChannelOnly() && w'.state.closing.Some?
            && w'.state.conn == w.state.conn && w'.state.events.queue == w.state.events.queue[1..]
            && w'.net == w.net
  {
  }

  /** The three steps that replace a channel: it is closed, the machine turns round, and another one is opened. */
  lemma ChannelReplaced(w: World, closing: Outcome, turning: Outcome, opening: Outcome)
    requires w.state.ClosingChannel? && w.state.closing.Some? && w.state.reason.ChannelOnly() && closing.closeOk
    requires opening.openOk && opening.registerOk && opening.declareOk
    ensures var w' := Run(Run(Run(w, closing), turning), opening);
            && (w'.state.Connected? || w'.state.DeclaringConsumer?)
            && w'.state.conn == w.state.conn && w'.state.chan == w.net.nextId && w'.state.events.queue == w.state.events.queue
            && w'.out == w.out && w'.book == w.book
  {
    hide Returns;
    assert Run(w, closing) == w.(net := w.net.Logged(ClosedChannelCall(w.state.closing.value)),
                                 state := ReopeningChannel(w.state.conn, w.state.events));
  }

  /**
   * So, when closing and opening the channel succeed, an unroutable payload costs the channel alone: four steps later the
   * machine has another one on the same connection, the payload is last in the outgoing queue, everything else still
   * waits in both queues, and nothing was dropped.
   */
  lemma UnroutableGetsChannel(w: World, event: Outcome, closing: Outcome, turning: Outcome, opening: Outcome)
    requires Unroutable(w, event) && closing.closeOk && opening.openOk && opening.registerOk && opening.declareOk
    ensures var w' := ActAll(w, [Step(event), Step(closing), Step(turning), Step(opening)]);
            && (w'.state.Connected? || w'.state.DeclaringConsumer?)
            && w'.state.conn == w.state.conn && w'.state.chan == w.net.nextId
            && w'.state.events.queue == w.state.events.queue[1..]
            && w'.out.queue == w.out.queue + [w.state.events.queue[0].data]
            && w'.book.dropped == w.book.dropped && w'.book.outstanding == w.book.outstanding
  {
    UnroutableRequeued(w, event);
    ChannelReplaced(Run(w, event), closing, turning, opening);
    hide Run;
    FourSteps(w, event, closing, turning, opening);
  }

  lemma FourSteps(w: World, a: Outcome, b: Outcome, c: Outcome, d: Outcome)
    ensures ActAll(w, [Step(a), Step(b), Step(c), Step(d)]) == Run(Run(Run(Run(w, a), b), c), d)
  {
    OneStepMore(w, [], a);
    OneStepMore(w, [Step(a)], b);
    OneStepMore(w, [Step(a), Step(b)], c);
    OneStepMore(w, [Step(a), Step(b), Step(c)], d);
    assert ActAll(w, []) == w;
    hide Run, ActAll;
    assert [] + [Step(a)] == [Step(a)] && [Step(a)] + [Step(b)] == [Step(a), Step(b)];
    assert [Step(a), Step(b)] + [Step(c)] == [Step(a), Step(b), Step(c)];
    assert [Step(a), Step(b), Step(c)] + [Step(d)] == [Step(a), Step(b), Step(c), Step(d)];
  }

  lemma OneStepMore(w: World, actions: seq<Action>, o: Outcome)
    ensures ActAll(w, actions + [Step(o)]) == Run(ActAll(w, actions), o)
  {
  }
}
