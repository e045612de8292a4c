/** What passes through the connection, told from the actions of a run and the guards they meet. */
module AmqpTraffic {
  import opened Base
  import opened Amqp
  import opened AmqpStart
  import opened AmqpLedger

  // ----------------------------------------------------------------- outgoing

  /** A payload of the user enters the queue while the machine lives and a sender is held. */
  predicate Accepts(w: World, a: Action) {
    a.UserSend? && !w.state.Over() && w.out.userSenders > 0
  }

  /** The payload that a connected machine takes from its queue. */
  predicate Takes(w: World, a: Action) {
    a.Step? && w.state.Connected? && a.o.branch.OnSend? && w.out.queue != []
  }

  function EnqueuedBy(w: World, a: Action): seq<Payload> {
    if Accepts(w, a) then [a.p]
    else if a.Step? && Unroutable(w, a.o) then [w.state.events.queue[0].data]
    else []
  }

  function AttemptedBy(w: World, a: Action): seq<Payload> {
    if Takes(w, a) then [w.out.queue[0]] else []
  }

  /** What the broker holds afterwards: more by a publish that succeeds, less by a payload it returns. */
  function OutstandingAfter(w: World, a: Action): multiset<Payload> {
    if Takes(w, a) && a.o.publishOk then w.book.outstanding + multiset{w.out.queue[0]}
    else if a.Return? && a.p in w.book.outstanding then w.book.outstanding - multiset{a.p}
    else w.book.outstanding
  }

  // ----------------------------------------------------------------- incoming

  /** What becomes of a message that was delivered into the event queue. */
  datatype Fate = Forwarded(data: Payload) | Unwanted(data: Payload) | Discarded(data: Payload)

  /** The messages of an event queue, oldest first. */
  function Messages(queue: seq<Event>): seq<Payload> {
    if queue == [] then []
    else Messages(queue[..|queue| - 1]) + (if queue[|queue| - 1].MessageReceived? then [queue[|queue| - 1].data] else [])
  }

  function Waiting(s: State): seq<Payload> {
    if s.HasEvents() then Messages(s.events.queue) else []
  }

  function DeliveredBy(w: World, a: Action): seq<Payload> {
    if a.Deliver? && Listening(w.state) && a.e.MessageReceived? then [a.e.data] else []
  }

  /** The connection is torn down, and its event queue with it. */
  predicate TearsDown(w: World, a: Action) {
    a.Step?
    && ((w.state.OpeningChannel? && !a.o.openOk && w.startup.startTx)
        || (w.state.ClosingChannel? && !(a.o.closeOk && w.state.reason.ChannelOnly())))
  }

  predicate HandlesMessage(w: World, a: Action) {
    a.Step? && w.state.Connected? && a.o.branch.OnEvent? && w.state.events.queue != [] && w.state.events.queue[0].MessageReceived?
  }

  function FatesBy(w: World, a: Action): seq<Fate> {
    if HandlesMessage(w, a) then
      [if w.wantsConsumer && w.recvAlive then Forwarded(w.state.events.queue[0].data) else Unwanted(w.state.events.queue[0].data)]
    else if TearsDown(w, a) then AllDiscarded(Waiting(w.state))
    else []
  }

  function AllDiscarded(data: seq<Payload>): seq<Fate> {
    seq(|data|, i requires 0 <= i < |data| => Discarded(data[i]))
  }

  /** The messages the fates are about, in order. */
  function DataOf(fates: seq<Fate>): seq<Payload> {
    seq(|fates|, i requires 0 <= i < |fates| => fates[i].data)
  }

  function ForwardedOf(fates: seq<Fate>): seq<Payload> {
    if fates == [] then []
    else ForwardedOf(fates[..|fates| - 1]) + (if fates[|fates| - 1].Forwarded? then [fates[|fates| - 1].data] else [])
  }

  // --------------------------------------------------------------- over a run

  /** Everything that went in, came out or was lost during a run. */
  datatype Traffic = Traffic(accepted: seq<Payload>, enqueued: seq<Payload>, attempted: seq<Payload>,
                             delivered: seq<Payload>, fates: seq<Fate>)

  /** The traffic after one more action at world w. */
  function TrafficAfter(t: Traffic, w: World, a: Action): Traffic {
    Traffic(t.accepted + (if Accepts(w, a) then [a.p] else []), t.enqueued + EnqueuedBy(w, a), t.attempted + AttemptedBy(w, a),
            t.delivered + DeliveredBy(w, a), t.fates + FatesBy(w, a))
  }

  function TrafficOf(wantsConsumer: bool, actions: seq<Action>): Traffic {
    if actions == [] then Traffic([], [], [], [], [])
    else
      var before, a := actions[..|actions| - 1], actions[|actions| - 1];
      TrafficAfter(TrafficOf(wantsConsumer, before), ActAll(Init(wantsConsumer), before), a)
  }

  // --------------------------------------------------------------- one action

  lemma {:induction false} MessagesHead(queue: seq<Event>)
    requires queue != []
    ensures Messages(queue) == (if queue[0].MessageReceived? then [queue[0].data] else []) + Messages(queue[1..])
  {
    if |queue| == 1 {
      assert queue[..0] == [] && queue[1..] == [];
    } else {
      var init, last := queue[..|queue| - 1], queue[|queue| - 1];
      MessagesHead(init);
      assert queue[1..] == init[1..] + [last];
      MessagesSnoc(init[1..], last);
    }
  }

  lemma MessagesSnoc(queue: seq<Event>, e: Event)
    ensures Messages(queue + [e]) == Messages(queue) + (if e.MessageReceived? then [e.data] else [])
  {
  }

  lemma {:induction false} DiscardedNotForwarded(fates: seq<Fate>, data: seq<Payload>)
    ensures ForwardedOf(fates + AllDiscarded(data)) == ForwardedOf(fates)
    ensures DataOf(fates + AllDiscarded(data)) == DataOf(fates) + data
  {
    if data == [] {
      assert fates + AllDiscarded(data) == fates;
    } else {
      var before := data[..|data| - 1];
      DiscardedNotForwarded(fates, before);
      var all := fates + AllDiscarded(data);
      assert all[..|all| - 1] == fates + AllDiscarded(before);
    }
  }

  lemma FateSnoc(fates: seq<Fate>, f: Fate)
    ensures ForwardedOf(fates + [f]) == ForwardedOf(fates) + (if f.Forwarded? then [f.data] else [])
    ensures DataOf(fates + [f]) == DataOf(fates) + [f.data]
  {
  }

  /** The books after an action, but for what was dropped. */
  ghost predicate Books(w: World, w': World, a: Action) {
    && w'.book.enqueued == w.book.enqueued + EnqueuedBy(w, a)
    && w'.book.attempted == w.book.attempted + AttemptedBy(w, a)
    && w'.book.outstanding == OutstandingAfter(w, a)
    && w'.book.handed == w.book.handed + (if Accepts(w, a) then multiset{a.p} else multiset{})
  }

  lemma SameBooks(w: World, w': World, a: Action)
    requires w'.book.enqueued == w.book.enqueued && w'.book.attempted == w.book.attempted
    requires w'.book.outstanding == w.book.outstanding && w'.book.handed == w.book.handed
    requires !Accepts(w, a) && !Takes(w, a) && EnqueuedBy(w, a) == [] && !(a.Return? && a.p in w.book.outstanding)
    ensures Books(w, w', a)
  {
  }

  lemma EventBooks(w: World, event: Event, rest: Events, o: Outcome)
    requires w.state.Connected? && o.branch.OnEvent? && w.state.events.queue != [] && event == w.state.events.queue[0]
    ensures Books(w, HandleEvent(ReportStarted(w), event, rest), Step(o))
  {
    hide Report, Books;
    if Unroutable(w, o) {
      UnroutableBooks(w, event, rest, o);
    } else {
      SameBooks(w, HandleEvent(ReportStarted(w), event, rest), Step(o));
    }
  }

  lemma UnroutableBooks(w: World, event: Event, rest: Events, o: Outcome)
    requires Unroutable(w, o) && event == w.state.events.queue[0]
    ensures Books(w, HandleEvent(ReportStarted(w), event, rest), Step(o))
  {
    hide Report;
  }

  lemma TakenBooks(w: World, o: Outcome)
    requires Takes(w, Step(o))
    ensures Books(w, PublishNext(ReportStarted(w), o.publishOk), Step(o))
  {
    hide Report;
  }

  lemma ConnectedBooks(w: World, o: Outcome)
    requires w.state.Connected?
    ensures Books(w, RunConnected(w, o), Step(o))
  {
    hide HandleEvent, PublishNext, Report, Books;
    if o.branch.OnEvent? && w.state.events.queue != [] {
      EventBooks(w, w.state.events.queue[0], w.state.events.(queue := w.state.events.queue[1..]), o);
    } else if Takes(w, Step(o)) {
      TakenBooks(w, o);
    } else {
      SameBooks(w, RunConnected(w, o), Step(o));
    }
  }

  lemma OpeningBooks(w: World, o: Outcome)
    requires w.state.OpeningChannel?
    ensures Books(w, RunOpeningChannel(w, o), Step(o))
  {
    hide Returns, Books;
    SameBooks(w, RunOpeningChannel(w, o), Step(o));
  }

  lemma ClosingBooks(w: World, o: Outcome)
    requires w.state.ClosingChannel?
    ensures Books(w, RunClosingChannel(w, o), Step(o))
  {
    hide Returns, Books;
    SameBooks(w, RunClosingChannel(w, o), Step(o));
  }

  lemma EndsBooks(w: World, o: Outcome)
    requires w.state.NotStarted? || w.state.Finished?
    ensures Books(w, Run(w, o), Step(o))
  {
    hide Books;
    SameBooks(w, Run(w, o), Step(o));
  }

  lemma StepBooks(w: World, o: Outcome)
    ensures Books(w, Run(w, o), Step(o))
  {
    hide Books, Returns, RunConnected, RunOpeningChannel, RunClosingChannel, PendingReturns;
    if w.state.Connected? {
      ConnectedBooks(w, o);
    } else if w.state.OpeningChannel? {
      OpeningBooks(w, o);
    } else if w.state.ClosingChannel? {
      ClosingBooks(w, o);
    } else if Quiet(w.state) {
      hide Run;
      QuietStep(w, o);
      SameBooks(w, Run(w, o), Step(o));
    } else {
      EndsBooks(w, o);
    }
  }

  lemma ReturnBooks(w: World, a: Action)
    requires a.Return? || a.Deliver? || a.DropHandler?
    ensures Books(w, Act(w, a), a)
  {
    hide Run, Queued, WithEvents, Books;
    if a.Return? && a.p in w.book.outstanding {
      ReturnedBooks(w, a);
    } else {
      SameBooks(w, Act(w, a), a);
    }
  }

  lemma ReturnedBooks(w: World, a: Action)
    requires a.Return? && a.p in w.book.outstanding
    ensures Books(w, Act(w, a), a)
  {
    hide Run, Queued;
  }

  lemma UserBooks(w: World, a: Action)
    requires !a.Step? && !a.Return? && !a.Deliver? && !a.DropHandler?
    ensures Books(w, Act(w, a), a)
  {
    hide Run, ReturnPayload;
  }

  lemma ActBooks(w: World, a: Action)
    ensures Books(w, Act(w, a), a)
  {
    if a.Step? {
      hide Run, Books;
      StepBooks(w, a.o);
    } else {
      hide Act, Books;
      if a.Return? || a.Deliver? || a.DropHandler? {
        ReturnBooks(w, a);
      } else {
        UserBooks(w, a);
      }
    }
  }

  /** What a step does to the messages: those it deals with leave the front of the queue, and the forwarded ones are booked. */
  ghost predicate Dealt(w: World, w': World, a: Action) {
    && Waiting(w.state) + DeliveredBy(w, a) == DataOf(FatesBy(w, a)) + Waiting(w'.state)
    && w'.book.forwarded == w.book.forwarded + ForwardedOf(FatesBy(w, a))
  }

  lemma NoFates()
    ensures ForwardedOf([]) == [] && DataOf([]) == []
  {
  }

  lemma NothingDealt(w: World, w': World, a: Action)
    requires FatesBy(w, a) == [] && DeliveredBy(w, a) == []
    requires Waiting(w'.state) == Waiting(w.state) && w'.book.forwarded == w.book.forwarded
    ensures Dealt(w, w', a)
  {
    hide FatesBy, DeliveredBy, Waiting;
    NoFates();
  }

  lemma MoreWaiting(w: World, w': World, a: Action)
    requires FatesBy(w, a) == [] && Waiting(w'.state) == Waiting(w.state) + DeliveredBy(w, a)
    requires w'.book.forwarded == w.book.forwarded
    ensures Dealt(w, w', a)
  {
    hide FatesBy, DeliveredBy, Waiting;
    NoFates();
  }

  lemma OneDealt(w: World, w': World, a: Action, f: Fate)
    requires FatesBy(w, a) == [f] && DeliveredBy(w, a) == []
    requires Waiting(w.state) == [f.data] + Waiting(w'.state)
    requires w'.book.forwarded == w.book.forwarded + (if f.Forwarded? then [f.data] else [])
    ensures Dealt(w, w', a)
  {
    hide FatesBy, DeliveredBy, Waiting;
    NoFates();
    FateSnoc([], f);
    assert [] + [f] == [f];
  }

  lemma AllLost(w: World, w': World, a: Action)
    requires FatesBy(w, a) == AllDiscarded(Waiting(w.state)) && DeliveredBy(w, a) == []
    requires Waiting(w'.state) == [] && w'.book.forwarded == w.book.forwarded
    ensures Dealt(w, w', a)
  {
    hide FatesBy, DeliveredBy, Waiting, AllDiscarded, ForwardedOf, DataOf;
    NoFates();
    DiscardedNotForwarded([], Waiting(w.state));
    assert [] + AllDiscarded(Waiting(w.state)) == AllDiscarded(Waiting(w.state));
  }

  lemma EventDealt(w: World, o: Outcome)
    requires w.state.Connected? && o.branch.OnEvent? && w.state.events.queue != []
    ensures Dealt(w, RunConnected(w, o), Step(o))
  {
    hide Report, Messages, Dealt;
    MessagesHead(w.state.events.queue);
    if HandlesMessage(w, Step(o)) {
      OneDealt(w, RunConnected(w, o), Step(o), FatesBy(w, Step(o))[0]);
    } else {
      NothingDealt(w, RunConnected(w, o), Step(o));
    }
  }

  lemma OtherTurnDealt(w: World, o: Outcome)
    requires w.state.Connected? && !(o.branch.OnEvent? && w.state.events.queue != [])
    ensures Dealt(w, RunConnected(w, o), Step(o))
  {
    hide Report, Messages, Dealt;
    NothingDealt(w, RunConnected(w, o), Step(o));
  }

  lemma OpeningDealt(w: World, o: Outcome)
    requires w.state.OpeningChannel?
    ensures Dealt(w, RunOpeningChannel(w, o), Step(o))
  {
    hide Returns, Messages, AllDiscarded, Dealt;
    if TearsDown(w, Step(o)) {
      AllLost(w, RunOpeningChannel(w, o), Step(o));
    } else {
      NothingDealt(w, RunOpeningChannel(w, o), Step(o));
    }
  }

  lemma ClosingDealt(w: World, o: Outcome)
    requires w.state.ClosingChannel? && w.state.closing.Some?
    ensures Dealt(w, RunClosingChannel(w, o), Step(o))
  {
    hide Returns, Messages, AllDiscarded, Dealt;
    if TearsDown(w, Step(o)) {
      AllLost(w, RunClosingChannel(w, o), Step(o));
    } else {
      NothingDealt(w, RunClosingChannel(w, o), Step(o));
    }
  }

  lemma QuietWaiting(w: World, o: Outcome)
    requires w.state.Connecting? || w.state.DeclaringConsumer? || w.state.ClosedConnection?
    ensures Waiting(Run(w, o).state) == Waiting(w.state)
  {
    hide ReportError;
  }

  lemma StepDealt(w: World, o: Outcome)
    requires w.state.ClosingChannel? ==> w.state.closing.Some?
    ensures Dealt(w, Run(w, o), Step(o))
  {
    hide Returns, Messages, RunConnected, RunOpeningChannel, RunClosingChannel, RunConnecting, RunDeclaringConsumer,
         RunClosedConnection, PendingReturns, Dealt;
    if w.state.Connected? {
      if o.branch.OnEvent? && w.state.events.queue != [] {
        EventDealt(w, o);
      } else {
        OtherTurnDealt(w, o);
      }
    } else if w.state.OpeningChannel? {
      OpeningDealt(w, o);
    } else if w.state.ClosingChannel? {
      ClosingDealt(w, o);
    } else {
      if Quiet(w.state) { QuietStep(w, o); }
      if w.state.Connecting? || w.state.DeclaringConsumer? || w.state.ClosedConnection? {
        QuietWaiting(w, o);
      }
      NothingDealt(w, Run(w, o), Step(o));
    }
  }

  lemma ListenerDealt(w: World, a: Action)
    requires (a.Deliver? || a.Return?) && Listening(w.state)
    ensures Dealt(w, Act(w, a), a)
  {
    hide Run, Messages, Dealt;
    MessagesSnoc(w.state.events.queue, if a.Deliver? then a.e else PublishReturn(a.code, a.p));
    MoreWaiting(w, Act(w, a), a);
  }

  lemma UserDealt(w: World, a: Action)
    requires !a.Step? && !((a.Deliver? || a.Return?) && Listening(w.state))
    ensures Dealt(w, Act(w, a), a)
  {
    hide Run, Messages, Dealt;
    NothingDealt(w, Act(w, a), a);
  }

  lemma ActDealt(w: World, a: Action)
    requires w.state.ClosingChannel? ==> w.state.closing.Some?
    ensures Dealt(w, Act(w, a), a)
  {
    if a.Step? {
      hide Run, Dealt;
      StepDealt(w, a.o);
    } else {
      hide Act, Dealt;
      if (a.Deliver? || a.Return?) && Listening(w.state) {
        ListenerDealt(w, a);
      } else {
        UserDealt(w, a);
      }
    }
  }

  lemma {:induction false} FatesConcat(a: seq<Fate>, b: seq<Fate>)
    ensures ForwardedOf(a + b) == ForwardedOf(a) + ForwardedOf(b) && DataOf(a + b) == DataOf(a) + DataOf(b)
  {
    if b == [] {
      assert a + b == a;
    } else {
      FatesConcat(a, b[..|b| - 1]);
      assert (a + b)[..|a + b| - 1] == a + b[..|b| - 1];
    }
  }

  /** A machine with a channel hears its events. */
  predicate Hears(s: State) {
    s.DeclaringConsumer? || s.Connected? || s.ClosingChannel? ==> s.events.handlers > 0
  }

  lemma StepHears(w: World, o: Outcome)
    requires Hears(w.state)
    ensures Hears(Run(w, o).state)
  {
    hide RunConnected, RunOpeningChannel, Returns, ReportError;
    if w.state.Connected? {
      ConnectedHears(w, o);
    } else if w.state.OpeningChannel? {
      OpeningHears(w, o);
    }
  }

  lemma OpeningHears(w: World, o: Outcome)
    requires w.state.OpeningChannel?
    ensures Hears(RunOpeningChannel(w, o).state)
  {
    hide Returns;
  }

  lemma ConnectedHears(w: World, o: Outcome)
    requires w.state.Connected? && Hears(w.state)
    ensures Hears(RunConnected(w, o).state)
  {
    hide Report, Dropping;
  }

  lemma ActHears(w: World, a: Action)
    requires Hears(w.state) && !a.DropHandler?
    ensures Hears(Act(w, a).state)
  {
    hide Run;
    if a.Step? { StepHears(w, a.o); }
  }

  // ----------------------------------------------------------------- theorems

  /** One more callback holds a sender of the event queue: a channel was opened, or its consumer asked for. */
  predicate AddsHandler(w: World, a: Action) {
    a.Step? && ((w.state.OpeningChannel? && a.o.openOk) || w.state.DeclaringConsumer?)
  }

  predicate TakesHandler(w: World, a: Action) {
    a.DropHandler? && Listening(w.state)
  }

  function HandlersAfter(w: World, a: Action): int
    requires w.state.HasEvents()
  {
    w.state.events.handlers + (if AddsHandler(w, a) then 1 else 0) - (if TakesHandler(w, a) then 1 else 0)
  }

  lemma ConnectedHandlers(w: World, o: Outcome)
    requires w.state.Connected?
    ensures RunConnected(w, o).state.HasEvents() && RunConnected(w, o).state.events.handlers == w.state.events.handlers
  {
    hide Report, Dropping;
  }

  lemma ChannelHandlers(w: World, o: Outcome)
    requires w.state.OpeningChannel? && RunOpeningChannel(w, o).state.HasEvents()
    ensures RunOpeningChannel(w, o).state.events.handlers == HandlersAfter(w, Step(o))
  {
    hide Returns;
  }

  lemma StepHandlers(w: World, o: Outcome)
    requires w.state.HasEvents() && Run(w, o).state.HasEvents()
    ensures Run(w, o).state.events.handlers == HandlersAfter(w, Step(o))
  {
    hide RunConnected, RunOpeningChannel, Returns;
    if w.state.Connected? {
      ConnectedHandlers(w, o);
    } else if w.state.OpeningChannel? {
      ChannelHandlers(w, o);
    }
  }

  /** The callbacks of a connection: one when it is opened, one more for each channel and each consumer, less those dropped. */
  lemma HandlersCounted(w: World, a: Action)
    ensures w.state.HasEvents() && Act(w, a).state.HasEvents() ==> Act(w, a).state.events.handlers == HandlersAfter(w, a)
    ensures w.state.Connecting? && a.Step? && Act(w, a).state.HasEvents() ==> Act(w, a).state.events.handlers == 1
  {
    if a.Step? {
      if w.state.HasEvents() && Run(w, a.o).state.HasEvents() { StepHandlers(w, a.o); }
      hide RunConnected, RunOpeningChannel, RunClosedConnection, Returns, HandlersAfter;
    } else {
      hide Run;
    }
  }

  /** How many senders the user holds, starting with one. */
  function SendersAfter(n: nat, a: Action): nat {
    if n == 0 then 0 else if a.CloneUserSender? then n + 1 else if a.DropUserSender? then n - 1 else n
  }

  /** What the user has and asks for is changed by the user alone. */
  predicate UserSide(w: World, w': World, a: Action) {
    && (w'.startup.start <==> w.startup.start || a.UserStart?) && (w'.shutdown <==> w.shutdown || a.UserShutdown?)
    && (w'.recvAlive <==> w.recvAlive && !a.DropReceiver?) && (w'.startup.startRx <==> w.startup.startRx && !a.DropStartRx?)
    && w'.out.userSenders == SendersAfter(w.out.userSenders, a) && w'.wantsConsumer == w.wantsConsumer
  }

  /** Steps leave it alone. */
  predicate SameSide(w: World, w': World) {
    && w'.startup.start == w.startup.start && w'.shutdown == w.shutdown && w'.recvAlive == w.recvAlive
    && w'.startup.startRx == w.startup.startRx && w'.out.userSenders == w.out.userSenders && w'.wantsConsumer == w.wantsConsumer
  }

  lemma EventSide(w: World, event: Event, rest: Events)
    requires w.state.Connected?
    ensures SameSide(w, HandleEvent(w, event, rest))
  {
    hide Dropping;
  }

  lemma ConnectedSide(w: World, o: Outcome)
    requires w.state.Connected?
    ensures SameSide(w, RunConnected(w, o))
  {
    hide HandleEvent, Dropping;
    var reported := ReportStarted(w);
    assert SameSide(w, reported);
    if o.branch.OnEvent? && w.state.events.queue != [] {
      EventSide(reported, w.state.events.queue[0], w.state.events.(queue := w.state.events.queue[1..]));
    }
  }

  lemma ChannelSide(w: World, o: Outcome)
    ensures w.state.OpeningChannel? ==> SameSide(w, RunOpeningChannel(w, o))
    ensures w.state.DeclaringConsumer? ==> SameSide(w, RunDeclaringConsumer(w, o))
    ensures w.state.ClosingChannel? ==> SameSide(w, RunClosingChannel(w, o))
  {
    hide Returns, Dropping;
  }

  lemma ConnectionSide(w: World, o: Outcome)
    ensures SameSide(w, RunConnecting(w, o))
    ensures w.state.ClosingConnection? ==> SameSide(w, RunClosingConnection(w))
  {
  }

  lemma ReportSide(s: Startup, err: Option<string>)
    ensures ReportError(s, err).0.start == s.start && ReportError(s, err).0.startRx == s.startRx
  {
  }

  lemma ClosedSide(w: World)
    requires w.state.ClosedConnection?
    ensures SameSide(w, RunClosedConnection(w))
  {
    hide ReportError;
    if w.state.reason.StartError? { ReportSide(w.startup, w.state.reason.err); }
  }

  lemma EndSide(w: World)
    ensures SameSide(w, RunNotStarted(w)) && SameSide(w, Exit(w))
  {
    hide Dropping;
  }

  lemma StepSide(w: World, o: Outcome)
    ensures SameSide(w, Run(w, o))
  {
    hide RunNotStarted, RunConnecting, RunOpeningChannel, RunDeclaringConsumer, RunConnected, RunClosingChannel, RunClosingConnection,
         RunClosedConnection, Exit;
    ChannelSide(w, o);
    ConnectionSide(w, o);
    EndSide(w);
    if w.state.ClosedConnection? { ClosedSide(w); }
    if w.state.Connected? { ConnectedSide(w, o); }
  }

  lemma UserActs(w: World, a: Action)
    requires !a.Step?
    ensures UserSide(w, Act(w, a), a)
  {
    hide Run, WithEvents;
  }

  /** The start gate, the shutdown request, the receivers and the senders of the user, action by action. */
  lemma OnlyUserChangesSide(w: World, a: Action)
    ensures UserSide(w, Act(w, a), a)
  {
    hide Run;
    if !a.Step? {
      hide Act, UserSide;
      UserActs(w, a);
    } else {
      StepSide(w, a.o);
    }
  }

  /** As long as no callback is dropped, every event for a channel the machine has open enters the event queue. */
  lemma {:induction false} HearsAlways(wantsConsumer: bool, actions: seq<Action>)
    requires forall k :: 0 <= k < |actions| ==> !actions[k].DropHandler?
    ensures Hears(ActAll(Init(wantsConsumer), actions).state)
  {
    if actions != [] {
      var before, a := actions[..|actions| - 1], actions[|actions| - 1];
      HearsAlways(wantsConsumer, before);
      hide Act, Hears;
      ActHears(ActAll(Init(wantsConsumer), before), a);
    }
  }

  /**
   * After every run, whatever the broker and the user do: payloads entered the outgoing queue exactly when they were
   * accepted from the user or came back for want of a route, and were attempted exactly when a connected machine took them
   * from the queue. Messages delivered into the event queue were dealt with in that order, each once: forwarded to the user
   * exactly if a consumer was wanted and the receiver alive, or discarded with a connection; the rest still waits.
   */
  lemma {:induction false} TrafficAlways(wantsConsumer: bool, actions: seq<Action>)
    ensures var w, t := ActAll(Init(wantsConsumer), actions), TrafficOf(wantsConsumer, actions);
            && w.book.handed == multiset(t.accepted) && w.book.enqueued == t.enqueued && w.book.attempted == t.attempted
            && t.delivered == DataOf(t.fates) + Waiting(w.state)
            && w.book.forwarded == ForwardedOf(t.fates)
  {
    AccountedAlways(wantsConsumer, actions);
  }

  /** The broker holds what was published and not returned. */
  lemma OutstandingStep(wantsConsumer: bool, actions: seq<Action>, a: Action)
    ensures var w := ActAll(Init(wantsConsumer), actions); Act(w, a).book.outstanding == OutstandingAfter(w, a)
  {
    hide Act, ActAll, OutstandingAfter;
    ActBooks(ActAll(Init(wantsConsumer), actions), a);
  }

  ghost predicate Accounted(w: World, t: Traffic) {
    && w.book.handed == multiset(t.accepted) && w.book.enqueued == t.enqueued && w.book.attempted == t.attempted
    && t.delivered == DataOf(t.fates) + Waiting(w.state)
    && w.book.forwarded == ForwardedOf(t.fates)
  }

  lemma AccountedKept(w: World, t: Traffic, a: Action)
    requires Accounted(w, t) && (w.state.ClosingChannel? ==> w.state.closing.Some?)
    ensures Accounted(Act(w, a), TrafficAfter(t, w, a))
  {
    hide Act, EnqueuedBy, AttemptedBy, DeliveredBy, FatesBy, Accepts, ForwardedOf, DataOf, Waiting, OutstandingAfter;
    ActBooks(w, a);
    ActDealt(w, a);
    FatesConcat(t.fates, FatesBy(w, a));
    Regrouped(t.delivered, DataOf(t.fates), Waiting(w.state), DeliveredBy(w, a), DataOf(FatesBy(w, a)), Waiting(Act(w, a).state));
  }

  lemma Regrouped(delivered: seq<Payload>, dealt: seq<Payload>, waiting: seq<Payload>, more: seq<Payload>, now: seq<Payload>, left: seq<Payload>)
    requires delivered == dealt + waiting && waiting + more == now + left
    ensures delivered + more == (dealt + now) + left
  {
    assert delivered + more == dealt + (waiting + more);
  }

  lemma {:induction false} AccountedAlways(wantsConsumer: bool, actions: seq<Action>)
    ensures Accounted(ActAll(Init(wantsConsumer), actions), TrafficOf(wantsConsumer, actions))
  {
    if actions == [] {
      NoFates();
    } else {
      var before, a := actions[..|actions| - 1], actions[|actions| - 1];
      AccountedAlways(wantsConsumer, before);
      ControlAlways(wantsConsumer, before);
      hide Act, Accounted, TrafficAfter, Handshake;
      AccountedKept(ActAll(Init(wantsConsumer), before), TrafficOf(wantsConsumer, before), a);
    }
  }

  /** With a consumer wanted, as long as the user keeps the receiver, every message is forwarded or lost with a connection. */
  lemma {:induction false} NoneUnwanted(actions: seq<Action>, i: nat)
    requires forall k :: 0 <= k < |actions| ==> !actions[k].DropReceiver?
    requires i < |TrafficOf(true, actions).fates|
    ensures !TrafficOf(true, actions).fates[i].Unwanted?
  {
    var before, a := actions[..|actions| - 1], actions[|actions| - 1];
    hide ActAll;
    if i < |TrafficOf(true, before).fates| {
      NoneUnwanted(before, i);
    } else {
      StaysWanted(before);
    }
  }

  lemma {:induction false} StaysWanted(actions: seq<Action>)
    requires forall k :: 0 <= k < |actions| ==> !actions[k].DropReceiver?
    ensures ActAll(Init(true), actions).wantsConsumer && ActAll(Init(true), actions).recvAlive
  {
    if actions != [] {
      var before, a := actions[..|actions| - 1], actions[|actions| - 1];
      StaysWanted(before);
      hide Act;
      KeepsWanted(ActAll(Init(true), before), a);
    }
  }

  lemma KeepsWanted(w: World, a: Action)
    requires !a.DropReceiver?
    ensures Act(w, a).wantsConsumer == w.wantsConsumer && Act(w, a).recvAlive == w.recvAlive
  {
    hide Act;
    OnlyUserChangesSide(w, a);
  }

  /** So then, unless a connection was torn down, the user got exactly what was delivered and no longer waits. */
  lemma {:induction false} AllForwarded(actions: seq<Action>)
    requires forall k :: 0 <= k < |actions| ==> !actions[k].DropReceiver?
    requires forall k :: 0 <= k < |actions| ==> !TearsDown(ActAll(Init(true), actions[..k]), actions[k])
    ensures var w := ActAll(Init(true), actions); TrafficOf(true, actions).delivered == w.book.forwarded + Waiting(w.state)
  {
    TrafficAlways(true, actions);
    NoneDiscarded(actions);
  }

  lemma {:induction false} NoneDiscarded(actions: seq<Action>)
    requires forall k :: 0 <= k < |actions| ==> !actions[k].DropReceiver?
    requires forall k :: 0 <= k < |actions| ==> !TearsDown(ActAll(Init(true), actions[..k]), actions[k])
    ensures ForwardedOf(TrafficOf(true, actions).fates) == DataOf(TrafficOf(true, actions).fates)
  {
    NoFates();
    if actions != [] {
      var before, a := actions[..|actions| - 1], actions[|actions| - 1];
      assert forall k :: 0 <= k < |before| ==> before[k] == actions[k] && before[..k] == actions[..k];
      NoneDiscarded(before);
      StaysWanted(before);
      var w, t := ActAll(Init(true), before), TrafficOf(true, before);
      assert !TearsDown(w, a);
      hide ActAll, TrafficOf, TearsDown;
      if HandlesMessage(w, a) {
        FateSnoc(t.fates, Forwarded(w.state.events.queue[0].data));
      } else {
        assert t.fates + [] == t.fates;
      }
    }
  }
}
