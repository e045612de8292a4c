/**
 * The reconnecting AMQP connection: its states, what it shares between them, the handle at the other
 * end of its channels, and everything a broker and a user may do to it in between.
 */
module Amqp {
  import opened Base

  /** An outgoing or incoming message body. */
  type Payload = nat

  /** A live connection or channel. */
  type Id = nat

  const NO_ROUTE: nat := 312

  datatype FatalCause =
    | EventRxClosed
    | SendRxClosed
    | StartTxConsumed(inner: Option<string>)
    | InnerErrorMissing
    | StartErrorUndelivered(undelivered: string)
    | ErrorWhileStarting

  datatype CloseReason =
    | Shutdown
    | ChannelClosed
    | ConnectionClosed
    | PublishNoRoute
    | Fatal(cause: FatalCause)
    | Other
    | StartError(err: Option<string>)
  {
    /** The reasons that can be displayed; displaying any other one does not return. */
    predicate Displayable() {
      Shutdown? || Fatal?
    }

    /** The reasons after which only the channel is reopened. */
    predicate ChannelOnly() {
      ChannelClosed? || PublishNoRoute?
    }
  }

  datatype Event =
    | ConnectionClose
    | ChannelClose
    | PublishReturn(code: nat, data: Payload)
    | MessageReceived(data: Payload)
    | Ignored

  /** The event queue with its senders: the one the state keeps and those held by callbacks. */
  datatype Events = Events(queue: seq<Event>, ownSender: bool, handlers: nat) {
    predicate Closed() {
      queue == [] && !ownSender && handlers == 0
    }

    function AddHandler(): Events {
      this.(handlers := handlers + 1)
    }
  }

  datatype State =
    | NotStarted
    | Disconnected
    | Connecting
    | Reconnecting
    | OpeningChannel(conn: Id, events: Events)
    | ReopeningChannel(conn: Id, events: Events)
    | DeclaringConsumer(conn: Id, chan: Id, events: Events)
    | Connected(conn: Id, chan: Id, events: Events)
    | ClosingChannel(conn: Id, closing: Option<Id>, events: Events, reason: CloseReason)
    | ClosingConnection(conn_: Option<Id>, reason: CloseReason)
    | ClosedConnection(reason: CloseReason)
    | Finished(reason: CloseReason)
    | Exited
    | Panicked
  {
    predicate HasEvents() {
      OpeningChannel? || ReopeningChannel? || DeclaringConsumer? || Connected? || ClosingChannel?
    }

    predicate Over() {
      Exited? || Panicked?
    }
  }

  /** The one-shot that tells the user how starting went. */
  datatype OneShot = Pending | Sent(result: Option<string>) | Undelivered | SenderDropped

  /** Calls on the broker that took effect; closing counts whatever it answers. */
  datatype Call =
    | OpenedConnection(c: Id)
    | ClosedConnectionCall(c: Id)
    | OpenedChannel(c: Id, ch: Id)
    | RegisteredCallback(ch: Id)
    | DeclaredQueue(ch: Id)
    | DeclaredConsumer(ch: Id)
    | Published(ch: Id)
    | ClosedChannelCall(ch: Id)

  /** The queue of outgoing payloads with its senders: the shared one and those handed to the user. */
  datatype Outgoing = Outgoing(queue: seq<Payload>, ownSender: bool, userSenders: nat) {
    predicate Closed() {
      queue == [] && !ownSender && userSenders == 0
    }
  }

  /** The start gate and the one-shot; `taken` and `connectedOnce` only record what happened. */
  datatype Startup = Startup(start: bool, startTx: bool, startRx: bool, oneShot: OneShot, taken: nat, connectedOnce: bool)

  /** The calls made so far, and the next connection or channel the broker hands out. */
  datatype Network = Network(nextId: Id, log: seq<Call>) {
    function Logged(call: Call): Network {
      this.(log := log + [call])
    }

    function Opened(call: Call): Network {
      Network(nextId + 1, log + [call])
    }
  }

  /** Where payloads went: a record of the run. Only `outstanding` is known to the broker. */
  datatype Book = Book(handed: multiset<Payload>, outstanding: multiset<Payload>, dropped: multiset<Payload>,
                       enqueued: seq<Payload>, attempted: seq<Payload>, forwarded: seq<Payload>)

  /** The connection with its surroundings. */
  datatype World = World(state: State, shutdown: bool, wantsConsumer: bool, recvAlive: bool,
                         startup: Startup, out: Outgoing, net: Network, book: Book)

  function Init(wantsConsumer: bool): World {
    World(NotStarted, false, wantsConsumer, true, Startup(false, true, true, Pending, 0, false),
          Outgoing([], true, 1), Network(0, []), Book(multiset{}, multiset{}, multiset{}, [], [], []))
  }

  // -------------------------------------------------------------------- steps

  datatype Branch = OnShutdown | OnEvent | OnSend

  /** How the calls of one step end, and which ready branch the select takes. */
  datatype Outcome = Outcome(openOk: bool, registerOk: bool, declareOk: bool, consumeOk: bool,
                             closeOk: bool, publishOk: bool, branch: Branch, error: string)

  /** The reason for giving up: while starting, the error goes to the user. */
  function FailureReason(w: World, error: string): CloseReason {
    if w.startup.startTx then StartError(Some(error)) else Other
  }

  /** Returned payloads that wait in the event queue. */
  function Returns(queue: seq<Event>): multiset<Payload> {
    if queue == [] then multiset{}
    else Returns(queue[..|queue| - 1]) + (if queue[|queue| - 1].PublishReturn? then multiset{queue[|queue| - 1].data} else multiset{})
  }

  function Dropping(book: Book, lost: multiset<Payload>): Book {
    book.(dropped := book.dropped + lost)
  }

  /** Moving on to closing the connection discards the event queue. */
  function CloseConnection(w: World, conn: Id, events: Events, reason: CloseReason): World {
    w.(state := ClosingConnection(Some(conn), reason), book := Dropping(w.book, Returns(events.queue)))
  }

  function RunNotStarted(w: World): World {
    if !w.startup.start then w
    else if w.shutdown then Exit(w)
    else w.(state := Disconnected)
  }

  function RunConnecting(w: World, o: Outcome): World {
    if !o.openOk then
      w.(state := if w.startup.startTx then ClosedConnection(StartError(Some(o.error))) else Reconnecting)
    else
      var conn := w.net.nextId;
      w.(net := w.net.Opened(OpenedConnection(conn)),
         state := if !o.registerOk then ClosingConnection(Some(conn), FailureReason(w, o.error))
                  else OpeningChannel(conn, Events([], true, 1)))
  }

  function RunOpeningChannel(w: World, o: Outcome): World
    requires w.state.OpeningChannel?
  {
    var conn, events := w.state.conn, w.state.events;
    if !o.openOk then
      if w.startup.startTx then CloseConnection(w, conn, events, StartError(Some(o.error)))
      else w.(state := ReopeningChannel(conn, events))
    else
      var chan, events := w.net.nextId, events.AddHandler();
      var net := w.net.Opened(OpenedChannel(conn, chan));
      var failed := ClosingChannel(conn, Some(chan), events, FailureReason(w, o.error));
      if !o.registerOk then w.(net := net, state := failed)
      else
        var net := net.Logged(RegisteredCallback(chan));
        if !o.declareOk then w.(net := net, state := failed)
        else
          w.(net := net.Logged(DeclaredQueue(chan)),
             state := if w.wantsConsumer then DeclaringConsumer(conn, chan, events) else Connected(conn, chan, events))
  }

  function RunDeclaringConsumer(w: World, o: Outcome): World
    requires w.state.DeclaringConsumer?
  {
    var conn, chan, events := w.state.conn, w.state.chan, w.state.events.AddHandler();
    if !o.consumeOk then w.(state := ClosingChannel(conn, Some(chan), events, FailureReason(w, o.error)))
    else w.(net := w.net.Logged(DeclaredConsumer(chan)), state := Connected(conn, chan, events))
  }

  /** Reporting success, once. */
  function Report(s: Startup): Startup {
    if !s.startTx then s
    else s.(startTx := false, taken := s.taken + 1, connectedOnce := true,
            oneShot := if s.startRx then Sent(None) else Undelivered)
  }

  /** The first thing a connected state does is to report success. */
  function ReportStarted(w: World): World {
    w.(startup := Report(w.startup))
  }

  /** One turn of the connected loop; a branch that is not ready changes nothing. */
  function RunConnected(w: World, o: Outcome): World
    requires w.state.Connected?
  {
    var w, events := ReportStarted(w), w.state.events;
    match o.branch
    case OnShutdown => if w.shutdown then LeaveConnected(w, events, Shutdown) else w
    case OnEvent =>
      if events.queue != [] then HandleEvent(w, events.queue[0], events.(queue := events.queue[1..]))
      else if events.Closed() then LeaveConnected(w, events, Fatal(EventRxClosed))
      else w
    case OnSend =>
      if w.out.queue != [] then PublishNext(w, o.publishOk)
      else if w.out.Closed() then LeaveConnected(w, events, Fatal(SendRxClosed))
      else w
  }

  function LeaveConnected(w: World, events: Events, reason: CloseReason): World
    requires w.state.Connected?
  {
    w.(state := ClosingChannel(w.state.conn, Some(w.state.chan), events, reason))
  }

  /** Puts a payload at the end of the outgoing queue. */
  function Enqueue(w: World, p: Payload): World {
    w.(out := w.out.(queue := w.out.queue + [p]), book := w.book.(enqueued := w.book.enqueued + [p]))
  }

  function HandleEvent(w: World, event: Event, rest: Events): World
    requires w.state.Connected?
  {
    var stay := w.(state := Connected(w.state.conn, w.state.chan, rest));
    match event
    case ConnectionClose => LeaveConnected(w, rest, ConnectionClosed)
    case ChannelClose => LeaveConnected(w, rest, ChannelClosed)
    case PublishReturn(code, data) =>
      if code == NO_ROUTE then LeaveConnected(Enqueue(w, data), rest, PublishNoRoute)
      else stay.(book := Dropping(w.book, multiset{data}))
    case MessageReceived(data) =>
      if w.wantsConsumer && w.recvAlive then stay.(book := w.book.(forwarded := w.book.forwarded + [data])) else stay
    case Ignored => stay
  }

  function PublishNext(w: World, ok: bool): World
    requires w.state.Connected? && w.out.queue != []
  {
    var p := w.out.queue[0];
    var out := w.out.(queue := w.out.queue[1..]);
    var book := w.book.(attempted := w.book.attempted + [p]);
    if ok then
      w.(out := out, net := w.net.Logged(Published(w.state.chan)),
         book := book.(outstanding := book.outstanding + multiset{p}))
    else w.(out := out, book := Dropping(book, multiset{p}))
  }

  function RunClosingChannel(w: World, o: Outcome): World
    requires w.state.ClosingChannel?
  {
    var conn, events, reason := w.state.conn, w.state.events, w.state.reason;
    if w.state.closing.None? then w.(state := Panicked)
    else
      var w := w.(net := w.net.Logged(ClosedChannelCall(w.state.closing.value)));
      if o.closeOk && reason.ChannelOnly() then w.(state := ReopeningChannel(conn, events))
      else CloseConnection(w, conn, events, reason)
  }

  function RunClosingConnection(w: World): World
    requires w.state.ClosingConnection?
  {
    if w.state.conn_.None? then w.(state := Panicked)
    else w.(net := w.net.Logged(ClosedConnectionCall(w.state.conn_.value)), state := ClosedConnection(w.state.reason))
  }

  /** Reporting an error of the start: what becomes of the one-shot, and how the machine finishes. */
  function ReportError(s: Startup, err: Option<string>): (Startup, FatalCause) {
    if !s.startTx then (s, StartTxConsumed(err))
    else
      var s := s.(startTx := false, taken := s.taken + 1);
      if err.None? then (s.(oneShot := SenderDropped), InnerErrorMissing)
      else if !s.startRx then (s.(oneShot := Undelivered), StartErrorUndelivered(err.value))
      else (s.(oneShot := Sent(err)), ErrorWhileStarting)
  }

  function RunClosedConnection(w: World): World
    requires w.state.ClosedConnection?
  {
    match w.state.reason
    case Fatal(_) => w.(state := Finished(w.state.reason))
    case Shutdown => w.(state := Finished(Shutdown))
    case StartError(err) =>
      var (startup, cause) := ReportError(w.startup, err);
      w.(startup := startup, state := Finished(Fatal(cause)))
    case _ => w.(state := Reconnecting)
  }

  /** The spawned task ends: what it owned is dropped. */
  function Exit(w: World): World {
    w.(state := Exited, out := w.out.(queue := [], ownSender := false),
       book := Dropping(w.book, multiset(w.out.queue)),
       startup := w.startup.(startTx := false, oneShot := if w.startup.startTx then SenderDropped else w.startup.oneShot))
  }

  /** One step of the machine. */
  function Run(w: World, o: Outcome): World {
    match w.state
    case NotStarted => RunNotStarted(w)
    case Disconnected => w.(state := Connecting)
    case Connecting => RunConnecting(w, o)
    case Reconnecting => w.(state := Connecting)
    case OpeningChannel(_, _) => RunOpeningChannel(w, o)
    case ReopeningChannel(conn, events) => w.(state := OpeningChannel(conn, events))
    case DeclaringConsumer(_, _, _) => RunDeclaringConsumer(w, o)
    case Connected(_, _, _) => RunConnected(w, o)
    case ClosingChannel(_, _, _, _) => RunClosingChannel(w, o)
    case ClosingConnection(_, _) => RunClosingConnection(w)
    case ClosedConnection(_) => RunClosedConnection(w)
    case Finished(reason) => if reason.Displayable() then Exit(w) else w.(state := Panicked)
    case Exited => w
    case Panicked => w
  }

  /** What the user, the broker and the callbacks may do between two steps. */
  datatype Action =
    | Step(o: Outcome)
    | UserSend(p: Payload)
    | UserStart
    | UserShutdown
    | DropStartRx
    | CloneUserSender
    | DropUserSender
    | DropReceiver
    | Deliver(e: Event)
    | Return(code: nat, p: Payload, reaches: bool)
    | DropHandler

  function WithEvents(s: State, events: Events): State
    requires s.HasEvents()
  {
    match s
    case OpeningChannel(conn, _) => OpeningChannel(conn, events)
    case ReopeningChannel(conn, _) => ReopeningChannel(conn, events)
    case DeclaringConsumer(conn, chan, _) => DeclaringConsumer(conn, chan, events)
    case Connected(conn, chan, _) => Connected(conn, chan, events)
    case ClosingChannel(conn, closing, _, reason) => ClosingChannel(conn, closing, events, reason)
  }

  /** A callback can put an event into the queue: the queue is there and the callback still holds a sender. */
  predicate Listening(s: State) {
    s.HasEvents() && s.events.handlers > 0
  }

  function Queued(s: State, e: Event): State
    requires s.HasEvents()
  {
    WithEvents(s, s.events.(queue := s.events.queue + [e]))
  }

  /** The broker returns a payload; it reaches the event queue or is lost. */
  function ReturnPayload(w: World, code: nat, p: Payload, reaches: bool): World {
    var book := w.book.(outstanding := w.book.outstanding - multiset{p});
    if reaches && Listening(w.state) then w.(book := book, state := Queued(w.state, PublishReturn(code, p)))
    else w.(book := Dropping(book, multiset{p}))
  }

  function Act(w: World, a: Action): World {
    match a
    case Step(o) => Run(w, o)
    case UserSend(p) =>
      if w.state.Over() || w.out.userSenders == 0 then w
      else var w := Enqueue(w, p); w.(book := w.book.(handed := w.book.handed + multiset{p}))
    case UserStart => w.(startup := w.startup.(start := true))
    case UserShutdown => w.(shutdown := true)
    case DropStartRx => w.(startup := w.startup.(startRx := false))
    case CloneUserSender =>
      if w.out.userSenders == 0 then w else w.(out := w.out.(userSenders := w.out.userSenders + 1))
    case DropUserSender =>
      if w.out.userSenders == 0 then w else w.(out := w.out.(userSenders := w.out.userSenders - 1))
    case DropReceiver => w.(recvAlive := false)
    case Deliver(e) => if Listening(w.state) && !e.PublishReturn? then w.(state := Queued(w.state, e)) else w
    case Return(code, p, reaches) => if p in w.book.outstanding then ReturnPayload(w, code, p, reaches) else w
    case DropHandler =>
      if Listening(w.state) then
        w.(state := WithEvents(w.state, w.state.events.(handlers := w.state.events.handlers - 1)))
      else w
  }

  function ActAll(w: World, actions: seq<Action>): World {
    if actions == [] then w else Act(ActAll(w, actions[..|actions| - 1]), actions[|actions| - 1])
  }

  /** What waiting for the start returns once the one-shot is settled; None while it blocks. */
  function WaitStart(s: Startup): Option<Result<(), Option<string>>> {
    match s.oneShot
    case Sent(None) => Some(Ok(()))
    case Sent(Some(err)) => Some(Err(Some(err)))
    case SenderDropped => Some(Err(None))
    case _ => None
  }
}
