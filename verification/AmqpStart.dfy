/** Starting and finishing: what the one-shot says, and why the machine ends. */
module AmqpStart {
  import opened Base
  import opened Amqp

  /** The reason a closing state carries. */
  function Carried(s: State): Option<CloseReason> {
    if s.ClosingChannel? || s.ClosingConnection? || s.ClosedConnection? then Some(s.reason) else None
  }

  /** States in which the machine can be while nobody has been told how starting went. */
  predicate Starting(s: State) {
    || s.NotStarted? || s.Disconnected? || s.Connecting? || s.OpeningChannel? || s.DeclaringConsumer? || s.Connected?
    || (Carried(s).Some? && Carried(s).value.StartError? && Carried(s).value.err.Some?)
  }

  /** States in which the machine can be once it has reported success. */
  predicate Started(s: State) {
    && !s.NotStarted? && !s.Disconnected? && !s.Panicked?
    && (Carried(s).Some? ==> !Carried(s).value.Fatal? && !Carried(s).value.StartError?)
    && (s.Finished? ==> s.reason == Shutdown)
  }

  /** States in which the machine can be once it has reported failure. */
  predicate Failed(s: State) {
    || s.Exited?
    || (s.Finished? && s.reason.Fatal? && (s.reason.cause.ErrorWhileStarting? || s.reason.cause.StartErrorUndelivered?))
  }

  predicate Handshake(s: State, h: Startup) {
    && (h.startTx ==> Starting(s) && h.oneShot.Pending? && h.taken == 0 && !h.connectedOnce)
    && (!h.startTx ==> if h.connectedOnce then Started(s) else Failed(s))
    && (h.connectedOnce ==> h.taken == 1 && (h.oneShot == Sent(None) || (h.oneShot == Undelivered && !h.startRx)))
    && (!h.startTx && !h.connectedOnce ==>
          || (h.taken == 1 && (h.oneShot.Undelivered? || (h.oneShot.Sent? && h.oneShot.result.Some?)))
          || (h.taken == 0 && h.oneShot.SenderDropped? && s.Exited?))
  }

  /** The ends of the internal channels that the machine holds itself, and the handles it must not lose. */
  predicate Holds(s: State, out: Outgoing) {
    && (s.HasEvents() ==> s.events.ownSender)
    && (!s.Over() ==> out.ownSender)
    && (s.ClosingChannel? ==> s.closing.Some?)
    && (s.ClosingConnection? ==> s.conn_.Some?)
  }

  predicate Control(w: World) {
    Handshake(w.state, w.startup) && Holds(w.state, w.out)
  }

  // ------------------------------------------------------------ preservation

  lemma ConnectingControl(w: World, o: Outcome)
    requires Control(w) && w.state.Connecting?
    ensures Control(RunConnecting(w, o))
  {
  }

  lemma OpeningControl(w: World, o: Outcome)
    requires Control(w) && w.state.OpeningChannel?
    ensures Control(RunOpeningChannel(w, o))
  {
    hide Returns;
  }

  lemma DeclaringControl(w: World, o: Outcome)
    requires Control(w) && w.state.DeclaringConsumer?
    ensures Control(RunDeclaringConsumer(w, o))
  {
  }

  lemma EventControl(w: World, event: Event, rest: Events)
    requires Control(w) && w.state.Connected? && !w.startup.startTx && rest.ownSender
    ensures Control(HandleEvent(w, event, rest)) && !HandleEvent(w, event, rest).startup.startTx
  {
  }

  lemma PublishControl(w: World, ok: bool)
    requires Control(w) && w.state.Connected? && w.out.queue != []
    ensures Control(PublishNext(w, ok)) && PublishNext(w, ok).startup == w.startup && PublishNext(w, ok).state == w.state
  {
  }

  /** The two branches for a closed queue are dead: the machine holds a sender of each queue itself. */
  lemma ConnectedControl(w: World, o: Outcome)
    requires Control(w) && w.state.Connected?
    ensures Control(RunConnected(w, o)) && !RunConnected(w, o).startup.startTx
    ensures Carried(RunConnected(w, o).state).Some? ==> !Carried(RunConnected(w, o).state).value.Fatal?
  {
    hide HandleEvent, PublishNext;
    var w := ReportStarted(w);
    if o.branch.OnEvent? && w.state.events.queue != [] {
      EventControl(w, w.state.events.queue[0], w.state.events.(queue := w.state.events.queue[1..]));
    } else if o.branch.OnSend? && w.out.queue != [] {
      PublishControl(w, o.publishOk);
    }
  }

  lemma ClosingChannelControl(w: World, o: Outcome)
    requires Control(w) && w.state.ClosingChannel?
    ensures Control(RunClosingChannel(w, o))
  {
  }

  lemma ClosedControl(w: World)
    requires Control(w) && w.state.ClosedConnection?
    ensures Control(RunClosedConnection(w))
  {
    if w.state.reason.StartError? {
      var (startup, cause) := ReportError(w.startup, w.state.reason.err);
      assert RunClosedConnection(w) == w.(startup := startup, state := Finished(Fatal(cause)));
    }
  }

  lemma RunControl(w: World, o: Outcome)
    requires Control(w)
    ensures Control(Run(w, o))
  {
    hide RunConnecting, RunOpeningChannel, RunDeclaringConsumer, RunConnected, RunClosingChannel, RunClosedConnection;
    if w.state.Connecting? {
      ConnectingControl(w, o);
    } else if w.state.OpeningChannel? {
      OpeningControl(w, o);
    } else if w.state.DeclaringConsumer? {
      DeclaringControl(w, o);
    } else if w.state.Connected? {
      ConnectedControl(w, o);
    } else if w.state.ClosingChannel? {
      ClosingChannelControl(w, o);
    } else if w.state.ClosedConnection? {
      ClosedControl(w);
    }
  }

  lemma ActControl(w: World, a: Action)
    requires Control(w)
    ensures Control(Act(w, a))
  {
    hide Run;
    if a.Step? { RunControl(w, a.o); }
  }

  /** Every reachable world keeps the handshake and holds its channels: all actions, in any number and order. */
  lemma {:induction false} ControlAlways(wantsConsumer: bool, actions: seq<Action>)
    ensures Control(ActAll(Init(wantsConsumer), actions))
  {
    if actions != [] {
      var before, last := actions[..|actions| - 1], actions[|actions| - 1];
      ControlAlways(wantsConsumer, before);
      ActControl(ActAll(Init(wantsConsumer), before), last);
    }
  }

  // ----------------------------------------------------------------- theorems

  /** A run that finishes took the one-shot exactly once, for a reason that can be displayed; nothing panics. */
  lemma FinishReasons(wantsConsumer: bool, actions: seq<Action>)
    ensures var w := ActAll(Init(wantsConsumer), actions);
            && !w.state.Panicked?
            && (w.state.Finished? ==>
                  && w.startup.taken == 1 && w.state.reason.Displayable()
                  && (w.startup.connectedOnce <==> w.state.reason == Shutdown)
                  && (!w.startup.connectedOnce <==>
                        w.state.reason.Fatal? && (w.state.reason.cause.ErrorWhileStarting? || w.state.reason.cause.StartErrorUndelivered?)))
  {
    ControlAlways(wantsConsumer, actions);
  }

  /** Before the first success the machine never goes back to connecting or to opening a channel. */
  lemma NoRetryBeforeStart(wantsConsumer: bool, actions: seq<Action>)
    ensures var w := ActAll(Init(wantsConsumer), actions);
            !w.startup.connectedOnce ==> !w.state.Reconnecting? && !w.state.ReopeningChannel?
  {
    ControlAlways(wantsConsumer, actions);
  }

  /** Waiting for the start succeeds exactly when the machine was connected, as long as somebody waits. */
  lemma WaitStartIff(wantsConsumer: bool, actions: seq<Action>)
    ensures var h := ActAll(Init(wantsConsumer), actions).startup;
            && (WaitStart(h) == Some(Ok(())) ==> h.connectedOnce)
            && (h.startRx && h.connectedOnce ==> WaitStart(h) == Some(Ok(())))
            && (WaitStart(h).Some? && WaitStart(h).value.Err? ==> !h.connectedOnce && !h.startTx)
  {
    ControlAlways(wantsConsumer, actions);
  }

  // ------------------------------------------------------ how long it takes

  /** The number of machine steps among the actions. */
  function Steps(actions: seq<Action>): nat {
    if actions == [] then 0
    else Steps(actions[..|actions| - 1]) + (if actions[|actions| - 1].Step? then 1 else 0)
  }

  predicate Settled(s: State) {
    s.Connected? || s.Finished? || s.Over()
  }

  function StartRank(s: State): nat {
    match s
    case Disconnected => 7
    case Connecting => 6
    case OpeningChannel(_, _) => 5
    case DeclaringConsumer(_, _, _) => 4
    case ClosingChannel(_, _, _, _) => 3
    case ClosingConnection(_, _) => 2
    case ClosedConnection(_) => 1
    case _ => 0
  }

  lemma OpeningRanks(w: World, o: Outcome)
    requires w.state.OpeningChannel? && w.startup.startTx
    ensures StartRank(RunOpeningChannel(w, o).state) < 5
    ensures RunOpeningChannel(w, o).startup == w.startup && !RunOpeningChannel(w, o).state.NotStarted?
  {
  }

  lemma ClosingRanks(w: World, o: Outcome)
    requires w.state.ClosingChannel? && w.state.closing.Some? && w.state.reason.StartError?
    ensures StartRank(RunClosingChannel(w, o).state) < 3
    ensures RunClosingChannel(w, o).startup == w.startup && !RunClosingChannel(w, o).state.NotStarted?
  {
  }

  lemma StepRanks(w: World, o: Outcome)
    requires w.startup.startTx && Starting(w.state) && Holds(w.state, w.out)
    requires !w.state.NotStarted? && !Settled(w.state)
    ensures StartRank(Run(w, o).state) < StartRank(w.state)
    ensures Run(w, o).startup.startTx || Settled(Run(w, o).state)
    ensures !Run(w, o).state.NotStarted?
  {
    hide RunOpeningChannel, RunClosingChannel, ReportError;
    if w.state.OpeningChannel? {
      OpeningRanks(w, o);
    } else if w.state.ClosingChannel? {
      ClosingRanks(w, o);
    }
  }

  lemma ActRanks(w: World, a: Action)
    requires Control(w) && w.startup.startTx && !w.state.NotStarted? && !Settled(w.state)
    ensures StartRank(Act(w, a).state) + (if a.Step? then 1 else 0) <= StartRank(w.state)
    ensures Act(w, a).startup.startTx || Settled(Act(w, a).state)
    ensures !Act(w, a).state.NotStarted?
  {
    hide Run;
    if a.Step? { StepRanks(w, a.o); }
  }

  /**
   * Whatever the broker answers and the user does meanwhile, seven steps of the machine settle a start:
   * it was connected at some point, or it has finished.
   */
  lemma {:induction false} StartSettles(w: World, actions: seq<Action>)
    requires Control(w) && w.startup.startTx && !w.state.NotStarted? && StartRank(w.state) <= Steps(actions)
    ensures exists k :: 0 <= k <= |actions| && Settled(ActAll(w, actions[..k]).state)
  {
    var k := RankOrSettled(w, actions);
    assert actions[..|actions|] == actions;
  }

  lemma {:induction false} RankOrSettled(w: World, actions: seq<Action>) returns (k: nat)
    requires Control(w) && w.startup.startTx && !w.state.NotStarted?
    ensures Control(ActAll(w, actions)) && k <= |actions|
    ensures || Settled(ActAll(w, actions[..k]).state)
            || (k == |actions| && StartRank(ActAll(w, actions).state) + Steps(actions) <= StartRank(w.state)
                && ActAll(w, actions).startup.startTx && !ActAll(w, actions).state.NotStarted?)
  {
    if actions == [] {
      k := 0;
    } else {
      var before, last := actions[..|actions| - 1], actions[|actions| - 1];
      k := RankOrSettled(w, before);
      ActControl(ActAll(w, before), last);
      assert before[..k] == actions[..k];
      if !Settled(ActAll(w, before[..k]).state) {
        assert before[..k] == before;
        ActRanks(ActAll(w, before), last);
        k := |actions|;
        assert actions[..k] == actions;
      }
    }
  }

  // ------------------------------------------------------------ the table

  /** The transitions the machine declares; finishing is always possible from a closed connection. */
  predicate Allowed(s: State, s': State) {
    match s
    case NotStarted => s'.NotStarted? || s'.Disconnected? || s'.Exited?
    case Disconnected => s'.Connecting?
    case Reconnecting => s'.Connecting?
    case ClosedConnection(_) => s'.Reconnecting? || s'.Finished?
    case ClosingChannel(_, _, _, _) => s'.ReopeningChannel? || s'.ClosingConnection?
    case ClosingConnection(_, _) => s'.ClosedConnection?
    case Connecting => s'.OpeningChannel? || s'.ClosingConnection? || s'.ClosedConnection? || s'.Reconnecting?
    case Connected(_, _, _) => s'.Connected? || s'.ClosingChannel?
    case DeclaringConsumer(_, _, _) => s'.Connected? || s'.ClosingChannel?
    case OpeningChannel(_, _) =>
      s'.DeclaringConsumer? || s'.Connected? || s'.ClosingChannel? || s'.ReopeningChannel? || s'.ClosingConnection?
    case ReopeningChannel(_, _) => s'.OpeningChannel?
    case Finished(_) => s'.Exited?
    case Exited => s'.Exited?
    case Panicked => false
  }

  lemma OpeningAllowed(w: World, o: Outcome)
    requires w.state.OpeningChannel?
    ensures Allowed(w.state, RunOpeningChannel(w, o).state)
  {
  }

  lemma ConnectedAllowed(w: World, o: Outcome)
    requires w.state.Connected?
    ensures Allowed(w.state, RunConnected(w, o).state)
  {
  }

  lemma StepAllowed(w: World, o: Outcome)
    requires Holds(w.state, w.out) && !w.state.Panicked? && (w.state.Finished? ==> w.state.reason.Displayable())
    ensures Allowed(w.state, Run(w, o).state)
  {
    hide Returns, ReportError, RunOpeningChannel, RunConnected;
    if w.state.OpeningChannel? {
      OpeningAllowed(w, o);
    } else if w.state.Connected? {
      ConnectedAllowed(w, o);
    }
  }

  /** Every step of every run is one of the declared transitions. */
  lemma StepsAreAllowed(wantsConsumer: bool, actions: seq<Action>, o: Outcome)
    ensures var w := ActAll(Init(wantsConsumer), actions); Allowed(w.state, Run(w, o).state)
  {
    hide ActAll, Run, Handshake, Allowed;
    ControlAlways(wantsConsumer, actions);
    FinishReasons(wantsConsumer, actions);
    StepAllowed(ActAll(Init(wantsConsumer), actions), o);
  }
}
