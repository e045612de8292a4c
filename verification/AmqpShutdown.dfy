/** Shutting down: when a request is noticed, and exactly when it ends the machine. */
module AmqpShutdown {
  import opened Base
  import opened Amqp
  import opened AmqpResources
  import opened AmqpStart

  // ------------------------------------------------------ when it is noticed

  lemma OpeningUnnoticed(w: World, o: Outcome)
    requires w.state.OpeningChannel?
    ensures RunOpeningChannel(w.(shutdown := true), o) == RunOpeningChannel(w, o).(shutdown := true)
  {
  }

  lemma ConnectingUnnoticed(w: World, o: Outcome)
    requires w.state.Connecting?
    ensures RunConnecting(w.(shutdown := true), o) == RunConnecting(w, o).(shutdown := true)
  {
  }

  lemma ClosingUnnoticed(w: World, o: Outcome)
    requires w.state.ClosingChannel?
    ensures RunClosingChannel(w.(shutdown := true), o) == RunClosingChannel(w, o).(shutdown := true)
  {
  }

  lemma ClosedUnnoticed(w: World)
    requires w.state.ClosedConnection?
    ensures RunClosedConnection(w.(shutdown := true)) == RunClosedConnection(w).(shutdown := true)
  {
  }

  /** A shutdown request is noticed only before the start and by a connected state. */
  lemma ShutdownUnnoticed(w: World, o: Outcome)
    requires !w.state.NotStarted? && !w.state.Connected?
    ensures Run(w.(shutdown := true), o) == Run(w, o).(shutdown := true)
  {
    hide Returns, RunConnecting, RunOpeningChannel, RunClosingChannel, RunClosedConnection;
    if w.state.Connecting? {
      ConnectingUnnoticed(w, o);
    } else if w.state.OpeningChannel? {
      OpeningUnnoticed(w, o);
    } else if w.state.ClosingChannel? {
      ClosingUnnoticed(w, o);
    } else if w.state.ClosedConnection? {
      ClosedUnnoticed(w);
    }
  }

  function Failures(n: nat, o: Outcome): seq<Action> {
    seq(n, i => Step(o))
  }

  lemma NoFailures(w: World, o: Outcome)
    ensures ActAll(w, Failures(0, o)) == w
  {
  }

  lemma OneFailureMore(w: World, o: Outcome, n: nat)
    requires n > 0
    ensures ActAll(w, Failures(n, o)) == Run(ActAll(w, Failures(n - 1, o)), o)
  {
    hide Run;
    assert Failures(n, o)[..n - 1] == Failures(n - 1, o) && Failures(n, o)[n - 1] == Step(o);
  }

  lemma ConnectFails(w: World, o: Outcome)
    requires !w.startup.startTx && !o.openOk
    ensures Run(w.(state := Reconnecting), o) == w.(state := Connecting)
    ensures Run(w.(state := Connecting), o) == w.(state := Reconnecting)
  {
  }

  /** While every attempt to connect fails, a started machine keeps trying for ever, shutdown requested or not. */
  lemma {:induction false} ReconnectsForever(w: World, o: Outcome, n: nat)
    requires w.state.Reconnecting? && !w.startup.startTx && !o.openOk
    ensures ActAll(w, Failures(n, o)) == w.(state := if n % 2 == 0 then Reconnecting else Connecting)
  {
    hide ActAll, Run, Failures;
    if n == 0 {
      NoFailures(w, o);
    } else {
      OneFailureMore(w, o, n);
      ReconnectsForever(w, o, n - 1);
      ConnectFails(w, o);
    }
  }

  lemma ReopenFails(w: World, o: Outcome)
    requires w.state.ReopeningChannel? && !w.startup.startTx && !o.openOk
    ensures var opening := w.(state := OpeningChannel(w.state.conn, w.state.events));
            Run(w, o) == opening && Run(opening, o) == w
  {
  }

  /**
   * While no channel can be opened, a started machine keeps the connection it has for ever, even when the
   * broker's request to close that connection waits in the event queue.
   */
  lemma {:induction false} ReopensForever(w: World, o: Outcome, n: nat)
    requires w.state.ReopeningChannel? && !w.startup.startTx && !o.openOk
    ensures ActAll(w, Failures(n, o)) ==
            if n % 2 == 0 then w else w.(state := OpeningChannel(w.state.conn, w.state.events))
  {
    hide ActAll, Run, Failures;
    if n == 0 {
      NoFailures(w, o);
    } else {
      OneFailureMore(w, o, n);
      ReopensForever(w, o, n - 1);
      ReopenFails(w, o);
    }
  }

  // ------------------------------------------------------ when it ends the machine

  /** The calls by which a machine gets from no connection to a connected state. */
  predicate Works(wantsConsumer: bool, o: Outcome) {
    o.openOk && o.registerOk && o.declareOk && (wantsConsumer ==> o.consumeOk)
  }

  /** Reasons after which a closed connection is not opened again. */
  predicate Final(r: CloseReason) {
    r.Shutdown? || r.Fatal? || r.StartError?
  }

  /**
   * The state alone decides for a machine that is starting, connected, or closing for good, and one that declares
   * its consumer needs only that; any other one has to connect first.
   */
  predicate Ends(w: World, works: bool, consumes: bool) {
    || works || w.startup.startTx || w.state.Over() || w.state.Finished? || w.state.Connected?
    || (w.state.DeclaringConsumer? && consumes)
    || (Carried(w.state).Some? && Final(Carried(w.state).value))
  }

  /** How many steps are left to the end once shutdown was requested. */
  function Distance(s: State): nat {
    match s
    case NotStarted => 1
    case Exited => 0
    case Panicked => 0
    case Finished(_) => 1
    case ClosedConnection(r) => if Final(r) then 2 else 10
    case ClosingConnection(_, r) => if Final(r) then 3 else 11
    case ClosingChannel(_, _, _, r) => if Final(r) then 4 else 12
    case Connected(_, _, _) => 5
    case DeclaringConsumer(_, _, _) => 6
    case OpeningChannel(_, _) => 7
    case ReopeningChannel(_, _) => 8
    case Connecting => 8
    case Reconnecting => 9
    case Disconnected => 9
  }

  /** An asked machine: started and told to shut down, in a state that every run keeps. */
  predicate Asked(w: World) {
    Control(w) && (w.state.DeclaringConsumer? ==> w.wantsConsumer) && w.shutdown && w.startup.start
  }

  /** An outcome with the shutdown branch that keeps what is promised of all outcomes. */
  predicate Promised(wantsConsumer: bool, o: Outcome, works: bool, consumes: bool) {
    o.branch.OnShutdown? && (works ==> Works(wantsConsumer, o)) && (consumes ==> o.consumeOk)
  }

  // One step towards the end, state by state.

  predicate Nearer(w: World, w': World, works: bool, consumes: bool) {
    Distance(w'.state) < Distance(w.state) && Ends(w', works, consumes) && (w'.state.DeclaringConsumer? ==> w'.wantsConsumer)
  }

  lemma ConnectingNearer(w: World, o: Outcome, works: bool, consumes: bool)
    requires Ends(w, works, consumes) && Promised(w.wantsConsumer, o, works, consumes) && w.state.Connecting?
    ensures Nearer(w, RunConnecting(w, o), works, consumes)
  {
  }

  lemma OpeningNearer(w: World, o: Outcome, works: bool, consumes: bool)
    requires Ends(w, works, consumes) && Promised(w.wantsConsumer, o, works, consumes) && w.state.OpeningChannel?
    ensures Nearer(w, RunOpeningChannel(w, o), works, consumes)
  {
    hide Returns;
  }

  lemma DeclaringNearer(w: World, o: Outcome, works: bool, consumes: bool)
    requires Asked(w) && Ends(w, works, consumes) && Promised(w.wantsConsumer, o, works, consumes) && w.state.DeclaringConsumer?
    ensures Nearer(w, RunDeclaringConsumer(w, o), works, consumes)
  {
    hide Control;
  }

  lemma ConnectedNearer(w: World, o: Outcome, works: bool, consumes: bool)
    requires w.shutdown && o.branch.OnShutdown? && w.state.Connected?
    ensures Nearer(w, RunConnected(w, o), works, consumes)
  {
    hide Report, HandleEvent, PublishNext;
  }

  lemma ClosingNearer(w: World, o: Outcome, works: bool, consumes: bool)
    requires Holds(w.state, w.out) && Ends(w, works, consumes) && w.state.ClosingChannel?
    ensures Nearer(w, RunClosingChannel(w, o), works, consumes)
  {
    hide Returns;
  }

  lemma ClosedNearer(w: World, works: bool, consumes: bool)
    requires Handshake(w.state, w.startup) && Ends(w, works, consumes) && w.state.ClosedConnection?
    ensures Nearer(w, RunClosedConnection(w), works, consumes)
  {
    hide ReportError;
  }

  lemma StepNearer(w: World, o: Outcome, works: bool, consumes: bool)
    requires Asked(w) && Ends(w, works, consumes) && Promised(w.wantsConsumer, o, works, consumes) && !w.state.Over()
    ensures Nearer(w, Run(w, o), works, consumes)
  {
    hide RunConnecting, RunOpeningChannel, RunDeclaringConsumer, RunConnected, RunClosingChannel, RunClosedConnection;
    if w.state.Connecting? {
      ConnectingNearer(w, o, works, consumes);
    } else if w.state.OpeningChannel? {
      OpeningNearer(w, o, works, consumes);
    } else if w.state.DeclaringConsumer? {
      DeclaringNearer(w, o, works, consumes);
    } else if w.state.Connected? {
      ConnectedNearer(w, o, works, consumes);
    } else if w.state.ClosingChannel? {
      ClosingNearer(w, o, works, consumes);
    } else if w.state.ClosedConnection? {
      ClosedNearer(w, works, consumes);
    }
  }

  // A machine that has to connect and cannot.

  predicate Stuck(w: World, o: Outcome) {
    !Ends(w, Works(w.wantsConsumer, o), o.consumeOk) && (w.state.DeclaringConsumer? ==> w.wantsConsumer)
  }

  lemma ConnectingStuck(w: World, o: Outcome)
    requires Stuck(w, o) && w.state.Connecting?
    ensures Stuck(RunConnecting(w, o), o)
  {
  }

  lemma OpeningStuck(w: World, o: Outcome)
    requires Stuck(w, o) && w.state.OpeningChannel?
    ensures Stuck(RunOpeningChannel(w, o), o)
  {
    hide Returns;
  }

  lemma DeclaringStuck(w: World, o: Outcome)
    requires Stuck(w, o) && w.state.DeclaringConsumer?
    ensures Stuck(RunDeclaringConsumer(w, o), o)
  {
  }

  lemma ClosingStuck(w: World, o: Outcome)
    requires Stuck(w, o) && w.state.ClosingChannel? && w.state.closing.Some?
    ensures Stuck(RunClosingChannel(w, o), o)
  {
    hide Returns;
  }

  lemma ClosedStuck(w: World, o: Outcome)
    requires Stuck(w, o) && w.state.ClosedConnection?
    ensures Stuck(RunClosedConnection(w), o)
  {
    hide ReportError;
  }

  lemma StepStuck(w: World, o: Outcome)
    requires Control(w) && Stuck(w, o)
    ensures Stuck(Run(w, o), o)
  {
    hide RunConnecting, RunOpeningChannel, RunDeclaringConsumer, RunConnected, RunClosingChannel, RunClosedConnection;
    if w.state.Connecting? {
      ConnectingStuck(w, o);
    } else if w.state.OpeningChannel? {
      OpeningStuck(w, o);
    } else if w.state.DeclaringConsumer? {
      DeclaringStuck(w, o);
    } else if w.state.ClosingChannel? {
      ClosingStuck(w, o);
    } else if w.state.ClosedConnection? {
      ClosedStuck(w, o);
    }
  }

  // What the user and the broker do in between changes none of this.

  lemma QuietAct(w: World, a: Action)
    requires !a.Step?
    ensures var w' := Act(w, a);
            && Distance(w'.state) == Distance(w.state) && (w'.state.Over() <==> w.state.Over())
            && (w'.state.DeclaringConsumer? <==> w.state.DeclaringConsumer?)
  {
    hide Run;
  }

  lemma QuietEnds(w: World, a: Action, works: bool, consumes: bool)
    requires !a.Step?
    ensures Ends(Act(w, a), works, consumes) <==> Ends(w, works, consumes)
  {
    hide Run;
  }

  lemma QuietRequests(w: World, a: Action)
    requires !a.Step?
    ensures Act(w, a).wantsConsumer == w.wantsConsumer
    ensures (w.shutdown ==> Act(w, a).shutdown) && (w.startup.start ==> Act(w, a).startup.start)
  {
    hide Run;
  }

  predicate SameRequests(w: World, w': World) {
    w'.shutdown == w.shutdown && w'.startup.start == w.startup.start && w'.wantsConsumer == w.wantsConsumer
  }

  lemma OpeningKeepsAsked(w: World, o: Outcome)
    requires w.state.OpeningChannel?
    ensures SameRequests(w, RunOpeningChannel(w, o))
  {
  }

  lemma ConnectedKeepsAsked(w: World, o: Outcome)
    requires w.state.Connected?
    ensures SameRequests(w, RunConnected(w, o))
  {
    hide Returns;
  }

  lemma ClosedKeepsAsked(w: World)
    requires w.state.ClosedConnection?
    ensures SameRequests(w, RunClosedConnection(w))
  {
  }

  lemma OthersKeepAsked(w: World, o: Outcome)
    ensures SameRequests(w, RunNotStarted(w)) && SameRequests(w, RunConnecting(w, o)) && SameRequests(w, Exit(w))
    ensures w.state.DeclaringConsumer? ==> SameRequests(w, RunDeclaringConsumer(w, o))
    ensures w.state.ClosingChannel? ==> SameRequests(w, RunClosingChannel(w, o))
    ensures w.state.ClosingConnection? ==> SameRequests(w, RunClosingConnection(w))
  {
    hide Returns;
  }

  lemma KeepsAsked(w: World, o: Outcome)
    ensures SameRequests(w, Run(w, o))
  {
    hide RunConnecting, RunOpeningChannel, RunDeclaringConsumer, RunConnected, RunClosingChannel, RunClosingConnection,
         RunClosedConnection, RunNotStarted, Exit;
    OthersKeepAsked(w, o);
    if w.state.OpeningChannel? {
      OpeningKeepsAsked(w, o);
    } else if w.state.Connected? {
      ConnectedKeepsAsked(w, o);
    } else if w.state.ClosedConnection? {
      ClosedKeepsAsked(w);
    }
  }

  ghost predicate AllPromised(wantsConsumer: bool, actions: seq<Action>, works: bool, consumes: bool) {
    forall i :: 0 <= i < |actions| && actions[i].Step? ==> Promised(wantsConsumer, actions[i].o, works, consumes)
  }

  lemma ActNearer(w: World, a: Action, works: bool, consumes: bool)
    requires Asked(w) && Ends(w, works, consumes) && (a.Step? ==> Promised(w.wantsConsumer, a.o, works, consumes))
    ensures Asked(Act(w, a)) && Ends(Act(w, a), works, consumes) && Act(w, a).wantsConsumer == w.wantsConsumer
    ensures Act(w, a).state.Over() || (!w.state.Over() && Distance(Act(w, a).state) + (if a.Step? then 1 else 0) <= Distance(w.state))
  {
    ActControl(w, a);
    hide Run, Control, Ends, Distance;
    if a.Step? {
      KeepsAsked(w, a.o);
      if w.state.Over() {
        OverStays(w, a.o);
      } else {
        StepNearer(w, a.o, works, consumes);
      }
    } else {
      QuietAct(w, a);
      QuietEnds(w, a, works, consumes);
      QuietRequests(w, a);
      hide Act;
    }
  }

  lemma OverStays(w: World, o: Outcome)
    requires w.state.Over()
    ensures Run(w, o) == w
  {
  }

  lemma PromisedSnoc(wantsConsumer: bool, actions: seq<Action>, works: bool, consumes: bool)
    requires AllPromised(wantsConsumer, actions, works, consumes) && actions != []
    ensures AllPromised(wantsConsumer, actions[..|actions| - 1], works, consumes)
    ensures actions[|actions| - 1].Step? ==> Promised(wantsConsumer, actions[|actions| - 1].o, works, consumes)
  {
    hide Promised;
  }

  lemma {:induction false} Approaches(w: World, actions: seq<Action>, works: bool, consumes: bool)
    requires Asked(w) && Ends(w, works, consumes) && AllPromised(w.wantsConsumer, actions, works, consumes)
    ensures var w' := ActAll(w, actions);
            && Asked(w') && Ends(w', works, consumes) && w'.wantsConsumer == w.wantsConsumer
            && (w'.state.Over() || Distance(w'.state) + Steps(actions) <= Distance(w.state))
  {
    hide Act, Asked, Ends, Distance, AllPromised, Promised, Control;
    if actions != [] {
      var before, last := actions[..|actions| - 1], actions[|actions| - 1];
      PromisedSnoc(w.wantsConsumer, actions, works, consumes);
      Approaches(w, before, works, consumes);
      ActNearer(ActAll(w, before), last, works, consumes);
    }
  }

  lemma {:induction false} StaysStuck(w: World, actions: seq<Action>, o: Outcome)
    requires Control(w) && Stuck(w, o) && Repeats(actions, o)
    ensures Control(ActAll(w, actions)) && Stuck(ActAll(w, actions), o)
  {
    if actions != [] {
      var before, last := actions[..|actions| - 1], actions[|actions| - 1];
      assert Repeats(before, o) && (last.Step? ==> last.o == o);
      StaysStuck(w, before, o);
      ActControl(ActAll(w, before), last);
      hide Control, Repeats;
      ActStuck(ActAll(w, before), last, o);
    }
  }

  lemma ActStuck(w: World, a: Action, o: Outcome)
    requires Control(w) && Stuck(w, o) && (a.Step? ==> a.o == o)
    ensures Stuck(Act(w, a), o)
  {
    hide Run, Control;
    if a.Step? {
      StepStuck(w, o);
    } else {
      hide Ends;
      QuietAct(w, a);
      QuietEnds(w, a, Works(w.wantsConsumer, o), o.consumeOk);
      QuietRequests(w, a);
      hide Act;
    }
  }

  /** Every step of the machine has the outcome o; the user and the broker act freely in between. */
  ghost predicate Repeats(actions: seq<Action>, o: Outcome) {
    forall i :: 0 <= i < |actions| && actions[i].Step? ==> actions[i].o == o
  }

  lemma ReachableAsked(wantsConsumer: bool, past: seq<Action>)
    requires ActAll(Init(wantsConsumer), past).shutdown && ActAll(Init(wantsConsumer), past).startup.start
    ensures Asked(ActAll(Init(wantsConsumer), past))
  {
    ControlAlways(wantsConsumer, past);
    DisciplineAlways(wantsConsumer, past);
    hide ActAll, Control, Replay;
  }

  /**
   * Once started and asked to shut down, the machine is over after twelve steps that look at the request and whose
   * calls to connect succeed, whatever closing answers, from every reachable state.
   */
  lemma ShutsDown(wantsConsumer: bool, past: seq<Action>, actions: seq<Action>)
    requires var w := ActAll(Init(wantsConsumer), past); w.shutdown && w.startup.start
    requires AllPromised(ActAll(Init(wantsConsumer), past).wantsConsumer, actions, true, false) && Steps(actions) >= 12
    ensures ActAll(ActAll(Init(wantsConsumer), past), actions).state.Over()
  {
    ReachableAsked(wantsConsumer, past);
    hide ActAll, Asked;
    Approaches(ActAll(Init(wantsConsumer), past), actions, true, false);
  }

  /**
   * When one outcome repeats, a machine that was started and asked to shut down ends if and only if its state alone
   * decides, or it declares a consumer and that succeeds, or all calls to connect succeed: then it is over after
   * twelve steps, and otherwise it never is.
   */
  lemma ShutdownEndsIff(wantsConsumer: bool, past: seq<Action>, o: Outcome, actions: seq<Action>)
    requires var w := ActAll(Init(wantsConsumer), past); w.shutdown && w.startup.start
    requires o.branch.OnShutdown? && Repeats(actions, o)
    ensures var w := ActAll(Init(wantsConsumer), past); var ended := ActAll(w, actions).state.Over();
            if Ends(w, Works(w.wantsConsumer, o), o.consumeOk) then Steps(actions) >= 12 ==> ended else !ended
  {
    ReachableAsked(wantsConsumer, past);
    var w := ActAll(Init(wantsConsumer), past);
    var works := Works(w.wantsConsumer, o);
    if Ends(w, works, o.consumeOk) {
      assert AllPromised(w.wantsConsumer, actions, works, o.consumeOk);
      hide ActAll, Asked, Ends, AllPromised;
      Approaches(w, actions, works, o.consumeOk);
    } else {
      hide ActAll;
      StaysStuck(w, actions, o);
    }
  }

  // ---------------------------------------------------- runs that never end

  lemma Next(w: World, actions: seq<Action>, a: Action)
    ensures ActAll(w, actions + [a]) == Act(ActAll(w, actions), a)
  {
    assert (actions + [a])[..|actions|] == actions;
  }

  function Fine(branch: Branch): Outcome {
    Outcome(true, true, true, true, true, true, branch, "")
  }

  /** A machine that was started and has its connection open, about to open the channel. */
  lemma ReachesOpening(wantsConsumer: bool) returns (actions: seq<Action>)
    ensures var w := ActAll(Init(wantsConsumer), actions);
            && w.state == OpeningChannel(0, Events([], true, 1)) && w.net.nextId == 1
            && w.startup.start && w.wantsConsumer == wantsConsumer && !w.shutdown
  {
    var step := Step(Fine(OnEvent));
    var w0 := Init(wantsConsumer);
    assert ActAll(w0, []) == w0;
    Next(w0, [], UserStart);
    Next(w0, [UserStart], step);
    Next(w0, [UserStart] + [step], step);
    Next(w0, [UserStart] + [step] + [step], step);
    actions := [UserStart] + [step] + [step] + [step];
  }

  /** A connected machine that has reported its start. */
  lemma ReachesConnected(wantsConsumer: bool) returns (actions: seq<Action>)
    ensures var w := ActAll(Init(wantsConsumer), actions);
            && w.state.Connected? && Listening(w.state) && w.state.events.queue == []
            && w.startup.start && !w.startup.startTx && !w.shutdown
  {
    var before := ReachesOpening(wantsConsumer);
    var step, w0 := Step(Fine(OnEvent)), Init(wantsConsumer);
    hide ActAll;
    Next(w0, before, step);
    actions := before + [step];
    if wantsConsumer {
      Next(w0, actions, step);
      actions := actions + [step];
    }
    var w := ActAll(w0, actions);
    assert w.state.Connected? && w.state.events.queue == [] && w.state.events.handlers > 0 && w.state.events.ownSender;
    Next(w0, actions, step);
    actions := actions + [step];
  }

  lemma UnreachableForever(wantsConsumer: bool, past: seq<Action>)
    requires var w := ActAll(Init(wantsConsumer), past);
             (w.state.Reconnecting? || w.state.ReopeningChannel?) && w.shutdown && w.startup.start && !w.startup.startTx
    ensures forall o: Outcome, actions :: o.branch.OnShutdown? && !o.openOk && Repeats(actions, o) ==>
              !ActAll(ActAll(Init(wantsConsumer), past), actions).state.Over()
  {
    forall o: Outcome, actions | o.branch.OnShutdown? && !o.openOk && Repeats(actions, o)
      ensures !ActAll(ActAll(Init(wantsConsumer), past), actions).state.Over()
    {
      ShutdownEndsIff(wantsConsumer, past, o, actions);
      hide ActAll;
    }
  }

  /** A connected machine that closes its channel because the broker closes the connection. */
  lemma ReachesClosing(wantsConsumer: bool) returns (past: seq<Action>)
    ensures var w := ActAll(Init(wantsConsumer), past);
            && w.state.ClosingChannel? && w.state.reason == ConnectionClosed && w.state.closing.Some?
            && w.startup.start && !w.startup.startTx && !w.shutdown
  {
    var step, w0 := Step(Fine(OnEvent)), Init(wantsConsumer);
    past := ReachesConnected(wantsConsumer);
    hide ActAll;
    Next(w0, past, Deliver(ConnectionClose));
    past := past + [Deliver(ConnectionClose)];
    assert ActAll(w0, past).state.Connected? && ActAll(w0, past).state.events.queue == [ConnectionClose];
    Next(w0, past, step);
    past := past + [step];
  }

  /**
   * From the initial world a machine can lose its connection and be asked to shut down while it reconnects. As long as
   * the broker then cannot be reached it never ends.
   */
  lemma NeverEndsReconnecting(wantsConsumer: bool) returns (past: seq<Action>)
    ensures var w := ActAll(Init(wantsConsumer), past);
            w.state.Reconnecting? && w.shutdown && w.startup.start && !w.startup.startTx
    ensures forall o: Outcome, actions :: o.branch.OnShutdown? && !o.openOk && Repeats(actions, o) ==>
              !ActAll(ActAll(Init(wantsConsumer), past), actions).state.Over()
  {
    var step, w0 := Step(Fine(OnEvent)), Init(wantsConsumer);
    past := ReachesClosing(wantsConsumer);
    hide ActAll;
    Next(w0, past, step);
    past := past + [step];
    assert ActAll(w0, past).state.ClosingConnection? && ActAll(w0, past).state.reason == ConnectionClosed && ActAll(w0, past).state.conn_.Some?;
    Next(w0, past, step);
    past := past + [step];
    Next(w0, past, step);
    past := past + [step];
    assert ActAll(w0, past).state.Reconnecting?;
    Next(w0, past, UserShutdown);
    past := past + [UserShutdown];
    UnreachableForever(wantsConsumer, past);
  }

  /**
   * It can also lose its channel, with the broker's request to close the connection waiting in the event queue. As
   * long as no channel can be opened it keeps that connection and never ends.
   */
  lemma NeverEndsReopening(wantsConsumer: bool) returns (past: seq<Action>)
    ensures var w := ActAll(Init(wantsConsumer), past);
            && w.state.ReopeningChannel? && w.state.events.queue == [ConnectionClose]
            && w.shutdown && w.startup.start && !w.startup.startTx
    ensures forall o: Outcome, actions :: o.branch.OnShutdown? && !o.openOk && Repeats(actions, o) ==>
              !ActAll(ActAll(Init(wantsConsumer), past), actions).state.Over()
  {
    var step, w0 := Step(Fine(OnEvent)), Init(wantsConsumer);
    past := ReachesConnected(wantsConsumer);
    hide ActAll;
    Next(w0, past, Deliver(ChannelClose));
    past := past + [Deliver(ChannelClose)];
    assert ActAll(w0, past).state.Connected? && Listening(ActAll(w0, past).state) && ActAll(w0, past).state.events.queue == [ChannelClose];
    Next(w0, past, Deliver(ConnectionClose));
    past := past + [Deliver(ConnectionClose)];
    assert ActAll(w0, past).state.Connected? && ActAll(w0, past).state.events.queue == [ChannelClose, ConnectionClose];
    Next(w0, past, step);
    past := past + [step];
    assert ActAll(w0, past).state.ClosingChannel? && ActAll(w0, past).state.reason == ChannelClosed && ActAll(w0, past).state.closing.Some?;
    Next(w0, past, step);
    past := past + [step];
    assert ActAll(w0, past).state.ReopeningChannel? && ActAll(w0, past).state.events.queue == [ConnectionClose];
    Next(w0, past, UserShutdown);
    past := past + [UserShutdown];
    UnreachableForever(wantsConsumer, past);
  }
}
