/** Connections and channels: what the calls on the broker have open, and what the state believes is open. */
module AmqpResources {
  import opened Base
  import opened Amqp
  import opened AmqpStart

  /** A channel as the broker sees it. */
  datatype Channel = Channel(id: Id, registered: bool, declared: bool, consuming: bool)

  datatype Resources = Resources(conn: Option<Id>, chan: Option<Channel>) {
    predicate Uses(ch: Id) {
      chan.Some? && chan.value.id == ch
    }
  }

  /** One call under the discipline: nothing opened twice, nothing used or closed that is not open. */
  function Follow(r: Resources, call: Call): Option<Resources> {
    match call
    case OpenedConnection(c) => if r == Resources(None, None) then Some(Resources(Some(c), None)) else None
    case ClosedConnectionCall(c) => if r == Resources(Some(c), None) then Some(Resources(None, None)) else None
    case OpenedChannel(c, ch) =>
      if r == Resources(Some(c), None) then Some(r.(chan := Some(Channel(ch, false, false, false)))) else None
    case ClosedChannelCall(ch) => if r.Uses(ch) then Some(r.(chan := None)) else None
    case RegisteredCallback(ch) => if r.Uses(ch) then Some(r.(chan := Some(r.chan.value.(registered := true)))) else None
    case DeclaredQueue(ch) => if r.Uses(ch) then Some(r.(chan := Some(r.chan.value.(declared := true)))) else None
    case DeclaredConsumer(ch) => if r.Uses(ch) then Some(r.(chan := Some(r.chan.value.(consuming := true)))) else None
    case Published(ch) => if r.Uses(ch) && r.chan.value.registered && r.chan.value.declared then Some(r) else None
  }

  /** What is open after a log of calls; None if the log breaks the discipline. */
  function Replay(log: seq<Call>): Option<Resources> {
    if log == [] then Some(Resources(None, None))
    else
      match Replay(log[..|log| - 1])
      case None => None
      case Some(r) => Follow(r, log[|log| - 1])
  }

  function ConnectionOf(s: State): Option<Id> {
    match s
    case OpeningChannel(c, _) => Some(c)
    case ReopeningChannel(c, _) => Some(c)
    case DeclaringConsumer(c, _, _) => Some(c)
    case Connected(c, _, _) => Some(c)
    case ClosingChannel(c, _, _, _) => Some(c)
    case ClosingConnection(c, _) => c
    case _ => None
  }

  function ChannelOf(s: State): Option<Id> {
    match s
    case DeclaringConsumer(_, ch, _) => Some(ch)
    case Connected(_, ch, _) => Some(ch)
    case ClosingChannel(_, ch, _, _) => ch
    case _ => None
  }

  /** The state holds exactly what is open; a connected state's channel is fully set up. */
  predicate Matches(s: State, wantsConsumer: bool, r: Resources) {
    && r.conn == ConnectionOf(s)
    && (if r.chan.Some? then ChannelOf(s) == Some(r.chan.value.id) else ChannelOf(s) == None)
    && (s.DeclaringConsumer? ==> r.chan == Some(Channel(s.chan, true, true, false)) && wantsConsumer)
    && (s.Connected? ==> r.chan == Some(Channel(s.chan, true, true, wantsConsumer)))
  }

  /** The log keeps the discipline, and exactly what the state holds is open. */
  predicate Disciplined(w: World) {
    Replay(w.net.log).Some? && Matches(w.state, w.wantsConsumer, Replay(w.net.log).value)
  }

  // ------------------------------------------------------------ preservation

  lemma ReplaySnoc(log: seq<Call>, call: Call)
    ensures Replay(log + [call]) == match Replay(log) case None => None case Some(r) => Follow(r, call)
  {
  }

  lemma ConnectingDisciplined(w: World, o: Outcome)
    requires Disciplined(w) && w.state.Connecting?
    ensures Disciplined(RunConnecting(w, o))
  {
    hide Replay;
    ReplaySnoc(w.net.log, OpenedConnection(w.net.nextId));
  }

  lemma OpeningDisciplined(w: World, o: Outcome)
    requires Disciplined(w) && w.state.OpeningChannel?
    ensures Disciplined(RunOpeningChannel(w, o))
  {
    hide Replay, Returns;
    var log1 := w.net.log + [OpenedChannel(w.state.conn, w.net.nextId)];
    var log2 := log1 + [RegisteredCallback(w.net.nextId)];
    ReplaySnoc(w.net.log, OpenedChannel(w.state.conn, w.net.nextId));
    ReplaySnoc(log1, RegisteredCallback(w.net.nextId));
    ReplaySnoc(log2, DeclaredQueue(w.net.nextId));
  }

  lemma DeclaringDisciplined(w: World, o: Outcome)
    requires Disciplined(w) && w.state.DeclaringConsumer?
    ensures Disciplined(RunDeclaringConsumer(w, o))
  {
    hide Replay;
    ReplaySnoc(w.net.log, DeclaredConsumer(w.state.chan));
  }

  lemma ConnectedDisciplined(w: World, o: Outcome)
    requires Disciplined(w) && w.state.Connected?
    ensures Disciplined(RunConnected(w, o))
  {
    hide Replay, Report;
    if o.branch.OnSend? && w.out.queue != [] && o.publishOk {
      ReplaySnoc(w.net.log, Published(w.state.chan));
      hide HandleEvent;
    } else {
      assert RunConnected(w, o).net == w.net;
    }
  }

  lemma ClosingChannelDisciplined(w: World, o: Outcome)
    requires Disciplined(w) && w.state.ClosingChannel? && w.state.closing.Some?
    ensures Disciplined(RunClosingChannel(w, o))
  {
    hide Replay, Returns;
    ReplaySnoc(w.net.log, ClosedChannelCall(w.state.closing.value));
  }

  lemma ClosingConnectionDisciplined(w: World)
    requires Disciplined(w) && w.state.ClosingConnection? && w.state.conn_.Some?
    ensures Disciplined(RunClosingConnection(w))
  {
    hide Replay;
    ReplaySnoc(w.net.log, ClosedConnectionCall(w.state.conn_.value));
  }

  lemma RunDisciplined(w: World, o: Outcome)
    requires Disciplined(w) && Holds(w.state, w.out)
    ensures Disciplined(Run(w, o))
  {
    hide Replay, Returns, ReportError, RunConnecting, RunOpeningChannel, RunDeclaringConsumer, RunConnected,
         RunClosingChannel, RunClosingConnection;
    if w.state.Connecting? {
      ConnectingDisciplined(w, o);
    } else if w.state.OpeningChannel? {
      OpeningDisciplined(w, o);
    } else if w.state.DeclaringConsumer? {
      DeclaringDisciplined(w, o);
    } else if w.state.Connected? {
      ConnectedDisciplined(w, o);
    } else if w.state.ClosingChannel? {
      ClosingChannelDisciplined(w, o);
    } else if w.state.ClosingConnection? {
      ClosingConnectionDisciplined(w);
    }
  }

  lemma ActDisciplined(w: World, a: Action)
    requires Disciplined(w) && Holds(w.state, w.out)
    ensures Disciplined(Act(w, a))
  {
    hide Replay, Run;
    if a.Step? { RunDisciplined(w, a.o); }
  }

  // ----------------------------------------------------------------- theorems

  /** In every run the calls keep the discipline, and what is open is exactly what the state holds. */
  lemma {:induction false} DisciplineAlways(wantsConsumer: bool, actions: seq<Action>)
    ensures Disciplined(ActAll(Init(wantsConsumer), actions))
  {
    if actions != [] {
      var before, last := actions[..|actions| - 1], actions[|actions| - 1];
      DisciplineAlways(wantsConsumer, before);
      ControlAlways(wantsConsumer, before);
      ActDisciplined(ActAll(Init(wantsConsumer), before), last);
    }
  }

  /** A connected state owns a channel with callback, queue and, if wanted, consumer; an ended run owns nothing. */
  lemma ConnectedIsSetUp(wantsConsumer: bool, actions: seq<Action>)
    ensures var w := ActAll(Init(wantsConsumer), actions);
            && (w.state.Connected? ==>
                  Replay(w.net.log) == Some(Resources(Some(w.state.conn), Some(Channel(w.state.chan, true, true, w.wantsConsumer)))))
            && (w.state.Finished? || w.state.Over() ==> Replay(w.net.log) == Some(Resources(None, None)))
  {
    hide Replay, Act;
    DisciplineAlways(wantsConsumer, actions);
  }

  lemma {:induction false} PrefixDisciplined(log: seq<Call>, n: nat)
    requires Replay(log).Some? && n <= |log|
    ensures Replay(log[..n]).Some?
  {
    if n < |log| {
      PrefixDisciplined(log[..|log| - 1], n);
      assert log[..|log| - 1][..n] == log[..n];
    } else {
      assert log[..n] == log;
    }
  }

  lemma FollowAt(log: seq<Call>, k: nat)
    requires Replay(log).Some? && k < |log|
    ensures Replay(log[..k]).Some? && Follow(Replay(log[..k]).value, log[k]).Some?
    ensures Replay(log[..k + 1]) == Follow(Replay(log[..k]).value, log[k])
  {
    hide Follow;
    PrefixDisciplined(log, k);
    PrefixDisciplined(log, k + 1);
    assert log[..k + 1] == log[..k] + [log[k]];
    ReplaySnoc(log[..k], log[k]);
  }

  /** Until it is closed, a connection stays open, and no other is opened. */
  lemma {:induction false} OpenUntilClosed(log: seq<Call>, i: nat, n: nat, c: Id)
    requires Replay(log).Some? && i < n <= |log| && log[i] == OpenedConnection(c)
    requires forall k :: i < k < n ==> log[k] != ClosedConnectionCall(c)
    ensures Replay(log[..n]).Some? && Replay(log[..n]).value.conn == Some(c)
  {
    hide Replay;
    FollowAt(log, n - 1);
    if i + 1 < n {
      OpenUntilClosed(log, i, n - 1, c);
      assert log[n - 1] != ClosedConnectionCall(c);
    }
  }

  /** Until it is closed, a channel stays open, whatever happens to its settings. */
  lemma {:induction false} ChannelUntilClosed(log: seq<Call>, i: nat, n: nat, ch: Id)
    requires Replay(log).Some? && i < n <= |log| && log[i].OpenedChannel? && log[i].ch == ch
    requires forall k :: i < k < n ==> log[k] != ClosedChannelCall(ch)
    ensures Replay(log[..n]).Some? && Replay(log[..n]).value.Uses(ch)
  {
    hide Replay;
    FollowAt(log, n - 1);
    if i + 1 < n {
      ChannelUntilClosed(log, i, n - 1, ch);
      assert log[n - 1] != ClosedChannelCall(ch);
    }
  }

  /** Once closed, no channel is open until the next is opened. */
  lemma {:induction false} NoChannelUntilOpened(log: seq<Call>, i: nat, n: nat)
    requires Replay(log).Some? && i < n <= |log| && log[i].ClosedChannelCall?
    requires forall k :: i < k < n ==> !log[k].OpenedChannel?
    ensures Replay(log[..n]).Some? && Replay(log[..n]).value.chan == None
  {
    hide Replay;
    FollowAt(log, n - 1);
    if i + 1 < n {
      NoChannelUntilOpened(log, i, n - 1);
      assert !log[n - 1].OpenedChannel?;
    }
  }

  /** The first occurrence of a call after i, or n. */
  lemma {:induction false} FirstAfter(log: seq<Call>, i: nat, n: nat, call: Call) returns (k: nat)
    requires i < n <= |log|
    ensures i < k <= n && (k < n ==> log[k] == call)
    ensures forall m :: i < m < k ==> log[m] != call
  {
    if n == i + 1 {
      k := n;
    } else {
      k := FirstAfter(log, i, n - 1, call);
      if k == n - 1 && log[n - 1] != call {
        k := n;
      }
    }
  }

  /** Before the next connection is opened, the last one is closed: by the call just before, and only by it. */
  lemma ConnectionClosedOnce(wantsConsumer: bool, actions: seq<Action>, i: nat, j: nat)
    requires var log := ActAll(Init(wantsConsumer), actions).net.log;
             && i < j < |log| && log[i].OpenedConnection? && log[j].OpenedConnection?
             && forall k :: i < k < j ==> !log[k].OpenedConnection?
    ensures var log := ActAll(Init(wantsConsumer), actions).net.log;
            && i < j - 1 && log[j - 1] == ClosedConnectionCall(log[i].c)
            && forall m :: i < m < j - 1 ==> log[m] != ClosedConnectionCall(log[i].c)
  {
    DisciplineAlways(wantsConsumer, actions);
    var log := ActAll(Init(wantsConsumer), actions).net.log;
    hide ActAll, Replay;
    var k := FirstAfter(log, i, j, ClosedConnectionCall(log[i].c));
    FollowAt(log, j);
    if k == j {
      OpenUntilClosed(log, i, j, log[i].c);
    } else {
      FollowAt(log, k);
      FollowAt(log, k + 1);
    }
  }

  /** Before the next channel is opened, the last one is closed by exactly one call. */
  lemma ChannelClosedOnce(wantsConsumer: bool, actions: seq<Action>, i: nat, j: nat)
    requires var log := ActAll(Init(wantsConsumer), actions).net.log;
             && i < j < |log| && log[i].OpenedChannel? && log[j].OpenedChannel?
             && forall k :: i < k < j ==> !log[k].OpenedChannel?
    ensures var log := ActAll(Init(wantsConsumer), actions).net.log;
            exists k :: && i < k < j && log[k] == ClosedChannelCall(log[i].ch)
                        && forall m :: i < m < j && m != k ==> log[m] != ClosedChannelCall(log[i].ch)
  {
    DisciplineAlways(wantsConsumer, actions);
    var log := ActAll(Init(wantsConsumer), actions).net.log;
    hide ActAll, Replay;
    var k := FirstAfter(log, i, j, ClosedChannelCall(log[i].ch));
    if k == j {
      ChannelUntilClosed(log, i, j, log[i].ch);
      FollowAt(log, j);
    } else {
      forall m | k < m < j ensures log[m] != ClosedChannelCall(log[i].ch) {
        NoChannelUntilOpened(log, k, m);
        FollowAt(log, m);
      }
    }
  }
}
