/** The message windows after every run: exactly when they agree with the cached messages. */
module CacheWindows {
  import opened Base
  import opened CacheTables
  import opened CacheMessages
  import opened CacheEvents
  import opened CacheRuns

  lemma {:induction false} GuildsLostWindow(cfg: Config, t: Tables, gs: seq<GuildId>)
    ensures GuildsLost(cfg, t, gs).window == t.window
  {
    if gs != [] {
      GuildsLostWindow(cfg, t, gs[..|gs| - 1]);
    }
  }

  lemma WindowStep(cfg: Config, t: Tables, e: Event)
    ensures Update(cfg, t, e).window == WindowAfter(cfg, t.window, t.currentUser, e)
  {
    hide Update, WindowAfter;
    if InTables(e) {
      UpdateInTables(cfg, t, e);
    } else {
      LossLeavesWindow(cfg, t, e);
    }
  }

  lemma LossLeavesWindow(cfg: Config, t: Tables, e: Event)
    requires !InTables(e)
    ensures Update(cfg, t, e).window == t.window == WindowAfter(cfg, t.window, t.currentUser, e)
  {
    hide GuildsLost, TableByTable, Create, Delete, DeleteBulk, UpdateMessage, React;
    if e.Ready? {
      GuildsLostWindow(cfg, SetCurrentUser(cfg, t, e.userId), e.guildIds);
    }
  }

  // ------------------------------------------------------ exactly when they agree

  /** If the message is cached, then in this channel. */
  predicate SameChannel(w: Window, id: MessageId, c: ChannelId) {
    id in w.messages ==> w.messages[id].channel == c
  }

  /** What an event may say of messages: a new one is fresh, any other one is in the channel it is cached in. */
  ghost predicate Proper(cfg: Config, w: Window, e: Event) {
    match e
    case MessageCreate(m) => Fresh(cfg, w, m.message)
    case MessageUpdate(m) => SameChannel(w, m.message.id, m.message.channel)
    case MessageDelete(c, id) => SameChannel(w, id, c)
    case MessageDeleteBulk(c, ids) => forall id :: id in Elements(ids) ==> SameChannel(w, id, c)
    case _ => true
  }

  predicate IsReaction(e: Event) {
    e.ReactionAdd? || e.ReactionRemove? || e.ReactionRemoveAll? || e.ReactionRemoveEmoji?
  }

  lemma ReactionKept(cfg: Config, w: Window, currentUser: Option<UserId>, e: Event)
    requires Windowed(cfg, w) && cfg.message && IsReaction(e)
    ensures Windowed(cfg, WindowAfter(cfg, w, currentUser, e))
  {
    hide Windowed, React, AddReaction, RemoveReaction, RemoveEmoji, ReactionsOf;
    forall rs: seq<Reaction> ensures Windowed(cfg, React(cfg, w, e.messageId, rs)) {
      ReactWindowed(cfg, w, e.messageId, rs);
    }
  }

  lemma MessageKept(cfg: Config, w: Window, currentUser: Option<UserId>, e: Event)
    requires Windowed(cfg, w) && cfg.message && Proper(cfg, w, e) && !IsReaction(e)
    ensures Windowed(cfg, WindowAfter(cfg, w, currentUser, e))
  {
    hide Windowed, Create, Delete, DeleteBulk, UpdateMessage, Fresh, React;
    if e.MessageCreate? {
      CreateWindowed(cfg, w, e.message.message);
    } else if e.MessageDelete? {
      DeleteWindowed(cfg, w, e.channelId, e.messageId);
    } else if e.MessageDeleteBulk? {
      BulkWindowed(cfg, w, e.channelId, e.messageIds);
    } else if e.MessageUpdate? {
      UpdateWindowed(cfg, w, e.message.message);
    }
  }

  lemma WindowKept(cfg: Config, w: Window, currentUser: Option<UserId>, e: Event)
    requires Windowed(cfg, w) && (cfg.message ==> Proper(cfg, w, e))
    ensures Windowed(cfg, WindowAfter(cfg, w, currentUser, e))
  {
    if !cfg.message {
      Unwanted(cfg, w, currentUser, e);
    } else if IsReaction(e) {
      ReactionKept(cfg, w, currentUser, e);
    } else {
      MessageKept(cfg, w, currentUser, e);
    }
  }

  /** Without wanting messages the window stays empty. */
  lemma Unwanted(cfg: Config, w: Window, currentUser: Option<UserId>, e: Event)
    requires !cfg.message && w == Window(map[], map[])
    ensures WindowAfter(cfg, w, currentUser, e) == w
  {
  }

  /** One event keeps windows and messages in agreement exactly if it is proper. */
  lemma WindowKeptIff(cfg: Config, w: Window, currentUser: Option<UserId>, e: Event)
    requires Windowed(cfg, w) && cfg.message
    ensures Windowed(cfg, WindowAfter(cfg, w, currentUser, e)) <==> Proper(cfg, w, e)
  {
    if Proper(cfg, w, e) {
      WindowKept(cfg, w, currentUser, e);
    } else {
      hide Windowed, Create, Delete, DeleteBulk, UpdateMessage, Fresh;
      match e
      case MessageCreate(m) => CreateWindowedIff(cfg, w, m.message);
      case MessageUpdate(m) => UpdateBreaks(cfg, w, m.message);
      case MessageDelete(c, id) => DeleteBreaks(cfg, w, c, id);
      case MessageDeleteBulk(c, ids) =>
        var id :| id in Elements(ids) && !SameChannel(w, id, c);
        BulkBreaks(cfg, w, c, ids, id);
    }
  }

  lemma StillListed(cfg: Config, w: Window, w': Window, id: MessageId, d: ChannelId)
    requires Windowed(cfg, w) && id in w.messages && w.messages[id].channel == d
    requires WindowOf(w', d) == WindowOf(w, d) && (id in w'.messages ==> w'.messages[id].channel != d)
    ensures !Windowed(cfg, w')
  {
    WindowedMeans(cfg, w, d, id);
    if Windowed(cfg, w') {
      WindowedMeans(cfg, w', d, id);
    }
  }

  lemma UpdateBreaks(cfg: Config, w: Window, m: CachedMessage)
    requires Windowed(cfg, w) && cfg.message && !SameChannel(w, m.id, m.channel)
    ensures !Windowed(cfg, UpdateMessage(cfg, w, m))
  {
    StillListed(cfg, w, UpdateMessage(cfg, w, m), m.id, w.messages[m.id].channel);
  }

  lemma DeleteBreaks(cfg: Config, w: Window, c: ChannelId, id: MessageId)
    requires Windowed(cfg, w) && cfg.message && !SameChannel(w, id, c)
    ensures !Windowed(cfg, Delete(cfg, w, c, id))
  {
    StillListed(cfg, w, Delete(cfg, w, c, id), id, w.messages[id].channel);
  }

  lemma BulkBreaks(cfg: Config, w: Window, c: ChannelId, ids: seq<MessageId>, id: MessageId)
    requires Windowed(cfg, w) && cfg.message && id in Elements(ids) && !SameChannel(w, id, c)
    ensures !Windowed(cfg, DeleteBulk(cfg, w, c, ids))
  {
    StillListed(cfg, w, DeleteBulk(cfg, w, c, ids), id, w.messages[id].channel);
  }

  /** Every event of the run is proper at its moment. */
  ghost predicate AllProper(cfg: Config, events: seq<Event>) {
    forall n :: 0 <= n < |events| ==> Proper(cfg, After(cfg, events[..n]).window, events[n])
  }

  ghost predicate WindowedThroughout(cfg: Config, events: seq<Event>) {
    forall n :: 0 <= n <= |events| ==> Windowed(cfg, After(cfg, events[..n]).window)
  }

  lemma EmptyWindowed(cfg: Config)
    ensures Windowed(cfg, EMPTY.window)
  {
    assert forall c :: Holds(cfg, WindowOf(EMPTY.window, c), OwnIds(EMPTY.window.messages, c));
  }

  lemma AfterPrefix(cfg: Config, events: seq<Event>, n: nat)
    requires n < |events|
    ensures After(cfg, events[..n + 1]) == Update(cfg, After(cfg, events[..n]), events[n])
  {
    assert events[..n + 1] == events[..n] + [events[n]];
    AfterSnoc(cfg, events[..n], events[n]);
  }

  lemma {:induction false} WindowedUpTo(cfg: Config, events: seq<Event>, n: nat)
    requires n <= |events| && (cfg.message ==> AllProper(cfg, events))
    ensures Windowed(cfg, After(cfg, events[..n]).window)
  {
    hide Windowed, Update, WindowAfter, Proper;
    if n == 0 {
      EmptyWindowed(cfg);
    } else {
      WindowedUpTo(cfg, events, n - 1);
      AfterPrefix(cfg, events, n - 1);
      var t := After(cfg, events[..n - 1]);
      hide After;
      WindowStep(cfg, t, events[n - 1]);
      WindowKept(cfg, t.window, t.currentUser, events[n - 1]);
    }
  }

  /** Windows and messages agree throughout a run exactly if every event is proper at its moment. */
  lemma WindowsAgreeIff(cfg: Config, events: seq<Event>)
    requires cfg.message
    ensures WindowedThroughout(cfg, events) <==> AllProper(cfg, events)
  {
    hide Windowed, Update, WindowAfter, Proper;
    if AllProper(cfg, events) {
      forall n | 0 <= n <= |events| ensures Windowed(cfg, After(cfg, events[..n]).window) {
        WindowedUpTo(cfg, events, n);
      }
    }
    if WindowedThroughout(cfg, events) {
      forall n | 0 <= n < |events| ensures Proper(cfg, After(cfg, events[..n]).window, events[n]) {
        var t := After(cfg, events[..n]);
        AfterPrefix(cfg, events, n);
        assert Windowed(cfg, t.window) && Windowed(cfg, After(cfg, events[..n + 1]).window);
        WindowStep(cfg, t, events[n]);
        WindowKeptIff(cfg, t.window, t.currentUser, events[n]);
      }
    }
  }

  /**
   * Then, after every run, each channel's window has no duplicates, is bounded, and holds exactly the cached messages of
   * the channel.
   */
  lemma MessageWindows(cfg: Config, events: seq<Event>, c: ChannelId, id: MessageId)
    requires cfg.message ==> AllProper(cfg, events)
    ensures var w := After(cfg, events).window;
            && Distinct(WindowOf(w, c)) && |WindowOf(w, c)| <= Limit(cfg)
            && (id in WindowOf(w, c) <==> id in w.messages && w.messages[id].channel == c)
  {
    WindowedUpTo(cfg, events, |events|);
    assert events[..|events|] == events;
    hide After, Windowed, AllProper;
    WindowedMeans(cfg, After(cfg, events).window, c, id);
  }

  // ------------------------------------------------- told from the events alone

  /** The messages an event speaks of, with the channel it gives for each. */
  function Mentions(e: Event): set<(MessageId, ChannelId)> {
    match e
    case MessageCreate(m) => {(m.message.id, m.message.channel)}
    case MessageUpdate(m) => {(m.message.id, m.message.channel)}
    case MessageDelete(c, id) => {(id, c)}
    case MessageDeleteBulk(c, ids) => set id | id in ids :: (id, c)
    case _ => {}
  }

  predicate Caches(e: Event, id: MessageId) {
    (e.MessageCreate? || e.MessageUpdate?) && e.message.message.id == id
  }

  /** A message keeps its channel, and is created before it is updated, and only once. */
  ghost predicate Orderly(events: seq<Event>) {
    && (forall i, j, id, c, d :: (0 <= i < |events| && 0 <= j < |events| && (id, c) in Mentions(events[i])
                                  && (id, d) in Mentions(events[j])) ==> c == d)
    && (forall i, j, id :: 0 <= i < j < |events| && Caches(events[i], id) && Caches(events[j], id) ==> !events[j].MessageCreate?)
  }

  lemma OrderlyPrefix(events: seq<Event>)
    requires Orderly(events) && events != []
    ensures Orderly(events[..|events| - 1])
  {
  }

  /** What a step leaves among the cached messages was there before, in the same channel, or is what it caches. */
  lemma CachedByStep(cfg: Config, w: Window, currentUser: Option<UserId>, e: Event, id: MessageId)
    requires forall k :: k in w.messages ==> w.messages[k].id == k
    requires id in WindowAfter(cfg, w, currentUser, e).messages
    ensures || (id in w.messages && WindowAfter(cfg, w, currentUser, e).messages[id].channel == w.messages[id].channel)
            || (Caches(e, id) && WindowAfter(cfg, w, currentUser, e).messages[id].channel == e.message.message.channel)
  {
    hide AddReaction, RemoveReaction, RemoveEmoji;
  }

  lemma {:induction false} CachedWasSent(cfg: Config, events: seq<Event>, id: MessageId) returns (i: nat)
    requires id in After(cfg, events).window.messages && forall n :: 0 <= n <= |events| ==> Keyed(After(cfg, events[..n]).window)
    ensures i < |events| && Caches(events[i], id)
    ensures After(cfg, events).window.messages[id].channel == events[i].message.message.channel
  {
    assert events != [];
    var before, last := events[..|events| - 1], events[|events| - 1];
    var t := After(cfg, before);
    WindowStep(cfg, t, last);
    assert Keyed(After(cfg, events[..|events| - 1]).window);
    hide WindowAfter, Update;
    CachedByStep(cfg, t.window, t.currentUser, last, id);
    if Caches(last, id) && After(cfg, events).window.messages[id].channel == last.message.message.channel {
      i := |events| - 1;
    } else {
      forall n | 0 <= n <= |before| ensures Keyed(After(cfg, before[..n]).window) {
        assert before[..n] == events[..n];
      }
      i := CachedWasSent(cfg, before, id);
    }
  }

  ghost predicate Keyed(w: Window) {
    forall id :: id in w.messages ==> w.messages[id].id == id
  }

  lemma CreatedFirst(events: seq<Event>, i: nat)
    requires Orderly(events) && i < |events| - 1 && events[|events| - 1].MessageCreate?
    ensures !Caches(events[..|events| - 1][i], events[|events| - 1].message.message.id)
  {
  }

  lemma KeepsChannel(events: seq<Event>, i: nat, k: (MessageId, ChannelId), c: ChannelId)
    requires Orderly(events) && i < |events| - 1 && k in Mentions(events[|events| - 1])
    requires (k.0, c) in Mentions(events[..|events| - 1][i])
    ensures c == k.1
  {
  }

  lemma MentionsAgree(cfg: Config, events: seq<Event>, before: seq<Event>, k: (MessageId, ChannelId))
    requires events != [] && Orderly(events) && before == events[..|events| - 1]
    requires forall n :: 0 <= n <= |before| ==> Keyed(After(cfg, before[..n]).window)
    requires k in Mentions(events[|events| - 1]) && k.0 in After(cfg, before).window.messages
    ensures After(cfg, before).window.messages[k.0].channel == k.1
  {
    hide Orderly, Keyed, After;
    var i := CachedWasSent(cfg, before, k.0);
    KeepsChannel(events, i, k, After(cfg, before).window.messages[k.0].channel);
  }

  lemma CreatesFresh(cfg: Config, events: seq<Event>, before: seq<Event>)
    requires events != [] && Orderly(events) && before == events[..|events| - 1] && events[|events| - 1].MessageCreate?
    requires forall n :: 0 <= n <= |before| ==> Keyed(After(cfg, before[..n]).window)
    ensures events[|events| - 1].message.message.id !in After(cfg, before).window.messages
  {
    hide Orderly, Keyed, After;
    if events[|events| - 1].message.message.id in After(cfg, before).window.messages {
      var i := CachedWasSent(cfg, before, events[|events| - 1].message.message.id);
      CreatedFirst(events, i);
    }
  }

  lemma LastIsProper(cfg: Config, events: seq<Event>, before: seq<Event>)
    requires events != [] && Orderly(events) && before == events[..|events| - 1]
    requires forall n :: 0 <= n <= |before| ==> Keyed(After(cfg, before[..n]).window)
    ensures Proper(cfg, After(cfg, before).window, events[|events| - 1])
  {
    var last, w := events[|events| - 1], After(cfg, before).window;
    hide Orderly, After, Keyed;
    forall k | k in Mentions(last) ensures SameChannel(w, k.0, k.1) {
      if k.0 in w.messages {
        MentionsAgree(cfg, events, before, k);
      }
    }
    if last.MessageCreate? {
      CreatesFresh(cfg, events, before);
    } else if last.MessageUpdate? {
      assert (last.message.message.id, last.message.message.channel) in Mentions(last);
    } else if last.MessageDelete? {
      assert (last.messageId, last.channelId) in Mentions(last);
    } else if last.MessageDeleteBulk? {
      forall id | id in Elements(last.messageIds) ensures SameChannel(w, id, last.channelId) {
        assert (id, last.channelId) in Mentions(last);
      }
    }
  }

  lemma ProperSnoc(cfg: Config, events: seq<Event>, before: seq<Event>)
    requires events != [] && before == events[..|events| - 1] && AllProper(cfg, before)
    requires Proper(cfg, After(cfg, before).window, events[|events| - 1])
    ensures AllProper(cfg, events)
  {
    hide After, Proper;
    forall n | 0 <= n < |events| ensures Proper(cfg, After(cfg, events[..n]).window, events[n]) {
      if n < |before| {
        assert events[..n] == before[..n] && events[n] == before[n];
      } else {
        assert events[..n] == before;
      }
    }
  }

  /** A run in which a message keeps its channel, and is created once and before it is updated, has only proper events. */
  lemma {:induction false} OrderlyIsProper(cfg: Config, events: seq<Event>)
    requires Orderly(events)
    ensures AllProper(cfg, events)
  {
    hide Orderly, After, Proper, AllProper, Windowed;
    if events == [] {
      NothingProper(cfg);
    } else {
      var before := events[..|events| - 1];
      OrderlyPrefix(events);
      OrderlyIsProper(cfg, before);
      forall n | 0 <= n <= |before| ensures Keyed(After(cfg, before[..n]).window) {
        WindowedUpTo(cfg, before, n);
        WindowedKeyed(cfg, After(cfg, before[..n]).window);
      }
      LastIsProper(cfg, events, before);
      ProperSnoc(cfg, events, before);
    }
  }

  lemma NothingProper(cfg: Config)
    ensures AllProper(cfg, [])
  {
  }

  lemma WindowedKeyed(cfg: Config, w: Window)
    requires Windowed(cfg, w)
    ensures Keyed(w)
  {
  }
}
