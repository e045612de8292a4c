/** Messages, the window of each channel over them, and the reactions on a message. */
module CacheMessages {
  import opened Base
  import opened CacheTables

  datatype ReactionEmoji = Custom(id: EmojiId, name: string) | Unicode(glyph: string)

  /** Custom emojis are told apart by id alone, others by name. */
  predicate SameEmoji(a: ReactionEmoji, b: ReactionEmoji) {
    match a
    case Custom(id, _) => b.Custom? && b.id == id
    case Unicode(glyph) => b.Unicode? && b.glyph == glyph
  }

  datatype Reaction = Reaction(emoji: ReactionEmoji, count: int, me: bool)

  datatype CachedMessage = CachedMessage(id: MessageId, channel: ChannelId, reactions: seq<Reaction>, text: int)

  /** Cached messages, and for each channel the ids in its window, newest first. */
  datatype Window = Window(messages: map<MessageId, CachedMessage>, channels: map<ChannelId, seq<MessageId>>)

  function WindowOf(w: Window, c: ChannelId): seq<MessageId> {
    if c in w.channels then w.channels[c] else []
  }

  // --------------------------------------------------------------- operations

  /** Makes room by dropping the oldest message, then puts the new id in front. */
  function Push(cfg: Config, w: Window, c: ChannelId, id: MessageId): Window {
    var ids := WindowOf(w, c);
    var full := |ids| >= cfg.messageCacheSize && ids != [];
    Window(if full then Remove(cfg.message, w.messages, ids[|ids| - 1]) else w.messages,
           Put(cfg.message, w.channels, c, [id] + (if full then ids[..|ids| - 1] else ids)))
  }

  function Create(cfg: Config, w: Window, m: CachedMessage): Window {
    var w := Push(cfg, w, m.channel, m.id);
    w.(messages := Put(cfg.message, w.messages, m.id, m))
  }

  /** An update of a message that is not cached caches it. */
  function UpdateMessage(cfg: Config, w: Window, m: CachedMessage): Window {
    var stored := w.(messages := Put(cfg.message, w.messages, m.id, m));
    if PutIsNew(cfg.message, w.messages, m.id) then Push(cfg, stored, m.channel, m.id) else stored
  }

  /** Removes the first occurrence. */
  function Without(ids: seq<MessageId>, id: MessageId): seq<MessageId> {
    if ids == [] then [] else if ids[0] == id then ids[1..] else [ids[0]] + Without(ids[1..], id)
  }

  function Delete(cfg: Config, w: Window, c: ChannelId, id: MessageId): Window {
    var ids := WindowOf(w, c);
    Window(Remove(cfg.message, w.messages, id),
           if id in ids then Put(cfg.message, w.channels, c, Without(ids, id)) else w.channels)
  }

  function WithoutAll(ids: seq<MessageId>, gone: seq<MessageId>): seq<MessageId> {
    if gone == [] then ids else Without(WithoutAll(ids, gone[..|gone| - 1]), gone[|gone| - 1])
  }

  function DeleteBulk(cfg: Config, w: Window, c: ChannelId, ids: seq<MessageId>): Window {
    Window(RemoveAll(cfg.message, w.messages, Elements(ids)), Put(cfg.message, w.channels, c, WithoutAll(WindowOf(w, c), ids)))
  }

  /** Changes the reactions of a message, if it is cached. */
  function React(cfg: Config, w: Window, id: MessageId, reactions: seq<Reaction>): Window {
    if id !in w.messages then w
    else
      var m := w.messages[id].(reactions := reactions);
      w.(messages := Put(cfg.message, w.messages, m.id, m))
  }

  // ---------------------------------------------------------------- reactions

  /** The position of the first reaction with the emoji, or the length. */
  function Find(rs: seq<Reaction>, e: ReactionEmoji): (k: nat)
    ensures k <= |rs| && (k < |rs| ==> SameEmoji(rs[k].emoji, e))
    ensures forall i :: 0 <= i < k ==> !SameEmoji(rs[i].emoji, e)
  {
    if rs == [] then 0 else if SameEmoji(rs[0].emoji, e) then 0 else 1 + Find(rs[1..], e)
  }

  function AddReaction(rs: seq<Reaction>, e: ReactionEmoji, mine: bool): seq<Reaction> {
    var k := Find(rs, e);
    if k < |rs| then rs[k := rs[k].(me := rs[k].me || mine, count := rs[k].count + 1)]
    else rs + [Reaction(e, 1, mine)]
  }

  /** Keeps the reactions with another emoji. */
  function Retain(rs: seq<Reaction>, e: ReactionEmoji): seq<Reaction> {
    if rs == [] then [] else if SameEmoji(rs[0].emoji, e) then Retain(rs[1..], e) else [rs[0]] + Retain(rs[1..], e)
  }

  function RemoveReaction(rs: seq<Reaction>, e: ReactionEmoji, mine: bool): seq<Reaction> {
    var k := Find(rs, e);
    if k == |rs| then rs
    else
      var r := rs[k].(me := rs[k].me && !mine);
      if r.count > 1 then rs[k := r.(count := r.count - 1)] else Retain(rs[k := r], e)
  }

  function RemoveEmoji(rs: seq<Reaction>, e: ReactionEmoji): seq<Reaction> {
    var k := Find(rs, e);
    if k < |rs| then rs[..k] + rs[k + 1..] else rs
  }

  lemma FindAt(rs: seq<Reaction>, e: ReactionEmoji, k: nat)
    requires k <= |rs| && (k < |rs| ==> SameEmoji(rs[k].emoji, e))
    requires forall i :: 0 <= i < k ==> !SameEmoji(rs[i].emoji, e)
    ensures Find(rs, e) == k
  {
  }

  lemma {:induction false} RetainAll(rs: seq<Reaction>, e: ReactionEmoji)
    requires forall i :: 0 <= i < |rs| ==> !SameEmoji(rs[i].emoji, e)
    ensures Retain(rs, e) == rs
  {
    if rs != [] {
      RetainAll(rs[1..], e);
    }
  }

  lemma {:induction false} RetainSnoc(rs: seq<Reaction>, r: Reaction, e: ReactionEmoji)
    ensures Retain(rs + [r], e) == Retain(rs, e) + (if SameEmoji(r.emoji, e) then [] else [r])
  {
    if rs != [] {
      assert (rs + [r])[1..] == rs[1..] + [r];
      RetainSnoc(rs[1..], r, e);
    }
  }

  lemma AddRemoveNew(rs: seq<Reaction>, e: ReactionEmoji, mine: bool)
    requires Find(rs, e) == |rs|
    ensures RemoveReaction(AddReaction(rs, e, mine), e, mine) == rs
  {
    hide Find, Retain;
    var added := rs + [Reaction(e, 1, mine)];
    FindAt(added, e, |rs|);
    var r := Reaction(e, 1, false);
    assert added[|rs| := r] == rs + [r];
    RetainSnoc(rs, r, e);
    RetainAll(rs, e);
  }

  lemma AddRemoveAgain(rs: seq<Reaction>, e: ReactionEmoji, mine: bool)
    requires Find(rs, e) < |rs| && rs[Find(rs, e)].count > 0
    ensures var k := Find(rs, e);
            RemoveReaction(AddReaction(rs, e, mine), e, mine) == rs[k := rs[k].(me := (rs[k].me || mine) && !mine)]
  {
    hide Find, Retain;
    var k := Find(rs, e);
    var r := rs[k].(me := rs[k].me || mine, count := rs[k].count + 1);
    var added := rs[k := r];
    FindAt(added, e, k);
    assert added[k := r.(me := r.me && !mine, count := r.count - 1)] == rs[k := rs[k].(me := (rs[k].me || mine) && !mine)];
  }

  /**
   * Adding a reaction and removing it again restores the reactions exactly unless the current user's reaction
   * was counted before: then the removal takes its mark away.
   */
  lemma AddRemoveReaction(rs: seq<Reaction>, e: ReactionEmoji, mine: bool)
    requires forall i :: 0 <= i < |rs| ==> rs[i].count > 0
    ensures RemoveReaction(AddReaction(rs, e, mine), e, mine) == rs
       <==> !(mine && Find(rs, e) < |rs| && rs[Find(rs, e)].me)
  {
    hide Find, AddReaction, RemoveReaction;
    var k := Find(rs, e);
    if k == |rs| {
      AddRemoveNew(rs, e, mine);
    } else {
      AddRemoveAgain(rs, e, mine);
      var r := rs[k].(me := (rs[k].me || mine) && !mine);
      assert rs[k := r][k] == r;
      assert r == rs[k] ==> rs[k := r] == rs;
    }
  }

  /** No two reactions have the same emoji. */
  ghost predicate OnePerEmoji(rs: seq<Reaction>) {
    forall i, j :: 0 <= i < j < |rs| ==> !SameEmoji(rs[i].emoji, rs[j].emoji)
  }

  lemma {:induction false} RetainOnePerEmoji(rs: seq<Reaction>, e: ReactionEmoji)
    requires OnePerEmoji(rs)
    ensures OnePerEmoji(Retain(rs, e))
    ensures forall i :: 0 <= i < |Retain(rs, e)| ==> Retain(rs, e)[i] in rs && !SameEmoji(Retain(rs, e)[i].emoji, e)
    ensures forall r :: r in rs && !SameEmoji(r.emoji, e) ==> r in Retain(rs, e)
  {
    if rs != [] {
      assert OnePerEmoji(rs[1..]);
      RetainOnePerEmoji(rs[1..], e);
      var rest := Retain(rs[1..], e);
      forall i | 0 <= i < |rest| ensures !SameEmoji(rs[0].emoji, rest[i].emoji) {
        var j :| 0 <= j < |rs[1..]| && rs[1..][j] == rest[i];
        assert rs[j + 1] == rest[i];
      }
    }
  }

  lemma AddKeepsDistinct(rs: seq<Reaction>, e: ReactionEmoji, mine: bool)
    requires OnePerEmoji(rs)
    ensures OnePerEmoji(AddReaction(rs, e, mine))
  {
  }

  lemma RemoveKeepsDistinct(rs: seq<Reaction>, e: ReactionEmoji, mine: bool)
    requires OnePerEmoji(rs)
    ensures OnePerEmoji(RemoveReaction(rs, e, mine))
  {
    var k := Find(rs, e);
    if k < |rs| {
      var r := rs[k].(me := rs[k].me && !mine);
      assert OnePerEmoji(rs[k := r]);
      RetainOnePerEmoji(rs[k := r], e);
    }
  }

  lemma OthersRemain(rs: seq<Reaction>, e: ReactionEmoji)
    requires OnePerEmoji(rs) && rs != [] && SameEmoji(rs[0].emoji, e)
    ensures Retain(rs[1..], e) == rs[1..]
  {
    hide Retain;
    forall i | 0 <= i < |rs[1..]| ensures !SameEmoji(rs[1..][i].emoji, e) {
      assert !SameEmoji(rs[0].emoji, rs[i + 1].emoji);
    }
    RetainAll(rs[1..], e);
  }

  lemma RemoveEmojiHead(rs: seq<Reaction>, e: ReactionEmoji)
    requires rs != [] && SameEmoji(rs[0].emoji, e)
    ensures RemoveEmoji(rs, e) == rs[1..]
  {
  }

  lemma RemoveEmojiTail(rs: seq<Reaction>, e: ReactionEmoji)
    requires rs != [] && !SameEmoji(rs[0].emoji, e)
    ensures RemoveEmoji(rs, e) == [rs[0]] + RemoveEmoji(rs[1..], e)
  {
    var k, tail := Find(rs[1..], e), rs[1..];
    assert Find(rs, e) == k + 1;
    hide Find;
    assert rs == [rs[0]] + tail;
    if k < |tail| {
      assert RemoveEmoji(rs, e) == rs[..k + 1] + rs[k + 2..];
      assert rs[..k + 1] == [rs[0]] + tail[..k] && rs[k + 2..] == tail[k + 1..];
      assert RemoveEmoji(tail, e) == tail[..k] + tail[k + 1..];
    } else {
      assert RemoveEmoji(rs, e) == rs && RemoveEmoji(tail, e) == tail;
    }
  }

  /** With one reaction per emoji, taking the first reaction of an emoji off a message takes all of it off. */
  lemma {:induction false} RemoveEmojiTakesAll(rs: seq<Reaction>, e: ReactionEmoji)
    requires OnePerEmoji(rs)
    ensures RemoveEmoji(rs, e) == Retain(rs, e)
  {
    if rs != [] {
      if SameEmoji(rs[0].emoji, e) {
        OthersRemain(rs, e);
        hide OnePerEmoji, RemoveEmoji;
        RemoveEmojiHead(rs, e);
      } else {
        assert OnePerEmoji(rs[1..]);
        hide OnePerEmoji, RemoveEmoji;
        RemoveEmojiTakesAll(rs[1..], e);
        RemoveEmojiTail(rs, e);
      }
    } else {
      assert Find(rs, e) == 0;
    }
  }

  // ---------------------------------------------------------------- invariant

  function Limit(cfg: Config): nat {
    if cfg.messageCacheSize == 0 then 1 else cfg.messageCacheSize
  }

  /** The cached messages of a channel. */
  function OwnIds(messages: map<MessageId, CachedMessage>, c: ChannelId): set<MessageId> {
    set id | id in messages && messages[id].channel == c
  }

  /** A window without duplicates, bounded, that holds exactly the given ids. */
  ghost predicate Holds(cfg: Config, ids: seq<MessageId>, own: set<MessageId>) {
    Distinct(ids) && |ids| <= Limit(cfg) && Elements(ids) == own
  }

  /** Every channel's window holds exactly the cached messages of the channel. */
  ghost predicate Windowed(cfg: Config, w: Window) {
    && (forall c :: Holds(cfg, WindowOf(w, c), OwnIds(w.messages, c)))
    && (forall id :: id in w.messages ==> w.messages[id].id == id)
    && (cfg.message || w == Window(map[], map[]))
  }

  lemma PushElements(id: MessageId, ids: seq<MessageId>)
    requires Distinct(ids) && id !in ids
    ensures Distinct([id] + ids) && Elements([id] + ids) == {id} + Elements(ids)
  {
  }

  lemma {:induction false} WithoutElements(ids: seq<MessageId>, id: MessageId)
    requires Distinct(ids)
    ensures Distinct(Without(ids, id)) && Elements(Without(ids, id)) == Elements(ids) - {id}
    ensures |Without(ids, id)| <= |ids|
  {
    if ids != [] {
      assert ids == [ids[0]] + ids[1..];
      if ids[0] != id {
        WithoutElements(ids[1..], id);
        assert ids[0] !in Without(ids[1..], id);
        PushElements(ids[0], Without(ids[1..], id));
      }
    }
  }

  lemma {:induction false} WithoutAllElements(ids: seq<MessageId>, gone: seq<MessageId>)
    requires Distinct(ids)
    ensures Distinct(WithoutAll(ids, gone)) && Elements(WithoutAll(ids, gone)) == Elements(ids) - Elements(gone)
    ensures |WithoutAll(ids, gone)| <= |ids|
  {
    if gone != [] {
      var before, last := gone[..|gone| - 1], gone[|gone| - 1];
      assert gone == before + [last];
      WithoutAllElements(ids, before);
      WithoutElements(WithoutAll(ids, before), last);
    }
  }

  /** The window after a push, and the id that was pushed out. */
  function Pushed(cfg: Config, ids: seq<MessageId>, id: MessageId): (seq<MessageId>, set<MessageId>) {
    if |ids| >= cfg.messageCacheSize && ids != [] then ([id] + ids[..|ids| - 1], {ids[|ids| - 1]}) else ([id] + ids, {})
  }

  lemma PushHolds(cfg: Config, ids: seq<MessageId>, own: set<MessageId>, id: MessageId)
    requires Holds(cfg, ids, own) && id !in own - Pushed(cfg, ids, id).1
    ensures Holds(cfg, Pushed(cfg, ids, id).0, {id} + (own - Pushed(cfg, ids, id).1))
    ensures Pushed(cfg, ids, id).1 <= own
  {
  }

  lemma PushShape(cfg: Config, w: Window, c: ChannelId, id: MessageId)
    requires cfg.message
    ensures Push(cfg, w, c, id) == Window(w.messages - Pushed(cfg, WindowOf(w, c), id).1,
                                          w.channels[c := Pushed(cfg, WindowOf(w, c), id).0])
  {
  }

  /** The id of a new message is not cached, or is the very one that the new message pushes out of its window. */
  predicate Fresh(cfg: Config, w: Window, m: CachedMessage) {
    m.id !in w.messages || m.id in Pushed(cfg, WindowOf(w, m.channel), m.id).1
  }

  lemma CreateWindowed(cfg: Config, w: Window, m: CachedMessage)
    requires Windowed(cfg, w) && (cfg.message ==> Fresh(cfg, w, m))
    ensures Windowed(cfg, Create(cfg, w, m))
  {
    hide Pushed;
    if cfg.message {
      var w' := Create(cfg, w, m);
      PushShape(cfg, w, m.channel, m.id);
      var gone := Pushed(cfg, WindowOf(w, m.channel), m.id).1;
      assert Holds(cfg, WindowOf(w, m.channel), OwnIds(w.messages, m.channel));
      PushHolds(cfg, WindowOf(w, m.channel), OwnIds(w.messages, m.channel), m.id);
      hide Push, Holds;
      assert w'.messages == (w.messages - gone)[m.id := m];
      forall c ensures Holds(cfg, WindowOf(w', c), OwnIds(w'.messages, c)) {
        assert Holds(cfg, WindowOf(w, c), OwnIds(w.messages, c));
        if c == m.channel {
          assert OwnIds(w'.messages, c) == {m.id} + (OwnIds(w.messages, c) - gone);
        } else {
          assert OwnIds(w'.messages, c) == OwnIds(w.messages, c);
        }
      }
    }
  }

  /** An update of a message that is not cached does what creating it would. */
  lemma UpdateIsCreate(cfg: Config, w: Window, m: CachedMessage)
    requires Windowed(cfg, w) && cfg.message && m.id !in w.messages
    ensures UpdateMessage(cfg, w, m) == Create(cfg, w, m)
  {
    var ids := WindowOf(w, m.channel);
    assert Holds(cfg, ids, OwnIds(w.messages, m.channel));
    if ids != [] {
      assert ids[|ids| - 1] in Elements(ids);
      assert ids[|ids| - 1] in w.messages;
      assert (w.messages[m.id := m]) - {ids[|ids| - 1]} == (w.messages - {ids[|ids| - 1]})[m.id := m];
    }
  }

  lemma UpdateWindowed(cfg: Config, w: Window, m: CachedMessage)
    requires Windowed(cfg, w) && (m.id in w.messages ==> w.messages[m.id].channel == m.channel)
    ensures Windowed(cfg, UpdateMessage(cfg, w, m))
  {
    if cfg.message && m.id !in w.messages {
      UpdateIsCreate(cfg, w, m);
      CreateWindowed(cfg, w, m);
    } else if cfg.message {
      hide Holds, Push;
      var w' := UpdateMessage(cfg, w, m);
      forall c ensures Holds(cfg, WindowOf(w', c), OwnIds(w'.messages, c)) {
        assert Holds(cfg, WindowOf(w, c), OwnIds(w.messages, c));
        assert OwnIds(w'.messages, c) == OwnIds(w.messages, c);
      }
    }
  }

  lemma DeleteWindowed(cfg: Config, w: Window, c: ChannelId, id: MessageId)
    requires Windowed(cfg, w) && (id in w.messages ==> w.messages[id].channel == c)
    ensures Windowed(cfg, Delete(cfg, w, c, id))
  {
    if cfg.message {
      var w' := Delete(cfg, w, c, id);
      assert Holds(cfg, WindowOf(w, c), OwnIds(w.messages, c));
      WithoutElements(WindowOf(w, c), id);
      if id !in WindowOf(w, c) {
        assert id !in OwnIds(w.messages, c) && w'.messages == w.messages;
      } else {
        assert Holds(cfg, WindowOf(w', c), OwnIds(w.messages, c) - {id});
        hide Holds;
        forall d ensures Holds(cfg, WindowOf(w', d), OwnIds(w'.messages, d)) {
          assert Holds(cfg, WindowOf(w, d), OwnIds(w.messages, d));
          assert OwnIds(w'.messages, d) == if d == c then OwnIds(w.messages, d) - {id} else OwnIds(w.messages, d);
        }
      }
    }
  }

  lemma BulkWindowed(cfg: Config, w: Window, c: ChannelId, ids: seq<MessageId>)
    requires Windowed(cfg, w) && forall id :: id in Elements(ids) && id in w.messages ==> w.messages[id].channel == c
    ensures Windowed(cfg, DeleteBulk(cfg, w, c, ids))
  {
    if cfg.message {
      var w' := DeleteBulk(cfg, w, c, ids);
      assert Holds(cfg, WindowOf(w, c), OwnIds(w.messages, c));
      WithoutAllElements(WindowOf(w, c), ids);
      assert Holds(cfg, WindowOf(w', c), OwnIds(w.messages, c) - Elements(ids));
      hide Holds;
      forall d ensures Holds(cfg, WindowOf(w', d), OwnIds(w'.messages, d)) {
        assert Holds(cfg, WindowOf(w, d), OwnIds(w.messages, d));
        assert OwnIds(w'.messages, d) == if d == c then OwnIds(w.messages, d) - Elements(ids) else OwnIds(w.messages, d);
      }
    }
  }

  lemma ReactWindowed(cfg: Config, w: Window, id: MessageId, reactions: seq<Reaction>)
    requires Windowed(cfg, w)
    ensures Windowed(cfg, React(cfg, w, id, reactions))
  {
    if id in w.messages {
      hide Holds;
      var w' := React(cfg, w, id, reactions);
      forall c ensures Holds(cfg, WindowOf(w', c), OwnIds(w'.messages, c)) {
        assert Holds(cfg, WindowOf(w, c), OwnIds(w.messages, c));
        assert OwnIds(w'.messages, c) == OwnIds(w.messages, c);
      }
    }
  }

  /** What the invariant says of one channel and one id. */
  lemma WindowedMeans(cfg: Config, w: Window, c: ChannelId, id: MessageId)
    requires Windowed(cfg, w)
    ensures Distinct(WindowOf(w, c)) && |WindowOf(w, c)| <= Limit(cfg)
    ensures id in WindowOf(w, c) <==> id in w.messages && w.messages[id].channel == c
  {
  }

  /** Creating a message keeps the invariant exactly if its id is fresh. */
  lemma CreateWindowedIff(cfg: Config, w: Window, m: CachedMessage)
    requires Windowed(cfg, w) && cfg.message
    ensures Windowed(cfg, Create(cfg, w, m)) <==> Fresh(cfg, w, m)
  {
    if Fresh(cfg, w, m) {
      CreateWindowed(cfg, w, m);
    } else {
      var w', d := Create(cfg, w, m), w.messages[m.id].channel;
      PushShape(cfg, w, m.channel, m.id);
      WindowedMeans(cfg, w, d, m.id);
      var ids := WindowOf(w, d);
      var i :| 0 <= i < |ids| && ids[i] == m.id;
      if d == m.channel {
        assert WindowOf(w', d)[0] == m.id && WindowOf(w', d)[i + 1] == m.id;
        assert !Holds(cfg, WindowOf(w', d), OwnIds(w'.messages, d));
      } else {
        assert WindowOf(w', d) == ids && m.id in Elements(ids) && m.id !in OwnIds(w'.messages, d);
        assert !Holds(cfg, WindowOf(w', d), OwnIds(w'.messages, d));
      }
    }
  }

  /** For instance, creating the same message twice leaves it twice in its window. */
  lemma ReusedIdBreaksWindow(cfg: Config, m: CachedMessage)
    requires cfg.message && cfg.messageCacheSize > 1
    ensures var w := Create(cfg, Create(cfg, Window(map[], map[]), m), m);
            WindowOf(w, m.channel) == [m.id, m.id] && !Windowed(cfg, w)
  {
    var w := Create(cfg, Create(cfg, Window(map[], map[]), m), m);
    assert WindowOf(w, m.channel) == [m.id, m.id];
    assert !Distinct([m.id, m.id]) by {
      assert [m.id, m.id][0] == [m.id, m.id][1];
    }
    assert !Holds(cfg, WindowOf(w, m.channel), OwnIds(w.messages, m.channel));
  }
}
