/** What emojis, stickers, whole guilds and messages leave in the tables, told from their payloads, after every run. */
module CacheArrivals {
  import opened Base
  import opened CacheTables
  import opened CachePeople
  import opened CacheOwned
  import opened CacheMessages
  import opened CacheGuilds
  import opened CacheEvents
  import opened CacheRuns
  import opened CacheWindows
  import opened CacheEffects

  // ------------------------------------------------------------------- creators

  /** Only the user and its listing may have changed. */
  ghost predicate CreatorStored(cfg: Config, p: People, q: People, user: User, g: GuildId) {
    UserStored(cfg, p, q, user, Some(g)) && q.members == p.members && q.guildMembers == p.guildMembers
  }

  lemma CreatorIsStored(cfg: Config, p: People, user: User, g: GuildId)
    requires Chained(cfg, p)
    ensures CreatorStored(cfg, p, CacheUser(cfg, p, user, Some(g)), user, g)
  {
  }

  /** The creators of the emojis are cached one after the other, whether or not the emojis change. */
  ghost predicate EmojiCreatorsStored(cfg: Config, p: People, q: People, g: GuildId, emojis: seq<Emoji>) {
    exists stages: seq<People> ::
      && |stages| == |emojis| + 1 && stages[0] == p && stages[|emojis|] == q
      && forall i :: 0 <= i < |emojis| ==>
           if emojis[i].user.Some? then CreatorStored(cfg, stages[i], stages[i + 1], emojis[i].user.value, g)
           else stages[i + 1] == stages[i]
  }

  lemma {:induction false} EmojiCreatorsAreStored(cfg: Config, p: People, g: GuildId, emojis: seq<Emoji>)
    requires Chained(cfg, p)
    ensures EmojiCreatorsStored(cfg, p, EmojiUsers(cfg, p, g, emojis), g, emojis)
  {
    hide Chained, CacheUser, CreatorStored;
    if emojis == [] {
      var stages := [p];
      assert stages[0] == p;
    } else {
      var before, last := emojis[..|emojis| - 1], emojis[|emojis| - 1];
      var mid, q := EmojiUsers(cfg, p, g, before), EmojiUsers(cfg, p, g, emojis);
      EmojiCreatorsAreStored(cfg, p, g, before);
      EmojiUsersChained(cfg, p, g, before);
      if last.user.Some? { CreatorIsStored(cfg, mid, last.user.value, g); }
      assert if last.user.Some? then CreatorStored(cfg, mid, q, last.user.value, g) else q == mid;
      hide EmojiUsers;
      var stages: seq<People> :|
        && |stages| == |before| + 1 && stages[0] == p && stages[|before|] == mid
        && forall i :: 0 <= i < |before| ==>
             if before[i].user.Some? then CreatorStored(cfg, stages[i], stages[i + 1], before[i].user.value, g)
             else stages[i + 1] == stages[i];
      var more := stages + [q];
      assert more[0] == p && more[|emojis|] == q;
      forall i | 0 <= i < |emojis|
        ensures if emojis[i].user.Some? then CreatorStored(cfg, more[i], more[i + 1], emojis[i].user.value, g) else more[i + 1] == more[i]
      {
        if i < |before| { assert emojis[i] == before[i] && more[i] == stages[i] && more[i + 1] == stages[i + 1]; }
      }
    }
  }

  // ------------------------------------------------------------ emojis and stickers

  predicate EmojiSays(c: CachedEmoji, e: Emoji) {
    && c.id == e.id && c.animated == e.animated && c.available == e.available && c.managed == e.managed && c.name == e.name
    && c.requireColons == e.requireColons && c.roles == e.roles
    && (c.user.Some? <==> e.user.Some?) && (e.user.Some? ==> c.user.value == e.user.value.id)
  }

  predicate StickerSays(c: CachedSticker, s: Sticker) {
    && c.id == s.id && c.available == s.available && c.formatType == s.formatType && c.guild == s.guild && c.kind == s.kind
    && c.name == s.name && c.pack == s.pack && c.sortValue == s.sortValue && c.tags == s.tags
    && c.description == (if s.description.Some? then s.description.value else "")
    && (c.user.Some? <==> s.user.Some?) && (s.user.Some? ==> c.user.value == s.user.value.id)
  }

  /** The last of the entries for this id. */
  ghost predicate LastEntry<V>(entries: seq<(ResourceId, V)>, i: int, id: ResourceId) {
    0 <= i < |entries| && entries[i].0 == id && forall j :: i < j < |entries| ==> entries[j].0 != id
  }

  ghost predicate HasEntry<V>(entries: seq<(ResourceId, V)>, id: ResourceId) {
    exists i :: 0 <= i < |entries| && entries[i].0 == id
  }

  lemma {:induction false} LastEntryIs<V>(entries: seq<(ResourceId, V)>, i: int, id: ResourceId)
    requires LastEntry(entries, i, id)
    ensures LastOf(entries, id) == Some(entries[i].1)
  {
    if i < |entries| - 1 {
      LastEntryIs(entries[..|entries| - 1], i, id);
    }
  }

  lemma EntryIff<V>(entries: seq<(ResourceId, V)>, id: ResourceId)
    ensures HasEntry(entries, id) <==> id in IdsOf(entries)
  {
  }

  /**
   * Every id of the payload is cached with the value of its last entry, for the guild or as it already was; what was listed
   * with the guild and is not in the payload is gone; everything else stays.
   */
  ghost predicate Synced<V>(wanted: bool, o: Owned<V>, o': Owned<V>, g: GuildId, entries: seq<(ResourceId, V)>) {
    if !wanted then o' == o
    else
      && (forall i, id :: LastEntry(entries, i, id) ==>
            id in o'.table && o'.table[id].value == entries[i].1
            && (o'.table[id].guild == g || (id in o.table && o'.table[id] == o.table[id])))
      && (forall id :: !HasEntry(entries, id) ==>
            if (g, id) in o.index then id !in o'.table && (g, id) !in o'.index
            else (id in o'.table <==> id in o.table) && (id in o.table ==> o'.table[id] == o.table[id]) && (g, id) !in o'.index)
      && forall k: (GuildId, ResourceId) :: k.0 != g ==> (k in o'.index <==> k in o.index)
  }

  lemma IsSynced<V>(wanted: bool, o: Owned<V>, g: GuildId, entries: seq<(ResourceId, V)>)
    requires Listed(wanted, o)
    ensures Synced(wanted, o, Sync(wanted, o, g, entries), g, entries)
  {
    if wanted {
      var o' := Sync(true, o, g, entries);
      hide Sync, StoreAll, LastOf, IdsOf, Listed;
      forall i, id | LastEntry(entries, i, id)
        ensures id in o'.table && o'.table[id].value == entries[i].1
                && (o'.table[id].guild == g || (id in o.table && o'.table[id] == o.table[id]))
      {
        SyncedAt(o, g, entries, i, id);
      }
      forall id: ResourceId ensures HasEntry(entries, id) <==> id in IdsOf(entries) {
        EntryIff(entries, id);
      }
      forall id: ResourceId | !HasEntry(entries, id)
        ensures if (g, id) in o.index then id !in o'.table && (g, id) !in o'.index
                else (id in o'.table <==> id in o.table) && (id in o.table ==> o'.table[id] == o.table[id]) && (g, id) !in o'.index
      {
        SyncValues(o, g, entries, id);
      }
      forall k: (GuildId, ResourceId) | k.0 != g ensures k in o'.index <==> k in o.index {
        SyncValues(o, g, entries, k.1);
        assert k == (k.0, k.1);
      }
    } else {
      UnwantedSync(o, g, entries);
    }
  }

  lemma SyncedAt<V>(o: Owned<V>, g: GuildId, entries: seq<(ResourceId, V)>, i: int, id: ResourceId)
    requires LastEntry(entries, i, id)
    ensures var o' := Sync(true, o, g, entries);
            id in o'.table && o'.table[id].value == entries[i].1
            && (o'.table[id].guild == g || (id in o.table && o'.table[id] == o.table[id]))
  {
    LastEntryIs(entries, i, id);
    assert id in IdsOf(entries);
    StoreAllAt(DropMissing(true, o, g, IdsOf(entries)), g, entries, id);
  }

  lemma {:induction false} UnwantedStore<V>(o: Owned<V>, g: GuildId, entries: seq<(ResourceId, V)>)
    ensures StoreAll(false, o, g, entries) == o
  {
    if entries != [] { UnwantedStore(o, g, entries[..|entries| - 1]); }
  }

  lemma UnwantedSync<V>(o: Owned<V>, g: GuildId, entries: seq<(ResourceId, V)>)
    requires Listed(false, o)
    ensures Sync(false, o, g, entries) == o
  {
    UnwantedStore(DropMissing(false, o, g, IdsOf(entries)), g, entries);
  }

  /** The entries of a payload say what it says. */
  lemma EntriesSay(emojis: seq<Emoji>, stickers: seq<Sticker>)
    ensures |EmojiEntries(emojis)| == |emojis| && |StickerEntries(stickers)| == |stickers|
    ensures forall i :: 0 <= i < |emojis| ==> EmojiEntries(emojis)[i].0 == emojis[i].id && EmojiSays(EmojiEntries(emojis)[i].1, emojis[i])
    ensures forall i :: 0 <= i < |stickers| ==>
              StickerEntries(stickers)[i].0 == stickers[i].id && StickerSays(StickerEntries(stickers)[i].1, stickers[i])
  {
  }

  /** The emojis of the guild are synchronised, and their creators cached. */
  lemma EmojisUpdated(cfg: Config, events: seq<Event>, g: GuildId, emojis: seq<Emoji>)
    ensures var t, t' := After(cfg, events), After(cfg, events + [GuildEmojisUpdate(g, emojis)]);
            && t' == t.(people := t'.people, emojis := t'.emojis)
            && Synced(cfg.emoji, t.emojis, t'.emojis, g, EmojiEntries(emojis))
            && EmojiCreatorsStored(cfg, t.people, t'.people, g, emojis)
  {
    hide After, TableByTable, Chained, Available, Listed, ChannelsKeyed, PresencesAgree, VoiceAgrees, EmojiUsers, Sync, Synced,
         EmojiCreatorsStored, EmojiEntries;
    var t := After(cfg, events);
    InvAlways(cfg, events);
    OneMore(cfg, events, GuildEmojisUpdate(g, emojis));
    ByEmojis(cfg, t, g, emojis);
    IsSynced(cfg.emoji, t.emojis, g, EmojiEntries(emojis));
    EmojiCreatorsAreStored(cfg, t.people, g, emojis);
  }

  /** What is cached of a sticker when its turn comes: its last earlier payload, or else what the table had. */
  ghost predicate HeldBefore(o: Owned<CachedSticker>, stickers: seq<Sticker>, i: nat)
    requires i < |stickers|
  {
    if exists j :: IsLatest(stickers, i, j) then exists j :: IsLatest(stickers, i, j) && FromSticker(stickers[j]) == FromSticker(stickers[i])
    else stickers[i].id in o.table && o.table[stickers[i].id].value == FromSticker(stickers[i])
  }

  /** j is the latest payload before i for the same sticker. */
  predicate IsLatest(stickers: seq<Sticker>, i: nat, j: int) {
    && 0 <= j < i < |stickers| && stickers[j].id == stickers[i].id
    && forall k :: j < k < i ==> stickers[k].id != stickers[i].id
  }

  /** The creators of the stickers are cached one after the other, but for stickers that are cached as they are. */
  ghost predicate StickerCreatorsStored(cfg: Config, p: People, q: People, o: Owned<CachedSticker>, g: GuildId, stickers: seq<Sticker>) {
    exists stages: seq<People> ::
      && |stages| == |stickers| + 1 && stages[0] == p && stages[|stickers|] == q
      && forall i :: 0 <= i < |stickers| ==> StickerStage(cfg, stages[i], stages[i + 1], o, g, stickers, i)
  }

  ghost predicate StickerStage(cfg: Config, p: People, q: People, o: Owned<CachedSticker>, g: GuildId, stickers: seq<Sticker>, i: nat)
    requires i < |stickers|
  {
    if stickers[i].user.Some? && !(cfg.sticker && HeldBefore(o, stickers, i)) then CreatorStored(cfg, p, q, stickers[i].user.value, g)
    else q == p
  }

  lemma {:induction false} LatestOf(stickers: seq<Sticker>, n: nat, i: nat)
    requires n <= i < |stickers| && forall k :: n <= k < i ==> stickers[k].id != stickers[i].id
    ensures var last := LastOf(StickerEntries(stickers[..n]), stickers[i].id);
            && (last.None? <==> !exists j :: IsLatest(stickers, i, j))
            && (last.Some? ==> exists j :: IsLatest(stickers, i, j) && FromSticker(stickers[j]) == last.value)
  {
    var entries := StickerEntries(stickers[..n]);
    if n > 0 {
      assert entries[..n - 1] == StickerEntries(stickers[..n - 1]);
      assert entries[n - 1] == (stickers[n - 1].id, FromSticker(stickers[n - 1]));
      if stickers[n - 1].id == stickers[i].id {
        assert IsLatest(stickers, i, n - 1);
      } else {
        LatestOf(stickers, n - 1, i);
      }
    }
  }

  lemma OnlyLatest(stickers: seq<Sticker>, i: nat, j: int, k: int)
    requires IsLatest(stickers, i, j) && IsLatest(stickers, i, k)
    ensures j == k
  {
  }

  lemma HeldIff(o: Owned<CachedSticker>, g: GuildId, stickers: seq<Sticker>, i: nat)
    requires i < |stickers|
    ensures var d := DropMissing(true, o, g, IdsOf(StickerEntries(stickers)));
            Unchanged(StoreAll(true, d, g, StickerEntries(stickers[..i])), stickers[i]) <==> HeldBefore(o, stickers, i)
  {
    var entries, id := StickerEntries(stickers[..i]), stickers[i].id;
    var d := DropMissing(true, o, g, IdsOf(StickerEntries(stickers)));
    assert StickerEntries(stickers)[i].0 == id && id in IdsOf(StickerEntries(stickers));
    assert id in d.table <==> id in o.table;
    StoreAllAt(d, g, entries, id);
    LatestOf(stickers, i, i);
    LastOfIff(entries, id);
    hide StoreAll, DropMissing, StickerEntries, IdsOf, FromSticker;
    if j :| IsLatest(stickers, i, j) {
      forall k | IsLatest(stickers, i, k) ensures k == j { OnlyLatest(stickers, i, j, k); }
    } else {
      NoneWritten(d, entries, id);
    }
  }

  lemma NoneWritten<V>(o: Owned<V>, entries: seq<(ResourceId, V)>, id: ResourceId)
    requires LastOf(entries, id).None?
    ensures !Written(o, entries, id)
  {
    LastOfIff(entries, id);
    forall j | 0 <= j < |entries| ensures entries[j].0 != id {
      assert entries[j].0 in IdsOf(entries);
    }
  }

  /** Unwanted stickers are never cached. */
  lemma NeverHeld(o: Owned<CachedSticker>, g: GuildId, entries: seq<(ResourceId, CachedSticker)>, s: Sticker, incoming: set<ResourceId>)
    requires Listed(false, o)
    ensures !Unchanged(StoreAll(false, DropMissing(false, o, g, incoming), g, entries), s)
  {
    UnwantedStore(DropMissing(false, o, g, incoming), g, entries);
  }

  lemma {:induction false} StickerCreatorsUpTo(cfg: Config, p: People, o: Owned<CachedSticker>, g: GuildId, stickers: seq<Sticker>, n: nat)
    returns (stages: seq<People>)
    requires Chained(cfg, p) && Listed(cfg.sticker, o) && n <= |stickers|
    ensures |stages| == n + 1 && stages[0] == p
    ensures stages[n] == StickerUsers(cfg, p, DropMissing(cfg.sticker, o, g, IdsOf(StickerEntries(stickers))), g, stickers[..n])
    ensures forall i :: 0 <= i < n ==> StickerStage(cfg, stages[i], stages[i + 1], o, g, stickers, i)
  {
    var d := DropMissing(cfg.sticker, o, g, IdsOf(StickerEntries(stickers)));
    if n == 0 {
      stages := [p];
    } else {
      var before := StickerCreatorsUpTo(cfg, p, o, g, stickers, n - 1);
      var mid, s := before[n - 1], stickers[n - 1];
      assert stickers[..n][..n - 1] == stickers[..n - 1];
      var q := StickerUsers(cfg, p, d, g, stickers[..n]);
      assert q == if Unchanged(StoreAll(cfg.sticker, d, g, StickerEntries(stickers[..n - 1])), s) then mid
                  else CacheSomeUser(cfg, mid, s.user, g);
      StickerUsersChained(cfg, p, d, g, stickers[..n - 1]);
      if cfg.sticker {
        HeldIff(o, g, stickers, n - 1);
      } else {
        NeverHeld(o, g, StickerEntries(stickers[..n - 1]), s, IdsOf(StickerEntries(stickers)));
      }
      if s.user.Some? { CreatorIsStored(cfg, mid, s.user.value, g); }
      hide StickerUsers, StoreAll, DropMissing, Unchanged, HeldBefore, CreatorStored, Chained, Listed, StickerEntries, IdsOf, CacheUser;
      assert StickerStage(cfg, mid, q, o, g, stickers, n - 1);
      hide StickerStage;
      stages := before + [q];
      forall i | 0 <= i < n ensures StickerStage(cfg, stages[i], stages[i + 1], o, g, stickers, i) {
        assert i < n - 1 ==> stages[i] == before[i] && stages[i + 1] == before[i + 1];
      }
    }
  }

  lemma StickerCreatorsAreStored(cfg: Config, p: People, o: Owned<CachedSticker>, g: GuildId, stickers: seq<Sticker>)
    requires Chained(cfg, p) && Listed(cfg.sticker, o)
    ensures StickerCreatorsStored(cfg, p, SyncStickerUsers(cfg, p, o, g, stickers), o, g, stickers)
  {
    hide StickerStage, StickerUsers, DropMissing, StickerEntries, IdsOf;
    var stages := StickerCreatorsUpTo(cfg, p, o, g, stickers, |stickers|);
    assert stickers[..|stickers|] == stickers;
  }

  /** The stickers of the guild are synchronised, and the creators of those that change are cached. */
  lemma StickersUpdated(cfg: Config, events: seq<Event>, g: GuildId, stickers: seq<Sticker>)
    ensures var t, t' := After(cfg, events), After(cfg, events + [GuildStickersUpdate(g, stickers)]);
            && t' == t.(people := t'.people, stickers := t'.stickers)
            && Synced(cfg.sticker, t.stickers, t'.stickers, g, StickerEntries(stickers))
            && StickerCreatorsStored(cfg, t.people, t'.people, t.stickers, g, stickers)
  {
    hide After, TableByTable, Chained, Available, Listed, ChannelsKeyed, PresencesAgree, VoiceAgrees, SyncStickerUsers, Sync, Synced,
         StickerCreatorsStored, StickerEntries;
    var t := After(cfg, events);
    InvAlways(cfg, events);
    OneMore(cfg, events, GuildStickersUpdate(g, stickers));
    ByStickers(cfg, t, g, stickers);
    IsSynced(cfg.sticker, t.stickers, g, StickerEntries(stickers));
    StickerCreatorsAreStored(cfg, t.people, t.stickers, g, stickers);
  }

  // ------------------------------------------------------------- an arriving guild

  /** The guild is cached as the payload has it, and no longer unavailable; nothing else about guilds changes. */
  ghost predicate GuildStored(cfg: Config, t: Guilds, t': Guilds, guild: CachedGuild) {
    && (guild.id in t'.guilds <==> cfg.guild) && (cfg.guild ==> t'.guilds[guild.id] == guild)
    && guild.id !in t'.unavailable && SameListedBut(t.unavailable, t'.unavailable, guild.id) && SameBut(t.guilds, t'.guilds, guild.id)
  }

  lemma GuildIsStored(cfg: Config, t: Guilds, guild: CachedGuild)
    requires Available(cfg, t)
    ensures GuildStored(cfg, t, GuildArrived(cfg, t, guild), guild)
  {
  }

  /** The guild's index is cleared, and its channels, then its threads, are stored under the guild's id. */
  ghost predicate GuildChannelsStored(cfg: Config, t: Channels, t': Channels, g: GuildId, channels: seq<Channel>, threads: seq<Channel>) {
    exists cleared: Channels, mid: Channels, own: seq<Channel>, ownThreads: seq<Channel> ::
      && cleared.channels == t.channels && (forall k: (GuildId, ChannelId) :: k in cleared.index <==> k in t.index && k.0 != g)
      && Adopted(channels, own, g) && Adopted(threads, ownThreads, g)
      && ChannelsStored(cfg, cleared, mid, own) && ChannelsStored(cfg, mid, t', ownThreads)
  }

  ghost predicate Adopted(cs: seq<Channel>, own: seq<Channel>, g: GuildId) {
    |own| == |cs| && forall i :: 0 <= i < |cs| ==> own[i] == Channel(cs[i].id, Some(g), cs[i].lastPin, cs[i].settings)
  }

  lemma GuildChannelsAreStored(cfg: Config, t: Channels, g: GuildId, channels: seq<Channel>, threads: seq<Channel>)
    requires ChannelsKeyed(cfg, t)
    ensures GuildChannelsStored(cfg, t, GuildChannelsArrived(cfg, t, g, channels, threads), g, channels, threads)
  {
    var cleared := t.(index := Clear(cfg.channel, t.index, g));
    var own, ownThreads := Adopt(g, channels), Adopt(g, threads);
    assert Adopted(channels, own, g) && Adopted(threads, ownThreads, g);
    assert forall k: (GuildId, ChannelId) :: k in cleared.index <==> k in t.index && k.0 != g;
    hide ChannelsStored, Adopted, Adopt, CacheChannels;
    assert ChannelsKeyed(cfg, cleared);
    CacheChannelsKeyed(cfg, cleared, own);
    ChannelsAreStored(cfg, cleared, own);
    ChannelsAreStored(cfg, CacheChannels(cfg, cleared, own), ownThreads);
  }

  ghost predicate PresencesStored(cfg: Config, t: Presences, t': Presences, g: GuildId, ps: seq<Presence>) {
    exists stages: seq<Presences> ::
      && |stages| == |ps| + 1 && stages[0] == t && stages[|ps|] == t'
      && forall i :: 0 <= i < |ps| ==> PresenceStored(cfg, stages[i], stages[i + 1], g, ps[i])
  }

  lemma {:induction false} PresencesUpTo(cfg: Config, t: Presences, g: GuildId, ps: seq<Presence>) returns (stages: seq<Presences>)
    requires PresencesAgree(cfg, t)
    ensures |stages| == |ps| + 1 && stages[0] == t && stages[|ps|] == CachePresences(cfg, t, g, ps)
    ensures forall i :: 0 <= i < |ps| ==> PresenceStored(cfg, stages[i], stages[i + 1], g, ps[i])
  {
    hide PresencesAgree, CachePresence, PresenceStored;
    stages := [t];
    if ps != [] {
      var before := ps[..|ps| - 1];
      stages := PresencesUpTo(cfg, t, g, before);
      CachePresencesAgree(cfg, t, g, before);
      PresenceIsStored(cfg, CachePresences(cfg, t, g, before), g, ps[|ps| - 1]);
      stages := stages + [CachePresences(cfg, t, g, ps)];
    }
  }

  ghost predicate VoicesStored(cfg: Config, t: Voice, t': Voice, vs: seq<VoiceState>) {
    exists stages: seq<Voice> ::
      && |stages| == |vs| + 1 && stages[0] == t && stages[|vs|] == t'
      && forall i :: 0 <= i < |vs| ==> VoiceStored(cfg, stages[i], stages[i + 1], vs[i])
  }

  lemma {:induction false} VoicesUpTo(cfg: Config, t: Voice, vs: seq<VoiceState>) returns (stages: seq<Voice>)
    requires VoiceAgrees(cfg, t)
    ensures |stages| == |vs| + 1 && stages[0] == t && stages[|vs|] == CacheVoiceStates(cfg, t, vs)
    ensures forall i :: 0 <= i < |vs| ==> VoiceStored(cfg, stages[i], stages[i + 1], vs[i])
  {
    hide VoiceAgrees, CacheVoiceState, VoiceStored;
    stages := [t];
    if vs != [] {
      var before := vs[..|vs| - 1];
      stages := VoicesUpTo(cfg, t, before);
      VoiceStatesAgree(cfg, t, before);
      VoiceIsStored(cfg, CacheVoiceStates(cfg, t, before), vs[|vs| - 1]);
      stages := stages + [CacheVoiceStates(cfg, t, vs)];
    }
  }

  /** Its people: the creators of emojis, then the members, then the creators of stickers that change. */
  ghost predicate GuildPeopleStored(cfg: Config, t: Tables, q: People, g: Guild) {
    exists created: People, joined: People ::
      && EmojiCreatorsStored(cfg, t.people, created, g.guild.id, g.emojis)
      && MembersStored(cfg, created, joined, g.guild.id, g.members)
      && StickerCreatorsStored(cfg, joined, q, t.stickers, g.guild.id, g.stickers)
  }

  lemma GuildPeopleAreStored(cfg: Config, t: Tables, g: Guild)
    requires Inv(cfg, t)
    ensures GuildPeopleStored(cfg, t, PeopleAfter(cfg, t.people, t.stickers, GuildCreate(g)), g)
  {
    hide Chained, Listed, Available, ChannelsKeyed, PresencesAgree, VoiceAgrees, EmojiUsers, CacheMembers, SyncStickerUsers,
         EmojiCreatorsStored, MembersStored, StickerCreatorsStored, InteractionPeople;
    var created := EmojiUsers(cfg, t.people, g.guild.id, g.emojis);
    EmojiCreatorsAreStored(cfg, t.people, g.guild.id, g.emojis);
    EmojiUsersChained(cfg, t.people, g.guild.id, g.emojis);
    var joined := CacheMembers(cfg, created, g.guild.id, g.members);
    MembersAreStored(cfg, created, g.guild.id, g.members);
    CacheMembersChained(cfg, created, g.guild.id, g.members);
    StickerCreatorsAreStored(cfg, joined, t.stickers, g.guild.id, g.stickers);
  }

  /** Everything an arriving guild brings is in its table afterwards. */
  lemma GuildCreated(cfg: Config, events: seq<Event>, g: Guild)
    ensures var t, t' := After(cfg, events), After(cfg, events + [GuildCreate(g)]);
            && GuildStored(cfg, t.guilds, t'.guilds, g.guild)
            && GuildChannelsStored(cfg, t.channels, t'.channels, g.guild.id, g.channels, g.threads)
            && Synced(cfg.emoji, t.emojis, t'.emojis, g.guild.id, EmojiEntries(g.emojis))
            && GuildPeopleStored(cfg, t, t'.people, g)
            && PresencesStored(cfg, t.presences, t'.presences, g.guild.id, g.presences)
            && RolesStored(cfg.role, t.roles, t'.roles, g.guild.id, g.roles)
            && Synced(cfg.sticker, t.stickers, t'.stickers, g.guild.id, StickerEntries(g.stickers))
            && VoicesStored(cfg, t.voice, t'.voice, g.voiceStates)
            && t'.window == t.window && t'.currentUser == t.currentUser
  {
    hide After, Chained, Available, Listed, ChannelsKeyed, PresencesAgree, VoiceAgrees, EmojiEntries, StickerEntries, PeopleAfter, EmojisAfter,
         StickersAfter, RolesAfter, GuildsAfter, ChannelsAfter, PresencesAfter, VoiceAfter, WindowAfter, GuildStored, GuildChannelsStored,
         Synced, GuildPeopleStored, PresencesStored, RolesStored, VoicesStored;
    var t := After(cfg, events);
    InvAlways(cfg, events);
    OneMore(cfg, events, GuildCreate(g));
    GuildPeopleAreStored(cfg, t, g);
    GuildTables(cfg, t, g);
    GuildIsStored(cfg, t.guilds, g.guild);
    GuildChannelsAreStored(cfg, t.channels, g.guild.id, g.channels, g.threads);
    IsSynced(cfg.emoji, t.emojis, g.guild.id, EmojiEntries(g.emojis));
    IsSynced(cfg.sticker, t.stickers, g.guild.id, StickerEntries(g.stickers));
    PresencesAreStored(cfg, t.presences, g.guild.id, g.presences);
    RolesAreStored(cfg.role, t.roles, g.guild.id, g.roles);
    VoicesAreStored(cfg, t.voice, g.voiceStates);
  }

  lemma PresencesAreStored(cfg: Config, t: Presences, g: GuildId, ps: seq<Presence>)
    requires PresencesAgree(cfg, t)
    ensures PresencesStored(cfg, t, CachePresences(cfg, t, g, ps), g, ps)
  {
    hide PresenceStored, PresencesAgree;
    var stages := PresencesUpTo(cfg, t, g, ps);
  }

  lemma VoicesAreStored(cfg: Config, t: Voice, vs: seq<VoiceState>)
    requires VoiceAgrees(cfg, t)
    ensures VoicesStored(cfg, t, CacheVoiceStates(cfg, t, vs), vs)
  {
    hide VoiceStored, VoiceAgrees;
    var stages := VoicesUpTo(cfg, t, vs);
  }

  lemma GuildTables(cfg: Config, t: Tables, g: Guild)
    ensures var e := GuildCreate(g);
            && EmojisAfter(cfg, t.emojis, e) == Sync(cfg.emoji, t.emojis, g.guild.id, EmojiEntries(g.emojis))
            && StickersAfter(cfg, t.stickers, e) == Sync(cfg.sticker, t.stickers, g.guild.id, StickerEntries(g.stickers))
            && RolesAfter(cfg, t.roles, e) == StoreRoles(cfg.role, t.roles, g.guild.id, g.roles)
            && GuildsAfter(cfg, t.guilds, e) == GuildArrived(cfg, t.guilds, g.guild)
            && ChannelsAfter(cfg, t.channels, e) == GuildChannelsArrived(cfg, t.channels, g.guild.id, g.channels, g.threads)
            && PresencesAfter(cfg, t.presences, e) == CachePresences(cfg, t.presences, g.guild.id, g.presences)
            && VoiceAfter(cfg, t.voice, e) == CacheVoiceStates(cfg, t.voice, g.voiceStates)
            && WindowAfter(cfg, t.window, t.currentUser, e) == t.window
  {
    hide Sync, StoreRoles, GuildArrived, GuildChannelsArrived, CachePresences, CacheVoiceStates, EmojiEntries, StickerEntries;
  }

  // ------------------------------------------------------------------- messages

  /** Messages are cached under their id, and none is if they are not wanted. */
  ghost predicate KeyedMessages(cfg: Config, w: Window) {
    (forall id :: id in w.messages ==> w.messages[id].id == id) && (cfg.message || w == Window(map[], map[]))
  }

  lemma {:induction false} KeyedAlways(cfg: Config, events: seq<Event>)
    ensures KeyedMessages(cfg, After(cfg, events).window)
  {
    if events != [] {
      var before, last := events[..|events| - 1], events[|events| - 1];
      KeyedAlways(cfg, before);
      hide KeyedMessages, Update;
      WindowStep(cfg, After(cfg, before), last);
      StepKeyed(cfg, After(cfg, before).window, After(cfg, before).currentUser, last);
    }
  }

  lemma StepKeyed(cfg: Config, w: Window, currentUser: Option<UserId>, e: Event)
    requires KeyedMessages(cfg, w)
    ensures KeyedMessages(cfg, WindowAfter(cfg, w, currentUser, e))
  {
    if cfg.message {
      hide AddReaction, RemoveReaction, RemoveEmoji, Without, WithoutAll;
    } else {
      Unwanted(cfg, w, currentUser, e);
    }
  }

  /** A full window: one that holds as many ids as it may, and any at all. */
  predicate Full(cfg: Config, ids: seq<MessageId>) {
    ids != [] && |ids| >= cfg.messageCacheSize
  }

  /**
   * The message is cached as the payload has it and comes first in its channel's window, from which the oldest id falls out,
   * together with its message, if the window was full; nothing else changes.
   */
  ghost predicate MessageStored(cfg: Config, w: Window, w': Window, m: CachedMessage) {
    if !cfg.message then w' == w
    else
      var ids := WindowOf(w, m.channel);
      && m.channel in w'.channels && w'.channels[m.channel] == [m.id] + (if Full(cfg, ids) then ids[..|ids| - 1] else ids)
      && SameBut(w.channels, w'.channels, m.channel)
      && m.id in w'.messages && w'.messages[m.id] == m
      && forall id :: id != m.id ==>
           && (id in w'.messages <==> id in w.messages && !(Full(cfg, ids) && id == ids[|ids| - 1]))
           && (id in w'.messages ==> w'.messages[id] == w.messages[id])
  }

  lemma MessageIsStored(cfg: Config, w: Window, m: CachedMessage)
    requires KeyedMessages(cfg, w)
    ensures MessageStored(cfg, w, Create(cfg, w, m), m)
  {
  }

  /** Replaced in place if it was cached, and otherwise stored like a new one, unless its own id is the one that falls out. */
  ghost predicate MessageReplaced(cfg: Config, w: Window, w': Window, m: CachedMessage) {
    if cfg.message && m.id in w.messages then
      w'.channels == w.channels && m.id in w'.messages && w'.messages[m.id] == m && SameBut(w.messages, w'.messages, m.id)
    else
      var ids := WindowOf(w, m.channel);
      if cfg.message && Full(cfg, ids) && ids[|ids| - 1] == m.id then
        w'.messages == w.messages && w'.channels == w.channels[m.channel := [m.id] + ids[..|ids| - 1]]
      else MessageStored(cfg, w, w', m)
  }

  lemma MessageIsReplaced(cfg: Config, w: Window, m: CachedMessage)
    requires KeyedMessages(cfg, w)
    ensures MessageReplaced(cfg, w, UpdateMessage(cfg, w, m), m)
  {
    var ids := WindowOf(w, m.channel);
    if cfg.message && m.id !in w.messages && Full(cfg, ids) && ids[|ids| - 1] == m.id {
      assert w.messages[m.id := m] - {m.id} == w.messages;
    }
  }

  /** A new message is cached, and its author with it. */
  lemma MessageCreated(cfg: Config, events: seq<Event>, m: Message)
    ensures var t, t' := After(cfg, events), After(cfg, events + [MessageCreate(m)]);
            && t' == t.(people := t'.people, window := t'.window)
            && AuthorStored(cfg, t.people, t'.people, m.author, m.guild, m.member)
            && MessageStored(cfg, t.window, t'.window, m.message)
  {
    hide After, TableByTable, Chained, Available, Listed, ChannelsKeyed, PresencesAgree, VoiceAgrees, AuthorStored, MessageStored,
         KeyedMessages, CacheAuthor, Create, UpdateMessage;
    var t := After(cfg, events);
    InvAlways(cfg, events);
    KeyedAlways(cfg, events);
    OneMore(cfg, events, MessageCreate(m));
    ByMessage(cfg, t, m);
    AuthorIsStored(cfg, t.people, m.author, m.guild, m.member);
    MessageIsStored(cfg, t.window, m.message);
  }

  lemma MessageUpdated(cfg: Config, events: seq<Event>, m: Message)
    ensures var t, t' := After(cfg, events), After(cfg, events + [MessageUpdate(m)]);
            && t' == t.(people := t'.people, window := t'.window)
            && AuthorStored(cfg, t.people, t'.people, m.author, m.guild, m.member)
            && MessageReplaced(cfg, t.window, t'.window, m.message)
  {
    hide After, TableByTable, Chained, Available, Listed, ChannelsKeyed, PresencesAgree, VoiceAgrees, AuthorStored, MessageReplaced,
         KeyedMessages, CacheAuthor, Create, UpdateMessage;
    var t := After(cfg, events);
    InvAlways(cfg, events);
    KeyedAlways(cfg, events);
    OneMore(cfg, events, MessageUpdate(m));
    ByMessage(cfg, t, m);
    AuthorIsStored(cfg, t.people, m.author, m.guild, m.member);
    MessageIsReplaced(cfg, t.window, m.message);
  }

  /** The first occurrence of the id is taken out of the window, if there is one. */
  ghost predicate FirstTaken(ids: seq<MessageId>, ids': seq<MessageId>, id: MessageId) {
    if id in ids then exists k :: TakenAt(ids, ids', id, k) else ids' == ids
  }

  predicate TakenAt(ids: seq<MessageId>, ids': seq<MessageId>, id: MessageId, k: int) {
    0 <= k < |ids| && ids[k] == id && id !in ids[..k] && ids' == ids[..k] + ids[k + 1..]
  }

  lemma {:induction false} WithoutTakes(ids: seq<MessageId>, id: MessageId)
    ensures FirstTaken(ids, Without(ids, id), id)
  {
    if ids != [] {
      if ids[0] == id {
        assert TakenAt(ids, ids[1..], id, 0);
      } else {
        WithoutTakes(ids[1..], id);
        TakenLater(ids, Without(ids[1..], id), id);
        hide FirstTaken;
      }
    }
  }

  lemma TakenLater(ids: seq<MessageId>, tail': seq<MessageId>, id: MessageId)
    requires ids != [] && ids[0] != id && FirstTaken(ids[1..], tail', id)
    ensures FirstTaken(ids, [ids[0]] + tail', id)
  {
    var tail := ids[1..];
    assert ids == [ids[0]] + tail;
    if id in tail {
      var k :| TakenAt(tail, tail', id, k);
      assert ids[..k + 1] == [ids[0]] + tail[..k] && ids[k + 2..] == tail[k + 1..];
      assert TakenAt(ids, [ids[0]] + tail', id, k + 1);
    }
  }

  /** The message is forgotten and taken out of the window; nothing else changes. */
  ghost predicate MessageGone(w: Window, w': Window, c: ChannelId, id: MessageId) {
    && id !in w'.messages && SameBut(w.messages, w'.messages, id)
    && FirstTaken(WindowOf(w, c), WindowOf(w', c), id) && SameBut(w.channels, w'.channels, c)
  }

  lemma MessageIsGone(cfg: Config, w: Window, c: ChannelId, id: MessageId)
    requires KeyedMessages(cfg, w)
    ensures MessageGone(w, Delete(cfg, w, c, id), c, id)
  {
    WithoutTakes(WindowOf(w, c), id);
  }

  /** The messages are forgotten, and their first occurrences taken out of the window one after the other. */
  ghost predicate MessagesGone(w: Window, w': Window, c: ChannelId, gone: seq<MessageId>) {
    && (forall id :: id in w'.messages <==> id in w.messages && id !in gone)
    && (forall id :: id in w'.messages ==> w'.messages[id] == w.messages[id])
    && SameBut(w.channels, w'.channels, c)
    && exists stages: seq<seq<MessageId>> ::
         && |stages| == |gone| + 1 && stages[0] == WindowOf(w, c) && stages[|gone|] == WindowOf(w', c)
         && forall i :: 0 <= i < |gone| ==> FirstTaken(stages[i], stages[i + 1], gone[i])
  }

  lemma {:induction false} TakenUpTo(ids: seq<MessageId>, gone: seq<MessageId>) returns (stages: seq<seq<MessageId>>)
    ensures |stages| == |gone| + 1 && stages[0] == ids && stages[|gone|] == WithoutAll(ids, gone)
    ensures forall i :: 0 <= i < |gone| ==> FirstTaken(stages[i], stages[i + 1], gone[i])
  {
    hide FirstTaken, Without;
    stages := [ids];
    if gone != [] {
      var before := gone[..|gone| - 1];
      stages := TakenUpTo(ids, before);
      WithoutTakes(WithoutAll(ids, before), gone[|gone| - 1]);
      stages := stages + [WithoutAll(ids, gone)];
    }
  }

  lemma {:induction false} NothingTaken(gone: seq<MessageId>)
    ensures WithoutAll([], gone) == []
  {
    if gone != [] { NothingTaken(gone[..|gone| - 1]); }
  }

  lemma MessagesAreGone(cfg: Config, w: Window, c: ChannelId, gone: seq<MessageId>)
    requires KeyedMessages(cfg, w)
    ensures MessagesGone(w, DeleteBulk(cfg, w, c, gone), c, gone)
  {
    var stages := TakenUpTo(WindowOf(w, c), gone);
    NothingTaken(gone);
    assert forall id :: id in gone <==> id in Elements(gone);
    hide FirstTaken, WithoutAll, Elements;
  }

  lemma MessageDeleted(cfg: Config, events: seq<Event>, c: ChannelId, id: MessageId, gone: seq<MessageId>)
    ensures var t, t' := After(cfg, events), After(cfg, events + [MessageDelete(c, id)]);
            t' == t.(window := t'.window) && MessageGone(t.window, t'.window, c, id)
    ensures var t, t' := After(cfg, events), After(cfg, events + [MessageDeleteBulk(c, gone)]);
            t' == t.(window := t'.window) && MessagesGone(t.window, t'.window, c, gone)
  {
    hide After, TableByTable, MessageGone, MessagesGone, KeyedMessages, Delete, DeleteBulk;
    var t := After(cfg, events);
    KeyedAlways(cfg, events);
    OneMore(cfg, events, MessageDelete(c, id));
    OneMore(cfg, events, MessageDeleteBulk(c, gone));
    ByDeletion(cfg, t, c, id, gone);
    MessageIsGone(cfg, t.window, c, id);
    MessagesAreGone(cfg, t.window, c, gone);
  }

  // ------------------------------------------------------------------- reactions

  /** The same custom emoji by id, or the same character. */
  predicate Alike(a: ReactionEmoji, b: ReactionEmoji) {
    if a.Custom? && b.Custom? then a.id == b.id else a.Unicode? && b.Unicode? && a.glyph == b.glyph
  }

  /** The first reaction with the emoji. */
  predicate FirstOf(rs: seq<Reaction>, e: ReactionEmoji, k: int) {
    0 <= k < |rs| && Alike(rs[k].emoji, e) && forall i :: 0 <= i < k ==> !Alike(rs[i].emoji, e)
  }

  predicate NoneOf(rs: seq<Reaction>, e: ReactionEmoji) {
    forall i :: 0 <= i < |rs| ==> !Alike(rs[i].emoji, e)
  }

  /** One more of this emoji, on its first reaction or a new one; the mark of the current user is only ever set. */
  ghost predicate CountedMore(rs: seq<Reaction>, rs': seq<Reaction>, e: ReactionEmoji, mine: bool) {
    && (NoneOf(rs, e) ==> rs' == rs + [Reaction(e, 1, mine)])
    && forall k :: FirstOf(rs, e, k) ==> rs' == rs[k := Reaction(rs[k].emoji, rs[k].count + 1, rs[k].me || mine)]
  }

  /** One less of this emoji; its last one takes every reaction of the emoji away. The current user's mark is only ever cleared. */
  ghost predicate CountedLess(rs: seq<Reaction>, rs': seq<Reaction>, e: ReactionEmoji, mine: bool) {
    && (NoneOf(rs, e) ==> rs' == rs)
    && forall k :: FirstOf(rs, e, k) ==>
         if rs[k].count > 1 then rs' == rs[k := Reaction(rs[k].emoji, rs[k].count - 1, rs[k].me && !mine)]
         else NoneOf(rs', e) && Remaining(rs, rs', e)
  }

  /** The reactions of all other emojis are left, in order. */
  ghost predicate Remaining(rs: seq<Reaction>, rs': seq<Reaction>, e: ReactionEmoji) {
    exists at: seq<nat> ::
      && |at| == |rs'| && (forall i, j :: 0 <= i < j < |at| ==> at[i] < at[j])
      && (forall i :: 0 <= i < |at| ==> at[i] < |rs| && rs'[i] == rs[at[i]])
      && forall k: nat :: k < |rs| ==> (k in at <==> !Alike(rs[k].emoji, e))
  }

  /** The first reaction of the emoji is taken off. */
  ghost predicate TakenOff(rs: seq<Reaction>, rs': seq<Reaction>, e: ReactionEmoji) {
    && (NoneOf(rs, e) ==> rs' == rs)
    && forall k :: FirstOf(rs, e, k) ==> rs' == rs[..k] + rs[k + 1..]
  }

  lemma FoundFirst(rs: seq<Reaction>, e: ReactionEmoji)
    ensures NoneOf(rs, e) <==> Find(rs, e) == |rs|
    ensures forall k :: FirstOf(rs, e, k) <==> k == Find(rs, e) && k < |rs|
  {
    assert forall a :: SameEmoji(a, e) <==> Alike(a, e);
    hide Find;
  }

  lemma {:induction false} RetainRemains(rs: seq<Reaction>, e: ReactionEmoji) returns (at: seq<nat>)
    ensures NoneOf(Retain(rs, e), e)
    ensures |at| == |Retain(rs, e)| && forall i, j :: 0 <= i < j < |at| ==> at[i] < at[j]
    ensures forall i :: 0 <= i < |at| ==> at[i] < |rs| && Retain(rs, e)[i] == rs[at[i]]
    ensures forall k: nat :: k < |rs| ==> (k in at <==> !Alike(rs[k].emoji, e))
  {
    at := [];
    if rs != [] {
      var init, last := rs[..|rs| - 1], rs[|rs| - 1];
      at := RetainRemains(init, e);
      assert rs == init + [last];
      RetainSnoc(init, last, e);
      assert SameEmoji(last.emoji, e) <==> Alike(last.emoji, e);
      hide Retain, SameEmoji, Alike;
      if !SameEmoji(last.emoji, e) { at := at + [|init|]; }
    }
  }

  lemma SameOthers(rs: seq<Reaction>, k: nat, r: Reaction, rs': seq<Reaction>, e: ReactionEmoji, at: seq<nat>)
    requires k < |rs| && r.emoji == rs[k].emoji && Alike(r.emoji, e) && |at| == |rs'|
    requires forall i, j :: 0 <= i < j < |at| ==> at[i] < at[j]
    requires forall i :: 0 <= i < |at| ==> at[i] < |rs| && rs'[i] == rs[k := r][at[i]]
    requires forall j: nat :: j < |rs| ==> (j in at <==> !Alike(rs[k := r][j].emoji, e))
    ensures Remaining(rs, rs', e)
  {
    forall i | 0 <= i < |at| ensures rs'[i] == rs[at[i]] {
      assert at[i] in at;
    }
  }

  lemma ReactionSteps(rs: seq<Reaction>, e: ReactionEmoji, mine: bool)
    ensures CountedMore(rs, AddReaction(rs, e, mine), e, mine)
    ensures CountedLess(rs, RemoveReaction(rs, e, mine), e, mine)
    ensures TakenOff(rs, RemoveEmoji(rs, e), e)
  {
    FoundFirst(rs, e);
    hide Find, FirstOf, NoneOf, Retain;
    var k := Find(rs, e);
    if k < |rs| {
      var r := rs[k].(me := rs[k].me && !mine);
      if r.count <= 1 {
        var at := RetainRemains(rs[k := r], e);
        assert FirstOf(rs, e, k);
        AtFirst(rs, e, k);
        SameOthers(rs, k, r, Retain(rs[k := r], e), e, at);
      }
    }
  }

  lemma AtFirst(rs: seq<Reaction>, e: ReactionEmoji, k: int)
    requires FirstOf(rs, e, k)
    ensures 0 <= k < |rs| && Alike(rs[k].emoji, e)
  {
  }

  /** Only the reactions of a cached message change. */
  ghost predicate ReactionsChanged(w: Window, w': Window, id: MessageId, rs: seq<Reaction>) {
    if id !in w.messages then w' == w
    else
      && w'.channels == w.channels && w'.messages.Keys == w.messages.Keys && SameBut(w.messages, w'.messages, id)
      && w'.messages[id] == CachedMessage(id, w.messages[id].channel, rs, w.messages[id].text)
  }

  lemma ReactionsAreChanged(cfg: Config, w: Window, id: MessageId, rs: seq<Reaction>)
    requires KeyedMessages(cfg, w)
    ensures ReactionsChanged(w, React(cfg, w, id, rs), id, rs)
  {
  }

  function CachedReactions(w: Window, id: MessageId): seq<Reaction> {
    if id in w.messages then w.messages[id].reactions else []
  }

  /** What the four reaction events make of the reactions of the message they name. */
  ghost predicate Reacts(t: Tables, e: Event, rs: seq<Reaction>)
    requires IsReaction(e)
  {
    var before := CachedReactions(t.window, e.messageId);
    match e
    case ReactionAdd(_, user, emoji) => CountedMore(before, rs, emoji, t.currentUser == Some(user))
    case ReactionRemove(_, user, emoji) => CountedLess(before, rs, emoji, t.currentUser == Some(user))
    case ReactionRemoveAll(_) => rs == []
    case ReactionRemoveEmoji(_, emoji) => TakenOff(before, rs, emoji)
  }

  lemma ReactionArrived(cfg: Config, events: seq<Event>, e: Event)
    requires IsReaction(e)
    ensures var t, t' := After(cfg, events), After(cfg, events + [e]);
            t' == t.(window := t'.window)
            && exists rs :: Reacts(t, e, rs) && ReactionsChanged(t.window, t'.window, e.messageId, rs)
  {
    hide After, TableByTable, KeyedMessages, React, AddReaction, RemoveReaction, RemoveEmoji, CountedMore, CountedLess, TakenOff,
         ReactionsChanged;
    var t := After(cfg, events);
    KeyedAlways(cfg, events);
    OneMore(cfg, events, e);
    ByReaction(cfg, t, e);
    var before := CachedReactions(t.window, e.messageId);
    var rs := if e.ReactionAdd? then AddReaction(before, e.emoji, t.currentUser == Some(e.userId))
              else if e.ReactionRemove? then RemoveReaction(before, e.emoji, t.currentUser == Some(e.userId))
              else if e.ReactionRemoveAll? then []
              else RemoveEmoji(before, e.emoji);
    if e.ReactionAdd? || e.ReactionRemove? {
      ReactionSteps(before, e.emoji, t.currentUser == Some(e.userId));
    } else if e.ReactionRemoveEmoji? {
      ReactionSteps(before, e.emoji, false);
    }
    assert WindowAfter(cfg, t.window, t.currentUser, e) == React(cfg, t.window, e.messageId, rs);
    hide WindowAfter;
    ReactionsAreChanged(cfg, t.window, e.messageId, rs);
    assert Reacts(t, e, rs);
  }
}
