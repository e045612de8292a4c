/** What holds after every run of gateway events, for every configuration. */
module CacheRuns {
  import opened Base
  import opened CacheTables
  import opened CachePeople
  import opened CacheOwned
  import opened CacheMessages
  import opened CacheGuilds
  import opened CacheEvents

  ghost predicate Inv(cfg: Config, t: Tables) {
    && Chained(cfg, t.people)
    && Listed(cfg.emoji, t.emojis) && Listed(cfg.sticker, t.stickers) && Listed(cfg.role, t.roles)
    && Available(cfg, t.guilds)
    && ChannelsKeyed(cfg, t.channels)
    && PresencesAgree(cfg, t.presences)
    && VoiceAgrees(cfg, t.voice)
  }

  // ------------------------------------------------------------ preservation

  lemma SomeUserChained(cfg: Config, p: People, user: Option<User>, g: GuildId)
    requires Chained(cfg, p)
    ensures Chained(cfg, CacheSomeUser(cfg, p, user, g))
  {
  }

  lemma {:induction false} EmojiUsersChained(cfg: Config, p: People, g: GuildId, emojis: seq<Emoji>)
    requires Chained(cfg, p)
    ensures Chained(cfg, EmojiUsers(cfg, p, g, emojis))
  {
    hide Chained;
    if emojis != [] {
      EmojiUsersChained(cfg, p, g, emojis[..|emojis| - 1]);
      SomeUserChained(cfg, EmojiUsers(cfg, p, g, emojis[..|emojis| - 1]), emojis[|emojis| - 1].user, g);
    }
  }

  lemma {:induction false} StickerUsersChained(cfg: Config, p: People, o: Owned<CachedSticker>, g: GuildId, stickers: seq<Sticker>)
    requires Chained(cfg, p)
    ensures Chained(cfg, StickerUsers(cfg, p, o, g, stickers))
  {
    hide Chained;
    if stickers != [] {
      StickerUsersChained(cfg, p, o, g, stickers[..|stickers| - 1]);
      SomeUserChained(cfg, StickerUsers(cfg, p, o, g, stickers[..|stickers| - 1]), stickers[|stickers| - 1].user, g);
    }
  }

  lemma InteractionChained(cfg: Config, p: People, i: Interaction)
    requires Chained(cfg, p)
    ensures Chained(cfg, InteractionPeople(cfg, p, i))
  {
    hide Chained, CacheUser;
    if i.guild.Some? && i.member.Some? && i.member.value.user.Some? {
      var user := i.member.value.user.value;
      CacheUserChained(cfg, p, user, i.guild);
      PartialMemberChained(cfg, CacheUser(cfg, p, user, i.guild), i.guild.value, i.member.value, user.id);
    }
    var p := CacheInvoker(cfg, p, i);
    if i.user.Some? { CacheUserChained(cfg, p, i.user.value, None); }
    var q := if i.user.Some? then CacheUser(cfg, p, i.user.value, None) else p;
    if i.resolved.Some? { ResolvedUsersChained(cfg, q, i.resolved.value.users, i.guild, i.resolved.value.members); }
  }

  lemma PeopleKept(cfg: Config, t: Tables, e: Event)
    requires Chained(cfg, t.people)
    ensures Chained(cfg, PeopleAfter(cfg, t.people, t.stickers, e))
  {
    hide Chained, EmojiUsers, CacheMembers, StickerUsers, InteractionPeople, CacheMember, RemoveMember, UpdateMember, CacheAuthor;
    if e.GuildCreate? {
      var g := e.guild;
      EmojiUsersChained(cfg, t.people, g.guild.id, g.emojis);
      var p := EmojiUsers(cfg, t.people, g.guild.id, g.emojis);
      CacheMembersChained(cfg, p, g.guild.id, g.members);
      StickerUsersChained(cfg, CacheMembers(cfg, p, g.guild.id, g.members),
                          DropMissing(cfg.sticker, t.stickers, g.guild.id, IdsOf(StickerEntries(g.stickers))), g.guild.id, g.stickers);
    } else if e.GuildEmojisUpdate? {
      EmojiUsersChained(cfg, t.people, e.guildId, e.emojis);
    } else if e.GuildStickersUpdate? {
      StickerUsersChained(cfg, t.people, DropMissing(cfg.sticker, t.stickers, e.guildId, IdsOf(StickerEntries(e.stickers))),
                          e.guildId, e.stickers);
    } else if e.InteractionCreate? {
      InteractionChained(cfg, t.people, e.interaction);
    } else if e.MemberAdd? {
      CacheMemberChained(cfg, t.people, e.guildId, e.member);
    } else if e.MemberRemove? {
      RemoveMemberChained(cfg, t.people, e.guildId, e.userId);
    } else if e.MemberUpdate? {
      UpdateMemberChained(cfg, t.people, e.change);
    } else if e.MemberChunk? {
      CacheMembersChained(cfg, t.people, e.guildId, e.members);
    } else if e.MessageCreate? || e.MessageUpdate? {
      AuthorChained(cfg, t.people, e.message.author, e.message.guild, e.message.member);
    } else if e.VoiceStateUpdate? && e.voiceState.guild.Some? && e.voiceMember.Some? {
      CacheMemberChained(cfg, t.people, e.voiceState.guild.value, e.voiceMember.value);
    }
  }

  lemma EmojisKept(cfg: Config, o: Owned<CachedEmoji>, e: Event)
    requires Listed(cfg.emoji, o)
    ensures Listed(cfg.emoji, EmojisAfter(cfg, o, e))
  {
    hide Listed, Sync;
    match e
    case GuildCreate(g) => SyncListed(cfg.emoji, o, g.guild.id, EmojiEntries(g.emojis));
    case GuildEmojisUpdate(g, emojis) => SyncListed(cfg.emoji, o, g, EmojiEntries(emojis));
    case _ =>
  }

  lemma StickersKept(cfg: Config, o: Owned<CachedSticker>, e: Event)
    requires Listed(cfg.sticker, o)
    ensures Listed(cfg.sticker, StickersAfter(cfg, o, e))
  {
    hide Listed, Sync;
    match e
    case GuildCreate(g) => SyncListed(cfg.sticker, o, g.guild.id, StickerEntries(g.stickers));
    case GuildStickersUpdate(g, stickers) => SyncListed(cfg.sticker, o, g, StickerEntries(stickers));
    case _ =>
  }

  lemma RolesKept(cfg: Config, o: Owned<Role>, e: Event)
    requires Listed(cfg.role, o)
    ensures Listed(cfg.role, RolesAfter(cfg, o, e))
  {
    hide Listed, Store, StoreRoles, Drop;
    if e.GuildCreate? {
      StoreRolesListed(cfg.role, o, e.guild.guild.id, e.guild.roles);
    } else if e.InteractionCreate? && e.interaction.resolved.Some? && e.interaction.guild.Some? {
      StoreRolesListed(cfg.role, o, e.interaction.guild.value, e.interaction.resolved.value.roles);
    } else if e.RoleCreate? || e.RoleUpdate? {
      StoreListed(cfg.role, o, e.guildId, e.role.id, e.role);
    } else if e.RoleDelete? {
      DropListed(cfg.role, o, e.guildId, e.roleId);
    }
  }

  lemma GuildsKept(cfg: Config, t: Guilds, e: Event)
    requires Available(cfg, t)
    ensures Available(cfg, GuildsAfter(cfg, t, e))
  {
  }

  lemma ChannelsKept(cfg: Config, t: Channels, e: Event)
    requires ChannelsKeyed(cfg, t)
    ensures ChannelsKeyed(cfg, ChannelsAfter(cfg, t, e))
  {
    hide ChannelsKeyed;
    if e.ChannelCreate? || e.ChannelUpdate? || e.ThreadCreate? || e.ThreadUpdate? {
      CacheChannelKeyed(cfg, t, e.channel);
    } else if e.ChannelDelete? || e.ThreadDelete? {
      ChannelStepsKeyed(cfg, t, e.channelId, 0, 0, [], []);
    } else if e.ChannelPinsUpdate? {
      ChannelStepsKeyed(cfg, t, e.channelId, e.lastPin, 0, [], []);
    } else if e.GuildCreate? {
      ChannelStepsKeyed(cfg, t, 0, 0, e.guild.guild.id, e.guild.channels, e.guild.threads);
    } else if e.ThreadListSync? {
      CacheChannelsKeyed(cfg, t, e.threads);
    }
  }

  lemma PresencesKept(cfg: Config, t: Presences, e: Event)
    requires PresencesAgree(cfg, t)
    ensures PresencesAgree(cfg, PresencesAfter(cfg, t, e))
  {
    hide PresencesAgree;
    match e
    case GuildCreate(g) => CachePresencesAgree(cfg, t, g.guild.id, g.presences);
    case PresenceUpdate(p) => CachePresenceAgree(cfg, t, p.guild, p);
    case _ =>
  }

  lemma VoiceKept(cfg: Config, t: Voice, e: Event)
    requires VoiceAgrees(cfg, t)
    ensures VoiceAgrees(cfg, VoiceAfter(cfg, t, e))
  {
    hide VoiceAgrees;
    match e
    case GuildCreate(g) => VoiceStatesAgree(cfg, t, g.voiceStates);
    case VoiceStateUpdate(v, _) => VoiceStateAgrees(cfg, t, v);
    case _ =>
  }

  lemma ForgetKept(cfg: Config, t: Tables, g: GuildId, guilds: Guilds)
    requires Inv(cfg, t) && Available(cfg, guilds)
    ensures Inv(cfg, ForgetGuild(cfg, t, g, guilds))
  {
    hide Chained, Listed, Available, ChannelsKeyed, PresencesAgree, VoiceAgrees;
    DeleteGuildChained(cfg, t.people, g);
    DeleteGuildListed(cfg.emoji, t.emojis, g);
    DeleteGuildListed(cfg.sticker, t.stickers, g);
    DeleteGuildListed(cfg.role, t.roles, g);
    ChannelStepsKeyed(cfg, t.channels, 0, 0, g, [], []);
    DeleteGuildPresencesAgree(cfg, t.presences, g);
    DeleteGuildVoiceAgrees(cfg, t.voice, g);
  }

  lemma LostKept(cfg: Config, t: Tables, g: GuildId)
    requires Inv(cfg, t)
    ensures Inv(cfg, GuildLost(cfg, t, g))
  {
    hide ForgetGuild, Available, Chained, Listed, ChannelsKeyed, PresencesAgree, VoiceAgrees;
    GuildsAvailable(cfg, t.guilds, g, true, 0, CachedGuild(0, None, None, 0, 0));
    ForgetKept(cfg, t, g, LoseGuild(cfg, t.guilds, g));
  }

  lemma {:induction false} AllLostKept(cfg: Config, t: Tables, gs: seq<GuildId>)
    requires Inv(cfg, t)
    ensures Inv(cfg, GuildsLost(cfg, t, gs))
  {
    hide Inv, GuildLost;
    if gs != [] {
      AllLostKept(cfg, t, gs[..|gs| - 1]);
      LostKept(cfg, GuildsLost(cfg, t, gs[..|gs| - 1]), gs[|gs| - 1]);
    }
  }

  lemma TablesKept(cfg: Config, t: Tables, e: Event)
    requires Inv(cfg, t)
    ensures Inv(cfg, TableByTable(cfg, t, e))
  {
    hide Chained, Listed, Available, ChannelsKeyed, PresencesAgree, VoiceAgrees, PeopleAfter, EmojisAfter, StickersAfter,
         RolesAfter, GuildsAfter, ChannelsAfter, PresencesAfter, VoiceAfter, WindowAfter;
    PeopleKept(cfg, t, e);
    EmojisKept(cfg, t.emojis, e);
    StickersKept(cfg, t.stickers, e);
    RolesKept(cfg, t.roles, e);
    GuildsKept(cfg, t.guilds, e);
    ChannelsKept(cfg, t.channels, e);
    PresencesKept(cfg, t.presences, e);
    VoiceKept(cfg, t.voice, e);
  }

  lemma CurrentUserKept(cfg: Config, t: Tables, user: UserId)
    requires Inv(cfg, t)
    ensures Inv(cfg, SetCurrentUser(cfg, t, user))
  {
  }

  lemma DeletedKept(cfg: Config, t: Tables, g: GuildId)
    requires Inv(cfg, t)
    ensures Inv(cfg, ForgetGuild(cfg, t, g, DeleteGuild(cfg, t.guilds, g, false)))
  {
    hide ForgetGuild, Available, Chained, Listed, ChannelsKeyed, PresencesAgree, VoiceAgrees;
    GuildsAvailable(cfg, t.guilds, g, true, 0, CachedGuild(0, None, None, 0, 0));
    ForgetKept(cfg, t, g, DeleteGuild(cfg, t.guilds, g, false));
  }

  lemma UpdateInTables(cfg: Config, t: Tables, e: Event)
    requires InTables(e)
    ensures Update(cfg, t, e) == TableByTable(cfg, t, e)
  {
    hide TableByTable;
  }

  lemma ReadyKept(cfg: Config, t: Tables, user: UserId, gs: seq<GuildId>)
    requires Inv(cfg, t)
    ensures Inv(cfg, Update(cfg, t, Ready(user, gs)))
  {
    hide Inv, GuildsLost, SetCurrentUser;
    CurrentUserKept(cfg, t, user);
    AllLostKept(cfg, SetCurrentUser(cfg, t, user), gs);
  }

  lemma LossKept(cfg: Config, t: Tables, e: Event)
    requires Inv(cfg, t) && !InTables(e) && !e.Ready?
    ensures Inv(cfg, Update(cfg, t, e))
  {
    hide Inv, ForgetGuild, GuildLost, GuildsLost, TableByTable, SetCurrentUser;
    if e.UserUpdate? {
      CurrentUserKept(cfg, t, e.userId);
    } else if e.GuildDelete? {
      DeletedKept(cfg, t, e.guildId);
    } else {
      LostKept(cfg, t, e.guildId);
    }
  }

  lemma UpdateKept(cfg: Config, t: Tables, e: Event)
    requires Inv(cfg, t)
    ensures Inv(cfg, Update(cfg, t, e))
  {
    hide Inv, Update, TableByTable;
    if InTables(e) {
      UpdateInTables(cfg, t, e);
      TablesKept(cfg, t, e);
    } else if e.Ready? {
      ReadyKept(cfg, t, e.userId, e.guildIds);
    } else {
      LossKept(cfg, t, e);
    }
  }

  lemma {:induction false} InvAlways(cfg: Config, events: seq<Event>)
    ensures Inv(cfg, After(cfg, events))
  {
    if events != [] {
      InvAlways(cfg, events[..|events| - 1]);
      hide Inv, Update;
      UpdateKept(cfg, After(cfg, events[..|events| - 1]), events[|events| - 1]);
    }
  }

  // ----------------------------------------------------------------- theorems

  lemma AfterSnoc(cfg: Config, events: seq<Event>, e: Event)
    ensures After(cfg, events + [e]) == Update(cfg, After(cfg, events), e)
  {
  }

  /** Members, the members of a guild, the guilds of a user and the users, after every run. */
  lemma MemberChain(cfg: Config, events: seq<Event>, g: GuildId, u: UserId)
    ensures var p := After(cfg, events).people;
            && ((g, u) in p.members <==> u in Members(p.guildMembers, g))
            && (cfg.user && (g, u) in p.members ==> g in Members(p.userGuilds, u))
            && (Members(p.userGuilds, u) != {} ==> u in p.users)
  {
    InvAlways(cfg, events);
    var p := After(cfg, events).people;
    MembersIff(p.guildMembers, g);
    MembersIff(p.userGuilds, u);
    if Members(p.userGuilds, u) != {} {
      var h :| h in Members(p.userGuilds, u);
      assert (u, h) in p.userGuilds;
    }
  }

  /** After every run, a member that leaves takes the user along exactly if it was in no other guild that is known of. */
  lemma LeavingDropsUserIff(cfg: Config, events: seq<Event>, g: GuildId, u: UserId)
    requires u in After(cfg, events).people.users
    ensures u !in After(cfg, events + [MemberRemove(g, u)]).people.users
       <==> Members(After(cfg, events).people.userGuilds, u) <= {g}
  {
    InvAlways(cfg, events);
    AfterSnoc(cfg, events, MemberRemove(g, u));
    var p := After(cfg, events).people;
    hide After, RemoveMember;
    RemoveMemberDropsIff(cfg, p, g, u);
    MembersIff(p.userGuilds, u);
    assert Members(p.userGuilds, u) <= {g} <==> forall h :: (u, h) in p.userGuilds ==> h == g;
  }

  predicate LosesOnly(e: Event, g: GuildId) {
    e == GuildDelete(g) || e == UnavailableGuild(g) || e == GuildCreateUnavailable(g)
  }

  /** The guilds the event takes away: a single one or, at the start of a session, several. */
  function LostBy(e: Event): set<GuildId> {
    if e.Ready? then Elements(e.guildIds)
    else if e.GuildDelete? || e.UnavailableGuild? || e.GuildCreateUnavailable? then {e.guildId}
    else {}
  }

  predicate Loses(e: Event, g: GuildId) {
    g in LostBy(e)
  }

  /** Every way to lose a single guild works through its indexes alike. */
  lemma LosingForgets(cfg: Config, t: Tables, e: Event, g: GuildId)
    requires LosesOnly(e, g)
    ensures Update(cfg, t, e) == ForgetGuild(cfg, t, g, Update(cfg, t, e).guilds)
  {
    hide TableByTable, GuildsLost, DeleteGuildChannels, DeleteGuildOwned, DeleteGuildVoice, DeleteGuildMembers, DeleteGuildPresences,
         LoseGuild, DeleteGuild;
  }

  /** No emoji, sticker, role, member or presence of the guild is cached. */
  ghost predicate Gone(t: Tables, g: GuildId) {
    && (forall id :: id in t.emojis.table ==> t.emojis.table[id].guild != g)
    && (forall id :: id in t.stickers.table ==> t.stickers.table[id].guild != g)
    && (forall id :: id in t.roles.table ==> t.roles.table[id].guild != g)
    && (forall u :: (g, u) !in t.people.members)
    && (forall u :: (g, u) !in t.presences.presences)
  }

  lemma ForgottenIsGone(cfg: Config, t: Tables, g: GuildId, guilds: Guilds)
    requires Inv(cfg, t)
    ensures Gone(ForgetGuild(cfg, t, g, guilds), g)
  {
    hide DeleteGuildOwned, DeleteGuildMembers, DeleteGuildPresences, Available, ChannelsKeyed, VoiceAgrees;
    DeleteGuildListed(cfg.emoji, t.emojis, g);
    DeleteGuildListed(cfg.sticker, t.stickers, g);
    DeleteGuildListed(cfg.role, t.roles, g);
    DeleteGuildChained(cfg, t.people, g);
    DeleteGuildPresencesAgree(cfg, t.presences, g);
  }

  /** Losing another guild brings nothing back. */
  lemma StaysGone(cfg: Config, t: Tables, g: GuildId, h: GuildId, guilds: Guilds)
    requires Gone(t, g)
    ensures Gone(ForgetGuild(cfg, t, h, guilds), g)
  {
  }

  lemma {:induction false} AllLostGone(cfg: Config, t: Tables, gs: seq<GuildId>, g: GuildId)
    requires Inv(cfg, t) && g in gs
    ensures Gone(GuildsLost(cfg, t, gs), g)
  {
    var before, last := gs[..|gs| - 1], gs[|gs| - 1];
    var t' := GuildsLost(cfg, t, before);
    hide Inv, Gone, ForgetGuild, LoseGuild;
    if last == g {
      AllLostKept(cfg, t, before);
      ForgottenIsGone(cfg, t', g, LoseGuild(cfg, t'.guilds, g));
    } else {
      assert g in before;
      AllLostGone(cfg, t, before, g);
      StaysGone(cfg, t', g, last, LoseGuild(cfg, t'.guilds, last));
    }
  }

  predicate SamePeople(t: Tables, t': Tables) {
    t'.people.users == t.people.users && t'.people.userGuilds == t.people.userGuilds && t'.voice.states == t.voice.states
  }

  lemma {:induction false} AllLostKeepsPeople(cfg: Config, t: Tables, gs: seq<GuildId>)
    ensures SamePeople(t, GuildsLost(cfg, t, gs))
  {
    if gs != [] {
      AllLostKeepsPeople(cfg, t, gs[..|gs| - 1]);
    }
  }

  lemma LosingGone(cfg: Config, t: Tables, e: Event, g: GuildId)
    requires Inv(cfg, t) && Loses(e, g)
    ensures Gone(Update(cfg, t, e), g) && SamePeople(t, Update(cfg, t, e))
  {
    hide Inv, Gone;
    if e.Ready? {
      hide Update;
      ReadyGone(cfg, t, e.userId, e.guildIds, g);
    } else {
      LosingForgets(cfg, t, e, g);
      ForgottenIsGone(cfg, t, g, Update(cfg, t, e).guilds);
      hide Update;
    }
  }

  lemma ReadyGone(cfg: Config, t: Tables, user: UserId, gs: seq<GuildId>, g: GuildId)
    requires Inv(cfg, t) && g in gs
    ensures Gone(Update(cfg, t, Ready(user, gs)), g) && SamePeople(t, Update(cfg, t, Ready(user, gs)))
  {
    hide Inv, Gone, GuildsLost, SamePeople, SetCurrentUser;
    CurrentUserKept(cfg, t, user);
    AllLostGone(cfg, SetCurrentUser(cfg, t, user), gs, g);
    AllLostKeepsPeople(cfg, SetCurrentUser(cfg, t, user), gs);
    SameUser(cfg, t, user, GuildsLost(cfg, SetCurrentUser(cfg, t, user), gs));
  }

  lemma SameUser(cfg: Config, t: Tables, user: UserId, t': Tables)
    requires SamePeople(SetCurrentUser(cfg, t, user), t')
    ensures SamePeople(t, t')
  {
  }

  /**
   * After every run, losing a guild, alone or with others, leaves no emoji, sticker, role, member or presence of it.
   * Users, their lists of guilds and voice states all stay as they were.
   */
  lemma LostGuildIsGone(cfg: Config, events: seq<Event>, e: Event, g: GuildId)
    requires Loses(e, g)
    ensures var t, t' := After(cfg, events), After(cfg, events + [e]);
            && Gone(t', g)
            && t'.people.users == t.people.users && t'.people.userGuilds == t.people.userGuilds
            && t'.voice.states == t.voice.states
  {
    InvAlways(cfg, events);
    AfterSnoc(cfg, events, e);
    hide After, Update, Gone, Inv;
    LosingGone(cfg, After(cfg, events), e, g);
  }

  /** The channels in the index of one of the guilds. */
  function IndexedBy(index: set<(GuildId, ChannelId)>, gs: set<GuildId>): set<ChannelId> {
    set p | p in index && p.0 in gs :: p.1
  }

  lemma IndexedByMore(index: set<(GuildId, ChannelId)>, gs: set<GuildId>, g: GuildId)
    ensures IndexedBy(index, gs + {g}) == IndexedBy(index, gs) + Members(index, g)
  {
    forall c ensures c in IndexedBy(index, gs + {g}) <==> c in IndexedBy(index, gs) || c in Members(index, g) {
      assert c in Members(index, g) <==> (g, c) in index;
      if h :| h in gs + {g} && (h, c) in index {
        assert h in gs ==> (h, c) in index && (h, c).0 in gs;
      }
    }
  }

  lemma {:induction false} ChannelsOfLost(cfg: Config, t: Tables, gs: seq<GuildId>)
    ensures GuildsLost(cfg, t, gs).channels
         == t.channels.(channels := RemoveAll(cfg.channel, t.channels.channels, IndexedBy(t.channels.index, Elements(gs))))
  {
    if gs != [] {
      var before, g := gs[..|gs| - 1], gs[|gs| - 1];
      ChannelsOfLost(cfg, t, before);
      IndexedByMore(t.channels.index, Elements(before), g);
      assert gs == before + [g];
      assert Elements(gs) == Elements(before) + {g};
      hide IndexedBy, Members, Elements;
      assert GuildsLost(cfg, t, gs).channels == DeleteGuildChannels(cfg, GuildsLost(cfg, t, before).channels, g);
    } else {
      assert IndexedBy(t.channels.index, Elements(gs)) == {};
    }
  }

  lemma ChannelsLost(cfg: Config, t: Tables, e: Event, g: GuildId)
    requires Loses(e, g)
    ensures Update(cfg, t, e).channels
         == t.channels.(channels := RemoveAll(cfg.channel, t.channels.channels, IndexedBy(t.channels.index, LostBy(e))))
  {
    hide TableByTable;
    if e.Ready? {
      ChannelsOfLost(cfg, SetCurrentUser(cfg, t, e.userId), e.guildIds);
      hide GuildsLost, IndexedBy, Elements;
      assert Update(cfg, t, e).channels == GuildsLost(cfg, SetCurrentUser(cfg, t, e.userId), e.guildIds).channels;
    } else {
      LosingForgets(cfg, t, e, g);
      hide Update;
      IndexedByMore(t.channels.index, {}, g);
      assert IndexedBy(t.channels.index, {}) == {} && {} + {g} == LostBy(e);
    }
  }

  /** Every cached channel of the guild is in the index of one of the given guilds. */
  ghost predicate AllIndexed(t: Channels, g: GuildId, gs: set<GuildId>) {
    forall c :: c in t.channels && t.channels[c].guild == Some(g) ==> c in IndexedBy(t.index, gs)
  }

  /**
   * Losing a guild, alone or with others, leaves no channel of it exactly if each of its channels was in the index of a
   * guild that is lost. For a guild lost alone that is its own index.
   */
  lemma LostGuildChannelsIff(cfg: Config, events: seq<Event>, e: Event, g: GuildId)
    requires Loses(e, g) && cfg.channel
    ensures var t, t' := After(cfg, events).channels, After(cfg, events + [e]).channels;
            (forall c :: c in t'.channels ==> t'.channels[c].guild != Some(g)) <==> AllIndexed(t, g, LostBy(e))
  {
    AfterSnoc(cfg, events, e);
    var t := After(cfg, events);
    ChannelsLost(cfg, t, e, g);
    hide After, Update, IndexedBy, LostBy;
    var t' := Update(cfg, t, e).channels;
    if c :| c in t.channels.channels && t.channels.channels[c].guild == Some(g) && c !in IndexedBy(t.channels.index, LostBy(e)) {
      assert c in t'.channels && t'.channels[c].guild == Some(g);
    }
  }

  /** An arriving guild that brings only channels. */
  function BareGuild(guild: CachedGuild, channels: seq<Channel>): Guild {
    Guild(guild, channels, [], [], [], [], [], [], [])
  }

  /** A run in which a channel outlives its guild: the guild arrives with it, arrives again without it, and is deleted. */
  lemma ForgottenChannelRun(cfg: Config, guild: CachedGuild, c: Channel)
    requires cfg.channel
    ensures var events := [GuildCreate(BareGuild(guild, [c])), GuildCreate(BareGuild(guild, [])), GuildDelete(guild.id)];
            var t := After(cfg, events).channels;
            c.id in t.channels && t.channels[c.id].guild == Some(guild.id)
  {
    var first, second := GuildCreate(BareGuild(guild, [c])), GuildCreate(BareGuild(guild, []));
    AfterSnoc(cfg, [], first);
    AfterSnoc(cfg, [first], second);
    AfterSnoc(cfg, [first, second], GuildDelete(guild.id));
    assert [] + [first] == [first] && [first] + [second] == [first, second];
    assert [first, second] + [GuildDelete(guild.id)] == [first, second, GuildDelete(guild.id)];
    ChannelsOfRun(cfg, After(cfg, []), first);
    ChannelsOfRun(cfg, After(cfg, [first]), second);
    LosingForgets(cfg, After(cfg, [first, second]), GuildDelete(guild.id), guild.id);
    hide Update, GuildChannelsArrived, DeleteGuildChannels;
    ForgottenChannelSurvives(cfg, guild.id, c);
  }

  lemma ChannelsOfRun(cfg: Config, t: Tables, e: Event)
    requires e.GuildCreate?
    ensures Update(cfg, t, e).channels == GuildChannelsArrived(cfg, t.channels, e.guild.guild.id, e.guild.channels, e.guild.threads)
  {
  }

  /** After every run, a cached guild that is listed as unavailable says so itself. */
  lemma UnavailableGuildsSaySo(cfg: Config, events: seq<Event>, g: GuildId)
    ensures var t := After(cfg, events).guilds;
            g in t.guilds ==> t.guilds[g].id == g && (g in t.unavailable ==> t.guilds[g].unavailable == Some(true))
  {
    InvAlways(cfg, events);
  }

  /** After every run, an emoji update leaves the last payload value under every id; the index follows the payload but for ids kept elsewhere. */
  lemma EmojiUpdateExact(cfg: Config, events: seq<Event>, g: GuildId, emojis: seq<Emoji>, id: EmojiId)
    requires cfg.emoji
    ensures var o, entries := After(cfg, events).emojis, EmojiEntries(emojis);
            var o' := After(cfg, events + [GuildEmojisUpdate(g, emojis)]).emojis;
            && (id in IdsOf(entries) ==>
                  LastOf(entries, id).Some? && id in o'.table && o'.table[id].value == LastOf(entries, id).value)
            && (id in Members(o'.index, g) <==>
                  && id in IdsOf(entries)
                  && !(&& id !in Members(o.index, g) && id in o.table && o.table[id].guild != g
                       && forall j :: 0 <= j < |entries| && entries[j].0 == id ==> entries[j].1 == o.table[id].value))
  {
    InvAlways(cfg, events);
    AfterSnoc(cfg, events, GuildEmojisUpdate(g, emojis));
    var o := After(cfg, events).emojis;
    hide After, Sync;
    SyncIndexIff(o, g, EmojiEntries(emojis), id);
    SyncValues(o, g, EmojiEntries(emojis), id);
    MembersIff(o.index, g);
    MembersIff(Sync(true, o, g, EmojiEntries(emojis)).index, g);
  }

  /** A run in which an emoji misses the index: a second guild's update brings it with the value cached for the first. */
  lemma SharedEmojiMissesIndex(cfg: Config, g: GuildId, h: GuildId, e: Emoji)
    requires cfg.emoji && g != h
    ensures var o := After(cfg, [GuildEmojisUpdate(g, [e]), GuildEmojisUpdate(h, [e])]).emojis;
            e.id in o.table && o.table[e.id] == Resource(g, FromEmoji(e)) && e.id !in Members(o.index, h)
  {
    var first, second := GuildEmojisUpdate(g, [e]), GuildEmojisUpdate(h, [e]);
    var entries := EmojiEntries([e]);
    AfterSnoc(cfg, [], first);
    AfterSnoc(cfg, [first], second);
    assert [] + [first] == [first] && [first] + [second] == [first, second];
    var none: Owned<CachedEmoji> := Owned(map[], {});
    var once := Sync(true, none, g, entries);
    assert After(cfg, []).emojis == none && After(cfg, [first]).emojis == once;
    assert After(cfg, [first, second]).emojis == Sync(true, once, h, entries);
    hide After, Update;
    SharedMissesIndex(g, h, entries, e.id, FromEmoji(e));
    MembersIff(Sync(true, once, h, entries).index, h);
  }

  /** The same for stickers. */
  lemma StickerUpdateExact(cfg: Config, events: seq<Event>, g: GuildId, stickers: seq<Sticker>, id: StickerId)
    requires cfg.sticker
    ensures var o, entries := After(cfg, events).stickers, StickerEntries(stickers);
            var o' := After(cfg, events + [GuildStickersUpdate(g, stickers)]).stickers;
            && (id in IdsOf(entries) ==>
                  LastOf(entries, id).Some? && id in o'.table && o'.table[id].value == LastOf(entries, id).value)
            && (id in Members(o'.index, g) <==>
                  && id in IdsOf(entries)
                  && !(&& id !in Members(o.index, g) && id in o.table && o.table[id].guild != g
                       && forall j :: 0 <= j < |entries| && entries[j].0 == id ==> entries[j].1 == o.table[id].value))
  {
    InvAlways(cfg, events);
    AfterSnoc(cfg, events, GuildStickersUpdate(g, stickers));
    var o := After(cfg, events).stickers;
    hide After, Sync;
    SyncIndexIff(o, g, StickerEntries(stickers), id);
    SyncValues(o, g, StickerEntries(stickers), id);
    MembersIff(o.index, g);
    MembersIff(Sync(true, o, g, StickerEntries(stickers)).index, g);
  }

  /** After every run, presences agree with their index, and voice states with the channels that list them. */
  lemma PresencesAndVoicesAgree(cfg: Config, events: seq<Event>, g: GuildId, u: UserId, c: ChannelId)
    ensures var t := After(cfg, events);
            && ((g, u) in t.presences.presences <==> u in Members(t.presences.index, g))
            && ((g, u) in Members(t.voice.channels, c) <==> (g, u) in t.voice.states && t.voice.states[(g, u)].channel == c)
            && (u in Members(t.voice.guilds, g) ==> (g, u) in t.voice.states)
  {
    InvAlways(cfg, events);
    var t := After(cfg, events);
    hide After;
    MembersIff(t.presences.index, g);
    MembersIff(t.voice.channels, c);
    MembersIff(t.voice.guilds, g);
  }

  /** After every run, a voice state update leaves the user in the update's channel of the guild and in no other. */
  lemma VoiceUpdateMoves(cfg: Config, events: seq<Event>, v: VoiceState, m: Option<Member>, c: ChannelId)
    requires cfg.voiceState && v.guild.Some?
    ensures var voice := After(cfg, events + [VoiceStateUpdate(v, m)]).voice;
            && ((v.guild.value, v.user) in Members(voice.channels, c) <==> v.channel == Some(c))
            && (v.user in Members(voice.guilds, v.guild.value) <==> v.channel.Some?)
  {
    InvAlways(cfg, events);
    AfterSnoc(cfg, events, VoiceStateUpdate(v, m));
    var t := After(cfg, events).voice;
    hide After, CacheMember, CacheVoiceState, Members;
    VoiceStateMoves(cfg, t, v, c);
    MembersIff(CacheVoiceState(cfg, t, v).channels, c);
    MembersIff(CacheVoiceState(cfg, t, v).guilds, v.guild.value);
  }

  /** After every run, a created or updated role is cached for its guild and listed there. */
  lemma RoleIsStored(cfg: Config, events: seq<Event>, e: Event, g: GuildId, role: Role)
    requires cfg.role && (e == RoleUpdate(g, role) || e == RoleCreate(g, role))
    ensures var o := After(cfg, events + [e]).roles;
            role.id in o.table && o.table[role.id] == Resource(g, role) && role.id in Members(o.index, g)
  {
    AfterSnoc(cfg, events, e);
    hide After, Members;
    MembersIff(Store(cfg.role, After(cfg, events).roles, g, role.id, role).index, g);
  }

  /** A deleted role is neither cached nor listed. */
  lemma RoleIsDeleted(cfg: Config, events: seq<Event>, g: GuildId, id: RoleId)
    requires cfg.role
    ensures var o := After(cfg, events + [RoleDelete(g, id)]).roles; id !in o.table && id !in Members(o.index, g)
  {
    AfterSnoc(cfg, events, RoleDelete(g, id));
    hide After, Members;
    MembersIff(Drop(cfg.role, After(cfg, events).roles, g, id).index, g);
  }

  lemma RoleSteps(cfg: Config, t: Tables, g: GuildId, role: Role)
    ensures Update(cfg, t, RoleCreate(g, role)).roles == Store(cfg.role, t.roles, g, role.id, role)
    ensures Update(cfg, t, RoleDelete(g, role.id)).roles == Drop(cfg.role, t.roles, g, role.id)
  {
    hide Update, PeopleAfter, EmojisAfter, StickersAfter, GuildsAfter, ChannelsAfter, PresencesAfter, VoiceAfter, WindowAfter;
    hide Store, StoreRoles, Drop;
    UpdateInTables(cfg, t, RoleCreate(g, role));
    UpdateInTables(cfg, t, RoleDelete(g, role.id));
  }

  /**
   * Stored implies listed, but not the other way: after every run, a role created for two guilds and deleted for the
   * second stays listed for the first, and is cached for neither.
   */
  lemma StaleRoleListing(cfg: Config, events: seq<Event>, g: GuildId, h: GuildId, role: Role)
    requires cfg.role && g != h
    ensures var o := After(cfg, events + [RoleCreate(g, role)] + [RoleCreate(h, role)] + [RoleDelete(h, role.id)]).roles;
            role.id in Members(o.index, g) && role.id !in o.table
  {
    var once := events + [RoleCreate(g, role)];
    var twice := once + [RoleCreate(h, role)];
    RoleIsStored(cfg, events, RoleCreate(g, role), g, role);
    RoleIsDeleted(cfg, twice, h, role.id);
    AfterSnoc(cfg, once, RoleCreate(h, role));
    AfterSnoc(cfg, twice, RoleDelete(h, role.id));
    var o := After(cfg, once).roles;
    hide After;
    RoleSteps(cfg, After(cfg, once), h, role);
    RoleSteps(cfg, After(cfg, twice), h, role);
    hide Update;
    StaleListing(o, g, h, role);
  }

  lemma StaleListing(o: Owned<Role>, g: GuildId, h: GuildId, role: Role)
    requires g != h && role.id in Members(o.index, g)
    ensures role.id in Members(Drop(true, Store(true, o, h, role.id, role), h, role.id).index, g)
  {
    MembersIff(o.index, g);
    MembersIff(Drop(true, Store(true, o, h, role.id, role), h, role.id).index, g);
  }

  /** After every run, creating a role and deleting it restores the role tables exactly if it was neither cached nor listed. */
  lemma RoleRoundTripIff(cfg: Config, events: seq<Event>, g: GuildId, role: Role)
    requires cfg.role
    ensures var o := After(cfg, events).roles;
            After(cfg, events + [RoleCreate(g, role)] + [RoleDelete(g, role.id)]).roles == o
            <==> role.id !in o.table && role.id !in Members(o.index, g)
  {
    AfterSnoc(cfg, events, RoleCreate(g, role));
    AfterSnoc(cfg, events + [RoleCreate(g, role)], RoleDelete(g, role.id));
    var o := After(cfg, events).roles;
    hide After, Store, Drop, Members;
    RoleSteps(cfg, After(cfg, events), g, role);
    RoleSteps(cfg, After(cfg, events + [RoleCreate(g, role)]), g, role);
    hide Update;
    DropUndoesStoreIff(o, g, role.id, role);
    MembersIff(o.index, g);
  }
}
