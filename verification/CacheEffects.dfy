/** What each gateway event leaves in the tables, told from its payload, after every run. */
module CacheEffects {
  import opened Base
  import opened CacheTables
  import opened CachePeople
  import opened CacheOwned
  import opened CacheMessages
  import opened CacheGuilds
  import opened CacheEvents
  import opened CacheRuns
  import opened CacheWindows

  predicate IsChannelEvent(e: Event) {
    || e.ChannelCreate? || e.ChannelDelete? || e.ChannelPinsUpdate? || e.ChannelUpdate? || e.ThreadCreate?
    || e.ThreadUpdate? || e.ThreadDelete? || e.ThreadListSync?
  }

  predicate IsMessageEvent(e: Event) {
    e.MessageCreate? || e.MessageDelete? || e.MessageDeleteBulk? || e.MessageUpdate? || IsReaction(e)
  }

  predicate IsMembership(e: Event) {
    e.MemberAdd? || e.MemberRemove? || e.MemberUpdate? || e.MemberChunk?
  }

  predicate IsMemberEvent(e: Event) {
    IsMembership(e) || e.InteractionCreate? || e.PresenceUpdate? || e.VoiceStateUpdate?
  }

  predicate IsRoleEvent(e: Event) {
    e.RoleCreate? || e.RoleDelete? || e.RoleUpdate?
  }

  predicate IsResourceEvent(e: Event) {
    IsRoleEvent(e) || e.GuildEmojisUpdate? || e.GuildStickersUpdate? || e.GuildUpdate?
  }

  // ------------------------------------------------ the tables an event changes

  lemma ByChannelEvent(cfg: Config, t: Tables, e: Event)
    requires IsChannelEvent(e)
    ensures TableByTable(cfg, t, e) == t.(channels := ChannelsAfter(cfg, t.channels, e))
  {
    hide ChannelsAfter;
    hide CacheMember, CacheMembers, CacheAuthor, RemoveMember, UpdateMember, EmojiUsers,
         SyncStickerUsers, InteractionPeople, Sync, StoreRoles, GuildArrived, CountMember, CacheVoiceState;
  }

  lemma ByReaction(cfg: Config, t: Tables, e: Event)
    requires IsReaction(e)
    ensures TableByTable(cfg, t, e) == t.(window := WindowAfter(cfg, t.window, t.currentUser, e))
  {
    hide WindowAfter;
    hide CacheMember, CacheMembers, CacheAuthor, RemoveMember, UpdateMember, EmojiUsers,
         SyncStickerUsers, InteractionPeople, Sync, StoreRoles, GuildArrived, CountMember, CacheVoiceState;
  }

  lemma ByMessage(cfg: Config, t: Tables, m: Message)
    ensures var people := CacheAuthor(cfg, t.people, m.author, m.guild, m.member);
            && TableByTable(cfg, t, MessageCreate(m)) == t.(people := people, window := Create(cfg, t.window, m.message))
            && TableByTable(cfg, t, MessageUpdate(m)) == t.(people := people, window := UpdateMessage(cfg, t.window, m.message))
  {
  }

  lemma ByDeletion(cfg: Config, t: Tables, c: ChannelId, id: MessageId, ids: seq<MessageId>)
    ensures TableByTable(cfg, t, MessageDelete(c, id)) == t.(window := Delete(cfg, t.window, c, id))
    ensures TableByTable(cfg, t, MessageDeleteBulk(c, ids)) == t.(window := DeleteBulk(cfg, t.window, c, ids))
  {
  }

  lemma ByMembership(cfg: Config, t: Tables, e: Event)
    requires IsMembership(e)
    ensures TableByTable(cfg, t, e) == t.(people := PeopleAfter(cfg, t.people, t.stickers, e), guilds := GuildsAfter(cfg, t.guilds, e))
  {
    hide PeopleAfter, GuildsAfter;
  }

  lemma ByInteraction(cfg: Config, t: Tables, i: Interaction)
    ensures TableByTable(cfg, t, InteractionCreate(i)) == t.(people := InteractionPeople(cfg, t.people, i),
                                                             roles := RolesAfter(cfg, t.roles, InteractionCreate(i)))
  {
    hide InteractionPeople, StoreRoles;
  }

  lemma ByPresence(cfg: Config, t: Tables, p: Presence)
    ensures TableByTable(cfg, t, PresenceUpdate(p)) == t.(presences := CachePresence(cfg, t.presences, p.guild, p))
  {
  }

  lemma ByVoiceState(cfg: Config, t: Tables, v: VoiceState, m: Option<Member>)
    ensures TableByTable(cfg, t, VoiceStateUpdate(v, m))
         == t.(people := PeopleAfter(cfg, t.people, t.stickers, VoiceStateUpdate(v, m)),
               voice := CacheVoiceState(cfg, t.voice, v))
  {
    hide PeopleAfter, CacheVoiceState;
  }

  lemma ByRoleEvent(cfg: Config, t: Tables, e: Event)
    requires IsRoleEvent(e)
    ensures TableByTable(cfg, t, e) == t.(roles := RolesAfter(cfg, t.roles, e))
  {
    hide RolesAfter, UpdateGuild, CacheChannel, CacheChannels, DeleteChannel, PinsUpdate, GuildChannelsArrived, CachePresences, CachePresence,
         CacheVoiceStates;
    hide CacheMember, CacheMembers, CacheAuthor, RemoveMember, UpdateMember, EmojiUsers,
         SyncStickerUsers, InteractionPeople, Sync, StoreRoles, GuildArrived, CountMember, CacheVoiceState;
  }

  lemma ByEmojis(cfg: Config, t: Tables, g: GuildId, emojis: seq<Emoji>)
    ensures TableByTable(cfg, t, GuildEmojisUpdate(g, emojis))
         == t.(people := EmojiUsers(cfg, t.people, g, emojis), emojis := Sync(cfg.emoji, t.emojis, g, EmojiEntries(emojis)))
  {
    hide EmojiUsers, Sync;
  }

  lemma ByStickers(cfg: Config, t: Tables, g: GuildId, stickers: seq<Sticker>)
    ensures TableByTable(cfg, t, GuildStickersUpdate(g, stickers))
         == t.(people := SyncStickerUsers(cfg, t.people, t.stickers, g, stickers),
               stickers := Sync(cfg.sticker, t.stickers, g, StickerEntries(stickers)))
  {
    hide SyncStickerUsers, Sync;
  }

  lemma ByGuildUpdate(cfg: Config, t: Tables, g: GuildId, settings: int)
    ensures TableByTable(cfg, t, GuildUpdate(g, settings)) == t.(guilds := UpdateGuild(cfg, t.guilds, g, settings))
  {
  }

  lemma ByOther(cfg: Config, t: Tables, e: Event)
    requires InTables(e) && !e.GuildCreate? && !IsChannelEvent(e) && !IsMessageEvent(e) && !IsMemberEvent(e) && !IsResourceEvent(e)
    ensures TableByTable(cfg, t, e) == t
  {
    assert e == Elsewhere;
  }

  /** What one more event of this kind does to the tables of a run. */
  lemma OneMore(cfg: Config, events: seq<Event>, e: Event)
    requires InTables(e)
    ensures After(cfg, events + [e]) == TableByTable(cfg, After(cfg, events), e)
  {
    AfterSnoc(cfg, events, e);
    hide After, TableByTable, Update;
    UpdateInTables(cfg, After(cfg, events), e);
  }

  lemma MembershipTables(cfg: Config, t: Tables, g: GuildId, m: Member, u: UserId, c: MemberChange, ms: seq<Member>)
    ensures TableByTable(cfg, t, MemberAdd(g, m))
         == t.(people := CacheMember(cfg, t.people, g, m), guilds := CountMember(cfg, t.guilds, g, true))
    ensures TableByTable(cfg, t, MemberRemove(g, u))
         == t.(people := RemoveMember(cfg, t.people, g, u), guilds := CountMember(cfg, t.guilds, g, false))
    ensures TableByTable(cfg, t, MemberUpdate(c)) == t.(people := UpdateMember(cfg, t.people, c))
    ensures TableByTable(cfg, t, MemberChunk(g, ms)) == t.(people := CacheMembers(cfg, t.people, g, ms))
  {
    hide TableByTable, CacheMember, CacheMembers, RemoveMember, UpdateMember, CountMember;
    ByMembership(cfg, t, MemberAdd(g, m));
    ByMembership(cfg, t, MemberRemove(g, u));
    ByMembership(cfg, t, MemberUpdate(c));
    ByMembership(cfg, t, MemberChunk(g, ms));
  }

  lemma ChannelTables(cfg: Config, t: Tables, c: Channel, id: ChannelId, lastPin: int, cs: seq<Channel>)
    ensures forall e :: BringsChannel(e, c) ==> TableByTable(cfg, t, e) == t.(channels := CacheChannel(cfg, t.channels, c))
    ensures TableByTable(cfg, t, ChannelDelete(id)) == t.(channels := DeleteChannel(cfg, t.channels, id))
    ensures TableByTable(cfg, t, ThreadDelete(id)) == t.(channels := DeleteChannel(cfg, t.channels, id))
    ensures TableByTable(cfg, t, ChannelPinsUpdate(id, lastPin)) == t.(channels := PinsUpdate(cfg, t.channels, id, lastPin))
    ensures TableByTable(cfg, t, ThreadListSync(cs)) == t.(channels := CacheChannels(cfg, t.channels, cs))
  {
    hide TableByTable, CacheChannel, DeleteChannel, PinsUpdate, CacheChannels;
    forall e | IsChannelEvent(e) ensures TableByTable(cfg, t, e) == t.(channels := ChannelsAfter(cfg, t.channels, e)) {
      ByChannelEvent(cfg, t, e);
    }
  }

  lemma RoleTables(cfg: Config, t: Tables, g: GuildId, role: Role)
    ensures TableByTable(cfg, t, RoleCreate(g, role)) == t.(roles := Store(cfg.role, t.roles, g, role.id, role))
    ensures TableByTable(cfg, t, RoleUpdate(g, role)) == t.(roles := Store(cfg.role, t.roles, g, role.id, role))
    ensures TableByTable(cfg, t, RoleDelete(g, role.id)) == t.(roles := Drop(cfg.role, t.roles, g, role.id))
  {
    hide TableByTable, Store, Drop, StoreRoles;
    ByRoleEvent(cfg, t, RoleCreate(g, role));
    ByRoleEvent(cfg, t, RoleUpdate(g, role));
    ByRoleEvent(cfg, t, RoleDelete(g, role.id));
  }

  // --------------------------------------------------------------------- frames

  /** The two tables agree but for this key. */
  ghost predicate SameBut<K(!new), V>(m: map<K, V>, m': map<K, V>, k: K) {
    forall j :: j != k ==> (j in m' <==> j in m) && (j in m ==> m'[j] == m[j])
  }

  ghost predicate SameListedBut<T(!new)>(s: set<T>, s': set<T>, x: T) {
    forall y :: y != x ==> (y in s' <==> y in s)
  }

  // -------------------------------------------------------------------- members

  const NO_USER := User(0, 0)
  const NO_MEMBER := Member(NO_USER, 0, 0, 0, 0, false, false, false, 0)
  const NO_CHANGE := MemberChange(0, NO_USER, 0, 0, 0, false, None, None)
  const NO_CHANNEL := Channel(0, None, 0, 0)

  /** The cached member says what the payload says, in the fields that payloads are compared by. */
  predicate Says(c: CachedMember, m: Member) {
    && c.user == m.user.id && c.seen == m.seen && c.premium == m.premium && c.timeout == m.timeout && c.avatar == m.avatar
    && c.pending == m.pending && c.deaf == Some(m.deaf) && c.mute == Some(m.mute)
  }

  /**
   * The member is cached and listed with the guild, its user is cached and listed with it, as far as they are wanted, and
   * nothing else changed. Only a member that said the same before stays altogether as it was.
   */
  ghost predicate MemberStored(cfg: Config, p: People, q: People, g: GuildId, m: Member) {
    var u := m.user.id;
    && ((g, u) in q.members <==> cfg.member) && ((g, u) in q.guildMembers <==> cfg.member)
    && (u in q.users <==> cfg.user) && ((u, g) in q.userGuilds <==> cfg.user)
    && (cfg.member ==> Says(q.members[(g, u)], m))
    && (if (g, u) in p.members && Says(p.members[(g, u)], m) then q == p
        else (cfg.member ==> q.members[(g, u)].unseen == m.unseen) && (cfg.user ==> q.users[u] == m.user))
    && SameBut(p.members, q.members, (g, u)) && SameListedBut(p.guildMembers, q.guildMembers, (g, u))
    && SameBut(p.users, q.users, u) && SameListedBut(p.userGuilds, q.userGuilds, (u, g))
  }

  lemma MemberIsStored(cfg: Config, p: People, g: GuildId, m: Member)
    requires Chained(cfg, p)
    ensures MemberStored(cfg, p, CacheMember(cfg, p, g, m), g, m)
  {
  }

  /** The known member count of a cached guild goes up or down by one, within 64 bits; nothing else changes. */
  ghost predicate Counted(t: Guilds, t': Guilds, g: GuildId, joined: bool) {
    && t'.unavailable == t.unavailable && t'.guilds.Keys == t.guilds.Keys && SameBut(t.guilds, t'.guilds, g)
    && (g in t.guilds ==>
          var before, now := t.guilds[g], t'.guilds[g];
          && now.id == before.id && now.unavailable == before.unavailable && now.settings == before.settings && now.fixed == before.fixed
          && (before.memberCount.None? <==> now.memberCount.None?)
          && (before.memberCount.Some? ==>
                var n := before.memberCount.value;
                if joined then now.memberCount.value == if n < 0xFFFF_FFFF_FFFF_FFFF then n + 1 else 0xFFFF_FFFF_FFFF_FFFF
                else now.memberCount.value == if n == 0 then 0 else n - 1))
  }

  lemma IsCounted(cfg: Config, t: Guilds, g: GuildId, joined: bool)
    requires Available(cfg, t)
    ensures Counted(t, CountMember(cfg, t, g, joined), g, joined)
  {
  }

  /** A joining member is cached as the payload says, and the guild counts one more. */
  lemma MemberAdded(cfg: Config, events: seq<Event>, g: GuildId, m: Member)
    ensures var t, t' := After(cfg, events), After(cfg, events + [MemberAdd(g, m)]);
            && t' == t.(people := t'.people, guilds := t'.guilds)
            && MemberStored(cfg, t.people, t'.people, g, m) && Counted(t.guilds, t'.guilds, g, true)
  {
    hide After, TableByTable, Chained, Available, Listed, ChannelsKeyed, PresencesAgree, VoiceAgrees, CacheMember, CountMember, MemberStored, Counted;
    var t := After(cfg, events);
    InvAlways(cfg, events);
    OneMore(cfg, events, MemberAdd(g, m));
    MembershipTables(cfg, t, g, m, 0, NO_CHANGE, []);
    MemberIsStored(cfg, t.people, g, m);
    IsCounted(cfg, t.guilds, g, true);
  }

  /** The member is gone; its user goes with it exactly if it is listed with no other guild; nobody else changes. */
  ghost predicate MemberGone(cfg: Config, p: People, q: People, g: GuildId, u: UserId) {
    && (g, u) !in q.members && (g, u) !in q.guildMembers && (u, g) !in q.userGuilds
    && (u in q.users <==> u in p.users && exists h :: h != g && (u, h) in p.userGuilds)
    && (u in q.users ==> q.users[u] == p.users[u])
    && SameBut(p.members, q.members, (g, u)) && SameListedBut(p.guildMembers, q.guildMembers, (g, u))
    && SameBut(p.users, q.users, u) && SameListedBut(p.userGuilds, q.userGuilds, (u, g))
  }

  lemma MemberIsGone(cfg: Config, p: People, g: GuildId, u: UserId)
    requires Chained(cfg, p)
    ensures MemberGone(cfg, p, RemoveMember(cfg, p, g, u), g, u)
  {
    var q := RemoveMember(cfg, p, g, u);
    if h :| h != g && (u, h) in p.userGuilds {
      assert (u, h) in q.userGuilds;
    }
    if p' :| p' in q.userGuilds && p'.0 == u {
      assert p'.1 != g;
    }
  }

  /** A leaving member is forgotten, and the guild counts one less. */
  lemma MemberRemoved(cfg: Config, events: seq<Event>, g: GuildId, u: UserId)
    ensures var t, t' := After(cfg, events), After(cfg, events + [MemberRemove(g, u)]);
            && t' == t.(people := t'.people, guilds := t'.guilds)
            && MemberGone(cfg, t.people, t'.people, g, u) && Counted(t.guilds, t'.guilds, g, false)
  {
    hide After, TableByTable, Chained, Available, Listed, ChannelsKeyed, PresencesAgree, VoiceAgrees, RemoveMember, CountMember, MemberGone, Counted;
    var t := After(cfg, events);
    InvAlways(cfg, events);
    OneMore(cfg, events, MemberRemove(g, u));
    MembershipTables(cfg, t, g, NO_MEMBER, u, NO_CHANGE, []);
    MemberIsGone(cfg, t.people, g, u);
    IsCounted(cfg, t.guilds, g, false);
  }

  /** A cached member takes over what the update says and keeps the rest, its user is replaced; others are not cached. */
  ghost predicate MemberChanged(cfg: Config, p: People, q: People, m: MemberChange) {
    var u, key := m.user.id, (m.guild, m.user.id);
    if key !in p.members then q == p
    else
      && q.guildMembers == p.guildMembers && key in q.members
      && q.members[key] == CachedMember(p.members[key].user, m.seen, p.members[key].premium, m.timeout, m.avatar, m.pending,
                                        if m.deaf.Some? then m.deaf else p.members[key].deaf,
                                        if m.mute.Some? then m.mute else p.members[key].mute, p.members[key].unseen)
      && (u in q.users <==> cfg.user) && (cfg.user ==> q.users[u] == m.user)
      && SameBut(p.members, q.members, key) && SameBut(p.users, q.users, u) && q.userGuilds == p.userGuilds
  }

  lemma MemberIsChanged(cfg: Config, p: People, m: MemberChange)
    requires Chained(cfg, p)
    ensures MemberChanged(cfg, p, UpdateMember(cfg, p, m), m)
  {
  }

  lemma MemberUpdated(cfg: Config, events: seq<Event>, m: MemberChange)
    ensures var t, t' := After(cfg, events), After(cfg, events + [MemberUpdate(m)]);
            t' == t.(people := t'.people) && MemberChanged(cfg, t.people, t'.people, m)
  {
    hide After, TableByTable, Chained, Available, Listed, ChannelsKeyed, PresencesAgree, VoiceAgrees, UpdateMember, MemberChanged;
    var t := After(cfg, events);
    InvAlways(cfg, events);
    OneMore(cfg, events, MemberUpdate(m));
    MembershipTables(cfg, t, 0, NO_MEMBER, 0, m, []);
    MemberIsChanged(cfg, t.people, m);
  }

  /** The last payload of the chunk for this user. */
  predicate LastMember(ms: seq<Member>, i: int, u: UserId) {
    0 <= i < |ms| && ms[i].user.id == u && forall j :: i < j < |ms| ==> ms[j].user.id != u
  }

  /** Everybody in the list is cached as the last payload says, as far as wanted; nobody else changes. */
  ghost predicate MembersStored(cfg: Config, p: People, q: People, g: GuildId, ms: seq<Member>) {
    && (forall i, u :: LastMember(ms, i, u) ==>
          && ((g, u) in q.members <==> cfg.member) && ((g, u) in q.guildMembers <==> cfg.member)
          && (u in q.users <==> cfg.user) && ((u, g) in q.userGuilds <==> cfg.user)
          && (cfg.member ==> Says(q.members[(g, u)], ms[i])))
    && (forall k: (GuildId, UserId) :: k.0 != g || !Mentioned(ms, k.1) ==>
          && (k in q.members <==> k in p.members) && (k in p.members ==> q.members[k] == p.members[k])
          && (k in q.guildMembers <==> k in p.guildMembers) && ((k.1, k.0) in q.userGuilds <==> (k.1, k.0) in p.userGuilds))
    && (forall u :: !Mentioned(ms, u) ==> (u in q.users <==> u in p.users) && (u in p.users ==> q.users[u] == p.users[u]))
  }

  ghost predicate Mentioned(ms: seq<Member>, u: UserId) {
    exists i :: 0 <= i < |ms| && ms[i].user.id == u
  }

  lemma MembersStep(cfg: Config, p: People, mid: People, q: People, g: GuildId, ms: seq<Member>)
    requires ms != [] && MembersStored(cfg, p, mid, g, ms[..|ms| - 1]) && MemberStored(cfg, mid, q, g, ms[|ms| - 1])
    ensures MembersStored(cfg, p, q, g, ms)
  {
    var before, last := ms[..|ms| - 1], ms[|ms| - 1];
    hide Says;
    assert forall u :: Mentioned(ms, u) <==> Mentioned(before, u) || u == last.user.id by { MentionedSnoc(ms); }
    forall i, u | LastMember(ms, i, u)
      ensures && ((g, u) in q.members <==> cfg.member) && ((g, u) in q.guildMembers <==> cfg.member)
              && (u in q.users <==> cfg.user) && ((u, g) in q.userGuilds <==> cfg.user)
              && (cfg.member ==> Says(q.members[(g, u)], ms[i]))
    {
      if i < |before| {
        assert LastMember(before, i, u) && u != last.user.id;
      }
    }
  }

  lemma MentionedSnoc(ms: seq<Member>)
    requires ms != []
    ensures forall u :: Mentioned(ms, u) <==> Mentioned(ms[..|ms| - 1], u) || u == ms[|ms| - 1].user.id
  {
    forall u | Mentioned(ms[..|ms| - 1], u) ensures Mentioned(ms, u) {
      var i :| 0 <= i < |ms[..|ms| - 1]| && ms[..|ms| - 1][i].user.id == u;
      assert ms[i].user.id == u;
    }
    forall u | Mentioned(ms, u) && u != ms[|ms| - 1].user.id ensures Mentioned(ms[..|ms| - 1], u) {
      var i :| 0 <= i < |ms| && ms[i].user.id == u;
      assert ms[..|ms| - 1][i].user.id == u;
    }
  }

  lemma {:induction false} MembersAreStored(cfg: Config, p: People, g: GuildId, ms: seq<Member>)
    requires Chained(cfg, p)
    ensures MembersStored(cfg, p, CacheMembers(cfg, p, g, ms), g, ms)
  {
    if ms != [] {
      var before := ms[..|ms| - 1];
      var mid := CacheMembers(cfg, p, g, before);
      MembersAreStored(cfg, p, g, before);
      CacheMembersChained(cfg, p, g, before);
      MemberIsStored(cfg, mid, g, ms[|ms| - 1]);
      hide Chained, CacheMember, MembersStored, MemberStored;
      MembersStep(cfg, p, mid, CacheMembers(cfg, p, g, ms), g, ms);
    }
  }

  lemma MembersArrived(cfg: Config, events: seq<Event>, g: GuildId, ms: seq<Member>)
    ensures var t, t' := After(cfg, events), After(cfg, events + [MemberChunk(g, ms)]);
            t' == t.(people := t'.people) && MembersStored(cfg, t.people, t'.people, g, ms)
  {
    hide After, TableByTable, Chained, Available, Listed, ChannelsKeyed, PresencesAgree, VoiceAgrees, CacheMembers, MembersStored;
    var t := After(cfg, events);
    InvAlways(cfg, events);
    OneMore(cfg, events, MemberChunk(g, ms));
    MembershipTables(cfg, t, g, NO_MEMBER, 0, NO_CHANGE, ms);
    MembersAreStored(cfg, t.people, g, ms);
  }

  // ------------------------------------------------- authors, invokers, resolved users

  /** The user is cached as the payload has it and listed with the guild, if there is one. */
  ghost predicate UserStored(cfg: Config, p: People, q: People, user: User, guild: Option<GuildId>) {
    && (user.id in q.users <==> cfg.user) && (cfg.user ==> q.users[user.id] == user)
    && (guild.Some? ==> ((user.id, guild.value) in q.userGuilds <==> cfg.user)
                        && SameListedBut(p.userGuilds, q.userGuilds, (user.id, guild.value)))
    && (guild.None? ==> q.userGuilds == p.userGuilds)
    && SameBut(p.users, q.users, user.id)
  }

  /** The member as a message or an interaction describes it; one that said the same before stays as it was. */
  ghost predicate PartialStored(cfg: Config, p: People, q: People, g: GuildId, m: PartialMember, u: UserId) {
    var key := (g, u);
    && (key in q.members <==> cfg.member) && (key in q.guildMembers <==> cfg.member)
    && (cfg.member ==>
          var c := q.members[key];
          && c.seen == m.seen && c.premium == m.premium && c.timeout == m.timeout && c.deaf == Some(m.deaf) && c.mute == Some(m.mute)
          && (c == CachedMember(if m.user.Some? then m.user.value.id else u, m.seen, m.premium, m.timeout, m.avatar, false,
                                Some(m.deaf), Some(m.mute), m.unseen)
              || (key in p.members && c == p.members[key])))
    && SameBut(p.members, q.members, key) && SameListedBut(p.guildMembers, q.guildMembers, key)
  }

  /** The author of a message is cached, and as a member if the message says so. */
  ghost predicate AuthorStored(cfg: Config, p: People, q: People, author: User, guild: Option<GuildId>, member: Option<PartialMember>) {
    && UserStored(cfg, p, q, author, guild)
    && (if member.Some? && guild.Some? then PartialStored(cfg, p, q, guild.value, member.value, author.id)
        else q.members == p.members && q.guildMembers == p.guildMembers)
  }

  lemma AuthorIsStored(cfg: Config, p: People, author: User, guild: Option<GuildId>, member: Option<PartialMember>)
    requires Chained(cfg, p)
    ensures AuthorStored(cfg, p, CacheAuthor(cfg, p, author, guild, member), author, guild, member)
  {
  }

  /** The member as a resolved interaction describes it, which keeps what it does not say. */
  ghost predicate ResolvedStored(cfg: Config, p: People, q: People, g: GuildId, m: InteractionMember, u: UserId) {
    var key := (g, u);
    && (key in q.members <==> cfg.member) && (key in q.guildMembers <==> cfg.member)
    && (cfg.member ==>
          var c := q.members[key];
          && c.seen == m.seen && c.premium == m.premium
          && (if key in p.members then
                c == p.members[key]
                || c == CachedMember(u, m.seen, m.premium, m.timeout, p.members[key].avatar, m.pending, p.members[key].deaf,
                                     p.members[key].mute, m.unseen)
              else c == CachedMember(u, m.seen, m.premium, m.timeout, 0, m.pending, None, None, m.unseen)))
    && SameBut(p.members, q.members, key) && SameListedBut(p.guildMembers, q.guildMembers, key)
  }

  ghost predicate ResolvedUserStored(cfg: Config, p: People, q: People, user: User, guild: Option<GuildId>,
                                     members: map<UserId, InteractionMember>) {
    && UserStored(cfg, p, q, user, guild)
    && (if guild.Some? && user.id in members then ResolvedStored(cfg, p, q, guild.value, members[user.id], user.id)
        else q.members == p.members && q.guildMembers == p.guildMembers)
  }

  lemma ResolvedUserIsStored(cfg: Config, p: People, user: User, guild: Option<GuildId>, members: map<UserId, InteractionMember>)
    requires Chained(cfg, p)
    ensures ResolvedUserStored(cfg, p, CacheResolvedUser(cfg, p, user, guild, members), user, guild, members)
  {
  }

  /** One resolved user after the other, each stored over what the ones before it left. */
  ghost predicate ResolvedUsersStored(cfg: Config, p: People, q: People, users: seq<User>, guild: Option<GuildId>,
                                      members: map<UserId, InteractionMember>) {
    exists stages: seq<People> ::
      && |stages| == |users| + 1 && stages[0] == p && stages[|users|] == q
      && forall i :: 0 <= i < |users| ==> ResolvedUserStored(cfg, stages[i], stages[i + 1], users[i], guild, members)
  }

  lemma {:induction false} ResolvedUsersAreStored(cfg: Config, p: People, users: seq<User>, guild: Option<GuildId>,
                                                  members: map<UserId, InteractionMember>)
    requires Chained(cfg, p)
    ensures ResolvedUsersStored(cfg, p, CacheResolvedUsers(cfg, p, users, guild, members), users, guild, members)
  {
    hide Chained, CacheResolvedUser, ResolvedUserStored;
    if users == [] {
      var stages := [p];
      assert stages[0] == p;
    } else {
      var before, last := users[..|users| - 1], users[|users| - 1];
      var mid := CacheResolvedUsers(cfg, p, before, guild, members);
      ResolvedUsersAreStored(cfg, p, before, guild, members);
      ResolvedUsersChained(cfg, p, before, guild, members);
      ResolvedUserIsStored(cfg, mid, last, guild, members);
      var stages: seq<People> :| |stages| == |before| + 1 && stages[0] == p && stages[|before|] == mid
                                 && forall i :: 0 <= i < |before| ==> ResolvedUserStored(cfg, stages[i], stages[i + 1], before[i], guild, members);
      var more := stages + [CacheResolvedUsers(cfg, p, users, guild, members)];
      assert more[0] == p && more[|users|] == CacheResolvedUsers(cfg, p, users, guild, members);
      forall i | 0 <= i < |users| ensures ResolvedUserStored(cfg, more[i], more[i + 1], users[i], guild, members) {
        if i < |before| { assert users[i] == before[i] && more[i] == stages[i] && more[i + 1] == stages[i + 1]; }
      }
    }
  }

  /** An interaction stores its invoker, then its user, then the users it resolves, and the roles it resolves. */
  ghost predicate InteractionStored(cfg: Config, p: People, q: People, i: Interaction) {
    exists invoked, used ::
      && (if i.guild.Some? && i.member.Some? && i.member.value.user.Some? then
            AuthorStored(cfg, p, invoked, i.member.value.user.value, i.guild, i.member)
          else invoked == p)
      && (if i.user.Some? then
            UserStored(cfg, invoked, used, i.user.value, None) && used.members == invoked.members && used.guildMembers == invoked.guildMembers
          else used == invoked)
      && (if i.resolved.Some? then ResolvedUsersStored(cfg, used, q, i.resolved.value.users, i.guild, i.resolved.value.members)
          else q == used)
  }

  lemma InteractionIsStored(cfg: Config, p: People, i: Interaction)
    requires Chained(cfg, p)
    ensures InteractionStored(cfg, p, InteractionPeople(cfg, p, i), i)
  {
    hide Chained, AuthorStored, UserStored, ResolvedUsersStored, CacheUser, CachePartialMember, CacheResolvedUsers;
    var invoked := CacheInvoker(cfg, p, i);
    if i.guild.Some? && i.member.Some? && i.member.value.user.Some? {
      AuthorIsStored(cfg, p, i.member.value.user.value, i.guild, i.member);
      AuthorChained(cfg, p, i.member.value.user.value, i.guild, i.member);
    }
    var used := if i.user.Some? then CacheUser(cfg, invoked, i.user.value, None) else invoked;
    if i.user.Some? {
      PlainUserStored(cfg, invoked, i.user.value);
      CacheUserChained(cfg, invoked, i.user.value, None);
    }
    if i.resolved.Some? {
      ResolvedUsersAreStored(cfg, used, i.resolved.value.users, i.guild, i.resolved.value.members);
    }
  }

  lemma PlainUserStored(cfg: Config, p: People, user: User)
    requires Chained(cfg, p)
    ensures UserStored(cfg, p, CacheUser(cfg, p, user, None), user, None)
    ensures CacheUser(cfg, p, user, None).members == p.members && CacheUser(cfg, p, user, None).guildMembers == p.guildMembers
  {
  }

  // ---------------------------------------------------------------------- roles

  /** The last payload of the list for this role. */
  predicate LastRole(roles: seq<Role>, i: int, id: RoleId) {
    0 <= i < |roles| && roles[i].id == id && forall j :: i < j < |roles| ==> roles[j].id != id
  }

  ghost predicate RoleMentioned(roles: seq<Role>, id: RoleId) {
    exists i :: 0 <= i < |roles| && roles[i].id == id
  }

  /** The roles are cached for the guild as their last payloads say, and listed with it; nothing else changes. */
  ghost predicate RolesStored(wanted: bool, o: Owned<Role>, o': Owned<Role>, g: GuildId, roles: seq<Role>) {
    if !wanted then o' == o
    else
      && (forall i, id :: LastRole(roles, i, id) ==> id in o'.table && o'.table[id] == Resource(g, roles[i]) && (g, id) in o'.index)
      && (forall id :: !RoleMentioned(roles, id) ==> (id in o'.table <==> id in o.table) && (id in o.table ==> o'.table[id] == o.table[id]))
      && forall k: (GuildId, RoleId) :: k.0 != g || !RoleMentioned(roles, k.1) ==> (k in o'.index <==> k in o.index)
  }

  lemma {:induction false} RolesAreStored(wanted: bool, o: Owned<Role>, g: GuildId, roles: seq<Role>)
    ensures RolesStored(wanted, o, StoreRoles(wanted, o, g, roles), g, roles)
  {
    if roles != [] {
      var before, last := roles[..|roles| - 1], roles[|roles| - 1];
      RolesAreStored(wanted, o, g, before);
      if wanted {
        RoleMentionedSnoc(roles);
        var mid, o' := StoreRoles(wanted, o, g, before), StoreRoles(wanted, o, g, roles);
        assert o' == Store(wanted, mid, g, last.id, last);
        hide StoreRoles;
        forall i, id | LastRole(roles, i, id) ensures id in o'.table && o'.table[id] == Resource(g, roles[i]) && (g, id) in o'.index {
          if i < |before| { assert LastRole(before, i, id) && id != last.id; }
        }
      }
    }
  }

  lemma RoleMentionedSnoc(roles: seq<Role>)
    requires roles != []
    ensures forall id :: RoleMentioned(roles, id) <==> RoleMentioned(roles[..|roles| - 1], id) || id == roles[|roles| - 1].id
  {
    var before := roles[..|roles| - 1];
    forall id | RoleMentioned(before, id) ensures RoleMentioned(roles, id) {
      var i :| 0 <= i < |before| && before[i].id == id;
      assert roles[i].id == id;
    }
    forall id | RoleMentioned(roles, id) && id != roles[|roles| - 1].id ensures RoleMentioned(before, id) {
      var i :| 0 <= i < |roles| && roles[i].id == id;
      assert before[i].id == id;
    }
  }

  /** A created or updated role is cached as the payload has it. */
  lemma RoleChanged(cfg: Config, events: seq<Event>, e: Event, g: GuildId, role: Role)
    requires e == RoleCreate(g, role) || e == RoleUpdate(g, role)
    ensures var t, t' := After(cfg, events), After(cfg, events + [e]);
            t' == t.(roles := t'.roles) && RolesStored(cfg.role, t.roles, t'.roles, g, [role])
  {
    hide After, TableByTable, RolesStored, StoreRoles;
    var t := After(cfg, events);
    OneMore(cfg, events, e);
    RoleTables(cfg, t, g, role);
    RolesAreStored(cfg.role, t.roles, g, [role]);
    SingleRole(cfg.role, t.roles, g, role);
  }

  /** A deleted role is forgotten, whichever guild it was cached for; nothing else changes. */
  lemma RoleForgotten(cfg: Config, events: seq<Event>, g: GuildId, role: Role)
    ensures var t, t' := After(cfg, events), After(cfg, events + [RoleDelete(g, role.id)]);
            && t' == t.(roles := t'.roles) && role.id !in t'.roles.table && (g, role.id) !in t'.roles.index
            && SameBut(t.roles.table, t'.roles.table, role.id) && SameListedBut(t.roles.index, t'.roles.index, (g, role.id))
  {
    hide After, TableByTable, Drop, Chained, Available, ChannelsKeyed, PresencesAgree, VoiceAgrees;
    var t := After(cfg, events);
    InvAlways(cfg, events);
    OneMore(cfg, events, RoleDelete(g, role.id));
    RoleTables(cfg, t, g, role);
    RoleIsGone(cfg.role, t.roles, g, role.id);
  }

  lemma RoleIsGone(wanted: bool, o: Owned<Role>, g: GuildId, id: RoleId)
    requires Listed(wanted, o)
    ensures var o' := Drop(wanted, o, g, id);
            && id !in o'.table && (g, id) !in o'.index
            && SameBut(o.table, o'.table, id) && SameListedBut(o.index, o'.index, (g, id))
  {
  }

  lemma SingleRole(wanted: bool, o: Owned<Role>, g: GuildId, role: Role)
    ensures StoreRoles(wanted, o, g, [role]) == Store(wanted, o, g, role.id, role)
  {
    assert [role][..0] == [];
  }

  lemma InteractionArrived(cfg: Config, events: seq<Event>, i: Interaction)
    ensures var t, t' := After(cfg, events), After(cfg, events + [InteractionCreate(i)]);
            && t' == t.(people := t'.people, roles := t'.roles) && InteractionStored(cfg, t.people, t'.people, i)
            && (if i.resolved.Some? && i.guild.Some? then RolesStored(cfg.role, t.roles, t'.roles, i.guild.value, i.resolved.value.roles)
                else t'.roles == t.roles)
  {
    var t := After(cfg, events);
    InvAlways(cfg, events);
    OneMore(cfg, events, InteractionCreate(i));
    hide After, TableByTable, RolesStored, InteractionStored, InteractionPeople, StoreRoles, Chained, Available, Listed, ChannelsKeyed,
         PresencesAgree, VoiceAgrees;
    ByInteraction(cfg, t, i);
    InteractionIsStored(cfg, t.people, i);
    if i.resolved.Some? && i.guild.Some? {
      RolesAreStored(cfg.role, t.roles, i.guild.value, i.resolved.value.roles);
    }
  }

  // ------------------------------------------------------ channels, guilds, presences

  /** The channel is cached as the payload has it and listed with its guild; nothing else changes. */
  ghost predicate ChannelStored(cfg: Config, t: Channels, t': Channels, c: Channel) {
    && (c.id in t'.channels <==> cfg.channel) && (cfg.channel ==> t'.channels[c.id] == c)
    && (c.guild.Some? ==> ((c.guild.value, c.id) in t'.index <==> cfg.channel) && SameListedBut(t.index, t'.index, (c.guild.value, c.id)))
    && (c.guild.None? ==> t'.index == t.index)
    && SameBut(t.channels, t'.channels, c.id)
  }

  lemma ChannelIsStored(cfg: Config, t: Channels, c: Channel)
    requires ChannelsKeyed(cfg, t)
    ensures ChannelStored(cfg, t, CacheChannel(cfg, t, c), c)
  {
  }

  predicate BringsChannel(e: Event, c: Channel) {
    e == ChannelCreate(c) || e == ChannelUpdate(c) || e == ThreadCreate(c) || e == ThreadUpdate(c)
  }

  lemma ChannelChanged(cfg: Config, events: seq<Event>, e: Event, c: Channel)
    requires BringsChannel(e, c)
    ensures var t, t' := After(cfg, events), After(cfg, events + [e]);
            t' == t.(channels := t'.channels) && ChannelStored(cfg, t.channels, t'.channels, c)
  {
    hide After, TableByTable, Chained, Available, Listed, ChannelsKeyed, PresencesAgree, VoiceAgrees, CacheChannel, ChannelStored;
    var t := After(cfg, events);
    InvAlways(cfg, events);
    OneMore(cfg, events, e);
    ChannelTables(cfg, t, c, 0, 0, []);
    ChannelIsStored(cfg, t.channels, c);
  }

  /** The channel is forgotten, and its guild no longer lists it; nothing else changes. */
  ghost predicate ChannelGone(t: Channels, t': Channels, c: ChannelId) {
    && c !in t'.channels && SameBut(t.channels, t'.channels, c)
    && (forall k: (GuildId, ChannelId) :: k in t'.index <==> k in t.index && !(k.1 == c && c in t.channels && t.channels[c].guild == Some(k.0)))
  }

  lemma ChannelIsGone(cfg: Config, t: Channels, c: ChannelId)
    requires ChannelsKeyed(cfg, t)
    ensures ChannelGone(t, DeleteChannel(cfg, t, c), c)
  {
  }

  /** Only the last pin of a cached channel changes. */
  ghost predicate PinChanged(t: Channels, t': Channels, c: ChannelId, lastPin: int) {
    && t'.index == t.index && t'.channels.Keys == t.channels.Keys && SameBut(t.channels, t'.channels, c)
    && (c in t.channels ==> t'.channels[c] == Channel(c, t.channels[c].guild, lastPin, t.channels[c].settings))
  }

  lemma PinIsChanged(cfg: Config, t: Channels, c: ChannelId, lastPin: int)
    requires ChannelsKeyed(cfg, t)
    ensures PinChanged(t, PinsUpdate(cfg, t, c, lastPin), c, lastPin)
  {
  }

  lemma ChannelForgotten(cfg: Config, events: seq<Event>, e: Event, c: ChannelId)
    requires e == ChannelDelete(c) || e == ThreadDelete(c)
    ensures var t, t' := After(cfg, events), After(cfg, events + [e]);
            t' == t.(channels := t'.channels) && ChannelGone(t.channels, t'.channels, c)
  {
    hide After, TableByTable, Chained, Available, Listed, ChannelsKeyed, PresencesAgree, VoiceAgrees, DeleteChannel, ChannelGone;
    var t := After(cfg, events);
    InvAlways(cfg, events);
    OneMore(cfg, events, e);
    ChannelTables(cfg, t, NO_CHANNEL, c, 0, []);
    ChannelIsGone(cfg, t.channels, c);
  }

  lemma PinsUpdated(cfg: Config, events: seq<Event>, c: ChannelId, lastPin: int)
    ensures var t, t' := After(cfg, events), After(cfg, events + [ChannelPinsUpdate(c, lastPin)]);
            t' == t.(channels := t'.channels) && PinChanged(t.channels, t'.channels, c, lastPin)
  {
    hide After, TableByTable, Chained, Available, Listed, ChannelsKeyed, PresencesAgree, VoiceAgrees, PinsUpdate, PinChanged;
    var t := After(cfg, events);
    InvAlways(cfg, events);
    OneMore(cfg, events, ChannelPinsUpdate(c, lastPin));
    ChannelTables(cfg, t, NO_CHANNEL, c, lastPin, []);
    PinIsChanged(cfg, t.channels, c, lastPin);
  }

  /** One channel after the other, each stored over what the ones before it left. */
  ghost predicate ChannelsStored(cfg: Config, t: Channels, t': Channels, cs: seq<Channel>) {
    exists stages: seq<Channels> ::
      && |stages| == |cs| + 1 && stages[0] == t && stages[|cs|] == t'
      && forall i :: 0 <= i < |cs| ==> ChannelStored(cfg, stages[i], stages[i + 1], cs[i])
  }

  lemma {:induction false} ChannelsAreStored(cfg: Config, t: Channels, cs: seq<Channel>)
    requires ChannelsKeyed(cfg, t)
    ensures ChannelsStored(cfg, t, CacheChannels(cfg, t, cs), cs)
  {
    hide ChannelsKeyed, CacheChannel, ChannelStored;
    if cs == [] {
      var stages := [t];
      assert stages[0] == t;
    } else {
      var before := cs[..|cs| - 1];
      var mid := CacheChannels(cfg, t, before);
      ChannelsAreStored(cfg, t, before);
      CacheChannelsKeyed(cfg, t, before);
      ChannelIsStored(cfg, mid, cs[|cs| - 1]);
      var stages: seq<Channels> :| |stages| == |before| + 1 && stages[0] == t && stages[|before|] == mid
                                   && forall i :: 0 <= i < |before| ==> ChannelStored(cfg, stages[i], stages[i + 1], before[i]);
      var more := stages + [CacheChannels(cfg, t, cs)];
      assert more[0] == t && more[|cs|] == CacheChannels(cfg, t, cs);
      forall i | 0 <= i < |cs| ensures ChannelStored(cfg, more[i], more[i + 1], cs[i]) {
        if i < |before| { assert cs[i] == before[i] && more[i] == stages[i] && more[i + 1] == stages[i + 1]; }
      }
    }
  }

  lemma ThreadsSynced(cfg: Config, events: seq<Event>, cs: seq<Channel>)
    ensures var t, t' := After(cfg, events), After(cfg, events + [ThreadListSync(cs)]);
            t' == t.(channels := t'.channels) && ChannelsStored(cfg, t.channels, t'.channels, cs)
  {
    hide After, TableByTable, Chained, Available, Listed, ChannelsKeyed, PresencesAgree, VoiceAgrees, CacheChannels, ChannelsStored;
    var t := After(cfg, events);
    InvAlways(cfg, events);
    OneMore(cfg, events, ThreadListSync(cs));
    ChannelTables(cfg, t, NO_CHANNEL, 0, 0, cs);
    ChannelsAreStored(cfg, t.channels, cs);
  }

  /** The presence is cached as the payload has it and listed; nothing else changes. */
  ghost predicate PresenceStored(cfg: Config, t: Presences, t': Presences, g: GuildId, p: Presence) {
    && ((g, p.user) in t'.presences <==> cfg.presence) && ((g, p.user) in t'.index <==> cfg.presence)
    && (cfg.presence ==> t'.presences[(g, p.user)] == p)
    && SameBut(t.presences, t'.presences, (g, p.user)) && SameListedBut(t.index, t'.index, (g, p.user))
  }

  lemma PresenceIsStored(cfg: Config, t: Presences, g: GuildId, p: Presence)
    requires PresencesAgree(cfg, t)
    ensures PresenceStored(cfg, t, CachePresence(cfg, t, g, p), g, p)
  {
  }

  lemma PresenceUpdated(cfg: Config, events: seq<Event>, p: Presence)
    ensures var t, t' := After(cfg, events), After(cfg, events + [PresenceUpdate(p)]);
            t' == t.(presences := t'.presences) && PresenceStored(cfg, t.presences, t'.presences, p.guild, p)
  {
    var t := After(cfg, events);
    InvAlways(cfg, events);
    OneMore(cfg, events, PresenceUpdate(p));
    hide After, TableByTable, PresenceStored, CachePresence, Chained, Available, Listed, ChannelsKeyed, PresencesAgree, VoiceAgrees;
    ByPresence(cfg, t, p);
    PresenceIsStored(cfg, t.presences, p.guild, p);
  }

  /** The settings of a cached guild are replaced, and only they. */
  ghost predicate SettingsChanged(t: Guilds, t': Guilds, g: GuildId, settings: int) {
    && t'.unavailable == t.unavailable && t'.guilds.Keys == t.guilds.Keys && SameBut(t.guilds, t'.guilds, g)
    && (g in t.guilds ==> t'.guilds[g] == CachedGuild(g, t.guilds[g].memberCount, t.guilds[g].unavailable, settings, t.guilds[g].fixed))
  }

  lemma SettingsAreChanged(cfg: Config, t: Guilds, g: GuildId, settings: int)
    requires Available(cfg, t)
    ensures SettingsChanged(t, UpdateGuild(cfg, t, g, settings), g, settings)
  {
  }

  lemma GuildUpdated(cfg: Config, events: seq<Event>, g: GuildId, settings: int)
    ensures var t, t' := After(cfg, events), After(cfg, events + [GuildUpdate(g, settings)]);
            t' == t.(guilds := t'.guilds) && SettingsChanged(t.guilds, t'.guilds, g, settings)
  {
    var t := After(cfg, events);
    InvAlways(cfg, events);
    OneMore(cfg, events, GuildUpdate(g, settings));
    hide After, TableByTable, SettingsChanged, UpdateGuild, Chained, Available, Listed, ChannelsKeyed, PresencesAgree, VoiceAgrees;
    ByGuildUpdate(cfg, t, g, settings);
    SettingsAreChanged(cfg, t.guilds, g, settings);
  }

  /** A guild that becomes unavailable is listed so, and marked if it is cached; nothing else about guilds changes. */
  ghost predicate GuildMarked(cfg: Config, t: Guilds, t': Guilds, g: GuildId) {
    && (g in t'.unavailable <==> cfg.guild) && SameListedBut(t.unavailable, t'.unavailable, g)
    && t'.guilds.Keys == t.guilds.Keys && SameBut(t.guilds, t'.guilds, g)
    && (g in t.guilds ==> t'.guilds[g] == CachedGuild(g, t.guilds[g].memberCount, Some(true), t.guilds[g].settings, t.guilds[g].fixed))
  }

  lemma GuildIsMarked(cfg: Config, t: Guilds, g: GuildId)
    requires Available(cfg, t)
    ensures GuildMarked(cfg, t, LoseGuild(cfg, t, g), g)
  {
  }

  /** The users, voice states and messages that losing a guild leaves, and the guild tables after it. */
  lemma GuildLeft(cfg: Config, events: seq<Event>, e: Event, g: GuildId)
    requires LosesOnly(e, g)
    ensures var t, t' := After(cfg, events), After(cfg, events + [e]);
            && t'.window == t.window && t'.currentUser == t.currentUser
            && (if e.GuildDelete? then
                  g !in t'.guilds.guilds && SameBut(t.guilds.guilds, t'.guilds.guilds, g) && t'.guilds.unavailable == t.guilds.unavailable
                else GuildMarked(cfg, t.guilds, t'.guilds, g))
  {
    var t := After(cfg, events);
    InvAlways(cfg, events);
    AfterSnoc(cfg, events, e);
    hide After, GuildMarked, Chained, Listed, ChannelsKeyed, PresencesAgree, VoiceAgrees, TableByTable, DeleteGuildChannels,
         DeleteGuildOwned, DeleteGuildVoice, DeleteGuildMembers, DeleteGuildPresences, LoseGuild;
    GuildIsMarked(cfg, t.guilds, g);
  }

  /** What losing this guild leaves alone: everything that belongs to others. */
  ghost predicate OthersStay(t: Tables, t': Tables, g: GuildId) {
    && (forall k :: k in t.people.members && k.0 != g ==> k in t'.people.members && t'.people.members[k] == t.people.members[k])
    && (forall k :: k in t.presences.presences && k.0 != g ==>
          k in t'.presences.presences && t'.presences.presences[k] == t.presences.presences[k])
    && (forall c :: c in t.channels.channels && (g, c) !in t.channels.index ==>
          c in t'.channels.channels && t'.channels.channels[c] == t.channels.channels[c])
    && Survive(t.emojis, t'.emojis, g) && Survive(t.stickers, t'.stickers, g) && Survive(t.roles, t'.roles, g)
    && (forall k :: k in t.voice.guilds && k.0 != g ==> k in t'.voice.guilds)
  }

  ghost predicate Survive<V>(o: Owned<V>, o': Owned<V>, g: GuildId) {
    forall id :: id in o.table && (g, id) !in o.index ==> id in o'.table && o'.table[id] == o.table[id]
  }

  lemma OthersDoStay(cfg: Config, t: Tables, g: GuildId, guilds: Guilds)
    ensures OthersStay(t, ForgetGuild(cfg, t, g, guilds), g)
  {
  }

  lemma LosingLeavesOthers(cfg: Config, events: seq<Event>, e: Event, g: GuildId)
    requires LosesOnly(e, g)
    ensures OthersStay(After(cfg, events), After(cfg, events + [e]), g)
  {
    AfterSnoc(cfg, events, e);
    var t := After(cfg, events);
    hide After, OthersStay, ForgetGuild, GuildLost, TableByTable;
    LosingForgets(cfg, t, e, g);
    hide Update;
    OthersDoStay(cfg, t, g, Update(cfg, t, e).guilds);
  }

  /** What a lost guild leaves in the indexes: nothing of its members, presences and voice states. */
  ghost predicate Cleared(t: Tables, g: GuildId) {
    forall u :: (g, u) !in t.people.guildMembers && (g, u) !in t.presences.index && (g, u) !in t.voice.guilds
  }

  ghost predicate OwnedIndexesKept(t: Tables, t': Tables) {
    && t'.channels.index == t.channels.index && t'.emojis.index == t.emojis.index && t'.stickers.index == t.stickers.index
    && t'.roles.index == t.roles.index
  }

  lemma ForgottenIsCleared(cfg: Config, t: Tables, g: GuildId, guilds: Guilds)
    requires Inv(cfg, t)
    ensures Cleared(ForgetGuild(cfg, t, g, guilds), g) && OwnedIndexesKept(t, ForgetGuild(cfg, t, g, guilds))
  {
    hide Listed, Available, ChannelsKeyed;
  }

  lemma StaysCleared(cfg: Config, t: Tables, g: GuildId, h: GuildId, guilds: Guilds)
    requires Cleared(t, g)
    ensures Cleared(ForgetGuild(cfg, t, h, guilds), g)
  {
  }

  lemma {:induction false} AllCleared(cfg: Config, t: Tables, gs: seq<GuildId>)
    requires Inv(cfg, t)
    ensures OwnedIndexesKept(t, GuildsLost(cfg, t, gs)) && forall g :: g in gs ==> Cleared(GuildsLost(cfg, t, gs), g)
  {
    if gs != [] {
      var before, last := gs[..|gs| - 1], gs[|gs| - 1];
      var mid := GuildsLost(cfg, t, before);
      AllCleared(cfg, t, before);
      AllLostKept(cfg, t, before);
      var guilds := LoseGuild(cfg, mid.guilds, last);
      hide Inv, Cleared, ForgetGuild, LoseGuild;
      ForgottenIsCleared(cfg, mid, last, guilds);
      forall g | g in gs ensures Cleared(GuildsLost(cfg, t, gs), g) {
        assert gs == before + [last];
        if g != last { StaysCleared(cfg, mid, g, last, guilds); }
      }
    }
  }

  /**
   * Losing a guild, alone or with others, clears its entries in the indexes of members, presences and voice states, and
   * leaves the indexes of channels, emojis, stickers and roles as they were.
   */
  lemma LosingClears(cfg: Config, events: seq<Event>, e: Event, g: GuildId)
    requires Loses(e, g)
    ensures Cleared(After(cfg, events + [e]), g) && OwnedIndexesKept(After(cfg, events), After(cfg, events + [e]))
  {
    InvAlways(cfg, events);
    AfterSnoc(cfg, events, e);
    var t := After(cfg, events);
    hide After, Inv, Cleared, ForgetGuild, GuildLost, GuildsLost, TableByTable;
    if e.Ready? {
      CurrentUserKept(cfg, t, e.userId);
      AllCleared(cfg, SetCurrentUser(cfg, t, e.userId), e.guildIds);
    } else {
      LosingForgets(cfg, t, e, g);
      hide Update;
      ForgottenIsCleared(cfg, t, g, Update(cfg, t, e).guilds);
    }
  }

  /** The members and presences of all other guilds stay when several are lost at once. */
  ghost predicate GuildsStay(t: Tables, t': Tables, gs: seq<GuildId>) {
    && (forall k :: k in t.people.members && k.0 !in gs ==> k in t'.people.members && t'.people.members[k] == t.people.members[k])
    && (forall k :: k in t.presences.presences && k.0 !in gs ==>
          k in t'.presences.presences && t'.presences.presences[k] == t.presences.presences[k])
    && t'.people.users == t.people.users && t'.people.userGuilds == t.people.userGuilds && t'.window == t.window
  }

  lemma {:induction false} GuildsDoStay(cfg: Config, t: Tables, gs: seq<GuildId>)
    ensures GuildsStay(t, GuildsLost(cfg, t, gs), gs)
  {
    if gs != [] {
      var before, last := gs[..|gs| - 1], gs[|gs| - 1];
      var mid := GuildsLost(cfg, t, before);
      GuildsDoStay(cfg, t, before);
      assert forall g :: g in gs <==> g in before || g == last by { assert gs == before + [last]; }
      OthersDoStay(cfg, mid, last, LoseGuild(cfg, mid.guilds, last));
      hide DeleteGuildChannels, DeleteGuildOwned, DeleteGuildVoice, LoseGuild, DeleteGuildPresences;
    }
  }

  lemma ReadyLeavesOthers(cfg: Config, events: seq<Event>, u: UserId, gs: seq<GuildId>)
    ensures GuildsStay(After(cfg, events), After(cfg, events + [Ready(u, gs)]), gs)
  {
    AfterSnoc(cfg, events, Ready(u, gs));
    var t := After(cfg, events);
    hide After, TableByTable, GuildsLost;
    GuildsDoStay(cfg, SetCurrentUser(cfg, t, u), gs);
  }

  /** The current user, if wanted, is the one last told of. */
  lemma CurrentUserUpdated(cfg: Config, events: seq<Event>, u: UserId, gs: seq<GuildId>)
    ensures var t, t' := After(cfg, events), After(cfg, events + [UserUpdate(u)]);
            t' == t.(currentUser := if cfg.userCurrent then Some(u) else t.currentUser)
    ensures After(cfg, events + [Ready(u, gs)]).currentUser == if cfg.userCurrent then Some(u) else After(cfg, events).currentUser
  {
    AfterSnoc(cfg, events, UserUpdate(u));
    AfterSnoc(cfg, events, Ready(u, gs));
    var t := After(cfg, events);
    hide After, TableByTable, GuildsLost;
    LostKeepCurrentUser(cfg, SetCurrentUser(cfg, t, u), gs);
  }

  lemma {:induction false} LostKeepCurrentUser(cfg: Config, t: Tables, gs: seq<GuildId>)
    ensures GuildsLost(cfg, t, gs).currentUser == t.currentUser
  {
    if gs != [] {
      LostKeepCurrentUser(cfg, t, gs[..|gs| - 1]);
    }
  }

  /** After a start every guild of the session is listed as unavailable, if guilds are wanted. */
  lemma ReadyMarks(cfg: Config, events: seq<Event>, u: UserId, gs: seq<GuildId>, g: GuildId)
    requires cfg.guild && g in gs
    ensures var t := After(cfg, events + [Ready(u, gs)]).guilds;
            g in t.unavailable && (g in t.guilds ==> t.guilds[g].unavailable == Some(true))
  {
    InvAlways(cfg, events + [Ready(u, gs)]);
    AfterSnoc(cfg, events, Ready(u, gs));
    hide After, Chained, Listed, ChannelsKeyed, PresencesAgree, VoiceAgrees, TableByTable;
    AllMarked(cfg, SetCurrentUser(cfg, After(cfg, events), u), gs, g);
  }

  lemma {:induction false} AllMarked(cfg: Config, t: Tables, gs: seq<GuildId>, g: GuildId)
    requires cfg.guild && g in gs
    ensures g in GuildsLost(cfg, t, gs).guilds.unavailable
  {
    var before, last := gs[..|gs| - 1], gs[|gs| - 1];
    assert gs == before + [last];
    if g != last { AllMarked(cfg, t, before, g); }
  }

  // --------------------------------------------------------------- voice states

  /** The voice state is cached field by field, or forgotten if it has no channel; nobody else's changes. */
  ghost predicate VoiceStored(cfg: Config, t: Voice, t': Voice, v: VoiceState) {
    if v.guild.None? then t' == t
    else
      var key := (v.guild.value, v.user);
      && (key in t'.states <==> cfg.voiceState && v.channel.Some?)
      && (key in t'.states ==> t'.states[key] == CachedVoiceState(v.channel.value, v.guild.value, v.user, v.flags))
      && (key in t'.guilds <==> cfg.voiceState && v.channel.Some?)
      && SameBut(t.states, t'.states, key) && SameListedBut(t.guilds, t'.guilds, key)
      && forall c, k :: (c, k) in t'.channels <==> if k == key then cfg.voiceState && v.channel == Some(c) else (c, k) in t.channels
  }

  lemma VoiceIsStored(cfg: Config, t: Voice, v: VoiceState)
    requires VoiceAgrees(cfg, t)
    ensures VoiceStored(cfg, t, CacheVoiceState(cfg, t, v), v)
  {
  }

  /** A voice state update stores the state, and the member it brings. */
  lemma VoiceUpdated(cfg: Config, events: seq<Event>, v: VoiceState, m: Option<Member>)
    ensures var t, t' := After(cfg, events), After(cfg, events + [VoiceStateUpdate(v, m)]);
            && t' == t.(people := t'.people, voice := t'.voice) && VoiceStored(cfg, t.voice, t'.voice, v)
            && (if v.guild.Some? && m.Some? then MemberStored(cfg, t.people, t'.people, v.guild.value, m.value) else t'.people == t.people)
  {
    hide After, TableByTable, PeopleAfter, VoiceStored, MemberStored, CacheVoiceState, CacheMember, Chained, Available, Listed,
         ChannelsKeyed, PresencesAgree, VoiceAgrees;
    var t := After(cfg, events);
    InvAlways(cfg, events);
    OneMore(cfg, events, VoiceStateUpdate(v, m));
    ByVoiceState(cfg, t, v, m);
    VoicePeople(cfg, t.people, t.stickers, v, m);
    VoiceIsStored(cfg, t.voice, v);
    if v.guild.Some? && m.Some? {
      MemberIsStored(cfg, t.people, v.guild.value, m.value);
    }
  }

  lemma VoicePeople(cfg: Config, p: People, o: Owned<CachedSticker>, v: VoiceState, m: Option<Member>)
    ensures PeopleAfter(cfg, p, o, VoiceStateUpdate(v, m))
         == if v.guild.Some? && m.Some? then CacheMember(cfg, p, v.guild.value, m.value) else p
  {
    hide CacheMember, CacheMembers, CacheAuthor, RemoveMember, UpdateMember, EmojiUsers, SyncStickerUsers, InteractionPeople;
  }

  lemma NothingElsewhere(cfg: Config, events: seq<Event>)
    ensures After(cfg, events + [Elsewhere]) == After(cfg, events)
  {
    OneMore(cfg, events, Elsewhere);
    hide After, TableByTable;
    ByOther(cfg, After(cfg, events), Elsewhere);
  }
}
