/** Users, members and the two indexes between them. */
module CachePeople {
  import opened Base
  import opened CacheTables

  datatype User = User(id: UserId, profile: int)

  /**
   * The fields of a member by who compares them: `seen` and `premium` by all three payload equalities, `timeout` by
   * those of full and partial members, `avatar` and `pending` by that of full members, `unseen` by none.
   */
  datatype CachedMember = CachedMember(user: UserId, seen: int, premium: int, timeout: int, avatar: int, pending: bool,
                                       deaf: Option<bool>, mute: Option<bool>, unseen: int)

  datatype Member = Member(user: User, seen: int, premium: int, timeout: int, avatar: int, pending: bool, deaf: bool, mute: bool, unseen: int)

  datatype PartialMember = PartialMember(user: Option<User>, seen: int, premium: int, timeout: int, avatar: int, deaf: bool, mute: bool, unseen: int)

  /** The member part of a resolved interaction; what it does not say is kept from the cached member. */
  datatype InteractionMember = InteractionMember(seen: int, premium: int, timeout: int, pending: bool, unseen: int)

  /** A member update; it replaces `seen`, but not `premium` and `unseen`. */
  datatype MemberChange = MemberChange(guild: GuildId, user: User, seen: int, timeout: int, avatar: int, pending: bool,
                                       deaf: Option<bool>, mute: Option<bool>)

  const NO_AVATAR: int := 0

  function FromMember(m: Member): CachedMember {
    CachedMember(m.user.id, m.seen, m.premium, m.timeout, m.avatar, m.pending, Some(m.deaf), Some(m.mute), m.unseen)
  }

  function FromPartial(u: UserId, m: PartialMember): CachedMember {
    CachedMember(if m.user.Some? then m.user.value.id else u, m.seen, m.premium, m.timeout, m.avatar, false, Some(m.deaf), Some(m.mute), m.unseen)
  }

  function FromInteraction(u: UserId, m: InteractionMember, before: Option<CachedMember>): CachedMember {
    match before
    case None => CachedMember(u, m.seen, m.premium, m.timeout, NO_AVATAR, m.pending, None, None, m.unseen)
    case Some(c) => CachedMember(u, m.seen, m.premium, m.timeout, c.avatar, m.pending, c.deaf, c.mute, m.unseen)
  }

  predicate EqMember(c: CachedMember, m: Member) {
    && c.avatar == m.avatar && c.timeout == m.timeout && c.deaf == Some(m.deaf) && c.mute == Some(m.mute)
    && c.pending == m.pending && c.seen == m.seen && c.premium == m.premium && c.user == m.user.id
  }

  predicate EqPartial(c: CachedMember, m: PartialMember) {
    c.timeout == m.timeout && c.deaf == Some(m.deaf) && c.mute == Some(m.mute) && c.seen == m.seen && c.premium == m.premium
  }

  predicate EqInteraction(c: CachedMember, m: InteractionMember) {
    c.seen == m.seen && c.premium == m.premium
  }

  function Or<T>(a: Option<T>, b: Option<T>): Option<T> {
    if a.Some? then a else b
  }

  function Updated(c: CachedMember, m: MemberChange): CachedMember {
    c.(avatar := m.avatar, deaf := Or(m.deaf, c.deaf), mute := Or(m.mute, c.mute), seen := m.seen,
       pending := m.pending, timeout := m.timeout)
  }

  datatype People = People(users: map<UserId, User>, userGuilds: set<(UserId, GuildId)>,
                           members: map<(GuildId, UserId), CachedMember>, guildMembers: set<(GuildId, UserId)>)

  const NOBODY := People(map[], {}, map[], {})

  // --------------------------------------------------------------- operations

  function CacheUser(cfg: Config, p: People, user: User, guild: Option<GuildId>): People {
    p.(users := Put(cfg.user, p.users, user.id, user),
       userGuilds := if guild.Some? then Link(cfg.user, p.userGuilds, user.id, guild.value) else p.userGuilds)
  }

  function StoreMember(cfg: Config, p: People, g: GuildId, u: UserId, c: CachedMember): People {
    p.(members := Put(cfg.member, p.members, (g, u), c), guildMembers := Link(cfg.member, p.guildMembers, g, u))
  }

  function CacheMember(cfg: Config, p: People, g: GuildId, m: Member): People {
    var id := (g, m.user.id);
    if id in p.members && EqMember(p.members[id], m) then p
    else StoreMember(cfg, CacheUser(cfg, p, m.user, Some(g)), g, m.user.id, FromMember(m))
  }

  function CacheMembers(cfg: Config, p: People, g: GuildId, ms: seq<Member>): People {
    if ms == [] then p else CacheMember(cfg, CacheMembers(cfg, p, g, ms[..|ms| - 1]), g, ms[|ms| - 1])
  }

  function CachePartialMember(cfg: Config, p: People, g: GuildId, m: PartialMember, u: UserId): People {
    if (g, u) in p.members && EqPartial(p.members[(g, u)], m) then p
    else StoreMember(cfg, p, g, u, FromPartial(u, m))
  }

  function CacheInteractionMember(cfg: Config, p: People, g: GuildId, m: InteractionMember, u: UserId): People {
    if (g, u) in p.members then
      if EqInteraction(p.members[(g, u)], m) then p
      else StoreMember(cfg, p, g, u, FromInteraction(u, m, Some(p.members[(g, u)])))
    else StoreMember(cfg, p, g, u, FromInteraction(u, m, None))
  }

  function RemoveMember(cfg: Config, p: People, g: GuildId, u: UserId): People {
    var userGuilds := Unlink(cfg.user, p.userGuilds, u, g);
    People(if !IsEmpty(cfg.user, userGuilds, u) then Remove(cfg.user, p.users, u) else p.users, userGuilds,
           Remove(cfg.member, p.members, (g, u)), Unlink(cfg.member, p.guildMembers, g, u))
  }

  function UpdateMember(cfg: Config, p: People, m: MemberChange): People {
    var key := (m.guild, m.user.id);
    if key !in p.members then p
    else
      CacheUser(cfg, p.(members := Put(cfg.member, p.members, key, Updated(p.members[key], m))), m.user, Some(m.guild))
  }

  /** Deleting a guild removes its members, but nobody's user. */
  function DeleteGuildMembers(cfg: Config, p: People, g: GuildId): People {
    var keys := set u | u in Members(p.guildMembers, g) :: (g, u);
    p.(members := RemoveAll(cfg.member, p.members, keys), guildMembers := Clear(cfg.member, p.guildMembers, g))
  }

  /** The author of a message, and how the message describes its membership. */
  function CacheAuthor(cfg: Config, p: People, author: User, guild: Option<GuildId>, member: Option<PartialMember>): People {
    var p := CacheUser(cfg, p, author, guild);
    if member.Some? && guild.Some? then CachePartialMember(cfg, p, guild.value, member.value, author.id) else p
  }

  /** One resolved user of an interaction, with the member if there is one. */
  function CacheResolvedUser(cfg: Config, p: People, user: User, guild: Option<GuildId>, members: map<UserId, InteractionMember>): People {
    var p := CacheUser(cfg, p, user, guild);
    if guild.Some? && user.id in members then CacheInteractionMember(cfg, p, guild.value, members[user.id], user.id) else p
  }

  function CacheResolvedUsers(cfg: Config, p: People, users: seq<User>, guild: Option<GuildId>,
                              members: map<UserId, InteractionMember>): People {
    if users == [] then p
    else CacheResolvedUser(cfg, CacheResolvedUsers(cfg, p, users[..|users| - 1], guild, members), users[|users| - 1], guild, members)
  }

  // ---------------------------------------------------------------- invariant

  /**
   * Members and their guild's index agree; whoever is a member is listed with the guild, if users are wanted;
   * and whoever is listed with a guild is a cached user.
   */
  ghost predicate Chained(cfg: Config, p: People) {
    && (forall k :: k in p.members <==> k in p.guildMembers)
    && (cfg.user ==> forall k :: k in p.members ==> (k.1, k.0) in p.userGuilds)
    && (forall k :: k in p.userGuilds ==> k.0 in p.users)
    && (forall u :: u in p.users ==> p.users[u].id == u)
    && (cfg.member || p.members == map[])
    && (cfg.user || (p.users == map[] && p.userGuilds == {}))
  }

  lemma CacheUserChained(cfg: Config, p: People, user: User, guild: Option<GuildId>)
    requires Chained(cfg, p)
    ensures Chained(cfg, CacheUser(cfg, p, user, guild))
    ensures cfg.user && guild.Some? ==> (user.id, guild.value) in CacheUser(cfg, p, user, guild).userGuilds
  {
  }

  lemma CacheMemberChained(cfg: Config, p: People, g: GuildId, m: Member)
    requires Chained(cfg, p)
    ensures Chained(cfg, CacheMember(cfg, p, g, m))
  {
  }

  lemma {:induction false} CacheMembersChained(cfg: Config, p: People, g: GuildId, ms: seq<Member>)
    requires Chained(cfg, p)
    ensures Chained(cfg, CacheMembers(cfg, p, g, ms))
  {
    hide Chained;
    if ms != [] {
      CacheMembersChained(cfg, p, g, ms[..|ms| - 1]);
      CacheMemberChained(cfg, CacheMembers(cfg, p, g, ms[..|ms| - 1]), g, ms[|ms| - 1]);
    }
  }

  lemma PartialMemberChained(cfg: Config, p: People, g: GuildId, m: PartialMember, u: UserId)
    requires Chained(cfg, p) && (cfg.user ==> (u, g) in p.userGuilds)
    ensures Chained(cfg, CachePartialMember(cfg, p, g, m, u))
  {
  }

  lemma AuthorChained(cfg: Config, p: People, author: User, guild: Option<GuildId>, member: Option<PartialMember>)
    requires Chained(cfg, p)
    ensures Chained(cfg, CacheAuthor(cfg, p, author, guild, member))
  {
  }

  lemma ResolvedUserChained(cfg: Config, p: People, user: User, guild: Option<GuildId>, members: map<UserId, InteractionMember>)
    requires Chained(cfg, p)
    ensures Chained(cfg, CacheResolvedUser(cfg, p, user, guild, members))
  {
  }

  lemma {:induction false} ResolvedUsersChained(cfg: Config, p: People, users: seq<User>, guild: Option<GuildId>,
                                                members: map<UserId, InteractionMember>)
    requires Chained(cfg, p)
    ensures Chained(cfg, CacheResolvedUsers(cfg, p, users, guild, members))
  {
    hide Chained;
    if users != [] {
      ResolvedUsersChained(cfg, p, users[..|users| - 1], guild, members);
      ResolvedUserChained(cfg, CacheResolvedUsers(cfg, p, users[..|users| - 1], guild, members), users[|users| - 1], guild, members);
    }
  }

  lemma RemoveMemberChained(cfg: Config, p: People, g: GuildId, u: UserId)
    requires Chained(cfg, p)
    ensures Chained(cfg, RemoveMember(cfg, p, g, u))
  {
  }

  lemma UpdateMemberChained(cfg: Config, p: People, m: MemberChange)
    requires Chained(cfg, p)
    ensures Chained(cfg, UpdateMember(cfg, p, m))
  {
  }

  lemma DeleteGuildChained(cfg: Config, p: People, g: GuildId)
    requires Chained(cfg, p)
    ensures Chained(cfg, DeleteGuildMembers(cfg, p, g))
    ensures forall u :: (g, u) !in DeleteGuildMembers(cfg, p, g).members && (g, u) !in DeleteGuildMembers(cfg, p, g).guildMembers
  {
  }

  // ----------------------------------------------------------------- theorems

  /** Removing a member drops the user exactly when no other guild still lists it. */
  lemma RemoveMemberDropsIff(cfg: Config, p: People, g: GuildId, u: UserId)
    requires Chained(cfg, p) && u in p.users
    ensures u !in RemoveMember(cfg, p, g, u).users <==> forall h :: (u, h) in p.userGuilds ==> h == g
    ensures forall v :: v != u ==> (v in RemoveMember(cfg, p, g, u).users <==> v in p.users)
  {
  }

  /**
   * Comparing the member before writing it does change what is stored: precisely when the payload differs in a
   * field that its equality does not look at.
   */
  lemma MemberFastPathIff(cfg: Config, p: People, g: GuildId, m: Member)
    requires cfg.member && Chained(cfg, p)
    ensures CacheMember(cfg, p, g, m).members[(g, m.user.id)] == FromMember(m)
       <==> !((g, m.user.id) in p.members && EqMember(p.members[(g, m.user.id)], m) && p.members[(g, m.user.id)].unseen != m.unseen)
  {
  }

  /** A conversion's value is accepted by its own equality: caching a member a second time changes nothing. */
  lemma MemberTwice(cfg: Config, p: People, g: GuildId, m: Member)
    requires Chained(cfg, p)
    ensures CacheMember(cfg, CacheMember(cfg, p, g, m), g, m) == CacheMember(cfg, p, g, m)
  {
  }

  lemma PartialMemberTwice(cfg: Config, p: People, g: GuildId, m: PartialMember, u: UserId)
    ensures CachePartialMember(cfg, CachePartialMember(cfg, p, g, m, u), g, m, u) == CachePartialMember(cfg, p, g, m, u)
  {
  }

  lemma InteractionMemberTwice(cfg: Config, p: People, g: GuildId, m: InteractionMember, u: UserId)
    ensures CacheInteractionMember(cfg, CacheInteractionMember(cfg, p, g, m, u), g, m, u) == CacheInteractionMember(cfg, p, g, m, u)
  {
  }

  /** A full member that says what an update said before it. */
  predicate Agrees(c: CachedMember, change: MemberChange, m: Member) {
    && c.user == change.user.id == m.user.id && m.seen == change.seen && m.timeout == change.timeout
    && m.avatar == change.avatar && m.pending == change.pending
    && Or(change.deaf, c.deaf) == Some(m.deaf) && Or(change.mute, c.mute) == Some(m.mute)
  }

  /**
   * Caching such a member after the update stores it unless the fast path takes it as cached, which happens exactly if
   * the premium date, which updates do not touch, is the cached one; then the uncompared fields stay as they were.
   */
  lemma UpdateThenMemberIff(cfg: Config, p: People, change: MemberChange, m: Member)
    requires cfg.member && Chained(cfg, p)
    requires (change.guild, m.user.id) in p.members && Agrees(p.members[(change.guild, m.user.id)], change, m)
    ensures var key := (change.guild, m.user.id);
            CacheMember(cfg, UpdateMember(cfg, p, change), change.guild, m).members[key] == FromMember(m)
            <==> p.members[key].premium != m.premium || p.members[key].unseen == m.unseen
  {
  }

  /** After a guild was deleted its former member stays listed with it, so removing it elsewhere keeps the user. */
  lemma DeletedGuildKeepsUsers(cfg: Config, p: People, g: GuildId, h: GuildId, u: UserId)
    requires Chained(cfg, p) && cfg.user && g != h && (g, u) in p.members
    ensures var q := RemoveMember(cfg, DeleteGuildMembers(cfg, p, g), h, u);
            && u in q.users
            && (q.users[u] == p.users[u])
            && forall k :: k in q.members && k.1 == u ==> k.0 != g && k.0 != h
  {
  }
}
