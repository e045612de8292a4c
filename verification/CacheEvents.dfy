/** The gateway events, and what each does to every table of the cache. */
module CacheEvents {
  import opened Base
  import opened CacheTables
  import opened CachePeople
  import opened CacheOwned
  import opened CacheMessages
  import opened CacheGuilds

  datatype Tables = Tables(people: People, emojis: Owned<CachedEmoji>, stickers: Owned<CachedSticker>, roles: Owned<Role>,
                           guilds: Guilds, channels: Channels, presences: Presences, voice: Voice, window: Window,
                           currentUser: Option<UserId>)

  const EMPTY := Tables(NOBODY, Owned(map[], {}), Owned(map[], {}), Owned(map[], {}), Guilds(map[], {}),
                        Channels(map[], {}), Presences(map[], {}), Voice(map[], {}, {}), Window(map[], map[]), None)

  /** An arriving guild with everything it brings. */
  datatype Guild = Guild(guild: CachedGuild, channels: seq<Channel>, threads: seq<Channel>, emojis: seq<Emoji>,
                         members: seq<Member>, presences: seq<Presence>, roles: seq<Role>, stickers: seq<Sticker>,
                         voiceStates: seq<VoiceState>)

  datatype Message = Message(message: CachedMessage, author: User, guild: Option<GuildId>, member: Option<PartialMember>)

  /** The users, members and roles an application command refers to; users and roles come in any order. */
  datatype Resolved = Resolved(users: seq<User>, members: map<UserId, InteractionMember>, roles: seq<Role>)

  datatype Interaction = Interaction(guild: Option<GuildId>, member: Option<PartialMember>, user: Option<User>,
                                     resolved: Option<Resolved>)

  datatype Event =
    | ChannelCreate(channel: Channel)
    | ChannelDelete(channelId: ChannelId)
    | ChannelPinsUpdate(channelId: ChannelId, lastPin: int)
    | ChannelUpdate(channel: Channel)
    | GuildCreate(guild: Guild)
    | GuildCreateUnavailable(guildId: GuildId)
    | GuildDelete(guildId: GuildId)
    | GuildEmojisUpdate(guildId: GuildId, emojis: seq<Emoji>)
    | GuildStickersUpdate(guildId: GuildId, stickers: seq<Sticker>)
    | GuildUpdate(guildId: GuildId, settings: int)
    | InteractionCreate(interaction: Interaction)
    | MemberAdd(guildId: GuildId, member: Member)
    | MemberRemove(guildId: GuildId, userId: UserId)
    | MemberUpdate(change: MemberChange)
    | MemberChunk(guildId: GuildId, members: seq<Member>)
    | MessageCreate(message: Message)
    | MessageDelete(channelId: ChannelId, messageId: MessageId)
    | MessageDeleteBulk(channelId: ChannelId, messageIds: seq<MessageId>)
    | MessageUpdate(message: Message)
    | PresenceUpdate(presence: Presence)
    | ReactionAdd(messageId: MessageId, userId: UserId, emoji: ReactionEmoji)
    | ReactionRemove(messageId: MessageId, userId: UserId, emoji: ReactionEmoji)
    | ReactionRemoveAll(messageId: MessageId)
    | ReactionRemoveEmoji(messageId: MessageId, emoji: ReactionEmoji)
    | Ready(userId: UserId, guildIds: seq<GuildId>)
    | RoleCreate(guildId: GuildId, role: Role)
    | RoleDelete(guildId: GuildId, roleId: RoleId)
    | RoleUpdate(guildId: GuildId, role: Role)
    | ThreadCreate(channel: Channel)
    | ThreadUpdate(channel: Channel)
    | ThreadDelete(channelId: ChannelId)
    | ThreadListSync(threads: seq<Channel>)
    | UnavailableGuild(guildId: GuildId)
    | UserUpdate(userId: UserId)
    | VoiceStateUpdate(voiceState: VoiceState, voiceMember: Option<Member>)
    | Elsewhere

  // ------------------------------------------- users that come with other things

  function CacheSomeUser(cfg: Config, p: People, user: Option<User>, g: GuildId): People {
    if user.Some? then CacheUser(cfg, p, user.value, Some(g)) else p
  }

  /** The creator of an emoji is cached whether or not the emoji changes. */
  function EmojiUsers(cfg: Config, p: People, g: GuildId, emojis: seq<Emoji>): People {
    if emojis == [] then p
    else CacheSomeUser(cfg, EmojiUsers(cfg, p, g, emojis[..|emojis| - 1]), emojis[|emojis| - 1].user, g)
  }

  predicate Unchanged(o: Owned<CachedSticker>, s: Sticker) {
    s.id in o.table && o.table[s.id].value == FromSticker(s)
  }

  /** The creator of a sticker is cached only if the sticker changes. */
  function StickerUsers(cfg: Config, p: People, o: Owned<CachedSticker>, g: GuildId, stickers: seq<Sticker>): People {
    if stickers == [] then p
    else
      var before, s := stickers[..|stickers| - 1], stickers[|stickers| - 1];
      var q := StickerUsers(cfg, p, o, g, before);
      if Unchanged(StoreAll(cfg.sticker, o, g, StickerEntries(before)), s) then q else CacheSomeUser(cfg, q, s.user, g)
  }

  /** The creators cached while synchronising stickers: what is missing from the payload is dropped first. */
  function SyncStickerUsers(cfg: Config, p: People, o: Owned<CachedSticker>, g: GuildId, stickers: seq<Sticker>): People {
    StickerUsers(cfg, p, DropMissing(cfg.sticker, o, g, IdsOf(StickerEntries(stickers))), g, stickers)
  }

  function CacheInvoker(cfg: Config, p: People, i: Interaction): People {
    if i.guild.Some? && i.member.Some? && i.member.value.user.Some? then
      var user := i.member.value.user.value;
      CachePartialMember(cfg, CacheUser(cfg, p, user, i.guild), i.guild.value, i.member.value, user.id)
    else p
  }

  function InteractionPeople(cfg: Config, p: People, i: Interaction): People {
    var p := CacheInvoker(cfg, p, i);
    var p := if i.user.Some? then CacheUser(cfg, p, i.user.value, None) else p;
    if i.resolved.Some? then CacheResolvedUsers(cfg, p, i.resolved.value.users, i.guild, i.resolved.value.members) else p
  }

  // ------------------------------------------------------------- table by table

  function PeopleAfter(cfg: Config, p: People, stickers: Owned<CachedSticker>, e: Event): People {
    match e
    case GuildCreate(g) =>
      var id := g.guild.id;
      SyncStickerUsers(cfg, CacheMembers(cfg, EmojiUsers(cfg, p, id, g.emojis), id, g.members), stickers, id, g.stickers)
    case GuildEmojisUpdate(g, emojis) => EmojiUsers(cfg, p, g, emojis)
    case GuildStickersUpdate(g, payload) => SyncStickerUsers(cfg, p, stickers, g, payload)
    case InteractionCreate(i) => InteractionPeople(cfg, p, i)
    case MemberAdd(g, m) => CacheMember(cfg, p, g, m)
    case MemberRemove(g, u) => RemoveMember(cfg, p, g, u)
    case MemberUpdate(m) => UpdateMember(cfg, p, m)
    case MemberChunk(g, ms) => CacheMembers(cfg, p, g, ms)
    case MessageCreate(m) => CacheAuthor(cfg, p, m.author, m.guild, m.member)
    case MessageUpdate(m) => CacheAuthor(cfg, p, m.author, m.guild, m.member)
    case VoiceStateUpdate(v, m) => if v.guild.Some? && m.Some? then CacheMember(cfg, p, v.guild.value, m.value) else p
    case _ => p
  }

  function EmojisAfter(cfg: Config, o: Owned<CachedEmoji>, e: Event): Owned<CachedEmoji> {
    match e
    case GuildCreate(g) => Sync(cfg.emoji, o, g.guild.id, EmojiEntries(g.emojis))
    case GuildEmojisUpdate(g, emojis) => Sync(cfg.emoji, o, g, EmojiEntries(emojis))
    case _ => o
  }

  function StickersAfter(cfg: Config, o: Owned<CachedSticker>, e: Event): Owned<CachedSticker> {
    match e
    case GuildCreate(g) => Sync(cfg.sticker, o, g.guild.id, StickerEntries(g.stickers))
    case GuildStickersUpdate(g, stickers) => Sync(cfg.sticker, o, g, StickerEntries(stickers))
    case _ => o
  }

  function RolesAfter(cfg: Config, o: Owned<Role>, e: Event): Owned<Role> {
    match e
    case GuildCreate(g) => StoreRoles(cfg.role, o, g.guild.id, g.roles)
    case InteractionCreate(i) =>
      if i.resolved.Some? && i.guild.Some? then StoreRoles(cfg.role, o, i.guild.value, i.resolved.value.roles) else o
    case RoleCreate(g, role) => Store(cfg.role, o, g, role.id, role)
    case RoleUpdate(g, role) => Store(cfg.role, o, g, role.id, role)
    case RoleDelete(g, id) => Drop(cfg.role, o, g, id)
    case _ => o
  }

  function GuildsAfter(cfg: Config, t: Guilds, e: Event): Guilds {
    match e
    case GuildCreate(g) => GuildArrived(cfg, t, g.guild)
    case GuildUpdate(g, settings) => UpdateGuild(cfg, t, g, settings)
    case MemberAdd(g, _) => CountMember(cfg, t, g, true)
    case MemberRemove(g, _) => CountMember(cfg, t, g, false)
    case _ => t
  }

  function ChannelsAfter(cfg: Config, t: Channels, e: Event): Channels {
    match e
    case ChannelCreate(c) => CacheChannel(cfg, t, c)
    case ChannelUpdate(c) => CacheChannel(cfg, t, c)
    case ChannelDelete(c) => DeleteChannel(cfg, t, c)
    case ChannelPinsUpdate(c, lastPin) => PinsUpdate(cfg, t, c, lastPin)
    case ThreadCreate(c) => CacheChannel(cfg, t, c)
    case ThreadUpdate(c) => CacheChannel(cfg, t, c)
    case ThreadDelete(c) => DeleteChannel(cfg, t, c)
    case ThreadListSync(cs) => CacheChannels(cfg, t, cs)
    case GuildCreate(g) => GuildChannelsArrived(cfg, t, g.guild.id, g.channels, g.threads)
    case _ => t
  }

  function PresencesAfter(cfg: Config, t: Presences, e: Event): Presences {
    match e
    case GuildCreate(g) => CachePresences(cfg, t, g.guild.id, g.presences)
    case PresenceUpdate(p) => CachePresence(cfg, t, p.guild, p)
    case _ => t
  }

  function VoiceAfter(cfg: Config, t: Voice, e: Event): Voice {
    match e
    case GuildCreate(g) => CacheVoiceStates(cfg, t, g.voiceStates)
    case VoiceStateUpdate(v, _) => CacheVoiceState(cfg, t, v)
    case _ => t
  }

  function ReactionsOf(w: Window, id: MessageId): seq<Reaction> {
    if id in w.messages then w.messages[id].reactions else []
  }

  function WindowAfter(cfg: Config, w: Window, currentUser: Option<UserId>, e: Event): Window {
    match e
    case MessageCreate(m) => Create(cfg, w, m.message)
    case MessageDelete(c, id) => Delete(cfg, w, c, id)
    case MessageDeleteBulk(c, ids) => DeleteBulk(cfg, w, c, ids)
    case MessageUpdate(m) => UpdateMessage(cfg, w, m.message)
    case ReactionAdd(id, user, emoji) => React(cfg, w, id, AddReaction(ReactionsOf(w, id), emoji, currentUser == Some(user)))
    case ReactionRemove(id, user, emoji) => React(cfg, w, id, RemoveReaction(ReactionsOf(w, id), emoji, currentUser == Some(user)))
    case ReactionRemoveAll(id) => React(cfg, w, id, [])
    case ReactionRemoveEmoji(id, emoji) => React(cfg, w, id, RemoveEmoji(ReactionsOf(w, id), emoji))
    case _ => w
  }

  function SetCurrentUser(cfg: Config, t: Tables, u: UserId): Tables {
    t.(currentUser := if cfg.userCurrent then Some(u) else t.currentUser)
  }

  /** Deleting a guild works through the indexes of the guild. */
  function ForgetGuild(cfg: Config, t: Tables, g: GuildId, guilds: Guilds): Tables {
    t.(guilds := guilds,
       channels := DeleteGuildChannels(cfg, t.channels, g),
       emojis := DeleteGuildOwned(cfg.emoji, t.emojis, g),
       roles := DeleteGuildOwned(cfg.role, t.roles, g),
       stickers := DeleteGuildOwned(cfg.sticker, t.stickers, g),
       voice := DeleteGuildVoice(cfg, t.voice, g),
       people := DeleteGuildMembers(cfg, t.people, g),
       presences := DeleteGuildPresences(cfg, t.presences, g))
  }

  function GuildLost(cfg: Config, t: Tables, g: GuildId): Tables {
    ForgetGuild(cfg, t, g, LoseGuild(cfg, t.guilds, g))
  }

  function GuildsLost(cfg: Config, t: Tables, gs: seq<GuildId>): Tables {
    if gs == [] then t else GuildLost(cfg, GuildsLost(cfg, t, gs[..|gs| - 1]), gs[|gs| - 1])
  }

  function TableByTable(cfg: Config, t: Tables, e: Event): Tables {
    Tables(PeopleAfter(cfg, t.people, t.stickers, e), EmojisAfter(cfg, t.emojis, e), StickersAfter(cfg, t.stickers, e), RolesAfter(cfg, t.roles, e),
           GuildsAfter(cfg, t.guilds, e), ChannelsAfter(cfg, t.channels, e), PresencesAfter(cfg, t.presences, e),
           VoiceAfter(cfg, t.voice, e), WindowAfter(cfg, t.window, t.currentUser, e), t.currentUser)
  }

  /** Events that are handled table by table; the others lose guilds or name the current user. */
  predicate InTables(e: Event) {
    !e.GuildCreateUnavailable? && !e.GuildDelete? && !e.Ready? && !e.UnavailableGuild? && !e.UserUpdate?
  }

  /** One gateway event. */
  function Update(cfg: Config, t: Tables, e: Event): Tables {
    match e
    case Ready(user, gs) => GuildsLost(cfg, SetCurrentUser(cfg, t, user), gs)
    case UserUpdate(user) => SetCurrentUser(cfg, t, user)
    case GuildDelete(g) => ForgetGuild(cfg, t, g, DeleteGuild(cfg, t.guilds, g, false))
    case GuildCreateUnavailable(g) => GuildLost(cfg, t, g)
    case UnavailableGuild(g) => GuildLost(cfg, t, g)
    case _ => TableByTable(cfg, t, e)
  }

  /** The cache after a run of events, from empty tables. */
  function After(cfg: Config, events: seq<Event>): Tables {
    if events == [] then EMPTY else Update(cfg, After(cfg, events[..|events| - 1]), events[|events| - 1])
  }
}
