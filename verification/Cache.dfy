/**
 * The cache as the program keeps it: one field per table, changed in place by the same helpers in the same order.
 * Each method leaves the tables as the specification of its step says, and so does each event.
 */
module GuildCache {
  import opened Base
  import opened CacheTables
  import opened CachePeople
  import opened CacheOwned
  import opened CacheMessages
  import opened CacheGuilds
  import opened CacheEvents
  import opened CacheRuns
  import opened CacheWindows
  import opened CacheEffects

  class Cache {
    const cfg: Config

    var guilds: map<GuildId, CachedGuild>
    var unavailableGuilds: set<GuildId>
    var guildChannels: set<(GuildId, ChannelId)>
    var guildMembers: set<(GuildId, UserId)>
    var guildPresences: set<(GuildId, UserId)>
    var guildEmojis: set<(GuildId, ResourceId)>
    var guildRoles: set<(GuildId, ResourceId)>
    var guildStickers: set<(GuildId, ResourceId)>
    var channels: map<ChannelId, Channel>
    var channelMessages: map<ChannelId, seq<MessageId>>
    var members: map<(GuildId, UserId), CachedMember>
    var messages: map<MessageId, CachedMessage>
    var presences: map<(GuildId, UserId), Presence>
    var emojis: map<ResourceId, Resource<CachedEmoji>>
    var roles: map<ResourceId, Resource<Role>>
    var stickers: map<ResourceId, Resource<CachedSticker>>
    var currentUser: Option<UserId>
    var users: map<UserId, User>
    var userGuilds: set<(UserId, GuildId)>
    var voiceStateChannels: set<(ChannelId, (GuildId, UserId))>
    var voiceStateGuilds: set<(GuildId, UserId)>
    var voiceStates: map<(GuildId, UserId), CachedVoiceState>

    function PeopleView(): People
      reads `users, `userGuilds, `members, `guildMembers
    {
      People(users, userGuilds, members, guildMembers)
    }

    function EmojisView(): Owned<CachedEmoji>
      reads `emojis, `guildEmojis
    {
      Owned(emojis, guildEmojis)
    }

    function StickersView(): Owned<CachedSticker>
      reads `stickers, `guildStickers
    {
      Owned(stickers, guildStickers)
    }

    function RolesView(): Owned<Role>
      reads `roles, `guildRoles
    {
      Owned(roles, guildRoles)
    }

    function GuildsView(): Guilds
      reads `guilds, `unavailableGuilds
    {
      Guilds(guilds, unavailableGuilds)
    }

    function ChannelsView(): Channels
      reads `channels, `guildChannels
    {
      Channels(channels, guildChannels)
    }

    function PresencesView(): Presences
      reads `presences, `guildPresences
    {
      Presences(presences, guildPresences)
    }

    function VoiceView(): Voice
      reads `voiceStates, `voiceStateGuilds, `voiceStateChannels
    {
      Voice(voiceStates, voiceStateGuilds, voiceStateChannels)
    }

    function WindowView(): Window
      reads `messages, `channelMessages
    {
      Window(messages, channelMessages)
    }

    function View(): Tables
      reads this
    {
      Tables(PeopleView(), EmojisView(), StickersView(), RolesView(), GuildsView(), ChannelsView(), PresencesView(),
             VoiceView(), WindowView(), currentUser)
    }

    constructor (cfg: Config)
      ensures this.cfg == cfg && View() == EMPTY
    {
      this.cfg := cfg;
      guilds, unavailableGuilds, channels, guildChannels := map[], {}, map[], {};
      users, userGuilds, members, guildMembers := map[], {}, map[], {};
      emojis, guildEmojis, stickers, guildStickers, roles, guildRoles := map[], {}, map[], {}, map[], {};
      presences, guildPresences, messages, channelMessages := map[], {}, map[], map[];
      voiceStates, voiceStateGuilds, voiceStateChannels, currentUser := map[], {}, {}, None;
    }

    // --------------------------------------------------------- users and members

    method CacheUser(user: User, guild: Option<GuildId>)
      modifies `users, `userGuilds
      ensures PeopleView() == CachePeople.CacheUser(cfg, old(PeopleView()), user, guild)
    {
      if user.id in users && users[user.id] == user {
        if guild.Some? {
          userGuilds := Link(cfg.user, userGuilds, user.id, guild.value);
        }
        assert users == users[user.id := user];
        return;
      }
      users := Put(cfg.user, users, user.id, user);
      if guild.Some? {
        userGuilds := Link(cfg.user, userGuilds, user.id, guild.value);
      }
    }

    method CacheMember(g: GuildId, member: Member)
      modifies `users, `userGuilds, `members, `guildMembers
      ensures PeopleView() == CachePeople.CacheMember(cfg, old(PeopleView()), g, member)
    {
      var id := (g, member.user.id);
      if id in members && EqMember(members[id], member) {
        return;
      }
      CacheUser(member.user, Some(g));
      members := Put(cfg.member, members, id, FromMember(member));
      guildMembers := Link(cfg.member, guildMembers, g, member.user.id);
    }

    method CacheMembers(g: GuildId, ms: seq<Member>)
      modifies `users, `userGuilds, `members, `guildMembers
      ensures PeopleView() == CachePeople.CacheMembers(cfg, old(PeopleView()), g, ms)
    {
      hide CachePeople.CacheMember;
      for i := 0 to |ms|
        invariant PeopleView() == CachePeople.CacheMembers(cfg, old(PeopleView()), g, ms[..i])
      {
        CacheMember(g, ms[i]);
        assert ms[..i + 1][..i] == ms[..i];
      }
      assert ms[..|ms|] == ms;
    }

    method CachePartialMember(g: GuildId, member: PartialMember, u: UserId)
      modifies `members, `guildMembers
      ensures PeopleView() == CachePeople.CachePartialMember(cfg, old(PeopleView()), g, member, u)
    {
      if (g, u) in members && EqPartial(members[(g, u)], member) {
        return;
      }
      guildMembers := Link(cfg.member, guildMembers, g, u);
      members := Put(cfg.member, members, (g, u), FromPartial(u, member));
    }

    method CacheInteractionMember(g: GuildId, member: InteractionMember, u: UserId)
      modifies `members, `guildMembers
      ensures PeopleView() == CachePeople.CacheInteractionMember(cfg, old(PeopleView()), g, member, u)
    {
      var before := None;
      if (g, u) in members {
        if EqInteraction(members[(g, u)], member) {
          return;
        }
        before := Some(members[(g, u)]);
      }
      guildMembers := Link(cfg.member, guildMembers, g, u);
      members := Put(cfg.member, members, (g, u), FromInteraction(u, member, before));
    }

    method OnMemberRemove(g: GuildId, u: UserId)
      modifies `guilds, `members, `guildMembers, `userGuilds, `users
      ensures PeopleView() == RemoveMember(cfg, old(PeopleView()), g, u)
      ensures GuildsView() == CountMember(cfg, old(GuildsView()), g, false)
    {
      CountGuildMember(g, false);
      members := Remove(cfg.member, members, (g, u));
      guildMembers := Unlink(cfg.member, guildMembers, g, u);
      userGuilds := Unlink(cfg.user, userGuilds, u, g);
      if !IsEmpty(cfg.user, userGuilds, u) {
        users := Remove(cfg.user, users, u);
      }
    }

    method CountGuildMember(g: GuildId, joined: bool)
      modifies `guilds
      ensures GuildsView() == CountMember(cfg, old(GuildsView()), g, joined)
    {
      if g in guilds {
        var count := guilds[g].memberCount;
        if count.Some? {
          count := Some(if joined then SaturatingAdd(count.value) else SaturatingSub(count.value));
        }
        var guild := guilds[g].(memberCount := count);
        guilds := Put(cfg.guild, guilds, guild.id, guild);
      }
    }

    method OnMemberUpdate(m: MemberChange)
      modifies `members, `users, `userGuilds
      ensures PeopleView() == UpdateMember(cfg, old(PeopleView()), m)
    {
      var key := (m.guild, m.user.id);
      if key in members {
        members := Put(cfg.member, members, key, Updated(members[key], m));
        CacheUser(m.user, Some(m.guild));
      }
    }

    method CacheAuthor(author: User, guild: Option<GuildId>, member: Option<PartialMember>)
      modifies `users, `userGuilds, `members, `guildMembers
      ensures PeopleView() == CachePeople.CacheAuthor(cfg, old(PeopleView()), author, guild, member)
    {
      CacheUser(author, guild);
      if member.Some? && guild.Some? {
        CachePartialMember(guild.value, member.value, author.id);
      }
    }

    // -------------------------------------------------- emojis, stickers and roles

    method CacheEmoji(g: GuildId, emoji: Emoji)
      modifies `users, `userGuilds, `emojis, `guildEmojis
      ensures PeopleView() == CacheSomeUser(cfg, old(PeopleView()), emoji.user, g)
      ensures EmojisView() == StoreChanged(cfg.emoji, old(EmojisView()), g, emoji.id, FromEmoji(emoji))
    {
      if emoji.user.Some? {
        CacheUser(emoji.user.value, Some(g));
      }
      if emoji.id in emojis && EqEmoji(emojis[emoji.id].value, emoji) {
        return;
      }
      emojis := Put(cfg.emoji, emojis, emoji.id, Resource(g, FromEmoji(emoji)));
      guildEmojis := Link(cfg.emoji, guildEmojis, g, emoji.id);
    }

    method DropEmojis(g: GuildId, payload: seq<Emoji>)
      modifies `emojis, `guildEmojis
      ensures EmojisView() == DropMissing(cfg.emoji, old(EmojisView()), g, IdsOf(EmojiEntries(payload)))
    {
      var listed := Members(guildEmojis, g);
      if listed != {} {
        var incoming := set i | 0 <= i < |payload| :: payload[i].id;
        assert incoming == IdsOf(EmojiEntries(payload)) by { SameIds(payload); }
        var missing := listed - incoming;
        guildEmojis := UnlinkAll(cfg.emoji, guildEmojis, g, missing);
        emojis := RemoveAll(cfg.emoji, emojis, missing);
      }
    }

    method CacheEmojis(g: GuildId, payload: seq<Emoji>)
      modifies `users, `userGuilds, `emojis, `guildEmojis
      ensures PeopleView() == EmojiUsers(cfg, old(PeopleView()), g, payload)
      ensures EmojisView() == Sync(cfg.emoji, old(EmojisView()), g, EmojiEntries(payload))
    {
      hide CacheSomeUser, StoreChanged;
      ghost var entries := EmojiEntries(payload);
      DropEmojis(g, payload);
      ghost var kept := EmojisView();
      hide EmojisView, PeopleView, DropMissing, IdsOf;
      for i := 0 to |payload|
        invariant PeopleView() == EmojiUsers(cfg, old(PeopleView()), g, payload[..i])
        invariant EmojisView() == StoreAll(cfg.emoji, kept, g, entries[..i])
      {
        CacheEmoji(g, payload[i]);
        assert payload[..i + 1][..i] == payload[..i] && entries[..i + 1][..i] == entries[..i];
      }
      assert payload[..|payload|] == payload && entries[..|payload|] == entries;
    }

    method CacheSticker(g: GuildId, sticker: Sticker)
      modifies `users, `userGuilds, `stickers, `guildStickers
      ensures PeopleView() == if Unchanged(old(StickersView()), sticker) then old(PeopleView())
                              else CacheSomeUser(cfg, old(PeopleView()), sticker.user, g)
      ensures StickersView() == StoreChanged(cfg.sticker, old(StickersView()), g, sticker.id, FromSticker(sticker))
    {
      if sticker.id in stickers && EqSticker(stickers[sticker.id].value, sticker) {
        return;
      }
      if sticker.user.Some? {
        CacheUser(sticker.user.value, Some(g));
      }
      guildStickers := Link(cfg.sticker, guildStickers, g, sticker.id);
      stickers := Put(cfg.sticker, stickers, sticker.id, Resource(g, FromSticker(sticker)));
    }

    method DropStickers(g: GuildId, payload: seq<Sticker>)
      modifies `stickers, `guildStickers
      ensures StickersView() == DropMissing(cfg.sticker, old(StickersView()), g, IdsOf(StickerEntries(payload)))
    {
      var listed := Members(guildStickers, g);
      if listed != {} {
        var incoming := set i | 0 <= i < |payload| :: payload[i].id;
        assert incoming == IdsOf(StickerEntries(payload)) by { SameStickerIds(payload); }
        var missing := listed - incoming;
        guildStickers := UnlinkAll(cfg.sticker, guildStickers, g, missing);
        stickers := RemoveAll(cfg.sticker, stickers, missing);
      }
    }

    method CacheStickers(g: GuildId, payload: seq<Sticker>)
      modifies `users, `userGuilds, `stickers, `guildStickers
      ensures PeopleView() == SyncStickerUsers(cfg, old(PeopleView()), old(StickersView()), g, payload)
      ensures StickersView() == Sync(cfg.sticker, old(StickersView()), g, StickerEntries(payload))
    {
      hide CacheSomeUser, StoreChanged, Unchanged;
      ghost var entries := StickerEntries(payload);
      DropStickers(g, payload);
      ghost var kept := StickersView();
      hide StickersView, PeopleView, DropMissing, IdsOf;
      for i := 0 to |payload|
        invariant PeopleView() == StickerUsers(cfg, old(PeopleView()), kept, g, payload[..i])
        invariant StickersView() == StoreAll(cfg.sticker, kept, g, entries[..i])
      {
        CacheSticker(g, payload[i]);
        assert payload[..i + 1][..i] == payload[..i] && entries[..i + 1][..i] == entries[..i];
        assert StickerEntries(payload[..i]) == entries[..i];
      }
      assert payload[..|payload|] == payload && entries[..|payload|] == entries;
    }

    method CacheRole(g: GuildId, role: Role)
      modifies `roles, `guildRoles
      ensures RolesView() == Store(cfg.role, old(RolesView()), g, role.id, role)
    {
      guildRoles := Link(cfg.role, guildRoles, g, role.id);
      roles := Put(cfg.role, roles, role.id, Resource(g, role));
    }

    method CacheRoles(g: GuildId, payload: seq<Role>)
      modifies `roles, `guildRoles
      ensures RolesView() == StoreRoles(cfg.role, old(RolesView()), g, payload)
    {
      hide Store;
      for i := 0 to |payload|
        invariant RolesView() == StoreRoles(cfg.role, old(RolesView()), g, payload[..i])
      {
        CacheRole(g, payload[i]);
        assert payload[..i + 1][..i] == payload[..i];
      }
      assert payload[..|payload|] == payload;
    }

    method DeleteRole(g: GuildId, id: RoleId)
      modifies `roles, `guildRoles
      ensures RolesView() == Drop(cfg.role, old(RolesView()), g, id)
    {
      roles := Remove(cfg.role, roles, id);
      guildRoles := Unlink(cfg.role, guildRoles, g, id);
    }

    // ----------------------------------------- channels, presences and voice states

    method CacheChannel(c: Channel)
      modifies `channels, `guildChannels
      ensures ChannelsView() == CacheGuilds.CacheChannel(cfg, old(ChannelsView()), c)
    {
      if c.guild.Some? {
        guildChannels := Link(cfg.channel, guildChannels, c.guild.value, c.id);
      }
      channels := Put(cfg.channel, channels, c.id, c);
    }

    method CacheChannels(cs: seq<Channel>)
      modifies `channels, `guildChannels
      ensures ChannelsView() == CacheGuilds.CacheChannels(cfg, old(ChannelsView()), cs)
    {
      hide CacheGuilds.CacheChannel;
      for i := 0 to |cs|
        invariant ChannelsView() == CacheGuilds.CacheChannels(cfg, old(ChannelsView()), cs[..i])
      {
        CacheChannel(cs[i]);
        assert cs[..i + 1][..i] == cs[..i];
      }
      assert cs[..|cs|] == cs;
    }

    method DeleteChannel(c: ChannelId)
      modifies `channels, `guildChannels
      ensures ChannelsView() == CacheGuilds.DeleteChannel(cfg, old(ChannelsView()), c)
    {
      if c in channels && channels[c].guild.Some? {
        guildChannels := Unlink(cfg.channel, guildChannels, channels[c].guild.value, channels[c].id);
      }
      channels := Remove(cfg.channel, channels, c);
    }

    method OnPinsUpdate(c: ChannelId, lastPin: int)
      modifies `channels
      ensures ChannelsView() == PinsUpdate(cfg, old(ChannelsView()), c, lastPin)
    {
      if c in channels {
        var channel := channels[c].(lastPin := lastPin);
        channels := Put(cfg.channel, channels, channel.id, channel);
      }
    }

    method CachePresence(g: GuildId, p: Presence)
      modifies `presences, `guildPresences
      ensures PresencesView() == CacheGuilds.CachePresence(cfg, old(PresencesView()), g, p)
    {
      guildPresences := Link(cfg.presence, guildPresences, g, p.user);
      presences := Put(cfg.presence, presences, (g, p.user), p);
    }

    method CachePresences(g: GuildId, ps: seq<Presence>)
      modifies `presences, `guildPresences
      ensures PresencesView() == CacheGuilds.CachePresences(cfg, old(PresencesView()), g, ps)
    {
      hide CacheGuilds.CachePresence;
      for i := 0 to |ps|
        invariant PresencesView() == CacheGuilds.CachePresences(cfg, old(PresencesView()), g, ps[..i])
      {
        CachePresence(g, ps[i]);
        assert ps[..i + 1][..i] == ps[..i];
      }
      assert ps[..|ps|] == ps;
    }

    method CacheVoiceState(v: VoiceState)
      modifies `voiceStates, `voiceStateGuilds, `voiceStateChannels
      ensures VoiceView() == CacheGuilds.CacheVoiceState(cfg, old(VoiceView()), v)
    {
      if v.guild.None? {
        return;
      }
      var g := v.guild.value;
      if (g, v.user) in voiceStates {
        voiceStateChannels := Unlink(cfg.voiceState, voiceStateChannels, voiceStates[(g, v.user)].channel, (g, v.user));
      }
      match v.channel
      case Some(c) =>
        voiceStates := Put(cfg.voiceState, voiceStates, (g, v.user), CachedVoiceState(c, g, v.user, v.flags));
        voiceStateGuilds := Link(cfg.voiceState, voiceStateGuilds, g, v.user);
        voiceStateChannels := Link(cfg.voiceState, voiceStateChannels, c, (g, v.user));
      case None =>
        voiceStateGuilds := Unlink(cfg.voiceState, voiceStateGuilds, g, v.user);
        voiceStates := Remove(cfg.voiceState, voiceStates, (g, v.user));
    }

    method CacheVoiceStates(vs: seq<VoiceState>)
      modifies `voiceStates, `voiceStateGuilds, `voiceStateChannels
      ensures VoiceView() == CacheGuilds.CacheVoiceStates(cfg, old(VoiceView()), vs)
    {
      hide CacheGuilds.CacheVoiceState;
      for i := 0 to |vs|
        invariant VoiceView() == CacheGuilds.CacheVoiceStates(cfg, old(VoiceView()), vs[..i])
      {
        CacheVoiceState(vs[i]);
        assert vs[..i + 1][..i] == vs[..i];
      }
      assert vs[..|vs|] == vs;
    }

    // ------------------------------------------------------------------ messages

    /** Drops the oldest message if the window is full, then puts the new id in front. */
    method PushMessage(c: ChannelId, id: MessageId)
      modifies `messages, `channelMessages
      ensures WindowView() == Push(cfg, old(WindowView()), c, id)
    {
      var window := if c in channelMessages then channelMessages[c] else [];
      if |window| >= cfg.messageCacheSize && window != [] {
        var popped := window[|window| - 1];
        window := window[..|window| - 1];
        messages := Remove(cfg.message, messages, popped);
      }
      window := [id] + window;
      channelMessages := Put(cfg.message, channelMessages, c, window);
    }

    method OnMessageCreate(m: Message)
      modifies `users, `userGuilds, `members, `guildMembers, `messages, `channelMessages
      ensures PeopleView() == CachePeople.CacheAuthor(cfg, old(PeopleView()), m.author, m.guild, m.member)
      ensures WindowView() == Create(cfg, old(WindowView()), m.message)
    {
      CacheAuthor(m.author, m.guild, m.member);
      PushMessage(m.message.channel, m.message.id);
      messages := Put(cfg.message, messages, m.message.id, m.message);
    }

    method OnMessageUpdate(m: Message)
      modifies `users, `userGuilds, `members, `guildMembers, `messages, `channelMessages
      ensures PeopleView() == CachePeople.CacheAuthor(cfg, old(PeopleView()), m.author, m.guild, m.member)
      ensures WindowView() == UpdateMessage(cfg, old(WindowView()), m.message)
    {
      CacheAuthor(m.author, m.guild, m.member);
      var isNew := PutIsNew(cfg.message, messages, m.message.id);
      messages := Put(cfg.message, messages, m.message.id, m.message);
      if !isNew {
        return;
      }
      PushMessage(m.message.channel, m.message.id);
    }

    method OnMessageDelete(c: ChannelId, id: MessageId)
      modifies `messages, `channelMessages
      ensures WindowView() == Delete(cfg, old(WindowView()), c, id)
    {
      messages := Remove(cfg.message, messages, id);
      var window := if c in channelMessages then channelMessages[c] else [];
      if id in window {
        channelMessages := Put(cfg.message, channelMessages, c, Without(window, id));
      }
    }

    method OnMessageDeleteBulk(c: ChannelId, ids: seq<MessageId>)
      modifies `messages, `channelMessages
      ensures WindowView() == DeleteBulk(cfg, old(WindowView()), c, ids)
    {
      var window := if c in channelMessages then channelMessages[c] else [];
      ghost var before := window;
      messages := RemoveAll(cfg.message, messages, Elements(ids));
      for i := 0 to |ids|
        invariant window == WithoutAll(before, ids[..i])
      {
        window := Without(window, ids[i]);
        assert ids[..i + 1][..i] == ids[..i];
      }
      assert ids[..|ids|] == ids;
      channelMessages := Put(cfg.message, channelMessages, c, window);
    }

    /** Writes a message back with other reactions. */
    method WriteReactions(id: MessageId, reactions: seq<Reaction>)
      requires id in messages
      modifies `messages
      ensures WindowView() == React(cfg, old(WindowView()), id, reactions)
    {
      var message := messages[id].(reactions := reactions);
      messages := Put(cfg.message, messages, message.id, message);
    }

    /** The first reaction with the emoji, found by going through them. */
    method FindReaction(rs: seq<Reaction>, e: ReactionEmoji) returns (k: nat)
      ensures k == Find(rs, e)
    {
      k := 0;
      while k < |rs| && !SameEmoji(rs[k].emoji, e)
        invariant k <= |rs|
        invariant forall i :: 0 <= i < k ==> !SameEmoji(rs[i].emoji, e)
      {
        k := k + 1;
      }
      FindAt(rs, e, k);
    }

    method OnReactionAdd(id: MessageId, user: UserId, e: ReactionEmoji)
      modifies `messages
      ensures WindowView() == WindowAfter(cfg, old(WindowView()), currentUser, ReactionAdd(id, user, e))
    {
      hide Find;
      if id !in messages {
        return;
      }
      var reactions := messages[id].reactions;
      var k := FindReaction(reactions, e);
      if k < |reactions| {
        var reaction := reactions[k];
        if !reaction.me && currentUser == Some(user) {
          reaction := reaction.(me := true);
        }
        reaction := reaction.(count := reaction.count + 1);
        reactions := reactions[k := reaction];
      } else {
        reactions := reactions + [Reaction(e, 1, currentUser == Some(user))];
      }
      WriteReactions(id, reactions);
    }

    method OnReactionRemove(id: MessageId, user: UserId, e: ReactionEmoji)
      modifies `messages
      ensures WindowView() == WindowAfter(cfg, old(WindowView()), currentUser, ReactionRemove(id, user, e))
    {
      hide Find, Retain;
      if id !in messages {
        return;
      }
      var reactions := messages[id].reactions;
      var k := FindReaction(reactions, e);
      if k < |reactions| {
        var reaction := reactions[k];
        if reaction.me && currentUser == Some(user) {
          reaction := reaction.(me := false);
        }
        if reaction.count > 1 {
          reactions := reactions[k := reaction.(count := reaction.count - 1)];
        } else {
          reactions := Retain(reactions[k := reaction], e);
        }
      }
      WriteReactions(id, reactions);
    }

    method OnReactionRemoveAll(id: MessageId)
      modifies `messages
      ensures WindowView() == WindowAfter(cfg, old(WindowView()), currentUser, ReactionRemoveAll(id))
    {
      if id in messages {
        WriteReactions(id, []);
      }
    }

    method OnReactionRemoveEmoji(id: MessageId, e: ReactionEmoji)
      modifies `messages
      ensures WindowView() == WindowAfter(cfg, old(WindowView()), currentUser, ReactionRemoveEmoji(id, e))
    {
      hide Find;
      if id !in messages {
        return;
      }
      var reactions := messages[id].reactions;
      var k := FindReaction(reactions, e);
      if k < |reactions| {
        reactions := reactions[..k] + reactions[k + 1..];
      }
      WriteReactions(id, reactions);
    }

    // -------------------------------------------------------------------- guilds

    method CacheGuildChannels(g: GuildId, cs: seq<Channel>, threads: seq<Channel>)
      modifies `channels, `guildChannels
      ensures ChannelsView() == GuildChannelsArrived(cfg, old(ChannelsView()), g, cs, threads)
    {
      hide CacheGuilds.CacheChannels, Adopt;
      guildChannels := Clear(cfg.channel, guildChannels, g);
      CacheChannels(Adopt(g, cs));
      CacheChannels(Adopt(g, threads));
    }

    method AddGuild(guild: CachedGuild)
      modifies `guilds, `unavailableGuilds
      ensures GuildsView() == GuildArrived(cfg, old(GuildsView()), guild)
    {
      if cfg.guild {
        unavailableGuilds := unavailableGuilds - {guild.id};
      }
      guilds := Put(cfg.guild, guilds, guild.id, guild);
    }

    method CacheGuildFirst(g: Guild)
      modifies `channels, `guildChannels, `emojis, `guildEmojis, `users, `userGuilds, `members, `guildMembers, `presences,
               `guildPresences
      ensures ChannelsView() == GuildChannelsArrived(cfg, old(ChannelsView()), g.guild.id, g.channels, g.threads)
      ensures EmojisView() == Sync(cfg.emoji, old(EmojisView()), g.guild.id, EmojiEntries(g.emojis))
      ensures PeopleView() == CachePeople.CacheMembers(cfg, EmojiUsers(cfg, old(PeopleView()), g.guild.id, g.emojis), g.guild.id, g.members)
      ensures PresencesView() == CacheGuilds.CachePresences(cfg, old(PresencesView()), g.guild.id, g.presences)
    {
      hide PeopleView, EmojisView, ChannelsView, PresencesView;
      hide GuildChannelsArrived, EmojiUsers, Sync, CachePeople.CacheMembers, CacheGuilds.CachePresences, EmojiEntries;
      CacheGuildChannels(g.guild.id, g.channels, g.threads);
      CacheEmojis(g.guild.id, g.emojis);
      CacheMembers(g.guild.id, g.members);
      CachePresences(g.guild.id, g.presences);
    }

    method CacheGuildSecond(g: Guild)
      modifies `roles, `guildRoles, `stickers, `guildStickers, `users, `userGuilds, `voiceStates, `voiceStateGuilds,
               `voiceStateChannels, `guilds, `unavailableGuilds
      ensures RolesView() == StoreRoles(cfg.role, old(RolesView()), g.guild.id, g.roles)
      ensures StickersView() == Sync(cfg.sticker, old(StickersView()), g.guild.id, StickerEntries(g.stickers))
      ensures PeopleView() == SyncStickerUsers(cfg, old(PeopleView()), old(StickersView()), g.guild.id, g.stickers)
      ensures VoiceView() == CacheGuilds.CacheVoiceStates(cfg, old(VoiceView()), g.voiceStates)
      ensures GuildsView() == GuildArrived(cfg, old(GuildsView()), g.guild)
    {
      hide PeopleView, StickersView, RolesView, VoiceView, GuildsView;
      hide SyncStickerUsers, Sync, StoreRoles, CacheGuilds.CacheVoiceStates, GuildArrived, StickerEntries;
      CacheRoles(g.guild.id, g.roles);
      CacheStickers(g.guild.id, g.stickers);
      CacheVoiceStates(g.voiceStates);
      AddGuild(g.guild);
    }

    method CacheGuild(g: Guild)
      modifies this
      ensures View() == TableByTable(cfg, old(View()), GuildCreate(g))
    {
      hide PeopleView, EmojisView, StickersView, RolesView, GuildsView, ChannelsView, PresencesView, VoiceView, WindowView;
      hide GuildChannelsArrived, EmojiUsers, SyncStickerUsers, Sync, CachePeople.CacheMembers, CacheGuilds.CachePresences,
           StoreRoles, CacheGuilds.CacheVoiceStates, GuildArrived, EmojiEntries, StickerEntries;
      CacheGuildFirst(g);
      CacheGuildSecond(g);
    }

    method DeleteGuildEntry(g: GuildId, unavailable: bool)
      modifies `guilds
      ensures GuildsView() == CacheGuilds.DeleteGuild(cfg, old(GuildsView()), g, unavailable)
    {
      if unavailable {
        if g in guilds {
          guilds := Put(cfg.guild, guilds, g, guilds[g].(unavailable := Some(true)));
        }
      } else {
        guilds := Remove(cfg.guild, guilds, g);
      }
    }

    /** Removes what the indexes list, and leaves the indexes. */
    method RemoveListed(g: GuildId)
      modifies `channels, `emojis, `roles, `stickers
      ensures ChannelsView() == DeleteGuildChannels(cfg, old(ChannelsView()), g)
      ensures EmojisView() == DeleteGuildOwned(cfg.emoji, old(EmojisView()), g)
      ensures RolesView() == DeleteGuildOwned(cfg.role, old(RolesView()), g)
      ensures StickersView() == DeleteGuildOwned(cfg.sticker, old(StickersView()), g)
    {
      channels := RemoveAll(cfg.channel, channels, Members(guildChannels, g));
      emojis := RemoveAll(cfg.emoji, emojis, Members(guildEmojis, g));
      roles := RemoveAll(cfg.role, roles, Members(guildRoles, g));
      stickers := RemoveAll(cfg.sticker, stickers, Members(guildStickers, g));
    }

    method ClearVoice(g: GuildId)
      modifies `voiceStateGuilds
      ensures VoiceView() == DeleteGuildVoice(cfg, old(VoiceView()), g)
    {
      voiceStateGuilds := Clear(cfg.voiceState, voiceStateGuilds, g);
    }

    method RemoveMembers(g: GuildId)
      modifies `members, `guildMembers, `presences, `guildPresences
      ensures PeopleView() == DeleteGuildMembers(cfg, old(PeopleView()), g)
      ensures PresencesView() == DeleteGuildPresences(cfg, old(PresencesView()), g)
    {
      members := RemoveAll(cfg.member, members, set u | u in Members(guildMembers, g) :: (g, u));
      guildMembers := Clear(cfg.member, guildMembers, g);
      presences := RemoveAll(cfg.presence, presences, set u | u in Members(guildPresences, g) :: (g, u));
      guildPresences := Clear(cfg.presence, guildPresences, g);
    }

    method DeleteGuildTables(g: GuildId)
      modifies `channels, `emojis, `roles, `stickers, `voiceStateGuilds, `members, `guildMembers, `presences, `guildPresences
      ensures ChannelsView() == DeleteGuildChannels(cfg, old(ChannelsView()), g)
      ensures EmojisView() == DeleteGuildOwned(cfg.emoji, old(EmojisView()), g)
      ensures RolesView() == DeleteGuildOwned(cfg.role, old(RolesView()), g)
      ensures StickersView() == DeleteGuildOwned(cfg.sticker, old(StickersView()), g)
      ensures VoiceView() == DeleteGuildVoice(cfg, old(VoiceView()), g)
      ensures PeopleView() == DeleteGuildMembers(cfg, old(PeopleView()), g)
      ensures PresencesView() == DeleteGuildPresences(cfg, old(PresencesView()), g)
    {
      hide PeopleView, EmojisView, StickersView, RolesView, GuildsView, ChannelsView, PresencesView, VoiceView, WindowView;
      RemoveListed(g);
      ClearVoice(g);
      RemoveMembers(g);
    }

    method DeleteGuild(g: GuildId, unavailable: bool)
      modifies this
      ensures View() == ForgetGuild(cfg, old(View()), g, CacheGuilds.DeleteGuild(cfg, old(GuildsView()), g, unavailable))
    {
      hide PeopleView, EmojisView, StickersView, RolesView, GuildsView, ChannelsView, PresencesView, VoiceView, WindowView;
      hide CacheGuilds.DeleteGuild, DeleteGuildChannels, DeleteGuildOwned, DeleteGuildMembers, DeleteGuildPresences, DeleteGuildVoice;
      DeleteGuildEntry(g, unavailable);
      DeleteGuildTables(g);
    }

    method AddUnavailable(g: GuildId)
      modifies `unavailableGuilds
      ensures GuildsView() == MarkUnavailable(cfg, old(GuildsView()), g)
    {
      if cfg.guild {
        unavailableGuilds := unavailableGuilds + {g};
      }
    }

    method LoseGuild(g: GuildId)
      modifies this
      ensures View() == GuildLost(cfg, old(View()), g)
    {
      hide PeopleView, EmojisView, StickersView, RolesView, GuildsView, ChannelsView, PresencesView, VoiceView, WindowView;
      hide DeleteGuildChannels, DeleteGuildOwned, DeleteGuildMembers, DeleteGuildPresences, DeleteGuildVoice,
           CacheGuilds.DeleteGuild, MarkUnavailable;
      AddUnavailable(g);
      DeleteGuildEntry(g, true);
      DeleteGuildTables(g);
    }

    method OnGuildUpdate(g: GuildId, settings: int)
      modifies `guilds
      ensures GuildsView() == UpdateGuild(cfg, old(GuildsView()), g, settings)
    {
      if g in guilds {
        var guild := guilds[g].(settings := settings);
        guilds := Put(cfg.guild, guilds, guild.id, guild);
      }
    }

    method SetUser(user: UserId)
      modifies `currentUser
      ensures View() == SetCurrentUser(cfg, old(View()), user)
    {
      if cfg.userCurrent {
        currentUser := Some(user);
      }
    }

    method OnReady(user: UserId, gs: seq<GuildId>)
      modifies this
      ensures View() == CacheEvents.Update(cfg, old(View()), Ready(user, gs))
    {
      hide View, GuildLost, SetCurrentUser;
      SetUser(user);
      for i := 0 to |gs|
        invariant View() == GuildsLost(cfg, SetCurrentUser(cfg, old(View()), user), gs[..i])
      {
        LoseGuild(gs[i]);
        assert gs[..i + 1][..i] == gs[..i];
      }
      assert gs[..|gs|] == gs;
    }

    // -------------------------------------------------------------- interactions

    method CacheResolvedUsers(us: seq<User>, guild: Option<GuildId>, ms: map<UserId, InteractionMember>)
      modifies `users, `userGuilds, `members, `guildMembers
      ensures PeopleView() == CachePeople.CacheResolvedUsers(cfg, old(PeopleView()), us, guild, ms)
    {
      hide CachePeople.CacheUser, CachePeople.CacheInteractionMember;
      for i := 0 to |us|
        invariant PeopleView() == CachePeople.CacheResolvedUsers(cfg, old(PeopleView()), us[..i], guild, ms)
      {
        CacheUser(us[i], guild);
        if guild.Some? && us[i].id in ms {
          CacheInteractionMember(guild.value, ms[us[i].id], us[i].id);
        }
        assert us[..i + 1][..i] == us[..i];
      }
      assert us[..|us|] == us;
    }

    method OnInteraction(i: Interaction)
      modifies `users, `userGuilds, `members, `guildMembers, `roles, `guildRoles
      ensures PeopleView() == InteractionPeople(cfg, old(PeopleView()), i)
      ensures RolesView() == RolesAfter(cfg, old(RolesView()), InteractionCreate(i))
    {
      hide CachePeople.CacheUser, CachePeople.CachePartialMember, CachePeople.CacheResolvedUsers, StoreRoles;
      if i.member.Some? && i.guild.Some? && i.member.value.user.Some? {
        CacheUser(i.member.value.user.value, i.guild);
        CachePartialMember(i.guild.value, i.member.value, i.member.value.user.value.id);
      }
      if i.user.Some? {
        CacheUser(i.user.value, None);
      }
      if i.resolved.Some? {
        CacheResolvedUsers(i.resolved.value.users, i.guild, i.resolved.value.members);
        if i.guild.Some? {
          CacheRoles(i.guild.value, i.resolved.value.roles);
        }
      }
    }

    // ------------------------------------------------------------------ dispatch

    method OnThreadEvent(e: Event)
      requires e.ThreadCreate? || e.ThreadUpdate? || e.ThreadDelete? || e.ThreadListSync?
      modifies `channels, `guildChannels
      ensures ChannelsView() == ChannelsAfter(cfg, old(ChannelsView()), e)
    {
      hide ChannelsView, CacheGuilds.CacheChannel, CacheGuilds.CacheChannels, CacheGuilds.DeleteChannel;
      if e.ThreadDelete? {
        DeleteChannel(e.channelId);
      } else if e.ThreadListSync? {
        CacheChannels(e.threads);
      } else {
        CacheChannel(e.channel);
      }
    }

    method OnOwnChannelEvent(e: Event)
      requires e.ChannelCreate? || e.ChannelUpdate? || e.ChannelDelete? || e.ChannelPinsUpdate?
      modifies `channels, `guildChannels
      ensures ChannelsView() == ChannelsAfter(cfg, old(ChannelsView()), e)
    {
      hide ChannelsView, CacheGuilds.CacheChannel, CacheGuilds.DeleteChannel, PinsUpdate;
      if e.ChannelDelete? {
        DeleteChannel(e.channelId);
      } else if e.ChannelPinsUpdate? {
        OnPinsUpdate(e.channelId, e.lastPin);
      } else {
        CacheChannel(e.channel);
      }
    }

    method OnChannelEvent(e: Event)
      requires IsChannelEvent(e)
      modifies this
      ensures View() == TableByTable(cfg, old(View()), e)
    {
      hide PeopleView, EmojisView, StickersView, RolesView, GuildsView, ChannelsView, PresencesView, VoiceView, WindowView;
      ByChannelEvent(cfg, View(), e);
      hide TableByTable, ChannelsAfter;
      if e.ThreadCreate? || e.ThreadUpdate? || e.ThreadDelete? || e.ThreadListSync? {
        OnThreadEvent(e);
      } else {
        OnOwnChannelEvent(e);
      }
    }

    method OnReactionEvent(e: Event)
      requires IsReaction(e)
      modifies this
      ensures View() == TableByTable(cfg, old(View()), e)
    {
      hide PeopleView, EmojisView, StickersView, RolesView, GuildsView, ChannelsView, PresencesView, VoiceView, WindowView;
      ByReaction(cfg, View(), e);
      hide TableByTable, WindowAfter;
      if e.ReactionAdd? {
        OnReactionAdd(e.messageId, e.userId, e.emoji);
      } else if e.ReactionRemove? {
        OnReactionRemove(e.messageId, e.userId, e.emoji);
      } else if e.ReactionRemoveAll? {
        OnReactionRemoveAll(e.messageId);
      } else {
        OnReactionRemoveEmoji(e.messageId, e.emoji);
      }
    }

    method OnMessageEvent(e: Event)
      requires IsMessageEvent(e)
      modifies this
      ensures View() == TableByTable(cfg, old(View()), e)
    {
      hide PeopleView, EmojisView, StickersView, RolesView, GuildsView, ChannelsView, PresencesView, VoiceView, WindowView;
      hide TableByTable, CachePeople.CacheAuthor, Create, UpdateMessage, Delete, DeleteBulk;
      if e.MessageCreate? {
        ByMessage(cfg, View(), e.message);
        OnMessageCreate(e.message);
      } else if e.MessageUpdate? {
        ByMessage(cfg, View(), e.message);
        OnMessageUpdate(e.message);
      } else if e.MessageDelete? {
        ByDeletion(cfg, View(), e.channelId, e.messageId, []);
        OnMessageDelete(e.channelId, e.messageId);
      } else if e.MessageDeleteBulk? {
        ByDeletion(cfg, View(), e.channelId, 0, e.messageIds);
        OnMessageDeleteBulk(e.channelId, e.messageIds);
      } else {
        OnReactionEvent(e);
      }
    }

    method OnMembership(e: Event)
      requires IsMembership(e)
      modifies `users, `userGuilds, `members, `guildMembers, `guilds
      ensures PeopleView() == PeopleAfter(cfg, old(PeopleView()), StickersView(), e)
      ensures GuildsView() == GuildsAfter(cfg, old(GuildsView()), e)
    {
      hide PeopleView, StickersView, GuildsView;
      hide CachePeople.CacheMember, CachePeople.CacheMembers, RemoveMember, UpdateMember, CountMember;
      if e.MemberAdd? {
        CountGuildMember(e.guildId, true);
        CacheMember(e.guildId, e.member);
      } else if e.MemberRemove? {
        OnMemberRemove(e.guildId, e.userId);
      } else if e.MemberUpdate? {
        OnMemberUpdate(e.change);
      } else {
        CacheMembers(e.guildId, e.members);
      }
    }

    method OnVoiceState(v: VoiceState, m: Option<Member>)
      modifies `users, `userGuilds, `members, `guildMembers, `voiceStates, `voiceStateGuilds, `voiceStateChannels
      ensures PeopleView() == PeopleAfter(cfg, old(PeopleView()), StickersView(), VoiceStateUpdate(v, m))
      ensures VoiceView() == CacheGuilds.CacheVoiceState(cfg, old(VoiceView()), v)
    {
      hide PeopleView, StickersView, VoiceView, CachePeople.CacheMember, CacheGuilds.CacheVoiceState;
      CacheVoiceState(v);
      if v.guild.Some? && m.Some? {
        CacheMember(v.guild.value, m.value);
      }
    }

    method OnMemberEvent(e: Event)
      requires IsMemberEvent(e)
      modifies this
      ensures View() == TableByTable(cfg, old(View()), e)
    {
      hide PeopleView, EmojisView, StickersView, RolesView, GuildsView, ChannelsView, PresencesView, VoiceView, WindowView;
      hide TableByTable, PeopleAfter, GuildsAfter, RolesAfter, InteractionPeople, CacheGuilds.CacheVoiceState, CacheGuilds.CachePresence;
      if e.InteractionCreate? {
        ByInteraction(cfg, View(), e.interaction);
        OnInteraction(e.interaction);
      } else if e.PresenceUpdate? {
        ByPresence(cfg, View(), e.presence);
        CachePresence(e.presence.guild, e.presence);
      } else if e.VoiceStateUpdate? {
        ByVoiceState(cfg, View(), e.voiceState, e.voiceMember);
        OnVoiceState(e.voiceState, e.voiceMember);
      } else {
        ByMembership(cfg, View(), e);
        OnMembership(e);
      }
    }

    method OnRoleEvent(e: Event)
      requires IsRoleEvent(e)
      modifies `roles, `guildRoles
      ensures RolesView() == RolesAfter(cfg, old(RolesView()), e)
    {
      hide RolesView, Store, Drop;
      if e.RoleDelete? {
        DeleteRole(e.guildId, e.roleId);
      } else {
        CacheRole(e.guildId, e.role);
      }
    }

    method OnResourceEvent(e: Event)
      requires IsResourceEvent(e)
      modifies this
      ensures View() == TableByTable(cfg, old(View()), e)
    {
      hide PeopleView, EmojisView, StickersView, RolesView, GuildsView, ChannelsView, PresencesView, VoiceView, WindowView;
      hide TableByTable, RolesAfter, EmojiUsers, SyncStickerUsers, Sync, UpdateGuild;
      if e.GuildEmojisUpdate? {
        ByEmojis(cfg, View(), e.guildId, e.emojis);
        CacheEmojis(e.guildId, e.emojis);
      } else if e.GuildStickersUpdate? {
        ByStickers(cfg, View(), e.guildId, e.stickers);
        CacheStickers(e.guildId, e.stickers);
      } else if e.GuildUpdate? {
        ByGuildUpdate(cfg, View(), e.guildId, e.settings);
        OnGuildUpdate(e.guildId, e.settings);
      } else {
        ByRoleEvent(cfg, View(), e);
        OnRoleEvent(e);
      }
    }

    method OnGuildEvent(e: Event)
      requires !InTables(e)
      modifies this
      ensures View() == CacheEvents.Update(cfg, old(View()), e)
    {
      hide View, GuildLost, GuildsLost, ForgetGuild, TableByTable, CacheGuilds.DeleteGuild, SetCurrentUser;
      match e
      case GuildCreateUnavailable(g) => LoseGuild(g);
      case GuildDelete(g) =>
        assert old(View()).guilds == old(GuildsView()) by { ViewOfGuilds(); }
        DeleteGuild(g, false);
      case Ready(u, gs) => OnReady(u, gs);
      case UnavailableGuild(g) => LoseGuild(g);
      case UserUpdate(u) => SetUser(u);
    }

    lemma ViewOfGuilds()
      ensures View().guilds == GuildsView()
    {
    }

    method OnTablesEvent(e: Event)
      requires InTables(e)
      modifies this
      ensures View() == TableByTable(cfg, old(View()), e)
    {
      hide View, TableByTable, IsChannelEvent, IsMessageEvent, IsMemberEvent, IsResourceEvent;
      if e.GuildCreate? {
        CacheGuild(e.guild);
      } else if IsChannelEvent(e) {
        OnChannelEvent(e);
      } else if IsMessageEvent(e) {
        OnMessageEvent(e);
      } else if IsMemberEvent(e) {
        OnMemberEvent(e);
      } else if IsResourceEvent(e) {
        OnResourceEvent(e);
      } else {
        ByOther(cfg, View(), e);
      }
    }

    method Update(e: Event)
      modifies this
      ensures View() == CacheEvents.Update(cfg, old(View()), e)
    {
      hide View, GuildLost, GuildsLost, ForgetGuild, TableByTable, CacheGuilds.DeleteGuild, SetCurrentUser;
      if InTables(e) {
        OnTablesEvent(e);
      } else {
        OnGuildEvent(e);
      }
    }

    /** A run of events from an empty cache. */
    method Run(events: seq<Event>)
      requires View() == EMPTY
      modifies this
      ensures View() == After(cfg, events) && Inv(cfg, View())
      ensures AllProper(cfg, events) ==> Windowed(cfg, WindowView())
    {
      hide CacheEvents.Update, Inv, Windowed, AllProper;
      for i := 0 to |events|
        invariant View() == After(cfg, events[..i])
      {
        Update(events[i]);
        assert events[..i + 1][..i] == events[..i];
      }
      assert events[..|events|] == events;
      InvAlways(cfg, events);
      if AllProper(cfg, events) {
        WindowedUpTo(cfg, events, |events|);
      }
    }
  }

  lemma SameIds(payload: seq<Emoji>)
    ensures (set i | 0 <= i < |payload| :: payload[i].id) == IdsOf(EmojiEntries(payload))
  {
    forall id ensures id in IdsOf(EmojiEntries(payload)) <==> exists i :: 0 <= i < |payload| && payload[i].id == id {
      if i :| 0 <= i < |payload| && payload[i].id == id {
        assert EmojiEntries(payload)[i].0 == id;
      }
    }
  }

  lemma SameStickerIds(payload: seq<Sticker>)
    ensures (set i | 0 <= i < |payload| :: payload[i].id) == IdsOf(StickerEntries(payload))
  {
    forall id ensures id in IdsOf(StickerEntries(payload)) <==> exists i :: 0 <= i < |payload| && payload[i].id == id {
      if i :| 0 <= i < |payload| && payload[i].id == id {
        assert StickerEntries(payload)[i].0 == id;
      }
    }
  }
}
