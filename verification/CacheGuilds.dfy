/** Guilds, their channels, presences and voice states. */
module CacheGuilds {
  import opened Base
  import opened CacheTables

  const MAX_U64: nat := 0xFFFF_FFFF_FFFF_FFFF

  /** `settings` stands for the fields a guild update replaces, `fixed` for those it leaves. */
  datatype CachedGuild = CachedGuild(id: GuildId, memberCount: Option<nat>, unavailable: Option<bool>, settings: int, fixed: int)

  datatype Guilds = Guilds(guilds: map<GuildId, CachedGuild>, unavailable: set<GuildId>)

  datatype Channel = Channel(id: ChannelId, guild: Option<GuildId>, lastPin: int, settings: int)

  datatype Channels = Channels(channels: map<ChannelId, Channel>, index: set<(GuildId, ChannelId)>)

  datatype Presence = Presence(guild: GuildId, user: UserId, status: int)

  datatype Presences = Presences(presences: map<(GuildId, UserId), Presence>, index: set<(GuildId, UserId)>)

  datatype VoiceState = VoiceState(guild: Option<GuildId>, channel: Option<ChannelId>, user: UserId, flags: int)

  datatype CachedVoiceState = CachedVoiceState(channel: ChannelId, guild: GuildId, user: UserId, flags: int)

  datatype Voice = Voice(states: map<(GuildId, UserId), CachedVoiceState>, guilds: set<(GuildId, UserId)>,
                         channels: set<(ChannelId, (GuildId, UserId))>)

  // ------------------------------------------------------------------- guilds

  function StoreGuild(cfg: Config, t: Guilds, guild: CachedGuild): Guilds {
    t.(guilds := Put(cfg.guild, t.guilds, guild.id, guild))
  }

  function SaturatingAdd(n: nat): nat {
    if n < MAX_U64 then n + 1 else MAX_U64
  }

  function SaturatingSub(n: nat): nat {
    if n > 0 then n - 1 else 0
  }

  function CountMember(cfg: Config, t: Guilds, g: GuildId, joined: bool): Guilds {
    if g !in t.guilds then t
    else
      var guild := t.guilds[g];
      StoreGuild(cfg, t, guild.(memberCount := match guild.memberCount
                                 case None => None
                                 case Some(n) => Some(if joined then SaturatingAdd(n) else SaturatingSub(n))))
  }

  function UpdateGuild(cfg: Config, t: Guilds, g: GuildId, settings: int): Guilds {
    if g !in t.guilds then t else StoreGuild(cfg, t, t.guilds[g].(settings := settings))
  }

  function MarkUnavailable(cfg: Config, t: Guilds, g: GuildId): Guilds {
    t.(unavailable := if cfg.guild then t.unavailable + {g} else t.unavailable)
  }

  function DeleteGuild(cfg: Config, t: Guilds, g: GuildId, unavailable: bool): Guilds {
    if !unavailable then t.(guilds := Remove(cfg.guild, t.guilds, g))
    else if g !in t.guilds then t
    else t.(guilds := Put(cfg.guild, t.guilds, g, t.guilds[g].(unavailable := Some(true))))
  }

  function GuildArrived(cfg: Config, t: Guilds, guild: CachedGuild): Guilds {
    StoreGuild(cfg, t.(unavailable := if cfg.guild then t.unavailable - {guild.id} else t.unavailable), guild)
  }

  /** Guilds are stored under their id, and a cached guild that is listed as unavailable says so. */
  ghost predicate Available(cfg: Config, t: Guilds) {
    && (forall g :: g in t.guilds ==> t.guilds[g].id == g)
    && (forall g :: g in t.guilds && g in t.unavailable ==> t.guilds[g].unavailable == Some(true))
    && (cfg.guild || t == Guilds(map[], {}))
  }

  /** Losing a guild: listed, then marked or already gone. */
  function LoseGuild(cfg: Config, t: Guilds, g: GuildId): Guilds {
    DeleteGuild(cfg, MarkUnavailable(cfg, t, g), g, true)
  }

  lemma GuildsAvailable(cfg: Config, t: Guilds, g: GuildId, joined: bool, settings: int, guild: CachedGuild)
    requires Available(cfg, t)
    ensures Available(cfg, CountMember(cfg, t, g, joined)) && Available(cfg, UpdateGuild(cfg, t, g, settings))
    ensures Available(cfg, LoseGuild(cfg, t, g)) && Available(cfg, DeleteGuild(cfg, t, g, false))
    ensures Available(cfg, GuildArrived(cfg, t, guild))
  {
  }

  /** A member that joins and leaves again restores the guild exactly unless its count had reached the largest number. */
  lemma JoinLeaveIff(cfg: Config, t: Guilds, g: GuildId)
    requires cfg.guild && Available(cfg, t) && g in t.guilds
    ensures CountMember(cfg, CountMember(cfg, t, g, true), g, false) == t
       <==> t.guilds[g].memberCount.None? || t.guilds[g].memberCount.value < MAX_U64
  {
  }

  // ----------------------------------------------------------------- channels

  function CacheChannel(cfg: Config, t: Channels, c: Channel): Channels {
    Channels(Put(cfg.channel, t.channels, c.id, c),
             if c.guild.Some? then Link(cfg.channel, t.index, c.guild.value, c.id) else t.index)
  }

  function CacheChannels(cfg: Config, t: Channels, cs: seq<Channel>): Channels {
    if cs == [] then t else CacheChannel(cfg, CacheChannels(cfg, t, cs[..|cs| - 1]), cs[|cs| - 1])
  }

  function DeleteChannel(cfg: Config, t: Channels, c: ChannelId): Channels {
    Channels(Remove(cfg.channel, t.channels, c),
             if c in t.channels && t.channels[c].guild.Some?
             then Unlink(cfg.channel, t.index, t.channels[c].guild.value, t.channels[c].id) else t.index)
  }

  function PinsUpdate(cfg: Config, t: Channels, c: ChannelId, lastPin: int): Channels {
    if c !in t.channels then t
    else
      var channel := t.channels[c].(lastPin := lastPin);
      t.(channels := Put(cfg.channel, t.channels, channel.id, channel))
  }

  /** The channels and threads of an arriving guild, which are told its id. */
  function Adopt(g: GuildId, cs: seq<Channel>): seq<Channel> {
    seq(|cs|, i requires 0 <= i < |cs| => cs[i].(guild := Some(g)))
  }

  function GuildChannelsArrived(cfg: Config, t: Channels, g: GuildId, channels: seq<Channel>, threads: seq<Channel>): Channels {
    CacheChannels(cfg, CacheChannels(cfg, t.(index := Clear(cfg.channel, t.index, g)), Adopt(g, channels)), Adopt(g, threads))
  }

  function DeleteGuildChannels(cfg: Config, t: Channels, g: GuildId): Channels {
    t.(channels := RemoveAll(cfg.channel, t.channels, Members(t.index, g)))
  }

  /** Channels are stored under their id. */
  ghost predicate ChannelsKeyed(cfg: Config, t: Channels) {
    && (forall c :: c in t.channels ==> t.channels[c].id == c)
    && (cfg.channel || t == Channels(map[], {}))
  }

  lemma CacheChannelKeyed(cfg: Config, t: Channels, c: Channel)
    requires ChannelsKeyed(cfg, t)
    ensures ChannelsKeyed(cfg, CacheChannel(cfg, t, c))
  {
  }

  lemma {:induction false} CacheChannelsKeyed(cfg: Config, t: Channels, cs: seq<Channel>)
    requires ChannelsKeyed(cfg, t)
    ensures ChannelsKeyed(cfg, CacheChannels(cfg, t, cs))
  {
    if cs != [] {
      CacheChannelsKeyed(cfg, t, cs[..|cs| - 1]);
    }
  }

  lemma ChannelStepsKeyed(cfg: Config, t: Channels, c: ChannelId, lastPin: int, g: GuildId, channels: seq<Channel>, threads: seq<Channel>)
    requires ChannelsKeyed(cfg, t)
    ensures ChannelsKeyed(cfg, DeleteChannel(cfg, t, c)) && ChannelsKeyed(cfg, PinsUpdate(cfg, t, c, lastPin))
    ensures ChannelsKeyed(cfg, DeleteGuildChannels(cfg, t, g))
    ensures ChannelsKeyed(cfg, GuildChannelsArrived(cfg, t, g, channels, threads))
  {
    var cleared := t.(index := Clear(cfg.channel, t.index, g));
    assert ChannelsKeyed(cfg, cleared);
    CacheChannelsKeyed(cfg, cleared, Adopt(g, channels));
    CacheChannelsKeyed(cfg, CacheChannels(cfg, cleared, Adopt(g, channels)), Adopt(g, threads));
  }

  /**
   * A guild that arrives again without a channel clears the index and keeps the channel, so the channel outlives
   * the guild.
   */
  lemma ForgottenChannelSurvives(cfg: Config, g: GuildId, c: Channel)
    requires cfg.channel
    ensures var once := GuildChannelsArrived(cfg, Channels(map[], {}), g, [c], []);
            var again := GuildChannelsArrived(cfg, once, g, [], []);
            var deleted := DeleteGuildChannels(cfg, again, g);
            c.id in deleted.channels && deleted.channels[c.id].guild == Some(g)
  {
  }

  // ---------------------------------------------------------------- presences

  function CachePresence(cfg: Config, t: Presences, g: GuildId, p: Presence): Presences {
    Presences(Put(cfg.presence, t.presences, (g, p.user), p), Link(cfg.presence, t.index, g, p.user))
  }

  function CachePresences(cfg: Config, t: Presences, g: GuildId, ps: seq<Presence>): Presences {
    if ps == [] then t else CachePresence(cfg, CachePresences(cfg, t, g, ps[..|ps| - 1]), g, ps[|ps| - 1])
  }

  function DeleteGuildPresences(cfg: Config, t: Presences, g: GuildId): Presences {
    var keys := set u | u in Members(t.index, g) :: (g, u);
    Presences(RemoveAll(cfg.presence, t.presences, keys), Clear(cfg.presence, t.index, g))
  }

  /** Presences and their index agree both ways. */
  ghost predicate PresencesAgree(cfg: Config, t: Presences) {
    && (forall k :: k in t.presences <==> k in t.index)
    && (cfg.presence || t.index == {})
  }

  lemma CachePresenceAgree(cfg: Config, t: Presences, g: GuildId, p: Presence)
    requires PresencesAgree(cfg, t)
    ensures PresencesAgree(cfg, CachePresence(cfg, t, g, p))
  {
  }

  lemma {:induction false} CachePresencesAgree(cfg: Config, t: Presences, g: GuildId, ps: seq<Presence>)
    requires PresencesAgree(cfg, t)
    ensures PresencesAgree(cfg, CachePresences(cfg, t, g, ps))
  {
    if ps != [] {
      CachePresencesAgree(cfg, t, g, ps[..|ps| - 1]);
    }
  }

  lemma DeleteGuildPresencesAgree(cfg: Config, t: Presences, g: GuildId)
    requires PresencesAgree(cfg, t)
    ensures PresencesAgree(cfg, DeleteGuildPresences(cfg, t, g))
    ensures forall u :: (g, u) !in DeleteGuildPresences(cfg, t, g).presences
  {
  }

  // ------------------------------------------------------------- voice states

  /** Voice states without a guild are ignored; one without a channel removes what is cached. */
  function CacheVoiceState(cfg: Config, t: Voice, v: VoiceState): Voice {
    if v.guild.None? then t
    else
      var key := (v.guild.value, v.user);
      var channels := if key in t.states then Unlink(cfg.voiceState, t.channels, t.states[key].channel, key) else t.channels;
      match v.channel
      case Some(c) =>
        Voice(Put(cfg.voiceState, t.states, key, CachedVoiceState(c, key.0, key.1, v.flags)),
              Link(cfg.voiceState, t.guilds, key.0, key.1),
              Link(cfg.voiceState, channels, c, key))
      case None =>
        Voice(Remove(cfg.voiceState, t.states, key), Unlink(cfg.voiceState, t.guilds, key.0, key.1), channels)
  }

  function CacheVoiceStates(cfg: Config, t: Voice, vs: seq<VoiceState>): Voice {
    if vs == [] then t else CacheVoiceState(cfg, CacheVoiceStates(cfg, t, vs[..|vs| - 1]), vs[|vs| - 1])
  }

  function DeleteGuildVoice(cfg: Config, t: Voice, g: GuildId): Voice {
    t.(guilds := Clear(cfg.voiceState, t.guilds, g))
  }

  /** A user is listed in a channel exactly if its voice state is in that channel; listing with a guild implies a state. */
  ghost predicate VoiceAgrees(cfg: Config, t: Voice) {
    && (forall c, k :: (c, k) in t.channels <==> k in t.states && t.states[k].channel == c)
    && (forall k :: k in t.guilds ==> k in t.states)
    && (forall k :: k in t.states ==> (t.states[k].guild, t.states[k].user) == k)
    && (cfg.voiceState || t == Voice(map[], {}, {}))
  }

  lemma VoiceStateAgrees(cfg: Config, t: Voice, v: VoiceState)
    requires VoiceAgrees(cfg, t)
    ensures VoiceAgrees(cfg, CacheVoiceState(cfg, t, v))
  {
  }

  /** A voice state with a guild leaves the user in its channel of the guild and in no other. */
  lemma VoiceStateMoves(cfg: Config, t: Voice, v: VoiceState, c: ChannelId)
    requires VoiceAgrees(cfg, t) && cfg.voiceState && v.guild.Some?
    ensures var t' := CacheVoiceState(cfg, t, v);
            && ((c, (v.guild.value, v.user)) in t'.channels <==> v.channel == Some(c))
            && ((v.guild.value, v.user) in t'.guilds <==> v.channel.Some?)
  {
  }

  lemma {:induction false} VoiceStatesAgree(cfg: Config, t: Voice, vs: seq<VoiceState>)
    requires VoiceAgrees(cfg, t)
    ensures VoiceAgrees(cfg, CacheVoiceStates(cfg, t, vs))
  {
    hide VoiceAgrees;
    if vs != [] {
      VoiceStatesAgree(cfg, t, vs[..|vs| - 1]);
      VoiceStateAgrees(cfg, CacheVoiceStates(cfg, t, vs[..|vs| - 1]), vs[|vs| - 1]);
    }
  }

  lemma DeleteGuildVoiceAgrees(cfg: Config, t: Voice, g: GuildId)
    requires VoiceAgrees(cfg, t)
    ensures VoiceAgrees(cfg, DeleteGuildVoice(cfg, t, g))
    ensures DeleteGuildVoice(cfg, t, g).states == t.states
  {
  }

  /** A user in one voice channel per guild: no channel of the cache lists it twice over. */
  lemma OneVoiceChannel(cfg: Config, t: Voice, c: ChannelId, d: ChannelId, k: (GuildId, UserId))
    requires VoiceAgrees(cfg, t) && (c, k) in t.channels && (d, k) in t.channels
    ensures c == d
  {
  }
}
