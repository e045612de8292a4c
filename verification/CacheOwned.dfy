/** Emojis, stickers and roles: tables of resources with the guild that owns them, and an index by guild. */
module CacheOwned {
  import opened Base
  import opened CacheTables
  import opened CachePeople

  type ResourceId = nat

  datatype Owned<V> = Owned(table: map<ResourceId, Resource<V>>, index: set<(GuildId, ResourceId)>)

  // --------------------------------------------------- payloads and what is cached

  datatype Emoji = Emoji(animated: bool, available: bool, id: EmojiId, managed: bool, name: string, requireColons: bool,
                         roles: seq<RoleId>, user: Option<User>)

  datatype CachedEmoji = CachedEmoji(animated: bool, available: bool, id: EmojiId, managed: bool, name: string,
                                     requireColons: bool, roles: seq<RoleId>, user: Option<UserId>)

  datatype FormatType = Png | Apng | Lottie | Gif | UnknownFormat(code: nat)

  datatype StickerType = StandardSticker | GuildSticker | UnknownType(code: nat)

  datatype Sticker = Sticker(available: bool, description: Option<string>, formatType: FormatType, guild: Option<GuildId>,
                             id: StickerId, kind: StickerType, name: string, pack: Option<nat>, sortValue: Option<nat>,
                             tags: string, user: Option<User>)

  datatype CachedSticker = CachedSticker(available: bool, description: string, formatType: FormatType, guild: Option<GuildId>,
                                         id: StickerId, kind: StickerType, name: string, pack: Option<nat>,
                                         sortValue: Option<nat>, tags: string, user: Option<UserId>)

  datatype Role = Role(id: RoleId, looks: int)

  function UserIdOf(user: Option<User>): Option<UserId> {
    if user.Some? then Some(user.value.id) else None
  }

  function FromEmoji(e: Emoji): CachedEmoji {
    CachedEmoji(e.animated, e.available, e.id, e.managed, e.name, e.requireColons, e.roles, UserIdOf(e.user))
  }

  predicate EqEmoji(c: CachedEmoji, e: Emoji) {
    && c.id == e.id
    && c.animated == e.animated
    && c.managed == e.managed
    && c.name == e.name
    && c.requireColons == e.requireColons
    && c.roles == e.roles
    && c.user == UserIdOf(e.user)
    && c.available == e.available
  }

  function FromSticker(s: Sticker): CachedSticker {
    CachedSticker(s.available, if s.description.Some? then s.description.value else "", s.formatType, s.guild, s.id, s.kind,
                  s.name, s.pack, s.sortValue, s.tags, UserIdOf(s.user))
  }

  predicate EqSticker(c: CachedSticker, s: Sticker) {
    && c.available == s.available
    && c.description == (match s.description case Some(d) => d case None => "")
    && c.formatType == s.formatType
    && c.guild == s.guild
    && c.id == s.id
    && c.kind == s.kind
    && c.name == s.name
    && c.pack == s.pack
    && c.sortValue == s.sortValue
    && c.tags == s.tags
    && c.user == UserIdOf(s.user)
  }

  /**
   * The payload equalities, which compare field by field, forget none: they hold exactly of what would be written, so
   * skipping equal values loses no change.
   */
  lemma EqualitiesExact(c: CachedEmoji, e: Emoji, d: CachedSticker, s: Sticker)
    ensures EqEmoji(c, e) <==> c == FromEmoji(e)
    ensures EqSticker(d, s) <==> d == FromSticker(s)
  {
  }

  function EmojiEntries(emojis: seq<Emoji>): seq<(ResourceId, CachedEmoji)> {
    seq(|emojis|, i requires 0 <= i < |emojis| => (emojis[i].id, FromEmoji(emojis[i])))
  }

  function StickerEntries(stickers: seq<Sticker>): seq<(ResourceId, CachedSticker)> {
    seq(|stickers|, i requires 0 <= i < |stickers| => (stickers[i].id, FromSticker(stickers[i])))
  }

  // --------------------------------------------------------------- operations

  function Store<V(==)>(wanted: bool, o: Owned<V>, g: GuildId, id: ResourceId, v: V): Owned<V> {
    Owned(Put(wanted, o.table, id, Resource(g, v)), Link(wanted, o.index, g, id))
  }

  /** An equal value is skipped, whichever guild it was stored for. */
  function StoreChanged<V(==)>(wanted: bool, o: Owned<V>, g: GuildId, id: ResourceId, v: V): Owned<V> {
    if id in o.table && o.table[id].value == v then o else Store(wanted, o, g, id, v)
  }

  function StoreAll<V(==)>(wanted: bool, o: Owned<V>, g: GuildId, entries: seq<(ResourceId, V)>): Owned<V> {
    if entries == [] then o
    else
      var last := entries[|entries| - 1];
      StoreChanged(wanted, StoreAll(wanted, o, g, entries[..|entries| - 1]), g, last.0, last.1)
  }

  function IdsOf<V>(entries: seq<(ResourceId, V)>): set<ResourceId> {
    set i | 0 <= i < |entries| :: entries[i].0
  }

  /** Drops what the guild's index lists and the payload does not. */
  function DropMissing<V(==)>(wanted: bool, o: Owned<V>, g: GuildId, incoming: set<ResourceId>): Owned<V> {
    var missing := Members(o.index, g) - incoming;
    Owned(RemoveAll(wanted, o.table, missing), UnlinkAll(wanted, o.index, g, missing))
  }

  function Sync<V(==)>(wanted: bool, o: Owned<V>, g: GuildId, entries: seq<(ResourceId, V)>): Owned<V> {
    StoreAll(wanted, DropMissing(wanted, o, g, IdsOf(entries)), g, entries)
  }

  function Drop<V(==)>(wanted: bool, o: Owned<V>, g: GuildId, id: ResourceId): Owned<V> {
    Owned(Remove(wanted, o.table, id), Unlink(wanted, o.index, g, id))
  }

  /** Deleting a guild removes what its index lists, and leaves the index. */
  function DeleteGuildOwned<V(==)>(wanted: bool, o: Owned<V>, g: GuildId): Owned<V> {
    o.(table := RemoveAll(wanted, o.table, Members(o.index, g)))
  }

  function StoreRoles(wanted: bool, o: Owned<Role>, g: GuildId, roles: seq<Role>): Owned<Role> {
    if roles == [] then o
    else Store(wanted, StoreRoles(wanted, o, g, roles[..|roles| - 1]), g, roles[|roles| - 1].id, roles[|roles| - 1])
  }

  // ---------------------------------------------------------------- invariant

  /** Whatever is stored for a guild is listed in that guild's index. */
  ghost predicate Listed<V>(wanted: bool, o: Owned<V>) {
    && (forall id :: id in o.table ==> (o.table[id].guild, id) in o.index)
    && (wanted || (o.table == map[] && o.index == {}))
  }

  lemma StoreListed<V>(wanted: bool, o: Owned<V>, g: GuildId, id: ResourceId, v: V)
    requires Listed(wanted, o)
    ensures Listed(wanted, Store(wanted, o, g, id, v))
  {
  }

  lemma {:induction false} StoreAllListed<V>(wanted: bool, o: Owned<V>, g: GuildId, entries: seq<(ResourceId, V)>)
    requires Listed(wanted, o)
    ensures Listed(wanted, StoreAll(wanted, o, g, entries))
  {
    if entries != [] {
      StoreAllListed(wanted, o, g, entries[..|entries| - 1]);
    }
  }

  lemma SyncListed<V>(wanted: bool, o: Owned<V>, g: GuildId, entries: seq<(ResourceId, V)>)
    requires Listed(wanted, o)
    ensures Listed(wanted, Sync(wanted, o, g, entries))
  {
    assert Listed(wanted, DropMissing(wanted, o, g, IdsOf(entries)));
    StoreAllListed(wanted, DropMissing(wanted, o, g, IdsOf(entries)), g, entries);
  }

  lemma {:induction false} StoreRolesListed(wanted: bool, o: Owned<Role>, g: GuildId, roles: seq<Role>)
    requires Listed(wanted, o)
    ensures Listed(wanted, StoreRoles(wanted, o, g, roles))
  {
    if roles != [] {
      StoreRolesListed(wanted, o, g, roles[..|roles| - 1]);
    }
  }

  lemma DropListed<V>(wanted: bool, o: Owned<V>, g: GuildId, id: ResourceId)
    requires Listed(wanted, o)
    ensures Listed(wanted, Drop(wanted, o, g, id))
  {
  }

  /** Dropping what was just stored restores the tables exactly if the id was neither stored nor listed for the guild. */
  lemma DropUndoesStoreIff<V>(o: Owned<V>, g: GuildId, id: ResourceId, v: V)
    ensures Drop(true, Store(true, o, g, id, v), g, id) == o <==> id !in o.table && (g, id) !in o.index
  {
    if id !in o.table && (g, id) !in o.index {
      assert Drop(true, Store(true, o, g, id, v), g, id) == o;
    }
  }

  /** Deleting a guild leaves nothing that is stored for it. */
  lemma DeleteGuildListed<V>(wanted: bool, o: Owned<V>, g: GuildId)
    requires Listed(wanted, o)
    ensures Listed(wanted, DeleteGuildOwned(wanted, o, g))
    ensures forall id :: id in DeleteGuildOwned(wanted, o, g).table ==> DeleteGuildOwned(wanted, o, g).table[id].guild != g
  {
  }

  // ------------------------------------------------------------ synchronising

  /** The last entry a payload has for an id. */
  function LastOf<V>(entries: seq<(ResourceId, V)>, id: ResourceId): Option<V> {
    if entries == [] then None
    else if entries[|entries| - 1].0 == id then Some(entries[|entries| - 1].1)
    else LastOf(entries[..|entries| - 1], id)
  }

  /** Some entry for the id is written: it is not cached, or one of its entries differs from what is. */
  ghost predicate Written<V>(o: Owned<V>, entries: seq<(ResourceId, V)>, id: ResourceId) {
    exists j :: 0 <= j < |entries| && entries[j].0 == id && (id !in o.table || entries[j].1 != o.table[id].value)
  }

  lemma WrittenSnoc<V>(o: Owned<V>, entries: seq<(ResourceId, V)>, id: ResourceId)
    requires entries != []
    ensures var last := entries[|entries| - 1];
            Written(o, entries, id) <==>
              || Written(o, entries[..|entries| - 1], id)
              || (last.0 == id && (id !in o.table || last.1 != o.table[id].value))
  {
  }

  /** What storing a payload does to one id. */
  lemma {:induction false} StoreAllAt<V>(o: Owned<V>, g: GuildId, entries: seq<(ResourceId, V)>, id: ResourceId)
    ensures var o' := StoreAll(true, o, g, entries);
            && (!Written(o, entries, id) ==> (id in o'.table <==> id in o.table) && (id in o.table ==> o'.table[id] == o.table[id]))
            && (Written(o, entries, id) ==> id in o'.table && o'.table[id].guild == g)
            && ((g, id) in o'.index <==> (g, id) in o.index || Written(o, entries, id))
            && (forall h :: h != g ==> ((h, id) in o'.index <==> (h, id) in o.index))
            && (LastOf(entries, id).Some? ==> id in o'.table && o'.table[id].value == LastOf(entries, id).value)
  {
    if entries != [] {
      StoreAllAt(o, g, entries[..|entries| - 1], id);
      WrittenSnoc(o, entries, id);
    }
  }

  lemma {:induction false} LastOfIff<V>(entries: seq<(ResourceId, V)>, id: ResourceId)
    ensures LastOf(entries, id).Some? <==> id in IdsOf(entries)
  {
    if entries != [] {
      var before := entries[..|entries| - 1];
      LastOfIff(before, id);
      if id in IdsOf(before) {
        var i :| 0 <= i < |before| && before[i].0 == id;
        assert entries[i].0 == id;
      }
      if id in IdsOf(entries) && entries[|entries| - 1].0 != id {
        var i :| 0 <= i < |entries| && entries[i].0 == id;
        assert before[i].0 == id;
      }
    }
  }

  /**
   * After synchronising, every id of the payload is cached with the value of its last entry; ids the guild's
   * index listed and the payload does not are gone; everything else is as before.
   */
  lemma SyncValues<V>(o: Owned<V>, g: GuildId, entries: seq<(ResourceId, V)>, id: ResourceId)
    ensures var o' := Sync(true, o, g, entries);
            if id in IdsOf(entries) then
              LastOf(entries, id).Some? && id in o'.table && o'.table[id].value == LastOf(entries, id).value
            else if (g, id) in o.index then id !in o'.table && (g, id) !in o'.index
            else (id in o'.table <==> id in o.table) && (id in o.table ==> o'.table[id] == o.table[id]) && (g, id) !in o'.index
    ensures forall h :: h != g ==> ((h, id) in Sync(true, o, g, entries).index <==> (h, id) in o.index)
  {
    var d := DropMissing(true, o, g, IdsOf(entries));
    LastOfIff(entries, id);
    StoreAllAt(d, g, entries, id);
  }

  lemma WrittenAfterDrop<V>(o: Owned<V>, g: GuildId, entries: seq<(ResourceId, V)>, id: ResourceId)
    requires id in IdsOf(entries)
    ensures Written(DropMissing(true, o, g, IdsOf(entries)), entries, id) <==> Written(o, entries, id)
  {
  }

  /**
   * An id of the payload ends up in the guild's index exactly unless it was not there before and is cached,
   * under another guild, with all its entries equal to the cached value.
   */
  lemma SyncIndexIff<V>(o: Owned<V>, g: GuildId, entries: seq<(ResourceId, V)>, id: ResourceId)
    requires Listed(true, o)
    ensures (g, id) in Sync(true, o, g, entries).index <==>
              && id in IdsOf(entries)
              && !(&& (g, id) !in o.index && id in o.table && o.table[id].guild != g
                   && forall j :: 0 <= j < |entries| && entries[j].0 == id ==> entries[j].1 == o.table[id].value)
  {
    SyncValues(o, g, entries, id);
    if id in IdsOf(entries) {
      WrittenAfterDrop(o, g, entries, id);
      StoreAllAt(DropMissing(true, o, g, IdsOf(entries)), g, entries, id);
    }
  }

  /** No id of the payload is cached under another guild. */
  ghost predicate NoneElsewhere<V>(o: Owned<V>, g: GuildId, entries: seq<(ResourceId, V)>) {
    forall id :: id in IdsOf(entries) && id in o.table ==> o.table[id].guild == g
  }

  /** Then the guild's index is exactly the payload's ids, and each is stored for the guild with its last value. */
  lemma SyncExact<V>(o: Owned<V>, g: GuildId, entries: seq<(ResourceId, V)>)
    requires Listed(true, o) && NoneElsewhere(o, g, entries)
    ensures var o' := Sync(true, o, g, entries);
            && Members(o'.index, g) == IdsOf(entries)
            && forall id :: id in IdsOf(entries) ==>
                 LastOf(entries, id).Some? && id in o'.table && o'.table[id] == Resource(g, LastOf(entries, id).value)
  {
    var o' := Sync(true, o, g, entries);
    forall id ensures id in Members(o'.index, g) <==> id in IdsOf(entries) {
      SyncIndexIff(o, g, entries, id);
      MembersIff(o'.index, g);
    }
    forall id | id in IdsOf(entries)
      ensures LastOf(entries, id).Some? && id in o'.table && o'.table[id] == Resource(g, LastOf(entries, id).value)
    {
      SyncValues(o, g, entries, id);
      StoreAllAt(DropMissing(true, o, g, IdsOf(entries)), g, entries, id);
    }
  }

  /** Storing every entry without looking at what is cached. */
  function OverwriteAll<V(==)>(wanted: bool, o: Owned<V>, g: GuildId, entries: seq<(ResourceId, V)>): Owned<V> {
    if entries == [] then o
    else
      var last := entries[|entries| - 1];
      Store(wanted, OverwriteAll(wanted, o, g, entries[..|entries| - 1]), g, last.0, last.1)
  }

  /** Skipping equal values is as good as overwriting, unless an id is cached under another guild. */
  lemma {:induction false} SkippingRefines<V>(o: Owned<V>, g: GuildId, entries: seq<(ResourceId, V)>)
    requires Listed(true, o) && NoneElsewhere(o, g, entries)
    ensures StoreAll(true, o, g, entries) == OverwriteAll(true, o, g, entries)
  {
    if entries != [] {
      var before, last := entries[..|entries| - 1], entries[|entries| - 1];
      forall id | id in IdsOf(before) && id in o.table ensures o.table[id].guild == g {
        var i :| 0 <= i < |before| && before[i].0 == id;
        assert entries[i].0 == id;
      }
      SkippingRefines(o, g, before);
      assert last.0 in IdsOf(entries);
      StoreAllAt(o, g, before, last.0);
      var q := StoreAll(true, o, g, before);
      if last.0 in q.table && q.table[last.0].value == last.1 {
        assert Store(true, q, g, last.0, last.1) == q;
      }
    }
  }

  /** A payload of one entry, synchronised for one guild and then for another, is not listed with the second. */
  lemma SharedMissesIndex<V>(g: GuildId, h: GuildId, entries: seq<(ResourceId, V)>, id: ResourceId, v: V)
    requires g != h && entries == [(id, v)]
    ensures var none: Owned<V> := Owned(map[], {});
            var o := Sync(true, Sync(true, none, g, entries), h, entries);
            id in o.table && o.table[id] == Resource(g, v) && (h, id) !in o.index
  {
    var none: Owned<V> := Owned(map[], {});
    var once := Sync(true, none, g, entries);
    assert entries[0].0 == id && id in IdsOf(entries);
    SyncListed(true, none, g, entries);
    SyncExact(none, g, entries);
    SyncValues(none, g, entries, id);
    SyncIndexIff(once, h, entries, id);
    WrittenAfterDrop(once, h, entries, id);
    StoreAllAt(DropMissing(true, once, h, IdsOf(entries)), h, entries, id);
  }
}
