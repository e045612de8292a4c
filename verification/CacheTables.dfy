/** The tables of the guild cache and what a repository does with them. */
module CacheTables {
  import opened Base

  type GuildId = nat
  type UserId = nat
  type ChannelId = nat
  type MessageId = nat
  type RoleId = nat
  type EmojiId = nat
  type StickerId = nat

  /** Which resources the user of the cache wants, and the size of the message window. */
  datatype Config = Config(guild: bool, channel: bool, user: bool, userCurrent: bool, member: bool, role: bool,
                           emoji: bool, sticker: bool, presence: bool, voiceState: bool, message: bool,
                           messageCacheSize: nat)

  /** What belongs to a guild is stored with the guild it was cached for. */
  datatype Resource<V> = Resource(guild: GuildId, value: V)

  // ------------------------------------------------- repositories: hashes by key

  function Put<K(==), V(==)>(wanted: bool, m: map<K, V>, k: K, v: V): map<K, V> {
    if wanted then m[k := v] else m
  }

  /** Whether putting reports a new key: never if the resource is not wanted. */
  predicate PutIsNew<K(==), V(==)>(wanted: bool, m: map<K, V>, k: K) {
    wanted && k !in m
  }

  function Remove<K(==), V(==)>(wanted: bool, m: map<K, V>, k: K): map<K, V> {
    if wanted then m - {k} else m
  }

  function RemoveAll<K(==), V(==)>(wanted: bool, m: map<K, V>, ks: set<K>): map<K, V> {
    if wanted then m - ks else m
  }

  // ---------------------------------- mapped sets: one set per key, as its pairs

  function Members<K(==), V(==)>(s: set<(K, V)>, k: K): set<V> {
    set p | p in s && p.0 == k :: p.1
  }

  function Link<K(==), V(==)>(wanted: bool, s: set<(K, V)>, k: K, v: V): set<(K, V)> {
    if wanted then s + {(k, v)} else s
  }

  function Unlink<K(==), V(==)>(wanted: bool, s: set<(K, V)>, k: K, v: V): set<(K, V)> {
    if wanted then s - {(k, v)} else s
  }

  function UnlinkAll<K(==), V(==)>(wanted: bool, s: set<(K, V)>, k: K, vs: set<V>): set<(K, V)> {
    if wanted then set p | p in s && !(p.0 == k && p.1 in vs) else s
  }

  function Clear<K(==), V(==)>(wanted: bool, s: set<(K, V)>, k: K): set<(K, V)> {
    if wanted then set p | p in s && p.0 != k else s
  }

  /** What the repository's emptiness test answers: whether the set EXISTS, and no if it is not wanted. */
  predicate IsEmpty<K(==), V(==)>(wanted: bool, s: set<(K, V)>, k: K) {
    wanted && exists p :: p in s && p.0 == k
  }

  lemma MembersIff<K, V>(s: set<(K, V)>, k: K)
    ensures forall v :: v in Members(s, k) <==> (k, v) in s
  {
  }
}
