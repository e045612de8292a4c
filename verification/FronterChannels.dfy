/** Keeping the voice channels of a guild's fronter category equal to the list of current fronters. */
module FronterChannels {
  import opened Base

  type ChannelId = nat

  /** Positions are 16-bit: a longer list of fronters makes the conversion panic. */
  const POSITIONS: nat := 65536

  datatype Channel = Channel(name: string, position: Option<int>)

  datatype Listed = Listed(id: ChannelId, channel: Channel)

  /** The channels of the category by name; of channels with the same name the last one counts. */
  function ByName(listed: seq<Listed>): map<string, Listed> {
    if listed == [] then map[]
    else
      var last := listed[|listed| - 1];
      ByName(listed[..|listed| - 1])[last.channel.name := last]
  }

  /** The wanted position of each name: its last index in the list of fronters. */
  function Positions(fronters: seq<string>): (r: map<string, nat>)
    ensures r.Keys == Elements(fronters)
    ensures forall n :: n in r ==> r[n] < |fronters| && fronters[r[n]] == n
                                   && forall i :: r[n] < i < |fronters| ==> fronters[i] != n
  {
    if fronters == [] then map[]
    else
      var last := |fronters| - 1;
      var rest := Positions(fronters[..last]);
      assert fronters == fronters[..last] + [fronters[last]];
      rest[fronters[last] := last]
  }

  type Channels = map<ChannelId, Channel>

  ghost predicate Lists(listed: seq<Listed>, channels: Channels) {
    && (forall i :: 0 <= i < |listed| ==> listed[i].id in channels && channels[listed[i].id] == listed[i].channel)
    && forall id :: id in channels ==> exists i :: 0 <= i < |listed| && listed[i].id == id
  }

  ghost predicate DistinctNames(channels: Channels) {
    forall a, b :: a in channels && b in channels && a != b ==> channels[a].name != channels[b].name
  }

  /** One channel per fronter, at the fronter's last index, and no others. */
  ghost predicate Converged(channels: Channels, fronters: seq<string>) {
    && DistinctNames(channels)
    && (forall id :: id in channels ==>
          channels[id].name in Positions(fronters)
          && channels[id].position == Some(Positions(fronters)[channels[id].name]))
    && forall n :: n in Positions(fronters) ==> exists id :: id in channels && channels[id].name == n
  }

  predicate IsKnown(known: map<string, Listed>, channels: Channels, id: ChannelId) {
    id in channels && channels[id].name in known && known[channels[id].name].id == id
  }

  /** Every entry describes a live channel of its name. */
  ghost predicate Describes(known: map<string, Listed>, channels: Channels) {
    forall n :: n in known ==> known[n].id in channels && channels[known[n].id] == known[n].channel && known[n].channel.name == n
  }

  lemma {:induction false} ByNameDescribes(listed: seq<Listed>, channels: Channels)
    requires forall i :: 0 <= i < |listed| ==> listed[i].id in channels && channels[listed[i].id] == listed[i].channel
    ensures Describes(ByName(listed), channels)
    ensures forall i :: 0 <= i < |listed| ==> listed[i].channel.name in ByName(listed)
  {
    if listed != [] {
      var init := listed[..|listed| - 1];
      assert forall i :: 0 <= i < |init| ==> init[i] == listed[i];
      ByNameDescribes(init, channels);
    }
  }

  /** Of channels with the same name the last one listed counts. */
  lemma {:induction false} ByNameIsLast(listed: seq<Listed>, i: nat)
    requires i < |listed| && forall j :: i < j < |listed| ==> listed[j].channel.name != listed[i].channel.name
    ensures listed[i].channel.name in ByName(listed) && ByName(listed)[listed[i].channel.name] == listed[i]
  {
    if i < |listed| - 1 {
      var init := listed[..|listed| - 1];
      assert forall j :: 0 <= j < |init| ==> init[j] == listed[j];
      ByNameIsLast(init, i);
    }
  }

  /** Every channel has an entry of its name, and it is the one described exactly when names are distinct. */
  lemma ByNameCovers(listed: seq<Listed>, channels: Channels)
    requires Lists(listed, channels)
    ensures Describes(ByName(listed), channels)
    ensures forall id :: id in channels ==> channels[id].name in ByName(listed)
    ensures DistinctNames(channels) <==> forall id :: id in channels ==> IsKnown(ByName(listed), channels, id)
  {
    ByNameDescribes(listed, channels);
    forall id | id in channels ensures channels[id].name in ByName(listed) {
      var i :| 0 <= i < |listed| && listed[i].id == id;
      assert listed[i].channel == channels[id];
    }
  }

  lemma NamesDescribed(listed: seq<Listed>, channels: Channels)
    requires Lists(listed, channels)
    ensures Describes(ByName(listed), channels)
  {
    ByNameDescribes(listed, channels);
  }

  /**
   * The category on the way: `now` holds the channels in `map` (those in `moved` already at their
   * position), the channels of `before` that the update does not know about, and nothing else.
   */
  ghost predicate Tracked(now: Channels, before: Channels, known: map<string, Listed>, current: map<string, Listed>,
                          moved: set<string>, pos: map<string, nat>)
  {
    && (forall n :: n in current ==>
          && current[n].id in now && current[n].channel.name == n
          && now[current[n].id] == (if n in moved && n in pos then Channel(n, Some(pos[n])) else current[n].channel)
          && (current[n].id in before ==> IsKnown(known, before, current[n].id)))
    && (forall id :: id in before && !IsKnown(known, before, id) ==> id in now && now[id] == before[id])
    && forall id :: id in now ==>
         || IsKnown(current, now, id)
         || (id in before && !IsKnown(known, before, id))
  }

  lemma TrackDelete(now: Channels, before: Channels, known: map<string, Listed>, current: map<string, Listed>,
                    pos: map<string, nat>, n: string)
    requires Tracked(now, before, known, current, {}, pos) && n in current
    ensures Tracked(now - {current[n].id}, before, known, current - {n}, {}, pos)
  {
  }

  lemma TrackCreate(now: Channels, before: Channels, known: map<string, Listed>, current: map<string, Listed>,
                    pos: map<string, nat>, n: string, id: ChannelId)
    requires Tracked(now, before, known, current, {}, pos)
    requires n !in current && n in pos && id !in now && id !in before
    ensures var c := Channel(n, Some(pos[n]));
            Tracked(now[id := c], before, known, current[n := Listed(id, c)], {}, pos)
  {
  }

  lemma TrackMove(now: Channels, before: Channels, known: map<string, Listed>, current: map<string, Listed>,
                  moved: set<string>, pos: map<string, nat>, n: string)
    requires Tracked(now, before, known, current, moved, pos) && n in current && n in pos && n !in moved
    ensures Tracked(now[current[n].id := Channel(n, Some(pos[n]))], before, known, current, moved + {n}, pos)
  {
  }

  /** A channel that already stands at its position counts as moved. */
  lemma TrackInPlace(now: Channels, before: Channels, known: map<string, Listed>, current: map<string, Listed>,
                     moved: set<string>, pos: map<string, nat>, n: string)
    requires Tracked(now, before, known, current, moved, pos) && n in current && n in pos
    requires current[n].channel.position == Some(pos[n])
    ensures Tracked(now, before, known, current, moved + {n}, pos)
  {
  }

  lemma TrackedLive(now: Channels, before: Channels, known: map<string, Listed>, current: map<string, Listed>,
                    moved: set<string>, pos: map<string, nat>, n: string)
    requires Tracked(now, before, known, current, moved, pos) && n in current
    ensures current[n].id in now && now[current[n].id].name == n
  {
  }

  lemma TrackedAsWanted(now: Channels, before: Channels, known: map<string, Listed>, current: map<string, Listed>, fronters: seq<string>)
    requires Tracked(now, before, known, current, current.Keys, Positions(fronters))
    requires current.Keys == Positions(fronters).Keys
    requires forall id :: id in before ==> IsKnown(known, before, id)
    ensures Converged(now, fronters)
  {
    hide Positions;
    AllKnown(now, before, known, current, Positions(fronters));
    hide Tracked;
    forall n | n in Positions(fronters) ensures exists id :: id in now && now[id].name == n {
      assert now[current[n].id].name == n;
    }
  }

  lemma AllKnown(now: Channels, before: Channels, known: map<string, Listed>, current: map<string, Listed>, pos: map<string, nat>)
    requires Tracked(now, before, known, current, current.Keys, pos) && current.Keys == pos.Keys
    requires forall id :: id in before ==> IsKnown(known, before, id)
    ensures forall id :: id in now ==> IsKnown(current, now, id)
    ensures forall n :: n in current ==> current[n].id in now && now[current[n].id] == Channel(n, Some(pos[n]))
  {
  }

  /** A channel hidden behind a namesake is still there, so the category is not as wanted. */
  lemma TrackedStray(now: Channels, before: Channels, known: map<string, Listed>, current: map<string, Listed>, fronters: seq<string>, stray: ChannelId)
    requires Tracked(now, before, known, current, current.Keys, Positions(fronters))
    requires current.Keys == Positions(fronters).Keys
    requires stray in before && !IsKnown(known, before, stray)
    ensures !Converged(now, fronters)
  {
  }

  /** At the end the category is as wanted exactly when no two of its channels shared a name. */
  lemma TrackedConverges(now: Channels, before: Channels, listed: seq<Listed>, current: map<string, Listed>, fronters: seq<string>)
    requires Lists(listed, before)
    requires Tracked(now, before, ByName(listed), current, current.Keys, Positions(fronters))
    requires current.Keys == Positions(fronters).Keys
    ensures Converged(now, fronters) <==> DistinctNames(before)
  {
    hide Tracked, ByName, Positions, IsKnown, Lists, Converged;
    ByNameCovers(listed, before);
    if DistinctNames(before) {
      TrackedAsWanted(now, before, ByName(listed), current, fronters);
    } else {
      var stray :| stray in before && !IsKnown(ByName(listed), before, stray);
      TrackedStray(now, before, ByName(listed), current, fronters, stray);
    }
  }

  // --------------------------------------------------------- repeated updates

  /** The second category is what a complete update may make of the first, however its channels are listed. */
  ghost predicate Updated(before: Channels, fronters: seq<string>, after: Channels) {
    exists listed, current :: UpdatesTo(before, listed, fronters, current, after)
  }

  ghost predicate UpdatesTo(before: Channels, listed: seq<Listed>, fronters: seq<string>, current: map<string, Listed>, after: Channels) {
    && Lists(listed, before) && current.Keys == Positions(fronters).Keys
    && Tracked(after, before, ByName(listed), current, current.Keys, Positions(fronters))
  }

  /** The channels that should not be there. */
  function Strays(channels: Channels, fronters: seq<string>): set<ChannelId> {
    set id | id in channels && channels[id].name !in fronters
  }

  /** Two channels share the name of a fronter. */
  ghost predicate SharesFronting(channels: Channels, fronters: seq<string>) {
    exists a, b :: Share(channels, fronters, a, b)
  }

  predicate Share(channels: Channels, fronters: seq<string>, a: ChannelId, b: ChannelId) {
    a in channels && b in channels && a != b && channels[a].name == channels[b].name && channels[a].name in fronters
  }

  /** An update takes one channel of each name that does not front. */
  lemma TrackedStrays(after: Channels, before: Channels, known: map<string, Listed>, current: map<string, Listed>,
                      fronters: seq<string>, pos: map<string, nat>)
    requires Describes(known, before) && forall id :: id in before ==> before[id].name in known
    requires Tracked(after, before, known, current, current.Keys, pos) && current.Keys == Elements(fronters)
    ensures Strays(after, fronters) <= Strays(before, fronters)
    ensures Strays(before, fronters) != {} ==> Strays(after, fronters) != Strays(before, fronters)
  {
    assert forall n :: n in fronters <==> n in current;
    forall id | id in Strays(after, fronters) ensures id in Strays(before, fronters) && !IsKnown(known, before, id) {
      assert !IsKnown(current, after, id);
    }
    if id :| id in Strays(before, fronters) {
      var taken := known[before[id].name].id;
      assert IsKnown(known, before, taken) && taken in Strays(before, fronters);
    }
  }

  /** An update neither adds nor takes a channel that shares the name of a fronter. */
  lemma TrackedShares(after: Channels, before: Channels, known: map<string, Listed>, current: map<string, Listed>,
                      fronters: seq<string>, pos: map<string, nat>)
    requires Describes(known, before) && forall id :: id in before ==> before[id].name in known
    requires Tracked(after, before, known, current, current.Keys, pos) && current.Keys == Elements(fronters)
    ensures SharesFronting(after, fronters) <==> SharesFronting(before, fronters)
  {
    assert forall n :: n in fronters <==> n in current;
    if a, b :| Share(before, fronters, a, b) {
      var other := if IsKnown(known, before, a) then b else a;
      var n := before[other].name;
      assert !IsKnown(known, before, other) && after[current[n].id].name == n;
      assert Share(after, fronters, current[n].id, other);
    }
    if a, b :| Share(after, fronters, a, b) {
      var n := after[a].name;
      var other := if current[n].id == a then b else a;
      assert !IsKnown(current, after, other);
      assert other in before && !IsKnown(known, before, other) && before[other].name == n;
      assert Share(before, fronters, known[n].id, other);
    }
  }

  lemma OneUpdate(before: Channels, fronters: seq<string>, after: Channels)
    requires Updated(before, fronters, after)
    ensures SharesFronting(after, fronters) <==> SharesFronting(before, fronters)
    ensures Strays(after, fronters) <= Strays(before, fronters)
    ensures Strays(before, fronters) != {} ==> Strays(after, fronters) != Strays(before, fronters)
    ensures Converged(after, fronters) <==> DistinctNames(before)
  {
    hide Tracked, ByName, Positions, Lists, Converged, DistinctNames, SharesFronting, Strays, Describes, IsKnown, Elements;
    var listed, current :| UpdatesTo(before, listed, fronters, current, after);
    ByNameCovers(listed, before);
    TrackedConverges(after, before, listed, current, fronters);
    TrackedStrays(after, before, ByName(listed), current, fronters, Positions(fronters));
    TrackedShares(after, before, ByName(listed), current, fronters, Positions(fronters));
  }

  /** Without strays all names front. */
  lemma DistinctWithoutStrays(channels: Channels, fronters: seq<string>)
    ensures DistinctNames(channels) ==> !SharesFronting(channels, fronters)
    ensures Strays(channels, fronters) == {} && !SharesFronting(channels, fronters) ==> DistinctNames(channels)
  {
    if Strays(channels, fronters) == {} {
      forall a, b | a in channels && b in channels && a != b && channels[a].name == channels[b].name
        ensures SharesFronting(channels, fronters)
      {
        assert a !in Strays(channels, fronters);
        assert Share(channels, fronters, a, b);
      }
    }
  }

  /** Each category is what a complete update with the same fronters may make of the one before. */
  ghost predicate Updates(categories: seq<Channels>, fronters: seq<string>) {
    forall i :: 0 < i < |categories| ==> Updated(categories[i - 1], fronters, categories[i])
  }

  lemma {:induction false} AfterUpdates(categories: seq<Channels>, fronters: seq<string>, i: nat)
    requires i < |categories| && Updates(categories, fronters)
    ensures SharesFronting(categories[i], fronters) <==> SharesFronting(categories[0], fronters)
    ensures |Strays(categories[i], fronters)| <= Remaining(|Strays(categories[0], fronters)|, i)
  {
    hide Strays, SharesFronting, Updated;
    if i > 0 {
      AfterUpdates(categories, fronters, i - 1);
      OneUpdate(categories[i - 1], fronters, categories[i]);
      var before, now := Strays(categories[i - 1], fronters), Strays(categories[i], fronters);
      SubsetCardinality(now, before);
      if before != {} {
        var gone :| gone in before && gone !in now;
        SubsetCardinality(now, before - {gone});
      }
    }
  }

  /**
   * Where one update does not converge, repeating it can: it deletes one channel of each name that does not front, and
   * never one of a name that does. So updates repeated with the same fronters converge in the end exactly if no two
   * channels share the name of a fronter, and then as soon as there are more updates than channels to delete.
   */
  lemma RepeatedUpdatesIff(categories: seq<Channels>, fronters: seq<string>, i: nat)
    requires i < |categories| && Updates(categories, fronters)
    ensures SharesFronting(categories[0], fronters) ==> !Converged(categories[i], fronters)
    ensures |Strays(categories[0], fronters)| < i ==>
              (Converged(categories[i], fronters) <==> !SharesFronting(categories[0], fronters))
  {
    AfterUpdates(categories, fronters, i);
    DistinctWithoutStrays(categories[i], fronters);
    hide Strays, SharesFronting, Updated, Positions;
    if |Strays(categories[0], fronters)| < i {
      AfterUpdates(categories, fronters, i - 1);
      DistinctWithoutStrays(categories[i - 1], fronters);
      hide Converged, DistinctNames;
      OneUpdate(categories[i - 1], fronters, categories[i]);
    }
  }

  lemma TrackedDistinct(now: Channels, before: Channels, listed: seq<Listed>, current: map<string, Listed>,
                        moved: set<string>, pos: map<string, nat>)
    requires Lists(listed, before) && DistinctNames(before)
    requires Tracked(now, before, ByName(listed), current, moved, pos)
    ensures DistinctNames(now)
  {
    ByNameCovers(listed, before);
    assert forall id :: id in now ==> IsKnown(current, now, id);
  }

  /** Number of names, hence of calls still to make for them. */
  ghost function Size(names: set<string>): nat {
    |names|
  }

  /** Budget and calls: either all calls so far were answered, or the budget ran out. */
  predicate Paying(budget: nat, now: nat, total: nat, left: nat, ok: bool) {
    if ok then now + total == budget + left else now == 0 && budget < total
  }

  ghost predicate Deleting(now: Channels, before: Channels, known: map<string, Listed>, current: map<string, Listed>,
                           pos: map<string, nat>, rest: set<string>)
  {
    && rest <= known.Keys - pos.Keys
    && current == known - (known.Keys - pos.Keys - rest)
    && Tracked(now, before, known, current, {}, pos)
  }

  lemma DeletingStarts(channels: Channels, known: map<string, Listed>, pos: map<string, nat>)
    requires Describes(known, channels)
    ensures Deleting(channels, channels, known, known, pos, known.Keys - pos.Keys)
  {
  }

  lemma DeletingStep(now: Channels, before: Channels, known: map<string, Listed>, current: map<string, Listed>,
                     pos: map<string, nat>, rest: set<string>, n: string)
    requires Deleting(now, before, known, current, pos, rest) && n in rest
    ensures n in current && current[n].id in now
    ensures Deleting(now - {current[n].id}, before, known, current - {n}, pos, rest - {n})
    ensures Size(rest - {n}) == Size(rest) - 1
  {
    hide Tracked;
    TrackedLive(now, before, known, current, {}, pos, n);
    TrackDelete(now, before, known, current, pos, n);
    MapRemoveOneMore(known, known.Keys - pos.Keys, rest, n);
  }

  lemma DeletingEnds(now: Channels, before: Channels, known: map<string, Listed>, current: map<string, Listed>,
                     pos: map<string, nat>, rest: set<string>)
    requires Deleting(now, before, known, current, pos, rest)
    ensures Tracked(now, before, known, current, {}, pos)
    ensures rest == {} ==> current == known - (known.Keys - pos.Keys) && Size(rest) == 0
  {
  }

  ghost predicate Creating(now: Channels, before: Channels, known: map<string, Listed>, current: map<string, Listed>,
                           pos: map<string, nat>, rest: set<string>)
  {
    && rest <= pos.Keys - known.Keys
    && current.Keys == pos.Keys - rest
    && AsFound(current, known, pos)
    && Tracked(now, before, known, current, {}, pos)
  }

  lemma CreatingStarts(now: Channels, before: Channels, known: map<string, Listed>, kept: map<string, Listed>, pos: map<string, nat>)
    requires Tracked(now, before, known, kept, {}, pos) && kept == known - (known.Keys - pos.Keys)
    ensures Creating(now, before, known, kept, pos, pos.Keys - known.Keys)
  {
  }

  lemma CreatingStep(now: Channels, before: Channels, known: map<string, Listed>, current: map<string, Listed>,
                     pos: map<string, nat>, rest: set<string>, n: string, id: ChannelId)
    requires Creating(now, before, known, current, pos, rest) && n in rest && id !in now && id !in before
    ensures n in pos
    ensures var c := Channel(n, Some(pos[n]));
            Creating(now[id := c], before, known, current[n := Listed(id, c)], pos, rest - {n})
    ensures Size(rest - {n}) == Size(rest) - 1
  {
    hide Tracked;
    TrackCreate(now, before, known, current, pos, n, id);
  }

  lemma CreatingEnds(now: Channels, before: Channels, known: map<string, Listed>, current: map<string, Listed>,
                     pos: map<string, nat>, rest: set<string>)
    requires Creating(now, before, known, current, pos, rest)
    ensures Tracked(now, before, known, current, {}, pos) && AsFound(current, known, pos)
    ensures rest == {} ==> current.Keys == pos.Keys && Size(rest) == 0
  {
  }

  lemma MovingStep(now: Channels, before: Channels, known: map<string, Listed>, current: map<string, Listed>,
                   moved: set<string>, pos: map<string, nat>, n: string)
    requires Tracked(now, before, known, current, moved, pos) && n in current && n in pos && n !in moved
    ensures current[n].id in now && now[current[n].id].name == n
    ensures current[n].channel.position == Some(pos[n]) ==>
              && Tracked(now, before, known, current, moved + {n}, pos)
              && Size(Misplaced(current, pos) - (moved + {n})) == Size(Misplaced(current, pos) - moved)
    ensures current[n].channel.position != Some(pos[n]) ==>
              && Tracked(now[current[n].id := Channel(n, Some(pos[n]))], before, known, current, moved + {n}, pos)
              && Size(Misplaced(current, pos) - (moved + {n})) == Size(Misplaced(current, pos) - moved) - 1
  {
    hide Tracked;
    TrackedLive(now, before, known, current, moved, pos, n);
    var misplaced := Misplaced(current, pos);
    if current[n].channel.position == Some(pos[n]) {
      TrackInPlace(now, before, known, current, moved, pos, n);
      assert misplaced - (moved + {n}) == misplaced - moved;
    } else {
      TrackMove(now, before, known, current, moved, pos, n);
      assert misplaced - (moved + {n}) == misplaced - moved - {n};
    }
  }

  lemma MovedAll(current: map<string, Listed>, moved: set<string>, pos: map<string, nat>)
    requires moved == pos.Keys
    ensures Size(Misplaced(current, pos) - moved) == 0
  {
  }

  datatype Outcome = PositionOverflow | ApiError | Done

  /** The names whose channel exists but stands at another position. */
  ghost function Misplaced(known: map<string, Listed>, pos: map<string, nat>): set<string> {
    set n | n in known.Keys * pos.Keys && known[n].channel.position != Some(pos[n])
  }

  /** The category on Discord's side, and the calls it will still answer. */
  class Category {
    var channels: Channels
    var nextId: ChannelId
    var callsLeft: nat

    ghost predicate Valid()
      reads this
    {
      forall id :: id in channels ==> id < nextId
    }

    constructor (channels: Channels, nextId: ChannelId, callsLeft: nat)
      requires forall id :: id in channels ==> id < nextId
      ensures Valid() && this.channels == channels && this.callsLeft == callsLeft
    {
      this.channels, this.nextId, this.callsLeft := channels, nextId, callsLeft;
    }

    method DeleteChannel(id: ChannelId) returns (ok: bool)
      requires Valid() && id in channels
      modifies this`channels, this`callsLeft
      ensures Valid() && (ok <==> old(callsLeft) > 0)
      ensures channels == if ok then old(channels) - {id} else old(channels)
      ensures callsLeft == if ok then old(callsLeft) - 1 else 0
    {
      ok := callsLeft > 0;
      if ok { channels, callsLeft := channels - {id}, callsLeft - 1; }
    }

    method CreateChannel(name: string, position: nat) returns (ok: bool, id: ChannelId)
      requires Valid()
      modifies this
      ensures Valid() && (ok <==> old(callsLeft) > 0) && id !in old(channels)
      ensures channels == if ok then old(channels)[id := Channel(name, Some(position))] else old(channels)
      ensures callsLeft == if ok then old(callsLeft) - 1 else 0
      ensures id == old(nextId) && nextId >= old(nextId)
    {
      ok, id := callsLeft > 0, nextId;
      if ok {
        channels, nextId, callsLeft := channels[id := Channel(name, Some(position))], nextId + 1, callsLeft - 1;
      }
    }

    method MoveChannel(id: ChannelId, position: nat) returns (ok: bool)
      requires Valid() && id in channels
      modifies this`channels, this`callsLeft
      ensures Valid() && (ok <==> old(callsLeft) > 0)
      ensures channels == if ok then old(channels)[id := Channel(old(channels)[id].name, Some(position))] else old(channels)
      ensures callsLeft == if ok then old(callsLeft) - 1 else 0
    {
      ok := callsLeft > 0;
      if ok { channels, callsLeft := channels[id := channels[id].(position := Some(position))], callsLeft - 1; }
    }

    /** Deletes the channels of names that no longer front. */
    method DeleteOld(known: map<string, Listed>, pos: map<string, nat>) returns (ok: bool, current: map<string, Listed>)
      requires Valid() && Describes(known, channels)
      modifies this`channels, this`callsLeft
      ensures Valid() && Tracked(channels, old(channels), known, current, {}, pos)
      ensures ok ==> current == known - (known.Keys - pos.Keys)
      ensures callsLeft == Remaining(old(callsLeft), Size(known.Keys - pos.Keys))
      ensures ok <==> old(callsLeft) >= Size(known.Keys - pos.Keys)
    {
      hide Deleting, Describes, Tracked, Size;
      ghost var before, budget := channels, callsLeft;
      var rest := known.Keys - pos.Keys;
      current, ok := known, true;
      DeletingStarts(before, known, pos);
      while ok && rest != {}
        invariant Valid() && Deleting(channels, before, known, current, pos, rest)
        invariant Paying(budget, callsLeft, Size(known.Keys - pos.Keys), Size(rest), ok)
        decreases rest, ok
      {
        var n :| n in rest;
        DeletingStep(channels, before, known, current, pos, rest, n);
        ok := DeleteChannel(current[n].id);
        if ok {
          current, rest := current - {n}, rest - {n};
        }
      }
      DeletingEnds(channels, before, known, current, pos, rest);
    }

    /** Creates the channels of new fronters. */
    method CreateNew(ghost before: Channels, known: map<string, Listed>, kept: map<string, Listed>, pos: map<string, nat>)
      returns (ok: bool, current: map<string, Listed>)
      requires Valid() && (forall id :: id in before ==> id < nextId)
      requires Tracked(channels, before, known, kept, {}, pos) && kept == known - (known.Keys - pos.Keys)
      modifies this
      ensures Valid() && Tracked(channels, before, known, current, {}, pos)
      ensures ok ==> current.Keys == pos.Keys && AsFound(current, known, pos)
      ensures callsLeft == Remaining(old(callsLeft), Size(pos.Keys - known.Keys))
      ensures ok <==> old(callsLeft) >= Size(pos.Keys - known.Keys)
    {
      hide Creating, Tracked, AsFound, Size;
      ghost var budget := callsLeft;
      var rest := pos.Keys - known.Keys;
      current, ok := kept, true;
      CreatingStarts(channels, before, known, kept, pos);
      while ok && rest != {}
        invariant Valid() && forall id :: id in before ==> id < nextId
        invariant Creating(channels, before, known, current, pos, rest)
        invariant Paying(budget, callsLeft, Size(pos.Keys - known.Keys), Size(rest), ok)
        decreases rest, ok
      {
        var n :| n in rest;
        CreatingStep(channels, before, known, current, pos, rest, n, nextId);
        var id;
        ok, id := CreateChannel(n, pos[n]);
        if ok {
          current, rest := current[n := Listed(id, Channel(n, Some(pos[n])))], rest - {n};
        }
      }
      CreatingEnds(channels, before, known, current, pos, rest);
    }

    /** Moves every channel that is not at its position. */
    method MoveAll(ghost before: Channels, ghost known: map<string, Listed>, current: map<string, Listed>, pos: map<string, nat>)
      returns (ok: bool, ghost moved: set<string>)
      requires Valid() && current.Keys == pos.Keys
      requires Tracked(channels, before, known, current, {}, pos)
      modifies this`channels, this`callsLeft
      ensures Valid() && Tracked(channels, before, known, current, moved, pos)
      ensures ok ==> moved == current.Keys
      ensures callsLeft == Remaining(old(callsLeft), Size(Misplaced(current, pos)))
      ensures ok <==> old(callsLeft) >= Size(Misplaced(current, pos))
    {
      hide Tracked, Misplaced, Size;
      ghost var budget := callsLeft;
      ok, moved := true, {};
      var rest := pos.Keys;
      assert Misplaced(current, pos) - moved == Misplaced(current, pos);
      while ok && rest != {}
        invariant Valid() && rest <= pos.Keys && moved == pos.Keys - rest
        invariant Tracked(channels, before, known, current, moved, pos)
        invariant Paying(budget, callsLeft, Size(Misplaced(current, pos)), Size(Misplaced(current, pos) - moved), ok)
        decreases rest, ok
      {
        var n :| n in rest;
        var channel := current[n];
        MovingStep(channels, before, known, current, moved, pos, n);
        if channel.channel.position != Some(pos[n]) {
          ok := MoveChannel(channel.id, pos[n]);
        }
        if ok {
          moved, rest := moved + {n}, rest - {n};
        }
      }
      if ok { MovedAll(current, moved, pos); }
    }

    /** The three loops in a row, on names that fit the position type. */
    method Reconcile(known: map<string, Listed>, pos: map<string, nat>)
      returns (ok: bool, ghost current: map<string, Listed>, ghost moved: set<string>)
      requires Valid() && Describes(known, channels)
      modifies this
      ensures Valid() && Tracked(channels, old(channels), known, current, moved, pos)
      ensures ok ==> current.Keys == moved == pos.Keys
      ensures ok <==> old(callsLeft) >= CallsFor(known, pos)
      ensures callsLeft == Remaining(old(callsLeft), CallsFor(known, pos))
    {
      hide Tracked, Describes, Misplaced, Size, AsFound;
      ghost var before := channels;
      assert forall id :: id in before ==> id < nextId;
      var kept, all;
      ok, kept := DeleteOld(known, pos);
      current, moved := kept, {};
      if ok {
        ok, all := CreateNew(before, known, kept, pos);
        current := all;
        if ok {
          SameMisplaced(all, known, pos);
          ok, moved := MoveAll(before, known, all, pos);
        }
      }
    }

    /**
     * The update as a whole. It panics exactly on more than 65536 fronters; otherwise it makes
     * exactly one call per old name, per new name and per misplaced channel, and if all of these
     * are answered the category is as wanted if and only if its channels had distinct names.
     */
    method UpdateFronterChannels(listed: seq<Listed>, fronters: seq<string>) returns (r: Outcome)
      requires Valid() && Lists(listed, channels)
      modifies this
      ensures Valid()
      ensures r.PositionOverflow? <==> |fronters| > 65536
      ensures r.PositionOverflow? ==> channels == old(channels) && callsLeft == old(callsLeft)
      ensures r.Done? ==> (Converged(channels, fronters) <==> DistinctNames(old(channels))) && Updated(old(channels), fronters, channels)
      ensures r.Done? ==> callsLeft == old(callsLeft) - CallsNeeded(listed, fronters)
      ensures |fronters| <= POSITIONS ==> (r.Done? <==> old(callsLeft) >= CallsNeeded(listed, fronters))
      ensures DistinctNames(old(channels)) ==> DistinctNames(channels)
    {
      hide Tracked, ByName, Positions, IsKnown, Lists, Converged, DistinctNames, Describes, CallsFor;
      if |fronters| > POSITIONS {
        return PositionOverflow;
      }
      ghost var before := channels;
      var known, pos := ByName(listed), Positions(fronters);
      NamesDescribed(listed, before);
      var ok;
      ghost var current, moved;
      ok, current, moved := Reconcile(known, pos);
      if DistinctNames(before) { TrackedDistinct(channels, before, listed, current, moved, pos); }
      if ok {
        TrackedConverges(channels, before, listed, current, fronters);
        assert UpdatesTo(before, listed, fronters, current, channels);
      }
      r := if ok then Done else ApiError;
    }
  }

  /** The API calls an update makes: deletions, creations and moves. */
  ghost function CallsFor(known: map<string, Listed>, pos: map<string, nat>): nat {
    Size(known.Keys - pos.Keys) + Size(pos.Keys - known.Keys) + Size(Misplaced(known, pos))
  }

  ghost function CallsNeeded(listed: seq<Listed>, fronters: seq<string>): nat {
    CallsFor(ByName(listed), Positions(fronters))
  }

  /** A budget of calls after needing n of them; it is exhausted when it does not suffice. */
  function Remaining(budget: nat, n: nat): nat {
    if budget >= n then budget - n else 0
  }

  /** Channels found by the fetch are as they were, created ones are at their position. */
  ghost predicate AsFound(current: map<string, Listed>, known: map<string, Listed>, pos: map<string, nat>) {
    forall n :: n in current ==>
      n in pos && current[n].channel == if n in known then known[n].channel else Channel(n, Some(pos[n]))
  }

  /** Created channels are never misplaced. */
  lemma SameMisplaced(current: map<string, Listed>, known: map<string, Listed>, pos: map<string, nat>)
    requires current.Keys == pos.Keys && AsFound(current, known, pos)
    ensures Misplaced(current, pos) == Misplaced(known, pos)
  {
  }

  lemma NoCallsMeansConverged(channels: Channels, known: map<string, Listed>, fronters: seq<string>)
    requires Describes(known, channels) && forall id :: id in channels ==> IsKnown(known, channels, id)
    requires known.Keys == Positions(fronters).Keys && Misplaced(known, Positions(fronters)) == {}
    ensures Converged(channels, fronters)
  {
    hide Positions;
    var pos := Positions(fronters);
    forall id | id in channels
      ensures channels[id].name in pos && channels[id].position == Some(pos[channels[id].name])
    {
      assert IsKnown(known, channels, id);
      assert channels[id].name !in Misplaced(known, pos);
    }
    forall n | n in pos ensures exists id :: id in channels && channels[id].name == n {
      assert channels[known[n].id].name == n;
    }
  }

  lemma ConvergedNeedsNoCalls(channels: Channels, known: map<string, Listed>, fronters: seq<string>)
    requires Describes(known, channels) && forall id :: id in channels ==> IsKnown(known, channels, id)
    requires Converged(channels, fronters)
    ensures known.Keys == Positions(fronters).Keys && Misplaced(known, Positions(fronters)) == {}
  {
    hide Positions;
    forall n | n in known
      ensures n in Positions(fronters) && known[n].channel.position == Some(Positions(fronters)[n])
    {
      assert channels[known[n].id].name == n;
    }
    forall n | n in Positions(fronters) ensures n in known {
      var id :| id in channels && channels[id].name == n;
      assert IsKnown(known, channels, id);
    }
  }

  /** A category with distinct names needs no call exactly when it is already as wanted. */
  lemma NoCallsIff(channels: Channels, listed: seq<Listed>, fronters: seq<string>)
    requires Lists(listed, channels) && DistinctNames(channels)
    ensures CallsNeeded(listed, fronters) == 0 <==> Converged(channels, fronters)
  {
    hide ByName, Positions, Lists, DistinctNames, IsKnown, Converged, Describes, Misplaced;
    var known, pos := ByName(listed), Positions(fronters);
    ByNameCovers(listed, channels);
    NoCallsFor(known, pos);
    hide CallsFor;
    if CallsNeeded(listed, fronters) == 0 {
      NoCallsMeansConverged(channels, known, fronters);
    }
    if Converged(channels, fronters) {
      ConvergedNeedsNoCalls(channels, known, fronters);
    }
  }

  lemma NoCallsFor(known: map<string, Listed>, pos: map<string, nat>)
    ensures CallsFor(known, pos) == 0 <==> known.Keys == pos.Keys && Misplaced(known, pos) == {}
  {
    hide Misplaced;
    assert known.Keys == pos.Keys <==> known.Keys - pos.Keys == {} && pos.Keys - known.Keys == {};
  }
}
