/** Reconciling a guild's "(Alter)" roles with the members of a PluralKit system. */
module RoleSync {
  import opened Base

  type RoleId = nat

  const ROLE_LIMIT: nat := 250
  const ALTER_SUFFIX: string := " (Alter)"

  datatype Role = Role(name: string, color: nat, mentionable: bool)

  datatype GuildRole = GuildRole(id: RoleId, role: Role)

  datatype Member = Member(uuid: nat, name: string, displayName: Option<string>, color: nat)

  datatype MemberRole =
    MemberRole(roleId: Option<RoleId>, uuid: Option<nat>, name: string, color: nat, mentionable: bool)
  {
    predicate ShouldUpdate(desired: MemberRole) {
      color != desired.color || mentionable != desired.mentionable
    }
  }

  datatype Operation =
    | Create(name: string, uuid: nat, color: nat)
    | Delete(id: RoleId)
    | Update(id: RoleId, color: nat, mentionable: bool)

  type RoleMap = map<string, MemberRole>

  // ------------------------------------------------------- current and desired

  predicate IsAlter(name: string) {
    |name| >= |ALTER_SUFFIX| && name[|name| - |ALTER_SUFFIX|..] == ALTER_SUFFIX
  }

  /** The part of s before its first " (". */
  function BeforeParenthesis(s: string): string {
    if s == "" || " (" <= s then "" else [s[0]] + BeforeParenthesis(s[1..])
  }

  function ToMemberRole(m: Member): (r: MemberRole)
    ensures r.mentionable && IsAlter(r.name)
  {
    var shown := if m.displayName.Some? then m.displayName.value else m.name;
    MemberRole(None, Some(m.uuid), BeforeParenthesis(shown) + ALTER_SUFFIX, m.color, true)
  }

  lemma AlterIff(name: string)
    ensures IsAlter(name) <==> exists p :: name == p + " (Alter)"
  {
    if IsAlter(name) {
      assert name == name[..|name| - 8] + " (Alter)";
    }
  }

  /** One role per name; of members with the same name the last one counts. */
  function GetDesiredRoles(members: seq<Member>): (r: RoleMap)
    ensures |r| <= |members|
  {
    if members == [] then map[]
    else
      var role := ToMemberRole(members[|members| - 1]);
      Overwrite(GetDesiredRoles(members[..|members| - 1]), role.name, role)
  }

  // ----------------------------------------- what is desired, told from members

  /** " (" stands at this position. */
  predicate OpensAt(s: string, i: int) {
    0 <= i < |s| - 1 && s[i] == ' ' && s[i + 1] == '('
  }

  /** p is s up to its first " (", or all of s if there is none. */
  predicate CutAt(s: string, p: string) {
    && p <= s
    && (p == s || OpensAt(s, |p|))
    && forall i :: 0 <= i < |p| ==> !OpensAt(s, i)
  }

  lemma {:induction false} CutIff(s: string, p: string)
    ensures CutAt(s, p) <==> p == BeforeParenthesis(s)
  {
    if s == "" {
      assert CutAt(s, p) <==> p == "";
    } else if " (" <= s {
      assert OpensAt(s, 0);
      assert CutAt(s, p) ==> |p| == 0;
    } else {
      assert |s| >= 2 ==> s[..2] == [s[0], s[1]];
      assert !OpensAt(s, 0);
      if p != "" && p[0] == s[0] {
        CutTail(s, p);
        CutIff(s[1..], p[1..]);
        assert p == [p[0]] + p[1..];
      } else if p == "" {
        assert !CutAt(s, p);
      }
    }
  }

  lemma CutTail(s: string, p: string)
    requires s != "" && p != "" && p[0] == s[0] && !OpensAt(s, 0)
    ensures CutAt(s, p) <==> CutAt(s[1..], p[1..])
  {
    var t, q := s[1..], p[1..];
    assert s == [s[0]] + t && p == [s[0]] + q;
    assert p <= s <==> q <= t by {
      if q <= t { assert t[..|q|] == q && s[..|p|] == p; }
      if p <= s { assert s[..|p|] == p && t[..|q|] == q; }
    }
    forall i ensures OpensAt(t, i) <==> i >= 0 && OpensAt(s, i + 1) {
    }
    if CutAt(s, p) {
      forall i | 0 <= i < |q| ensures !OpensAt(t, i) {
        assert !OpensAt(s, i + 1);
      }
    }
    if CutAt(t, q) {
      forall i | 0 <= i < |p| ensures !OpensAt(s, i) {
        assert i > 0 ==> !OpensAt(t, i - 1);
      }
    }
  }

  /** The role name of a member: what is shown of it, cut, with the suffix. */
  ghost predicate Named(m: Member, n: string) {
    exists p :: n == p + " (Alter)" && CutAt(if m.displayName.Some? then m.displayName.value else m.name, p)
  }

  /** The last member of that name. */
  ghost predicate LastNamed(members: seq<Member>, k: int, n: string) {
    0 <= k < |members| && Named(members[k], n) && forall j :: k < j < |members| ==> !Named(members[j], n)
  }

  lemma NamedIff(m: Member, n: string)
    ensures Named(m, n) <==> n == ToMemberRole(m).name
  {
    var shown := if m.displayName.Some? then m.displayName.value else m.name;
    CutIff(shown, BeforeParenthesis(shown));
    if Named(m, n) {
      var p :| n == p + " (Alter)" && CutAt(shown, p);
      CutIff(shown, p);
    }
  }

  /**
   * A name is desired exactly if it is that of a member, and the role it should have is that of the last such member.
   */
  lemma {:induction false} DesiredIff(members: seq<Member>, n: string)
    ensures n in GetDesiredRoles(members) <==> IsNamed(members, n)
    ensures n in GetDesiredRoles(members) <==> exists k :: LastNamed(members, k, n)
    ensures forall k :: LastNamed(members, k, n) ==>
              n in GetDesiredRoles(members)
              && GetDesiredRoles(members)[n] == MemberRole(None, Some(members[k].uuid), n, members[k].color, true)
  {
    hide Named, ToMemberRole, LastNamed;
    if members == [] {
      assert forall k :: !LastNamed(members, k, n) by { LastNamedOnly(members, n); }
    } else {
      var before, last := members[..|members| - 1], |members| - 1;
      DesiredIff(before, n);
      NamedIff(members[last], n);
      RoleOf(members[last]);
      LastNamedOnly(members, n);
      assert GetDesiredRoles(members) == GetDesiredRoles(before)[ToMemberRole(members[last]).name := ToMemberRole(members[last])];
      hide GetDesiredRoles;
      assert forall k :: 0 <= k < last ==> members[k] == before[k];
      if Named(members[last], n) {
        assert LastNamed(members, last, n);
      } else if n in GetDesiredRoles(before) {
        var k :| LastNamed(before, k, n);
        assert LastNamed(members, k, n);
      }
    }
  }

  lemma LastNamedOnly(members: seq<Member>, n: string)
    ensures members == [] ==> forall k :: !LastNamed(members, k, n)
    ensures forall k :: LastNamed(members, k, n) ==> 0 <= k < |members| && Named(members[k], n)
    ensures members != [] && Named(members[|members| - 1], n) ==> forall k :: LastNamed(members, k, n) <==> k == |members| - 1
    ensures members != [] && !Named(members[|members| - 1], n) ==>
              forall k :: LastNamed(members, k, n) <==> LastNamed(members[..|members| - 1], k, n)
  {
    hide Named;
  }

  lemma RoleOf(m: Member)
    ensures ToMemberRole(m) == MemberRole(None, Some(m.uuid), ToMemberRole(m).name, m.color, true)
  {
  }

  lemma {:induction false} DesiredHasShape(members: seq<Member>)
    ensures DesiredShape(GetDesiredRoles(members))
  {
    hide IsAlter, ToMemberRole;
    if members != [] {
      var init, role := members[..|members| - 1], ToMemberRole(members[|members| - 1]);
      DesiredHasShape(init);
      OneMoreDesired(GetDesiredRoles(init), role);
      hide DesiredShape;
    }
  }

  lemma OneMoreDesired(desired: RoleMap, role: MemberRole)
    requires DesiredShape(desired) && IsAlter(role.name) && role.mentionable
    ensures DesiredShape(desired[role.name := role])
  {
    hide IsAlter;
  }

  function Overwrite(m: RoleMap, n: string, v: MemberRole): (r: RoleMap)
    ensures r == m[n := v] && |r| <= |m| + 1
  {
    assert m[n := v].Keys == m.Keys + {n};
    m[n := v]
  }

  function GetCurrentRoles(roles: seq<GuildRole>): (r: RoleMap)
    ensures |r| <= |roles|
  {
    if roles == [] then map[]
    else
      var last := roles[|roles| - 1];
      var rest := GetCurrentRoles(roles[..|roles| - 1]);
      if IsAlter(last.role.name) then
        Overwrite(rest, last.role.name,
                  MemberRole(Some(last.id), None, last.role.name, last.role.color, last.role.mentionable))
      else rest
  }

  /** Discord's side: the roles of the guild and the next id it will give out. */
  datatype Server = Server(roles: map<RoleId, Role>, nextId: RoleId) {
    ghost predicate Valid() {
      forall id :: id in roles ==> id < nextId
    }
  }

  /** `listed` is what fetching the guild returns: every role once, in some order. */
  ghost predicate Lists(listed: seq<GuildRole>, roles: map<RoleId, Role>) {
    && (forall i :: 0 <= i < |listed| ==> listed[i].id in roles && roles[listed[i].id] == listed[i].role)
    && (forall id :: id in roles ==> exists i :: 0 <= i < |listed| && listed[i].id == id)
    && forall i, j :: 0 <= i < j < |listed| ==> listed[i].id != listed[j].id
  }

  ghost predicate DistinctAlterNames(roles: map<RoleId, Role>) {
    forall a, b :: a in roles && b in roles && a != b && IsAlter(roles[a].name) ==> roles[a].name != roles[b].name
  }

  /** Every entry of `current` describes a live role of that name. */
  ghost predicate Describes(current: RoleMap, roles: map<RoleId, Role>) {
    forall n :: n in current ==>
      && IsAlter(n)
      && current[n].roleId.Some?
      && current[n].roleId.value in roles
      && roles[current[n].roleId.value] == Role(n, current[n].color, current[n].mentionable)
  }

  /** Every alter role is the one described for its name. */
  ghost predicate Covers(current: RoleMap, roles: map<RoleId, Role>) {
    forall id :: id in roles && IsAlter(roles[id].name) ==>
      roles[id].name in current && current[roles[id].name].roleId == Some(id)
  }

  lemma {:induction false} CurrentDescribes(listed: seq<GuildRole>, roles: map<RoleId, Role>)
    requires forall i :: 0 <= i < |listed| ==> listed[i].id in roles && roles[listed[i].id] == listed[i].role
    ensures Describes(GetCurrentRoles(listed), roles)
    ensures forall i :: 0 <= i < |listed| && IsAlter(listed[i].role.name) ==> listed[i].role.name in GetCurrentRoles(listed)
  {
    if listed != [] {
      var init := listed[..|listed| - 1];
      assert forall i :: 0 <= i < |init| ==> init[i] == listed[i];
      CurrentDescribes(init, roles);
    }
  }

  /** Of alter roles with the same name the last one listed counts. */
  lemma {:induction false} CurrentIsLast(listed: seq<GuildRole>, i: nat)
    requires i < |listed| && IsAlter(listed[i].role.name)
    requires forall j :: i < j < |listed| ==> listed[j].role.name != listed[i].role.name
    ensures var n := listed[i].role.name;
            n in GetCurrentRoles(listed)
            && GetCurrentRoles(listed)[n] == MemberRole(Some(listed[i].id), None, n, listed[i].role.color, listed[i].role.mentionable)
  {
    hide IsAlter;
    if i < |listed| - 1 {
      var init := listed[..|listed| - 1];
      assert forall j :: 0 <= j < |init| ==> init[j] == listed[j];
      CurrentIsLast(init, i);
    }
  }

  lemma ListedDescribes(listed: seq<GuildRole>, roles: map<RoleId, Role>)
    requires Lists(listed, roles)
    ensures Describes(GetCurrentRoles(listed), roles)
  {
    CurrentDescribes(listed, roles);
  }

  lemma CurrentCovers(listed: seq<GuildRole>, roles: map<RoleId, Role>)
    requires Lists(listed, roles) && DistinctAlterNames(roles)
    ensures Describes(GetCurrentRoles(listed), roles) && Covers(GetCurrentRoles(listed), roles)
  {
    CurrentDescribes(listed, roles);
    forall id | id in roles && IsAlter(roles[id].name)
      ensures roles[id].name in GetCurrentRoles(listed)
      ensures GetCurrentRoles(listed)[roles[id].name].roleId == Some(id)
    {
      var i :| 0 <= i < |listed| && listed[i].id == id;
      assert listed[i].role == roles[id];
    }
  }

  // --------------------------------------------------------------- operations

  function OperationFor(n: string, current: RoleMap, desired: RoleMap): Option<Operation>
    requires n in current || n in desired
    requires n in current ==> current[n].roleId.Some?
  {
    if n in current && n in desired then
      if current[n].ShouldUpdate(desired[n]) then
        Some(Update(current[n].roleId.value, desired[n].color, desired[n].mentionable))
      else None
    else if n in desired then
      Some(Create(desired[n].name, if desired[n].uuid.Some? then desired[n].uuid.value else 0, desired[n].color))
    else Some(Delete(current[n].roleId.value))
  }

  ghost predicate Orders(order: seq<string>, current: RoleMap, desired: RoleMap) {
    && Distinct(order)
    && (forall n :: n in order ==> n in current || n in desired)
    && forall n :: n in current ==> current[n].roleId.Some?
  }

  ghost predicate OrdersAll(order: seq<string>, current: RoleMap, desired: RoleMap) {
    Orders(order, current, desired) && Elements(order) == current.Keys + desired.Keys
  }

  /** The diff, in the order in which the names happen to be visited. */
  function GetRoleOps(order: seq<string>, current: RoleMap, desired: RoleMap): seq<Operation>
    requires Orders(order, current, desired)
  {
    if order == [] then []
    else
      var rest := GetRoleOps(order[..|order| - 1], current, desired);
      assert order[|order| - 1] in order;
      match OperationFor(order[|order| - 1], current, desired)
      case None => rest
      case Some(op) => rest + [op]
  }

  /** The guild while the operations are applied, with the ids known by name. */
  datatype Work = Work(server: Server, ids: map<string, RoleId>)

  function Apply(w: Work, op: Operation): Work {
    var s := w.server;
    match op
    case Create(name, _, color) =>
      Work(Server(s.roles[s.nextId := Role(name, color, true)], s.nextId + 1), w.ids[name := s.nextId])
    case Delete(id) => Work(s.(roles := s.roles - {id}), w.ids)
    case Update(id, color, mentionable) =>
      if id in s.roles then Work(s.(roles := s.roles[id := Role(s.roles[id].name, color, mentionable)]), w.ids) else w
  }

  function ApplyAll(w: Work, ops: seq<Operation>): Work {
    if ops == [] then w else Apply(ApplyAll(w, ops[..|ops| - 1]), ops[|ops| - 1])
  }

  function Start(server: Server, current: RoleMap): Work
    requires forall n :: n in current ==> current[n].roleId.Some?
  {
    Work(server, map n | n in current :: current[n].roleId.value)
  }

  /** The role with this id is the one `current` knows under its name. */
  predicate IsDescribed(current: RoleMap, roles: map<RoleId, Role>, id: RoleId) {
    id in roles && roles[id].name in current && current[roles[id].name].roleId == Some(id)
  }

  /** The role with this id is the one known by its name, and that name is meant to exist by now. */
  predicate IsManaged(w: Work, current: RoleMap, desired: RoleMap, done: set<string>, id: RoleId)
    requires id in w.server.roles
  {
    var n := w.server.roles[id].name;
    n in w.ids && w.ids[n] == id && n in (if n in done then desired else current)
  }

  predicate HasRole(w: Work, n: string, r: MemberRole) {
    n in w.ids && w.ids[n] in w.server.roles && w.server.roles[w.ids[n]] == Role(n, r.color, r.mentionable)
  }

  /** Names in `done` are as desired, the other described ones as they were, all other roles untouched. */
  ghost predicate Settled(w: Work, server: Server, current: RoleMap, desired: RoleMap, done: set<string>) {
    && w.server.Valid() && server.nextId <= w.server.nextId
    && (forall n :: n in done && n in desired ==>
          HasRole(w, n, desired[n]) && (w.ids[n] in server.roles ==> IsDescribed(current, server.roles, w.ids[n])))
    && (forall n :: n !in done && n in current ==> HasRole(w, n, current[n]) && current[n].roleId == Some(w.ids[n]))
    && (forall id :: id in server.roles && !IsDescribed(current, server.roles, id) ==>
          id in w.server.roles && w.server.roles[id] == server.roles[id])
    && forall id :: id in w.server.roles ==>
         || IsManaged(w, current, desired, done, id)
         || (id in server.roles && !IsDescribed(current, server.roles, id))
  }

  ghost predicate DesiredShape(desired: RoleMap) {
    forall n :: n in desired ==> IsAlter(n) && desired[n].name == n && desired[n].mentionable
  }

  lemma SettleUpdate(w: Work, server: Server, current: RoleMap, desired: RoleMap, done: set<string>, n: string)
    requires server.Valid() && Describes(current, server.roles) && DesiredShape(desired)
    requires Settled(w, server, current, desired, done)
    requires n !in done && n in current && n in desired
    ensures var id := current[n].roleId.value;
            Settled(Apply(w, Update(id, desired[n].color, desired[n].mentionable)), server, current, desired, done + {n})
  {
    var id := current[n].roleId.value;
    assert HasRole(w, n, current[n]) && IsDescribed(current, server.roles, id);
    var w' := Apply(w, Update(id, desired[n].color, desired[n].mentionable));
    forall m | m in done + {n} && m in desired ensures HasRole(w', m, desired[m]) {
      if m != n { assert HasRole(w, m, desired[m]); }
    }
    forall m | m !in done + {n} && m in current ensures HasRole(w', m, current[m]) {
      assert HasRole(w, m, current[m]);
    }
    forall i | i in w'.server.roles && !(i in server.roles && !IsDescribed(current, server.roles, i))
      ensures IsManaged(w', current, desired, done + {n}, i)
    {
      assert IsManaged(w, current, desired, done, i);
    }
  }

  lemma SettleCreate(w: Work, server: Server, current: RoleMap, desired: RoleMap, done: set<string>, n: string)
    requires server.Valid() && Describes(current, server.roles) && DesiredShape(desired)
    requires Settled(w, server, current, desired, done)
    requires n !in done && n !in current && n in desired
    ensures forall uuid :: Settled(Apply(w, Create(n, uuid, desired[n].color)), server, current, desired, done + {n})
  {
    var w' := Apply(w, Create(n, 0, desired[n].color));
    forall m | m in done + {n} && m in desired ensures HasRole(w', m, desired[m]) {
      if m != n { assert HasRole(w, m, desired[m]); }
    }
    forall m | m !in done + {n} && m in current ensures HasRole(w', m, current[m]) {
      assert HasRole(w, m, current[m]);
    }
    forall i | i in w'.server.roles && !(i in server.roles && !IsDescribed(current, server.roles, i))
      ensures IsManaged(w', current, desired, done + {n}, i)
    {
      if i != w.server.nextId { assert IsManaged(w, current, desired, done, i); }
    }
    assert Settled(w', server, current, desired, done + {n});
    assert forall uuid :: Apply(w, Create(n, uuid, desired[n].color)) == w';
  }

  lemma SettleDelete(w: Work, server: Server, current: RoleMap, desired: RoleMap, done: set<string>, n: string)
    requires server.Valid() && Describes(current, server.roles) && DesiredShape(desired)
    requires Settled(w, server, current, desired, done)
    requires n !in done && n in current && n !in desired
    ensures Settled(Apply(w, Delete(current[n].roleId.value)), server, current, desired, done + {n})
  {
    var id := current[n].roleId.value;
    assert HasRole(w, n, current[n]) && IsDescribed(current, server.roles, id);
    var w' := Apply(w, Delete(id));
    forall m | m in done + {n} && m in desired ensures HasRole(w', m, desired[m]) {
      assert HasRole(w, m, desired[m]);
    }
    forall m | m !in done + {n} && m in current ensures HasRole(w', m, current[m]) {
      assert HasRole(w, m, current[m]);
    }
    forall i | i in w'.server.roles && !(i in server.roles && !IsDescribed(current, server.roles, i))
      ensures IsManaged(w', current, desired, done + {n}, i)
    {
      assert IsManaged(w, current, desired, done, i);
    }
  }

  lemma SettleSame(w: Work, server: Server, current: RoleMap, desired: RoleMap, done: set<string>, n: string)
    requires Describes(current, server.roles)
    requires Settled(w, server, current, desired, done)
    requires n !in done && n in current && n in desired && !current[n].ShouldUpdate(desired[n])
    ensures Settled(w, server, current, desired, done + {n})
  {
  }

  lemma SettleOne(w: Work, server: Server, current: RoleMap, desired: RoleMap, done: set<string>, n: string)
    requires server.Valid() && Describes(current, server.roles) && DesiredShape(desired)
    requires Settled(w, server, current, desired, done)
    requires n !in done && (n in current || n in desired)
    ensures OperationFor(n, current, desired).None? ==> Settled(w, server, current, desired, done + {n})
    ensures OperationFor(n, current, desired).Some? ==>
              Settled(Apply(w, OperationFor(n, current, desired).value), server, current, desired, done + {n})
  {
    if n !in current {
      SettleCreate(w, server, current, desired, done, n);
    } else if n !in desired {
      SettleDelete(w, server, current, desired, done, n);
    } else if current[n].ShouldUpdate(desired[n]) {
      SettleUpdate(w, server, current, desired, done, n);
    } else {
      SettleSame(w, server, current, desired, done, n);
    }
  }

  lemma SettledAtStart(server: Server, current: RoleMap, desired: RoleMap)
    requires server.Valid() && Describes(current, server.roles)
    ensures Settled(Start(server, current), server, current, desired, {})
  {
  }

  lemma {:induction false} SettlePrefix(server: Server, current: RoleMap, desired: RoleMap, order: seq<string>)
    requires server.Valid() && Describes(current, server.roles)
    requires DesiredShape(desired) && Orders(order, current, desired)
    ensures Settled(ApplyAll(Start(server, current), GetRoleOps(order, current, desired)),
                    server, current, desired, Elements(order))
    decreases |order|
  {
    hide Settled, Describes, DesiredShape, OperationFor;
    if order == [] {
      assert Elements(order) == {};
      SettledAtStart(server, current, desired);
    } else {
      var init, n := order[..|order| - 1], order[|order| - 1];
      SettlePrefix(server, current, desired, init);
      LastName(order);
      var ops, op := GetRoleOps(init, current, desired), OperationFor(n, current, desired);
      assert GetRoleOps(order, current, desired) == if op.Some? then ops + [op.value] else ops;
      hide GetRoleOps, Elements;
      SettleOne(ApplyAll(Start(server, current), ops), server, current, desired, Elements(init), n);
      ApplyLast(Start(server, current), ops, op);
    }
  }

  lemma LastName(order: seq<string>)
    requires order != [] && Distinct(order)
    ensures Elements(order) == Elements(order[..|order| - 1]) + {order[|order| - 1]}
    ensures order[|order| - 1] !in Elements(order[..|order| - 1]) && order[|order| - 1] in order
  {
  }

  lemma ApplyLast(w: Work, ops: seq<Operation>, op: Option<Operation>)
    ensures op.Some? ==> ApplyAll(w, ops + [op.value]) == Apply(ApplyAll(w, ops), op.value)
  {
  }

  // -------------------------------------------------------------- convergence

  /** The alter roles of the guild are exactly the desired ones, one per name. */
  ghost predicate Converged(roles: map<RoleId, Role>, desired: RoleMap) {
    && DistinctAlterNames(roles)
    && (forall id :: id in roles && IsAlter(roles[id].name) ==> roles[id].name in desired)
    && forall n :: n in desired ==>
         exists id :: id in roles && roles[id] == Role(n, desired[n].color, desired[n].mentionable)
  }

  /**
   * The same, told from the members: alter names differ, each alter role has the name and the colour of the last member of
   * that name and can be mentioned, and there is one for every member.
   */
  ghost predicate MatchesMembers(roles: map<RoleId, Role>, members: seq<Member>) {
    && DistinctAlterNames(roles)
    && (forall id :: id in roles && IsAlter(roles[id].name) ==> RoleOfSome(members, roles[id]))
    && forall k :: 0 <= k < |members| ==> HasRoleOf(roles, members, k)
  }

  /** The role name of one of the members. */
  ghost predicate IsNamed(members: seq<Member>, n: string) {
    exists k :: 0 <= k < |members| && Named(members[k], n)
  }

  ghost predicate RoleOfSome(members: seq<Member>, role: Role) {
    exists k :: LastNamed(members, k, role.name) && role.color == members[k].color && role.mentionable
  }

  ghost predicate HasRoleOf(roles: map<RoleId, Role>, members: seq<Member>, k: nat)
    requires k < |members|
  {
    exists id :: id in roles && Named(members[k], roles[id].name)
  }

  lemma MatchesIff(roles: map<RoleId, Role>, members: seq<Member>)
    ensures Converged(roles, GetDesiredRoles(members)) <==> MatchesMembers(roles, members)
  {
    hide IsAlter, Named, LastNamed, GetDesiredRoles, ToMemberRole;
    var desired := GetDesiredRoles(members);
    DesiredHasShape(members);
    if Converged(roles, desired) {
      forall id | id in roles && IsAlter(roles[id].name) ensures RoleOfSome(members, roles[id]) {
        var n := roles[id].name;
        DesiredIff(members, n);
        var k :| LastNamed(members, k, n);
        var other :| other in roles && roles[other] == Role(n, desired[n].color, desired[n].mentionable);
        assert other == id;
      }
      forall k | 0 <= k < |members| ensures HasRoleOf(roles, members, k) {
        var n := ToMemberRole(members[k]).name;
        NamedIff(members[k], n);
        DesiredIff(members, n);
        var id :| id in roles && roles[id] == Role(n, desired[n].color, desired[n].mentionable);
        assert Named(members[k], roles[id].name);
      }
    }
    if MatchesMembers(roles, members) {
      forall id | id in roles && IsAlter(roles[id].name) ensures roles[id].name in desired {
        DesiredIff(members, roles[id].name);
      }
      forall n | n in desired ensures exists id :: id in roles && roles[id] == Role(n, desired[n].color, desired[n].mentionable) {
        DesiredIff(members, n);
        var k :| 0 <= k < |members| && Named(members[k], n);
        assert HasRoleOf(roles, members, k);
        var id :| id in roles && Named(members[k], roles[id].name);
        NamedIff(members[k], n);
        NamedIff(members[k], roles[id].name);
        assert RoleOfSome(members, roles[id]);
      }
    }
  }

  /** Roles that are not alter roles are exactly as before. */
  ghost predicate OthersKept(now: map<RoleId, Role>, before: map<RoleId, Role>) {
    && (forall id :: id in now && !IsAlter(now[id].name) ==> id in before && before[id] == now[id])
    && forall id :: id in before && !IsAlter(before[id].name) ==> id in now && before[id] == now[id]
  }

  lemma SettledConverges(w: Work, server: Server, current: RoleMap, desired: RoleMap)
    requires Settled(w, server, current, desired, current.Keys + desired.Keys)
    requires Describes(current, server.roles) && Covers(current, server.roles) && DesiredShape(desired)
    ensures Converged(w.server.roles, desired)
  {
    var roles, done := w.server.roles, current.Keys + desired.Keys;
    forall id | id in roles && IsAlter(roles[id].name)
      ensures roles[id].name in desired && w.ids[roles[id].name] == id
    {
      assert IsManaged(w, current, desired, done, id);
    }
    forall n | n in desired
      ensures exists id :: id in roles && roles[id] == Role(n, desired[n].color, desired[n].mentionable)
    {
      assert HasRole(w, n, desired[n]);
    }
  }

  lemma SettledKeepsOthers(w: Work, server: Server, current: RoleMap, desired: RoleMap, done: set<string>)
    requires Settled(w, server, current, desired, done)
    requires Describes(current, server.roles) && DesiredShape(desired)
    ensures OthersKept(w.server.roles, server.roles)
  {
  }

  /** A second alter role of some name is invisible to the diff and is still there afterwards. */
  lemma SettledDuplicate(w: Work, server: Server, current: RoleMap, desired: RoleMap)
    requires Settled(w, server, current, desired, current.Keys + desired.Keys)
    requires Describes(current, server.roles)
    requires !DistinctAlterNames(server.roles)
    ensures !Converged(w.server.roles, desired)
  {
    var a, b :| a in server.roles && b in server.roles && a != b && IsAlter(server.roles[a].name)
                && server.roles[a].name == server.roles[b].name;
    var stray := if IsDescribed(current, server.roles, a) then b else a;
    assert !IsDescribed(current, server.roles, stray);
    var n := server.roles[stray].name;
    assert stray in w.server.roles && w.server.roles[stray].name == n;
    if n in desired {
      assert HasRole(w, n, desired[n]);
      assert w.ids[n] != stray;
    }
  }

  /**
   * Applying the diff, visited in any order, converges exactly when no two alter roles of the
   * guild shared a name. In any case all other roles are left alone, and every desired name ends
   * up with a live role of that name whose id is known.
   */
  lemma ConvergesIff(server: Server, listed: seq<GuildRole>, desired: RoleMap, order: seq<string>)
    requires server.Valid() && Lists(listed, server.roles) && DesiredShape(desired)
    requires OrdersAll(order, GetCurrentRoles(listed), desired)
    ensures var current := GetCurrentRoles(listed);
            var w := ApplyAll(Start(server, current), GetRoleOps(order, current, desired));
            && (Converged(w.server.roles, desired) <==> DistinctAlterNames(server.roles))
            && OthersKept(w.server.roles, server.roles)
            && forall n :: n in desired ==> HasRole(w, n, desired[n])
  {
    var current := GetCurrentRoles(listed);
    CurrentDescribes(listed, server.roles);
    SettlePrefix(server, current, desired, order);
    var w := ApplyAll(Start(server, current), GetRoleOps(order, current, desired));
    SettledKeepsOthers(w, server, current, desired, current.Keys + desired.Keys);
    if DistinctAlterNames(server.roles) {
      CurrentCovers(listed, server.roles);
      SettledConverges(w, server, current, desired);
    } else {
      SettledDuplicate(w, server, current, desired);
    }
  }

  // ------------------------------------------------------------ repeated runs

  /** The second guild is what a complete run may make of the first, however roles are listed and names visited. */
  ghost predicate CompleteRun(server: Server, desired: RoleMap, server': Server) {
    exists listed, order :: RunsTo(server, listed, desired, order, server')
  }

  ghost predicate RunsTo(server: Server, listed: seq<GuildRole>, desired: RoleMap, order: seq<string>, server': Server) {
    && Lists(listed, server.roles) && OrdersAll(order, GetCurrentRoles(listed), desired)
    && ApplyAll(Start(server, GetCurrentRoles(listed)), GetRoleOps(order, GetCurrentRoles(listed), desired)).server == server'
  }

  /** The alter roles that should not be there. */
  function Strays(roles: map<RoleId, Role>, desired: RoleMap): set<RoleId> {
    set id | id in roles && IsAlter(roles[id].name) && roles[id].name !in desired
  }

  /** Two roles share a desired name. */
  ghost predicate SharesDesired(roles: map<RoleId, Role>, desired: RoleMap) {
    exists a, b :: Share(roles, desired, a, b)
  }

  predicate Share(roles: map<RoleId, Role>, desired: RoleMap, a: RoleId, b: RoleId) {
    a in roles && b in roles && a != b && roles[a].name == roles[b].name && roles[a].name in desired
  }

  /** What there is of an alter name after fetching: the described role, and perhaps others. */
  ghost predicate Found(current: RoleMap, roles: map<RoleId, Role>) {
    forall id :: id in roles && IsAlter(roles[id].name) ==> roles[id].name in current
  }

  lemma ListedFound(listed: seq<GuildRole>, roles: map<RoleId, Role>)
    requires Lists(listed, roles)
    ensures Describes(GetCurrentRoles(listed), roles) && Found(GetCurrentRoles(listed), roles)
  {
    CurrentDescribes(listed, roles);
    forall id | id in roles && IsAlter(roles[id].name) ensures roles[id].name in GetCurrentRoles(listed) {
      var i :| 0 <= i < |listed| && listed[i].id == id;
      assert listed[i].role == roles[id];
    }
  }

  /** A run takes one role of each name that is not desired. */
  lemma SettledStrays(w: Work, server: Server, current: RoleMap, desired: RoleMap)
    requires Settled(w, server, current, desired, current.Keys + desired.Keys)
    requires Describes(current, server.roles) && Found(current, server.roles) && DesiredShape(desired)
    ensures Strays(w.server.roles, desired) <= Strays(server.roles, desired)
    ensures Strays(server.roles, desired) != {} ==> Strays(w.server.roles, desired) != Strays(server.roles, desired)
  {
    var strays, strays' := Strays(server.roles, desired), Strays(w.server.roles, desired);
    forall id | id in strays' ensures id in strays && !IsDescribed(current, server.roles, id) {
      assert !IsManaged(w, current, desired, current.Keys + desired.Keys, id);
    }
    if id :| id in strays {
      var taken := current[server.roles[id].name].roleId.value;
      assert IsDescribed(current, server.roles, taken) && taken in strays;
    }
  }

  /** A run neither adds nor takes a role that shares a desired name. */
  lemma SettledShares(w: Work, server: Server, current: RoleMap, desired: RoleMap)
    requires Settled(w, server, current, desired, current.Keys + desired.Keys)
    requires Describes(current, server.roles) && Found(current, server.roles) && DesiredShape(desired)
    ensures SharesDesired(w.server.roles, desired) <==> SharesDesired(server.roles, desired)
  {
    if a, b :| Share(server.roles, desired, a, b) {
      var other := if IsDescribed(current, server.roles, a) then b else a;
      var n := server.roles[other].name;
      assert !IsDescribed(current, server.roles, other) && HasRole(w, n, desired[n]);
      assert Share(w.server.roles, desired, w.ids[n], other);
    }
    if a, b :| Share(w.server.roles, desired, a, b) {
      var n := w.server.roles[a].name;
      var other := if w.ids[n] == a then b else a;
      assert !IsManaged(w, current, desired, current.Keys + desired.Keys, other);
      assert other in server.roles && !IsDescribed(current, server.roles, other) && server.roles[other].name == n;
      assert Share(server.roles, desired, current[n].roleId.value, other);
    }
  }

  lemma OneRun(server: Server, desired: RoleMap, server': Server)
    requires server.Valid() && DesiredShape(desired) && CompleteRun(server, desired, server')
    ensures server'.Valid()
    ensures SharesDesired(server'.roles, desired) <==> SharesDesired(server.roles, desired)
    ensures Strays(server'.roles, desired) <= Strays(server.roles, desired)
    ensures Strays(server.roles, desired) != {} ==> Strays(server'.roles, desired) != Strays(server.roles, desired)
    ensures Converged(server'.roles, desired) <==> DistinctAlterNames(server.roles)
  {
    var listed, order :| RunsTo(server, listed, desired, order, server');
    var current := GetCurrentRoles(listed);
    ListedFound(listed, server.roles);
    ConvergesIff(server, listed, desired, order);
    SettlePrefix(server, current, desired, order);
    var w := ApplyAll(Start(server, current), GetRoleOps(order, current, desired));
    hide ApplyAll, GetRoleOps, Lists, SharesDesired, Strays, Converged, DistinctAlterNames, Describes, Found, DesiredShape;
    SettledStrays(w, server, current, desired);
    SettledShares(w, server, current, desired);
  }

  /** Without strays all alter names are desired. */
  lemma DistinctWithoutStrays(roles: map<RoleId, Role>, desired: RoleMap)
    requires DesiredShape(desired)
    ensures DistinctAlterNames(roles) ==> !SharesDesired(roles, desired)
    ensures Strays(roles, desired) == {} && !SharesDesired(roles, desired) ==> DistinctAlterNames(roles)
  {
    if a, b :| Share(roles, desired, a, b) {
      assert IsAlter(roles[a].name);
    }
    if Strays(roles, desired) == {} {
      forall a, b | a in roles && b in roles && a != b && IsAlter(roles[a].name) && roles[a].name == roles[b].name
        ensures SharesDesired(roles, desired)
      {
        assert a !in Strays(roles, desired);
        assert Share(roles, desired, a, b);
      }
    }
  }

  /** Each guild is what a complete run with the same desired roles may make of the one before. */
  ghost predicate CompleteRuns(guilds: seq<Server>, desired: RoleMap) {
    forall i :: 0 < i < |guilds| ==> CompleteRun(guilds[i - 1], desired, guilds[i])
  }

  lemma {:induction false} AfterRuns(guilds: seq<Server>, desired: RoleMap, i: nat)
    requires i < |guilds| && guilds[0].Valid() && DesiredShape(desired) && CompleteRuns(guilds, desired)
    ensures guilds[i].Valid()
    ensures SharesDesired(guilds[i].roles, desired) <==> SharesDesired(guilds[0].roles, desired)
    ensures |Strays(guilds[i].roles, desired)| <= Left(|Strays(guilds[0].roles, desired)|, i)
  {
    hide Strays, SharesDesired, DesiredShape, CompleteRun;
    if i > 0 {
      AfterRuns(guilds, desired, i - 1);
      OneRun(guilds[i - 1], desired, guilds[i]);
      var before, now := Strays(guilds[i - 1].roles, desired), Strays(guilds[i].roles, desired);
      SubsetCardinality(now, before);
      if before != {} {
        var gone :| gone in before && gone !in now;
        SubsetCardinality(now, before - {gone});
      }
    }
  }

  function Left(n: nat, i: nat): nat {
    if i < n then n - i else 0
  }

  /**
   * Where one run does not converge, repeating it can: a run deletes one role of each name that is not desired, and never
   * one of a desired name. So runs repeated with the same desired roles converge in the end exactly if no two roles
   * share a desired name, and then as soon as there are more runs than roles to delete.
   */
  lemma RepeatedRunsIff(guilds: seq<Server>, desired: RoleMap, i: nat)
    requires guilds != [] && guilds[0].Valid() && DesiredShape(desired) && CompleteRuns(guilds, desired)
    requires i < |guilds|
    ensures SharesDesired(guilds[0].roles, desired) ==> !Converged(guilds[i].roles, desired)
    ensures |Strays(guilds[0].roles, desired)| < i ==>
              (Converged(guilds[i].roles, desired) <==> !SharesDesired(guilds[0].roles, desired))
  {
    AfterRuns(guilds, desired, i);
    DistinctWithoutStrays(guilds[i].roles, desired);
    hide Strays, SharesDesired, DesiredShape, CompleteRun;
    if |Strays(guilds[0].roles, desired)| < i {
      AfterRuns(guilds, desired, i - 1);
      DistinctWithoutStrays(guilds[i - 1].roles, desired);
      hide Converged, DistinctAlterNames;
      OneRun(guilds[i - 1], desired, guilds[i]);
    }
  }

  lemma ConvergedNeedsNothing(roles: map<RoleId, Role>, current: RoleMap, desired: RoleMap, n: string)
    requires Describes(current, roles) && Covers(current, roles) && DesiredShape(desired)
    requires Converged(roles, desired) && (n in current || n in desired)
    ensures OperationFor(n, current, desired).None?
  {
  }

  lemma NothingNeededConverged(roles: map<RoleId, Role>, current: RoleMap, desired: RoleMap)
    requires Describes(current, roles) && Covers(current, roles) && DesiredShape(desired)
    requires forall n :: n in current || n in desired ==> OperationFor(n, current, desired).None?
    ensures Converged(roles, desired)
  {
  }

  /** Among guilds with distinct alter names, the diff is empty exactly on the converged ones. */
  lemma DiffEmptyIff(roles: map<RoleId, Role>, listed: seq<GuildRole>, desired: RoleMap, order: seq<string>)
    requires Lists(listed, roles) && DistinctAlterNames(roles) && DesiredShape(desired)
    requires OrdersAll(order, GetCurrentRoles(listed), desired)
    ensures GetRoleOps(order, GetCurrentRoles(listed), desired) == [] <==> Converged(roles, desired)
  {
    var current := GetCurrentRoles(listed);
    CurrentCovers(listed, roles);
    NoOperationsIff(order, current, desired);
    assert forall n :: n in order <==> n in Elements(order);
    if Converged(roles, desired) {
      forall n | n in order ensures OperationFor(n, current, desired).None? {
        ConvergedNeedsNothing(roles, current, desired, n);
      }
    } else if GetRoleOps(order, current, desired) == [] {
      NothingNeededConverged(roles, current, desired);
    }
  }

  lemma {:induction false} NoOperationsIff(order: seq<string>, current: RoleMap, desired: RoleMap)
    requires Orders(order, current, desired)
    ensures GetRoleOps(order, current, desired) == [] <==>
            forall n :: n in order ==> OperationFor(n, current, desired).None?
  {
    if order != [] {
      var init := order[..|order| - 1];
      assert order == init + [order[|order| - 1]];
      NoOperationsIff(init, current, desired);
    }
  }

  /** Any prefix of the operations is the diff of a prefix of the visited names. */
  lemma {:induction false} PrefixOfDiff(order: seq<string>, current: RoleMap, desired: RoleMap, done: nat) returns (names: nat)
    requires Orders(order, current, desired) && done <= |GetRoleOps(order, current, desired)|
    ensures names <= |order| && Orders(order[..names], current, desired)
    ensures GetRoleOps(order[..names], current, desired) == GetRoleOps(order, current, desired)[..done]
    decreases |order|
  {
    var ops := GetRoleOps(order, current, desired);
    if done == |ops| {
      names := |order|;
      assert order[..names] == order && ops[..done] == ops;
    } else {
      var init := order[..|order| - 1];
      PrefixOrders(order, current, desired, |order| - 1);
      names := PrefixOfDiff(init, current, desired, done);
      assert init[..names] == order[..names];
      assert ops[..done] == GetRoleOps(init, current, desired)[..done];
    }
  }

  /** Wherever the operations stop, other roles are untouched and distinct names stay distinct. */
  lemma InterruptedAnywhere(server: Server, current: RoleMap, desired: RoleMap, order: seq<string>, done: nat)
    requires server.Valid() && Describes(current, server.roles) && DesiredShape(desired)
    requires Orders(order, current, desired) && done <= |GetRoleOps(order, current, desired)|
    ensures var w := ApplyAll(Start(server, current), GetRoleOps(order, current, desired)[..done]);
            w.server.Valid() && OthersKept(w.server.roles, server.roles)
            && (Covers(current, server.roles) ==> DistinctAlterNames(w.server.roles))
  {
    var names := PrefixOfDiff(order, current, desired, done);
    SettlePrefix(server, current, desired, order[..names]);
    var w := ApplyAll(Start(server, current), GetRoleOps(order[..names], current, desired));
    SettledKeepsOthers(w, server, current, desired, Elements(order[..names]));
    if Covers(current, server.roles) {
      SettledDistinct(w, server, current, desired, Elements(order[..names]));
    }
  }

  /**
   * A run that stops after any number of operations (an API call failed) leaves a guild from which the next complete
   * run converges, whatever is desired by then and in whatever order the roles are listed and the names visited.
   */
  lemma InterruptedRunRecovers(server: Server, listed: seq<GuildRole>, desired: RoleMap, order: seq<string>, done: nat,
                               listed': seq<GuildRole>, desired': RoleMap, order': seq<string>)
    requires server.Valid() && Lists(listed, server.roles) && DistinctAlterNames(server.roles) && DesiredShape(desired)
    requires OrdersAll(order, GetCurrentRoles(listed), desired) && done <= |GetRoleOps(order, GetCurrentRoles(listed), desired)|
    requires Lists(listed', Interrupted(server, listed, desired, order, done).roles)
    requires DesiredShape(desired') && OrdersAll(order', GetCurrentRoles(listed'), desired')
    ensures var left := Interrupted(server, listed, desired, order, done);
            var w := ApplyAll(Start(left, GetCurrentRoles(listed')), GetRoleOps(order', GetCurrentRoles(listed'), desired'));
            Converged(w.server.roles, desired') && OthersKept(w.server.roles, server.roles)
  {
    hide ApplyAll, GetRoleOps, OrdersAll, Lists, DistinctAlterNames, GetCurrentRoles, DesiredShape, Converged, Covers, Describes;
    CurrentCovers(listed, server.roles);
    OrdersAllOrders(order, GetCurrentRoles(listed), desired);
    InterruptedAnywhere(server, GetCurrentRoles(listed), desired, order, done);
    ConvergesIff(Interrupted(server, listed, desired, order, done), listed', desired', order');
  }

  /** The guild as a run leaves it that stops after the given number of operations. */
  ghost function Interrupted(server: Server, listed: seq<GuildRole>, desired: RoleMap, order: seq<string>, done: nat): Server
    requires OrdersAll(order, GetCurrentRoles(listed), desired) && done <= |GetRoleOps(order, GetCurrentRoles(listed), desired)|
  {
    ApplyAll(Start(server, GetCurrentRoles(listed)), GetRoleOps(order, GetCurrentRoles(listed), desired)[..done]).server
  }

  lemma OrdersAllOrders(order: seq<string>, current: RoleMap, desired: RoleMap)
    requires OrdersAll(order, current, desired)
    ensures Orders(order, current, desired)
  {
  }

  lemma PrefixOrders(order: seq<string>, current: RoleMap, desired: RoleMap, done: nat)
    requires Orders(order, current, desired) && done <= |order|
    ensures Orders(order[..done], current, desired)
  {
  }

  lemma SettledDistinct(w: Work, server: Server, current: RoleMap, desired: RoleMap, done: set<string>)
    requires Settled(w, server, current, desired, done) && Covers(current, server.roles)
    ensures DistinctAlterNames(w.server.roles)
  {
  }

  // ------------------------------------------------------------------- limits

  ghost function Creates(current: RoleMap, desired: RoleMap): set<string> {
    desired.Keys - current.Keys
  }

  ghost function Deletes(current: RoleMap, desired: RoleMap): set<string> {
    current.Keys - desired.Keys
  }

  /** Number of roles after the names in `order` were handled. */
  ghost function RolesAfter(server: Server, current: RoleMap, desired: RoleMap, order: seq<string>): nat
    requires Orders(order, current, desired)
  {
    |ApplyAll(Start(server, current), GetRoleOps(order, current, desired)).server.roles|
  }

  lemma {:induction false} RoleCount(server: Server, current: RoleMap, desired: RoleMap, order: seq<string>)
    requires server.Valid() && Describes(current, server.roles)
    requires DesiredShape(desired) && Orders(order, current, desired)
    ensures RolesAfter(server, current, desired, order) ==
            |server.roles| + |Elements(order) * Creates(current, desired)| - |Elements(order) * Deletes(current, desired)|
    decreases |order|
  {
    if order == [] {
      assert Elements(order) * Creates(current, desired) == {};
      assert Elements(order) * Deletes(current, desired) == {};
    } else {
      var init, n := order[..|order| - 1], order[|order| - 1];
      RoleCount(server, current, desired, init);
      LastName(order);
      CountStep(server, current, desired, order);
      CountWith(Elements(init), n, Creates(current, desired));
      CountWith(Elements(init), n, Deletes(current, desired));
    }
  }

  lemma CountStep(server: Server, current: RoleMap, desired: RoleMap, order: seq<string>)
    requires server.Valid() && Describes(current, server.roles)
    requires DesiredShape(desired) && Orders(order, current, desired) && order != []
    ensures var init, n := order[..|order| - 1], order[|order| - 1];
            RolesAfter(server, current, desired, order) ==
            RolesAfter(server, current, desired, init)
            + (if n in Creates(current, desired) then 1 else if n in Deletes(current, desired) then -1 else 0)
  {
    var init, n := order[..|order| - 1], order[|order| - 1];
    SettlePrefix(server, current, desired, init);
    LastName(order);
    var ops := GetRoleOps(init, current, desired);
    var w := ApplyAll(Start(server, current), ops);
    if n in current { assert HasRole(w, n, current[n]); }
    ApplyLast(Start(server, current), ops, OperationFor(n, current, desired));
    CountOne(w, current, desired, n);
  }

  lemma CountWith(done: set<string>, n: string, s: set<string>)
    requires n !in done
    ensures |(done + {n}) * s| == |done * s| + (if n in s then 1 else 0)
  {
    assert (done + {n}) * s == if n in s then done * s + {n} else done * s;
  }

  lemma CountOne(w: Work, current: RoleMap, desired: RoleMap, n: string)
    requires w.server.Valid() && (n in current || n in desired)
    requires n in current ==> current[n].roleId.Some? && current[n].roleId.value in w.server.roles
    ensures var change := OperationFor(n, current, desired);
            |(if change.Some? then Apply(w, change.value) else w).server.roles| ==
            |w.server.roles| + (if n in Creates(current, desired) then 1 else if n in Deletes(current, desired) then -1 else 0)
  {
  }

  /** The gate in front of the run: what the command refuses to exceed. */
  function RolesWithMembers(members: seq<Member>, listed: seq<GuildRole>): (n: nat)
    ensures |GetCurrentRoles(listed)| <= |listed| && n >= |members|
    ensures n == |members| + |listed| - |AlterNames(listed)|
  {
    CurrentKeys(listed);
    var without: nat := |listed| - |GetCurrentRoles(listed)|;
    |members| + without
  }

  /** The different names of the alter roles. */
  function AlterNames(listed: seq<GuildRole>): set<string> {
    set i | 0 <= i < |listed| && IsAlter(listed[i].role.name) :: listed[i].role.name
  }

  lemma {:induction false} CurrentKeys(listed: seq<GuildRole>)
    ensures GetCurrentRoles(listed).Keys == AlterNames(listed)
  {
    hide IsAlter;
    if listed != [] {
      var init, last := listed[..|listed| - 1], listed[|listed| - 1];
      CurrentKeys(init);
      AlterNamesSnoc(listed);
      hide AlterNames;
    }
  }

  lemma AlterNamesSnoc(listed: seq<GuildRole>)
    requires listed != []
    ensures var last := listed[|listed| - 1].role.name;
            AlterNames(listed) == AlterNames(listed[..|listed| - 1]) + (if IsAlter(last) then {last} else {})
  {
    hide IsAlter;
    assert listed == listed[..|listed| - 1] + [listed[|listed| - 1]];
  }

  lemma {:induction false} ListedSize(listed: seq<GuildRole>, roles: map<RoleId, Role>)
    requires Lists(listed, roles)
    ensures |listed| == |roles|
  {
    var ids := seq(|listed|, i requires 0 <= i < |listed| => listed[i].id);
    DistinctCardinality(ids);
    assert Elements(ids) == roles.Keys by {
      forall id | id in roles ensures id in ids {
        var i :| 0 <= i < |listed| && listed[i].id == id;
        assert ids[i] == id;
      }
    }
  }

  lemma Traded(order: set<string>, before: set<string>, after: set<string>)
    requires order == before + after
    ensures |order * (after - before)| - |order * (before - after)| == |after| - |before|
  {
    assert order * (after - before) == after - before;
    assert order * (before - after) == before - after;
    assert after == (after - before) + (after * before);
    assert before == (before - after) + (after * before);
  }

  /** The final number of roles: the diff trades the current names for the desired ones. */
  lemma FinalRoleCount(server: Server, listed: seq<GuildRole>, desired: RoleMap, order: seq<string>)
    requires server.Valid() && Lists(listed, server.roles) && DesiredShape(desired)
    requires OrdersAll(order, GetCurrentRoles(listed), desired)
    ensures RolesAfter(server, GetCurrentRoles(listed), desired, order)
            == |listed| - |GetCurrentRoles(listed)| + |desired|
  {
    var current := GetCurrentRoles(listed);
    CurrentDescribes(listed, server.roles);
    RoleCount(server, current, desired, order);
    ListedSize(listed, server.roles);
    Traded(Elements(order), current.Keys, desired.Keys);
  }

  /** Once the gate lets a run through, it ends with at most 250 roles. */
  lemma GateBoundsRoles(server: Server, listed: seq<GuildRole>, members: seq<Member>, order: seq<string>)
    requires server.Valid() && Lists(listed, server.roles)
    requires OrdersAll(order, GetCurrentRoles(listed), GetDesiredRoles(members))
    requires RolesWithMembers(members, listed) <= ROLE_LIMIT
    ensures RolesAfter(server, GetCurrentRoles(listed), GetDesiredRoles(members), order) <= ROLE_LIMIT
  {
    DesiredHasShape(members);
    FinalRoleCount(server, listed, GetDesiredRoles(members), order);
  }

  lemma PeakAtMost(server: Server, current: RoleMap, desired: RoleMap, order: seq<string>)
    requires server.Valid() && Describes(current, server.roles)
    requires DesiredShape(desired) && Orders(order, current, desired)
    ensures RolesAfter(server, current, desired, order) <= |server.roles| + |Creates(current, desired)|
  {
    RoleCount(server, current, desired, order);
    SubsetCardinality(Elements(order) * Creates(current, desired), Creates(current, desired));
  }

  lemma CreatesFirst(server: Server, current: RoleMap, desired: RoleMap) returns (order: seq<string>)
    requires server.Valid() && Describes(current, server.roles) && DesiredShape(desired)
    ensures Orders(order, current, desired)
    ensures RolesAfter(server, current, desired, order) == |server.roles| + |Creates(current, desired)|
  {
    order := CreationOrder(current, desired);
    RoleCount(server, current, desired, order);
    assert Elements(order) * Creates(current, desired) == Creates(current, desired);
    assert Elements(order) * Deletes(current, desired) == {};
  }

  lemma CreationOrder(current: RoleMap, desired: RoleMap) returns (order: seq<string>)
    requires forall n :: n in current ==> current[n].roleId.Some?
    ensures Orders(order, current, desired) && Elements(order) == Creates(current, desired)
  {
    order := Enumerate(Creates(current, desired));
    forall n | n in order ensures n in desired { assert n in Elements(order); }
  }

  /**
   * The gate does not bound the guild on the way: no order and no prefix of it ever exceeds the
   * limit exactly when there is room for all creations before any deletion.
   */
  lemma PeakIff(server: Server, listed: seq<GuildRole>, desired: RoleMap)
    requires server.Valid() && Lists(listed, server.roles) && DesiredShape(desired)
    ensures (forall order :: Orders(order, GetCurrentRoles(listed), desired) ==>
               RolesAfter(server, GetCurrentRoles(listed), desired, order) <= ROLE_LIMIT)
            <==> |listed| + |Creates(GetCurrentRoles(listed), desired)| <= ROLE_LIMIT
  {
    var current := GetCurrentRoles(listed);
    CurrentDescribes(listed, server.roles);
    ListedSize(listed, server.roles);
    var worst := CreatesFirst(server, current, desired);
    forall order | Orders(order, current, desired)
      ensures RolesAfter(server, current, desired, order) <= |listed| + |Creates(current, desired)|
    {
      PeakAtMost(server, current, desired, order);
    }
  }

  // A guild with one alter role and 249 others, and a system with one member of another name.

  function CrowdedRole(id: RoleId): Role {
    Role(if id == 0 then "A (Alter)" else "member", 0, true)
  }

  function CrowdedRoles(n: nat): seq<GuildRole> {
    seq(n, i requires 0 <= i < n => GuildRole(i, CrowdedRole(i)))
  }

  function CrowdedGuild(n: nat): Server {
    Server(map id: nat | id < n :: CrowdedRole(id), n)
  }

  const NEWCOMER := Member(0, "B", None, 0)

  lemma {:induction false} CrowdedCurrent(n: nat)
    requires n > 0
    ensures GetCurrentRoles(CrowdedRoles(n)) == map["A (Alter)" := MemberRole(Some(0), None, "A (Alter)", 0, true)]
  {
    var roles := CrowdedRoles(n);
    assert roles[..n - 1] == CrowdedRoles(n - 1);
    assert IsAlter("A (Alter)") && !IsAlter("member");
    if n > 1 {
      CrowdedCurrent(n - 1);
    } else {
      assert GetCurrentRoles(roles[..0]) == map[];
    }
  }

  lemma NewcomerDesired()
    ensures GetDesiredRoles([NEWCOMER]).Keys == {"B (Alter)"}
  {
    assert [NEWCOMER][..0] == [];
    assert BeforeParenthesis("B") == "B" by {
      assert "B"[1..] == "";
    }
    assert "B" + ALTER_SUFFIX == "B (Alter)";
  }

  /** This guild passes the gate exactly at the limit, and holds 251 roles once the new one is created first. */
  lemma GatePassesPeakExceeds()
    ensures var server, listed := CrowdedGuild(ROLE_LIMIT), CrowdedRoles(ROLE_LIMIT);
            && server.Valid() && Lists(listed, server.roles)
            && RolesWithMembers([NEWCOMER], listed) == ROLE_LIMIT
            && exists order :: Orders(order, GetCurrentRoles(listed), GetDesiredRoles([NEWCOMER]))
                 && RolesAfter(server, GetCurrentRoles(listed), GetDesiredRoles([NEWCOMER]), order) == ROLE_LIMIT + 1
  {
    var server, listed := CrowdedGuild(ROLE_LIMIT), CrowdedRoles(ROLE_LIMIT);
    CrowdedListed(ROLE_LIMIT);
    hide CrowdedRoles, CrowdedGuild, Lists;
    var current, desired := GetCurrentRoles(listed), GetDesiredRoles([NEWCOMER]);
    CrowdedCurrent(ROLE_LIMIT);
    NewcomerDesired();
    DesiredHasShape([NEWCOMER]);
    hide GetCurrentRoles, GetDesiredRoles;
    ListedDescribes(listed, server.roles);
    assert Creates(current, desired) == {"B (Alter)"};
    var order := CreatesFirst(server, current, desired);
    ListedSize(listed, server.roles);
  }

  lemma CrowdedListed(n: nat)
    ensures CrowdedGuild(n).Valid() && Lists(CrowdedRoles(n), CrowdedGuild(n).roles) && |CrowdedRoles(n)| == n
  {
    forall id | id in CrowdedGuild(n).roles ensures exists i :: 0 <= i < n && CrowdedRoles(n)[i].id == id {
      assert CrowdedRoles(n)[id].id == id;
    }
  }

  /** The operations of each kind in a diff, and the names the user is still missing. */
  lemma {:induction false} OperationCount(order: seq<string>, current: RoleMap, desired: RoleMap)
    requires Orders(order, current, desired)
    ensures |GetRoleOps(order, current, desired)| <= |order|
  {
    if order != [] {
      var init := order[..|order| - 1];
      assert order == init + [order[|order| - 1]];
      OperationCount(init, current, desired);
    }
  }

  /**
   * With at most 250 roles in the guild and the gate passed, the total of creations, updates,
   * deletions and assignments fits in 16 bits.
   */
  lemma StatisticsFit(listed: seq<GuildRole>, members: seq<Member>, order: seq<string>, missing: set<string>)
    requires |listed| <= ROLE_LIMIT && RolesWithMembers(members, listed) <= ROLE_LIMIT
    requires OrdersAll(order, GetCurrentRoles(listed), GetDesiredRoles(members))
    requires missing <= GetDesiredRoles(members).Keys
    ensures |GetRoleOps(order, GetCurrentRoles(listed), GetDesiredRoles(members))| + |missing| <= 3 * ROLE_LIMIT
  {
    var current, desired := GetCurrentRoles(listed), GetDesiredRoles(members);
    OperationCount(order, current, desired);
    DistinctCardinality(order);
    assert current.Keys + desired.Keys == current.Keys + (desired.Keys - current.Keys);
    SubsetCardinality(desired.Keys - current.Keys, desired.Keys);
    SubsetCardinality(missing, desired.Keys);
  }

  // -------------------------------------------------------------- the command

  /** The role an operation addresses exists. */
  predicate Addressable(server: Server, op: Operation) {
    op.Create? || op.id in server.roles
  }

  /** Every operation finds its role when its turn comes. */
  ghost predicate AllAddressable(w: Work, ops: seq<Operation>) {
    forall i :: 0 <= i < |ops| ==> Addressable(ApplyAll(w, ops[..i]).server, ops[i])
  }

  lemma {:induction false} DiffIsAddressable(server: Server, current: RoleMap, desired: RoleMap, order: seq<string>)
    requires server.Valid() && Describes(current, server.roles)
    requires DesiredShape(desired) && Orders(order, current, desired)
    ensures AllAddressable(Start(server, current), GetRoleOps(order, current, desired))
    decreases |order|
  {
    if order != [] {
      var init, n := order[..|order| - 1], order[|order| - 1];
      DiffIsAddressable(server, current, desired, init);
      SettlePrefix(server, current, desired, init);
      LastName(order);
      var w, ops := Start(server, current), GetRoleOps(init, current, desired);
      if n in current { assert HasRole(ApplyAll(w, ops), n, current[n]); }
      var op := OperationFor(n, current, desired);
      if op.Some? {
        AddressableSnoc(w, ops, op.value);
      }
    }
  }

  lemma AddressableSnoc(w: Work, ops: seq<Operation>, op: Operation)
    requires AllAddressable(w, ops) && Addressable(ApplyAll(w, ops).server, op)
    ensures AllAddressable(w, ops + [op])
  {
    hide ApplyAll, Addressable;
    forall i | 0 <= i < |ops + [op]| ensures Addressable(ApplyAll(w, (ops + [op])[..i]).server, (ops + [op])[i]) {
      assert (ops + [op])[..i] == ops[..i];
      if i == |ops| { assert ops[..i] == ops; }
    }
  }

  method InSomeOrder(names: set<string>) returns (order: seq<string>)
    ensures Distinct(order) && Elements(order) == names
  {
    order := [];
    var rest := names;
    while rest != {}
      invariant rest <= names && Distinct(order) && Elements(order) == names - rest
      decreases rest
    {
      var n :| n in rest;
      assert n !in Elements(order);
      assert Elements(order + [n]) == Elements(order) + {n};
      order := order + [n];
      rest := rest - {n};
    }
  }

  /** A role is created for the last member of its name, with that member's colour. */
  lemma {:induction false} CreatedForMember(order: seq<string>, current: RoleMap, members: seq<Member>, i: nat) returns (k: int)
    requires Orders(order, current, GetDesiredRoles(members)) && i < |GetRoleOps(order, current, GetDesiredRoles(members))|
    requires GetRoleOps(order, current, GetDesiredRoles(members))[i].Create?
    ensures var op := GetRoleOps(order, current, GetDesiredRoles(members))[i];
            LastNamed(members, k, op.name) && op.uuid == members[k].uuid && op.color == members[k].color && op.name !in current
  {
    hide GetDesiredRoles, LastNamed, IsNamed;
    var desired, init, n := GetDesiredRoles(members), order[..|order| - 1], order[|order| - 1];
    PrefixOrders(order, current, desired, |order| - 1);
    if i < |GetRoleOps(init, current, desired)| {
      k := CreatedForMember(init, current, members, i);
    } else {
      DesiredIff(members, n);
      assert n in order && n in desired;
      k :| LastNamed(members, k, n);
    }
  }

  lemma OrderOfAll(order: seq<string>, current: RoleMap, desired: RoleMap)
    requires Distinct(order) && Elements(order) == current.Keys + desired.Keys
    requires forall n :: n in current ==> current[n].roleId.Some?
    ensures OrdersAll(order, current, desired)
  {
  }

  lemma RolesGiven(w: Work, desired: RoleMap, missing: seq<string>, had: set<RoleId>, has: set<RoleId>)
    requires forall n :: n in missing ==> n in desired && HasRole(w, n, desired[n])
    requires forall n :: n in missing ==> n in w.ids
    requires has == had + set n | n in missing :: w.ids[n]
    ensures forall n :: n in Elements(missing) ==> n in w.ids && w.ids[n] in has && w.ids[n] in w.server.roles && w.server.roles[w.ids[n]].name == n
    ensures forall id :: id in has - had ==> id in w.server.roles && w.server.roles[id].name in Elements(missing)
  {
    forall n | n in Elements(missing) ensures w.ids[n] in has {
      assert n in missing && w.ids[n] in set m | m in missing :: w.ids[m];
    }
    forall id | id in has - had ensures id in w.server.roles && w.server.roles[id].name in Elements(missing) {
      var n :| n in missing && w.ids[n] == id;
      assert HasRole(w, n, desired[n]);
    }
  }

  lemma HasRoleMeans(w: Work, n: string, r: MemberRole)
    requires HasRole(w, n, r)
    ensures n in w.ids
  {
  }

  /** A converged guild has distinct names, and one that did not converge had none to lose. */
  lemma ConvergedDistinct(roles: map<RoleId, Role>, before: map<RoleId, Role>, desired: RoleMap)
    requires Converged(roles, desired) <==> DistinctAlterNames(before)
    ensures DistinctAlterNames(before) ==> DistinctAlterNames(roles)
  {
  }

  lemma NoneMissing(missing: seq<string>)
    ensures missing == [] <==> Elements(missing) == {}
  {
    assert missing != [] ==> missing[0] in Elements(missing);
  }

  /** What the command compares with the limit: the members, and every role but one of each alter name. */
  function Gate(members: seq<Member>, listed: seq<GuildRole>): int {
    |members| + |listed| - |AlterNames(listed)|
  }

  /** The user is warned of a guild that is within ten roles of the limit, and does not accept. */
  predicate Refused(members: seq<Member>, listed: seq<GuildRole>, acceptNearLimit: bool) {
    240 <= Gate(members, listed) <= 250 && !acceptNearLimit
  }

  datatype Outcome = OverLimit | UpToDate | Canceled | Failed | Updated

  /** The guild as the command changes it through the API, which may stop answering at any call. */
  class Guild {
    var server: Server
    var userRoles: set<RoleId>
    var callsLeft: nat

    constructor (server: Server, userRoles: set<RoleId>, callsLeft: nat)
      ensures this.server == server && this.userRoles == userRoles && this.callsLeft == callsLeft
    {
      this.server, this.userRoles, this.callsLeft := server, userRoles, callsLeft;
    }

    /** One API call; an unknown role or an unreachable API is an error without effect. */
    method Call(op: Operation) returns (ok: bool, created: RoleId)
      requires server.Valid()
      modifies this`server, this`callsLeft
      ensures server.Valid() && created == old(server).nextId
      ensures ok <==> old(callsLeft) > 0 && Addressable(old(server), op)
      ensures !ok ==> server == old(server)
      ensures ok ==> callsLeft == old(callsLeft) - 1
                     && forall ids :: Apply(Work(old(server), ids), op).server == server
    {
      created := server.nextId;
      ok := callsLeft > 0 && Addressable(server, op);
      if ok {
        callsLeft := callsLeft - 1;
        match op {
          case Create(name, _, color) =>
            server := Server(server.roles[created := Role(name, color, true)], created + 1);
          case Delete(id) =>
            server := server.(roles := server.roles - {id});
          case Update(id, color, mentionable) =>
            server := server.(roles := server.roles[id := server.roles[id].(color := color, mentionable := mentionable)]);
        }
      }
    }

    /** Applies the operations in order, remembering created ids by name, and stops at the first error. */
    method ApplyOperations(ops: seq<Operation>, known: map<string, RoleId>)
      returns (ok: bool, ids: map<string, RoleId>, ghost done: nat)
      requires server.Valid()
      modifies this`server, this`callsLeft
      ensures server.Valid() && done <= |ops|
      ensures Work(server, ids) == ApplyAll(Work(old(server), known), ops[..done])
      ensures AllAddressable(Work(old(server), known), ops) ==> (ok <==> old(callsLeft) >= |ops|)
      ensures if ok then done == |ops| && callsLeft == old(callsLeft) - |ops| else done < |ops|
    {
      ids, done, ok := known, 0, true;
      for i := 0 to |ops|
        invariant server.Valid() && done == i && callsLeft == old(callsLeft) - i
        invariant Work(server, ids) == ApplyAll(Work(old(server), known), ops[..i])
      {
        assert ops[..i + 1] == ops[..i] + [ops[i]];
        ApplyLast(Work(old(server), known), ops[..i], Some(ops[i]));
        ghost var before := Work(server, ids);
        var created;
        ok, created := Call(ops[i]);
        if !ok {
          return;
        }
        assert Apply(before, ops[i]).server == server;
        if ops[i].Create? {
          ids := ids[ops[i].name := created];
        }
        done := i + 1;
      }
      assert ops[..|ops|] == ops;
    }

    /** Gives the user the roles of the names they lack. */
    method AssignRoles(missing: seq<string>, ids: map<string, RoleId>) returns (ok: bool)
      requires forall n :: n in missing ==> n in ids
      modifies this`userRoles, this`callsLeft
      ensures ok <==> old(callsLeft) >= |missing|
      ensures ok ==> userRoles == old(userRoles) + set n | n in missing :: ids[n]
    {
      ok := true;
      for i := 0 to |missing|
        invariant callsLeft == old(callsLeft) - i
        invariant userRoles == old(userRoles) + set n | n in missing[..i] :: ids[n]
      {
        assert missing[..i + 1] == missing[..i] + [missing[i]];
        if callsLeft == 0 {
          return false;
        }
        callsLeft := callsLeft - 1;
        userRoles := userRoles + {ids[missing[i]]};
      }
      assert missing[..|missing|] == missing;
    }

    /** The first of the two loops that change the guild: the operations of the diff. */
    method ApplyDiff(listed: seq<GuildRole>, members: seq<Member>, order: seq<string>) returns (ok: bool, ids: map<string, RoleId>)
      requires server.Valid() && Lists(listed, server.roles)
      requires OrdersAll(order, GetCurrentRoles(listed), GetDesiredRoles(members))
      requires RolesWithMembers(members, listed) <= ROLE_LIMIT
      modifies this`server, this`callsLeft
      ensures server.Valid() && OthersKept(server.roles, old(server).roles)
      ensures !ok && DistinctAlterNames(old(server).roles) ==> DistinctAlterNames(server.roles)
      ensures var calls := |GetRoleOps(order, GetCurrentRoles(listed), GetDesiredRoles(members))|;
              (ok <==> old(callsLeft) >= calls) && (ok ==> callsLeft == old(callsLeft) - calls)
      ensures ok ==> |server.roles| <= ROLE_LIMIT && CompleteRun(old(server), GetDesiredRoles(members), server)
      ensures ok ==> (Converged(server.roles, GetDesiredRoles(members)) <==> DistinctAlterNames(old(server).roles))
      ensures ok ==> forall n :: n in GetDesiredRoles(members) ==> HasRole(Work(server, ids), n, GetDesiredRoles(members)[n])
    {
      hide ApplyAll, GetRoleOps, GetCurrentRoles, GetDesiredRoles, Lists, Covers, DesiredShape, Converged,
           DistinctAlterNames, AllAddressable, OthersKept;
      var current, desired := GetCurrentRoles(listed), GetDesiredRoles(members);
      DesiredHasShape(members);
      ListedDescribes(listed, server.roles);
      var ops := GetRoleOps(order, current, desired);
      ghost var before := server;
      DiffIsAddressable(before, current, desired, order);
      ids := map n | n in current :: current[n].roleId.value;
      ghost var done;
      ok, ids, done := ApplyOperations(ops, ids);
      InterruptedAnywhere(before, current, desired, order, done);
      if DistinctAlterNames(before.roles) { CurrentCovers(listed, before.roles); }
      if !ok {
        return;
      }
      assert ops[..done] == ops;
      assert RunsTo(before, listed, desired, order, server);
      ConvergesIff(before, listed, desired, order);
      GateBoundsRoles(before, listed, members, order);
    }

    /** Both loops: the operations, then the assignments. */
    method Execute(listed: seq<GuildRole>, members: seq<Member>, order: seq<string>, missing: seq<string>) returns (ok: bool)
      requires server.Valid() && Lists(listed, server.roles)
      requires OrdersAll(order, GetCurrentRoles(listed), GetDesiredRoles(members))
      requires Elements(missing) <= GetDesiredRoles(members).Keys
      requires RolesWithMembers(members, listed) <= ROLE_LIMIT
      modifies this
      ensures server.Valid() && OthersKept(server.roles, old(server).roles)
      ensures !ok && DistinctAlterNames(old(server).roles) ==> DistinctAlterNames(server.roles)
      ensures ok <==> old(callsLeft) >= |GetRoleOps(order, GetCurrentRoles(listed), GetDesiredRoles(members))| + |missing|
      ensures ok ==> |server.roles| <= ROLE_LIMIT && CompleteRun(old(server), GetDesiredRoles(members), server)
      ensures ok ==> (Converged(server.roles, GetDesiredRoles(members)) <==> DistinctAlterNames(old(server).roles))
      ensures ok ==> forall n :: n in Elements(missing) ==> Assigned(n)
      ensures ok ==> GivenOnly(old(userRoles), Elements(missing))
    {
      hide GetRoleOps, GetCurrentRoles, GetDesiredRoles, OrdersAll, Lists, Converged, DistinctAlterNames, OthersKept, CompleteRun, HasRole;
      ghost var before, desired := server, GetDesiredRoles(members);
      var ids;
      ok, ids := ApplyDiff(listed, members, order);
      if !ok {
        return;
      }
      ConvergedDistinct(server.roles, before.roles, desired);
      forall n | n in missing ensures n in desired && n in ids {
        assert n in Elements(missing);
        HasRoleMeans(Work(server, ids), n, desired[n]);
      }
      ghost var had := userRoles;
      ok := AssignRoles(missing, ids);
      if ok {
        RolesGiven(Work(server, ids), desired, missing, had, userRoles);
      }
    }

    /** The user lost no role, and got only live roles of these names. */
    ghost predicate GivenOnly(had: set<RoleId>, names: set<string>)
      reads this
    {
      had <= userRoles && forall id :: id in userRoles - had ==> id in server.roles && server.roles[id].name in names
    }

    /** The user has a live role of this name. */
    ghost predicate Assigned(n: string)
      reads this
    {
      exists id :: id in userRoles && id in server.roles && server.roles[id].name == n
    }

    /**
     * The whole command, for a fetched role list, the system's members, the names of the alter roles
     * the user already has, and the user's answers to the two prompts.
     */
    method UpdateMemberRoles(listed: seq<GuildRole>, members: seq<Member>, userRoleNames: set<string>,
                             acceptNearLimit: bool, confirm: bool)
      returns (r: Outcome)
      requires server.Valid() && Lists(listed, server.roles)
      modifies this
      ensures server.Valid() && OthersKept(server.roles, old(server).roles)
      ensures r.OverLimit? <==> Gate(members, listed) > 250
      ensures Refused(members, listed, acceptNearLimit) ==> r.Canceled?
      ensures r.Canceled? ==> Refused(members, listed, acceptNearLimit) || (Gate(members, listed) <= 250 && !confirm)
      ensures r.UpToDate? ==> forall n :: IsNamed(members, n) ==> n in userRoleNames
      ensures DistinctAlterNames(old(server).roles) ==>
                (r.UpToDate? <==> && Gate(members, listed) <= 250 && !Refused(members, listed, acceptNearLimit)
                                  && MatchesMembers(old(server).roles, members)
                                  && forall n :: IsNamed(members, n) ==> n in userRoleNames)
      ensures r in {OverLimit, UpToDate, Canceled} ==> server == old(server) && userRoles == old(userRoles)
      ensures r in {Updated, Failed} ==> confirm
      ensures r.Failed? && DistinctAlterNames(old(server).roles) ==> DistinctAlterNames(server.roles)
      ensures r.Updated? ==>
                && |server.roles| <= ROLE_LIMIT && CompleteRun(old(server), GetDesiredRoles(members), server)
                && (MatchesMembers(server.roles, members) <==> DistinctAlterNames(old(server).roles))
                && (forall n :: IsNamed(members, n) && n !in userRoleNames ==> Assigned(n))
                && old(userRoles) <= userRoles
                && forall id :: id in userRoles - old(userRoles) ==>
                     id in server.roles && IsNamed(members, server.roles[id].name) && server.roles[id].name !in userRoleNames
    {
      hide GetRoleOps, GetCurrentRoles, GetDesiredRoles, Lists, DesiredShape, Converged, DistinctAlterNames, CompleteRun,
           IsNamed, MatchesMembers, AlterNames;
      var current, desired := GetCurrentRoles(listed), GetDesiredRoles(members);
      if RolesWithMembers(members, listed) > ROLE_LIMIT {
        return OverLimit;
      }
      if RolesWithMembers(members, listed) >= ROLE_LIMIT - 10 && !acceptNearLimit {
        return Canceled;
      }
      DesiredHasShape(members);
      forall n ensures n in desired <==> IsNamed(members, n) {
        DesiredIff(members, n);
      }
      MatchesIff(server.roles, members);
      ListedDescribes(listed, server.roles);
      var missing := InSomeOrder(desired.Keys - userRoleNames);
      var order := InSomeOrder(current.Keys + desired.Keys);
      OrderOfAll(order, current, desired);
      var ops := GetRoleOps(order, current, desired);
      if DistinctAlterNames(server.roles) { DiffEmptyIff(server.roles, listed, desired, order); }
      NoneMissing(missing);
      if |ops| + |missing| == 0 {
        return UpToDate;
      }
      if !confirm {
        return Canceled;
      }
      var ok := Execute(listed, members, order, missing);
      MatchesIff(server.roles, members);
      r := if ok then Updated else Failed;
    }
  }
}
