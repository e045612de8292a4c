/** Slash commands: the keys a module registers and the keys rebuilt from an interaction. */
module Routing {
  import opened Base

  // ------------------------------------------------------------- interactions

  /** An option of a command: a nested subcommand or group, or a plain value. */
  datatype Choice =
    | SubCommand(name: string, options: seq<Choice>)
    | SubCommandGroup(name: string, options: seq<Choice>)
    | Plain(name: string, value: int)

  /** The first nested option, if any. */
  function FirstNested(options: seq<Choice>): (r: Option<Choice>)
    ensures r.Some? ==> !r.value.Plain? && r.value in options
    ensures r.None? <==> forall o :: o in options ==> o.Plain?
  {
    if options == [] then None
    else if !options[0].Plain? then Some(options[0])
    else FirstNested(options[1..])
  }

  function Join(names: seq<string>): string {
    if names == [] then ""
    else if |names| == 1 then names[0]
    else Join(names[..|names| - 1]) + " " + names[|names| - 1]
  }

  /** The full name of the invoked command and the options of its innermost level. */
  function ExtractCommand(name: string, options: seq<Choice>, parents: seq<string>): (string, seq<Choice>)
    decreases options
  {
    match FirstNested(options)
    case None => (Join(parents + [name]), options)
    case Some(o) => ExtractCommand(o.name, o.options, parents + [name])
  }

  /** The names on the way down, and what is left at the bottom. */
  function Chain(name: string, options: seq<Choice>): (r: seq<string>)
    ensures r != []
    decreases options
  {
    match FirstNested(options)
    case None => [name]
    case Some(o) => [name] + Chain(o.name, o.options)
  }

  lemma {:induction false} ExtractIsChain(name: string, options: seq<Choice>, parents: seq<string>)
    ensures ExtractCommand(name, options, parents).0 == Join(parents + Chain(name, options))
    ensures FirstNested(ExtractCommand(name, options, parents).1).None?
    decreases options
  {
    match FirstNested(options)
    case None =>
    case Some(o) =>
      ExtractIsChain(o.name, o.options, parents + [name]);
      assert parents + [name] + Chain(o.name, o.options) == parents + ([name] + Chain(o.name, o.options));
  }

  /** How Discord sends the invocation of a leaf: its names nested, its own options innermost. */
  function Invocation(path: seq<string>, own: seq<Choice>): seq<Choice>
    requires path != []
  {
    if |path| == 1 then own
    else if |path| == 2 then [SubCommand(path[1], Invocation(path[1..], own))]
    else [SubCommandGroup(path[1], Invocation(path[1..], own))]
  }

  /** One level down, in both readings of an interaction. */
  lemma OneLevel(path: seq<string>, own: seq<Choice>, parents: seq<string>)
    requires |path| > 1
    ensures var options, rest := Invocation(path, own), Invocation(path[1..], own);
            && Chain(path[0], options) == [path[0]] + Chain(path[1], rest)
            && ExtractCommand(path[0], options, parents) == ExtractCommand(path[1], rest, parents + [path[0]])
  {
    hide Join;
    assert FirstNested(Invocation(path, own)) == Some(Invocation(path, own)[0]);
  }

  lemma {:induction false} InvocationRoundTrip(path: seq<string>, own: seq<Choice>, parents: seq<string>)
    requires path != [] && FirstNested(own).None?
    ensures Chain(path[0], Invocation(path, own)) == path
    ensures ExtractCommand(path[0], Invocation(path, own), parents) == (Join(parents + path), own)
    decreases |path|
  {
    if |path| == 1 {
      hide Join;
      assert path == [path[0]];
    } else {
      hide Join, FirstNested, Chain, ExtractCommand, Invocation;
      OneLevel(path, own, parents);
      InvocationRoundTrip(path[1..], own, parents + [path[0]]);
      assert path == [path[0]] + path[1..];
      assert parents + [path[0]] + path[1..] == parents + path;
    }
  }

  /** Whatever else an interaction contains, the way leads through the first nested option. */
  lemma {:induction false} FirstIsFirst(options: seq<Choice>, k: nat)
    requires k < |options| && !options[k].Plain? && forall i :: 0 <= i < k ==> options[i].Plain?
    ensures FirstNested(options) == Some(options[k])
  {
    if k > 0 {
      assert options[1..][k - 1] == options[k] && forall i :: 0 <= i < k - 1 ==> options[1..][i] == options[i + 1];
      FirstIsFirst(options[1..], k - 1);
    }
  }

  // --------------------------------------------------------------------- keys

  predicate SpaceFree(name: string) {
    ' ' !in name
  }

  predicate AllSpaceFree(names: seq<string>) {
    forall i :: 0 <= i < |names| ==> SpaceFree(names[i])
  }

  lemma {:induction false} LastSpace(a: string, x: string, b: string, y: string)
    requires SpaceFree(x) && SpaceFree(y) && a + " " + x == b + " " + y
    ensures a == b && x == y
  {
    var s, t := a + " " + x, b + " " + y;
    assert s[|a|] == ' ' && t[|b|] == ' ';
    assert forall i :: |a| < i < |s| ==> s[i] == x[i - |a| - 1];
    assert forall i :: |b| < i < |t| ==> t[i] == y[i - |b| - 1];
    assert |a| == |b|;
    assert a == s[..|a|] && b == t[..|b|] && x == s[|a| + 1..] && y == t[|b| + 1..];
  }

  lemma {:induction false} JoinHasSpace(names: seq<string>)
    requires AllSpaceFree(names) && names != []
    ensures SpaceFree(Join(names)) <==> |names| == 1
  {
  }

  /** Space-free names are recovered from their joined form. */
  lemma {:induction false} JoinInjective(a: seq<string>, b: seq<string>)
    requires AllSpaceFree(a) && AllSpaceFree(b) && a != [] && b != []
    requires Join(a) == Join(b)
    ensures a == b
    decreases |a|
  {
    JoinHasSpace(a);
    JoinHasSpace(b);
    if |a| == 1 {
      assert a == [a[0]] && b == [b[0]];
    } else {
      var a', b' := a[..|a| - 1], b[..|b| - 1];
      LastSpace(Join(a'), a[|a| - 1], Join(b'), b[|b| - 1]);
      JoinInjective(a', b');
      assert a == a' + [a[|a| - 1]] && b == b' + [b[|b| - 1]];
    }
  }

  // ----------------------------------------------------------------- builders

  type Func = nat

  datatype SubCommandBuilder = SubCommandBuilder(name: string, func: Option<Func>)

  datatype GroupBuilder = GroupBuilder(name: string, commands: seq<SubCommandBuilder>)

  datatype CommandBuilder =
    CommandBuilder(name: string, func: Option<Func>, groups: seq<GroupBuilder>, subcommands: seq<SubCommandBuilder>)

  datatype Handler = Handler(moduleName: string, name: string, func: Func)

  type Commands = map<string, Handler>

  /** A leaf of the command tree: the names leading to it, and the handler given for it. */
  datatype Leaf = Leaf(path: seq<string>, func: Option<Func>)

  function GroupLeaves(command: string, group: GroupBuilder, n: nat): seq<Leaf>
    requires n <= |group.commands|
  {
    seq(n, i requires 0 <= i < n => Leaf([command, group.name, group.commands[i].name], group.commands[i].func))
  }

  function GroupsLeaves(command: string, groups: seq<GroupBuilder>, n: nat): seq<Leaf>
    requires n <= |groups|
  {
    if n == 0 then [] else GroupsLeaves(command, groups, n - 1) + GroupLeaves(command, groups[n - 1], |groups[n - 1].commands|)
  }

  function SubLeaves(command: string, subcommands: seq<SubCommandBuilder>, n: nat): seq<Leaf>
    requires n <= |subcommands|
  {
    seq(n, i requires 0 <= i < n => Leaf([command, subcommands[i].name], subcommands[i].func))
  }

  /** The leaves in the order in which they are registered; the command itself only if it has no other. */
  function Leaves(c: CommandBuilder): seq<Leaf> {
    GroupsLeaves(c.name, c.groups, |c.groups|) + SubLeaves(c.name, c.subcommands, |c.subcommands|)
    + (if c.subcommands == [] && c.groups == [] then [Leaf([c.name], c.func)] else [])
  }

  /** Registering leaves in order; None is the panic on a leaf without handler. */
  function InsertLeaves(start: Commands, moduleName: string, leaves: seq<Leaf>): Option<Commands> {
    if leaves == [] then Some(start)
    else
      var last := leaves[|leaves| - 1];
      match InsertLeaves(start, moduleName, leaves[..|leaves| - 1])
      case None => None
      case Some(m) =>
        if last.func.None? then None
        else Some(m[Join(last.path) := Handler(moduleName, Join(last.path), last.func.value)])
  }

  lemma InsertSnoc(start: Commands, moduleName: string, leaves: seq<Leaf>, leaf: Leaf)
    ensures InsertLeaves(start, moduleName, leaves + [leaf]) ==
            match InsertLeaves(start, moduleName, leaves)
            case None => None
            case Some(m) =>
              if leaf.func.None? then None
              else Some(m[Join(leaf.path) := Handler(moduleName, Join(leaf.path), leaf.func.value)])
  {
  }

  lemma {:induction false} InsertFails(start: Commands, moduleName: string, a: seq<Leaf>, b: seq<Leaf>)
    requires InsertLeaves(start, moduleName, a).None?
    ensures InsertLeaves(start, moduleName, a + b).None?
  {
    if b == [] {
      assert a + b == a;
    } else {
      InsertFails(start, moduleName, a, b[..|b| - 1]);
      assert (a + b)[..|a + b| - 1] == a + b[..|b| - 1];
    }
  }

  /** Collects the commands of one module. */
  class ModuleBuilder {
    const name: string
    var commands: Commands

    constructor (name: string)
      ensures this.name == name && commands == map[]
    {
      this.name, commands := name, map[];
    }

    method InsertLeaf(path: seq<string>, func: Option<Func>) returns (ok: bool)
      modifies this
      ensures ok <==> func.Some?
      ensures commands == if ok then old(commands)[Join(path) := Handler(name, Join(path), func.value)] else old(commands)
    {
      ok := func.Some?;
      if ok {
        commands := commands[Join(path) := Handler(name, Join(path), func.value)];
      }
    }

    /** Adds a command with all its leaves; false is the panic on a leaf without handler. */
    method Command(command: CommandBuilder) returns (ok: bool)
      modifies this
      ensures ok <==> InsertLeaves(old(commands), name, Leaves(command)).Some?
      ensures ok ==> Some(commands) == InsertLeaves(old(commands), name, Leaves(command))
      ensures ok <==> Complete(command)
      ensures ok && NamesSpaceFree(command) && SiblingsDistinct(command) ==> Serves(commands, name, command)
      ensures ok ==> forall key :: !Answers(command, key) ==> Lookup(commands, key) == Lookup(old(commands), key)
    {
      CommandAdded(commands, name, command);
      hide InsertLeaves, Join, Complete, Serves, Answers, NamesSpaceFree, SiblingsDistinct;
      ghost var start := commands;
      ghost var done: seq<Leaf> := [];
      assert InsertLeaves(start, name, []) == Some(start) by { InsertNothing(start, name); }
      for g := 0 to |command.groups|
        invariant done == GroupsLeaves(command.name, command.groups, g)
        invariant InsertLeaves(start, name, done) == Some(commands)
      {
        var group := command.groups[g];
        assert done + GroupLeaves(command.name, group, 0) == done;
        for i := 0 to |group.commands|
          invariant InsertLeaves(start, name, done + GroupLeaves(command.name, group, i)) == Some(commands)
        {
          var sub := group.commands[i];
          var path := [command.name, group.name, sub.name];
          ghost var sofar := done + GroupLeaves(command.name, group, i);
          assert done + GroupLeaves(command.name, group, i + 1) == sofar + [Leaf(path, sub.func)];
          InsertSnoc(start, name, sofar, Leaf(path, sub.func));
          ok := InsertLeaf(path, sub.func);
          if !ok {
            RestFails(start, name, command, sofar + [Leaf(path, sub.func)]) by { GroupPrefix(command, g, i + 1); }
            return;
          }
        }
        done := done + GroupLeaves(command.name, group, |group.commands|);
      }
      assert done + SubLeaves(command.name, command.subcommands, 0) == done;
      for i := 0 to |command.subcommands|
        invariant InsertLeaves(start, name, done + SubLeaves(command.name, command.subcommands, i)) == Some(commands)
      {
        var sub := command.subcommands[i];
        var path := [command.name, sub.name];
        ghost var sofar := done + SubLeaves(command.name, command.subcommands, i);
        assert done + SubLeaves(command.name, command.subcommands, i + 1) == sofar + [Leaf(path, sub.func)];
        InsertSnoc(start, name, sofar, Leaf(path, sub.func));
        ok := InsertLeaf(path, sub.func);
        if !ok {
          RestFails(start, name, command, sofar + [Leaf(path, sub.func)]) by { SubPrefix(command, i + 1); }
          return;
        }
      }
      ok := true;
      done := done + SubLeaves(command.name, command.subcommands, |command.subcommands|);
      if command.subcommands == [] && command.groups == [] {
        InsertSnoc(start, name, done, Leaf([command.name], command.func));
        ok := InsertLeaf([command.name], command.func);
        assert Leaves(command) == done + [Leaf([command.name], command.func)];
      } else {
        assert Leaves(command) == done;
      }
    }
  }

  lemma InsertNothing(start: Commands, moduleName: string)
    ensures InsertLeaves(start, moduleName, []) == Some(start)
  {
  }

  lemma RestFails(start: Commands, moduleName: string, command: CommandBuilder, first: seq<Leaf>)
    requires first <= Leaves(command) && InsertLeaves(start, moduleName, first).None?
    ensures InsertLeaves(start, moduleName, Leaves(command)).None?
  {
    InsertFails(start, moduleName, first, Leaves(command)[|first|..]);
    assert first + Leaves(command)[|first|..] == Leaves(command);
  }

  lemma {:induction false} GroupsPrefix(command: string, groups: seq<GroupBuilder>, g: nat, n: nat)
    requires g <= n <= |groups|
    ensures GroupsLeaves(command, groups, g) <= GroupsLeaves(command, groups, n)
  {
    if g < n { GroupsPrefix(command, groups, g, n - 1); }
  }

  lemma GroupPrefix(c: CommandBuilder, g: nat, i: nat)
    requires g < |c.groups| && i <= |c.groups[g].commands|
    ensures GroupsLeaves(c.name, c.groups, g) + GroupLeaves(c.name, c.groups[g], i) <= Leaves(c)
  {
    var leaves, all := GroupLeaves(c.name, c.groups[g], i), GroupLeaves(c.name, c.groups[g], |c.groups[g].commands|);
    assert leaves <= all;
    GroupsPrefix(c.name, c.groups, g + 1, |c.groups|);
  }

  lemma SubPrefix(c: CommandBuilder, i: nat)
    requires i <= |c.subcommands|
    ensures GroupsLeaves(c.name, c.groups, |c.groups|) + SubLeaves(c.name, c.subcommands, i) <= Leaves(c)
  {
  }

  // ------------------------------------------------------------------ registry

  datatype Module = Module(name: string, commands: seq<CommandBuilder>)

  /** The command table of a module; None if some leaf has no handler. */
  function Build(moduleName: string, commands: seq<CommandBuilder>): Option<Commands> {
    if commands == [] then Some(map[])
    else
      match Build(moduleName, commands[..|commands| - 1])
      case None => None
      case Some(m) => InsertLeaves(m, moduleName, Leaves(commands[|commands| - 1]))
  }

  /** Later modules override earlier ones. */
  function RegisterAll(modules: seq<Module>): Commands
    requires forall i :: 0 <= i < |modules| ==> Build(modules[i].name, modules[i].commands).Some?
  {
    if modules == [] then map[]
    else
      var last := modules[|modules| - 1];
      RegisterAll(modules[..|modules| - 1]) + Build(last.name, last.commands).value
  }

  class Registry {
    var commands: Commands

    constructor ()
      ensures commands == map[]
    {
      commands := map[];
    }

    method Register(module_: Commands)
      modifies this
      ensures commands == old(commands) + module_
    {
      commands := commands + module_;
    }

    function FindCommand(name: string): (r: Option<Handler>)
      reads this
      ensures r.Some? <==> name in commands
      ensures r.Some? ==> r.value == commands[name]
    {
      if name in commands then Some(commands[name]) else None
    }
  }

  method BuildModule(m: Module) returns (ok: bool, commands: Commands)
    ensures ok <==> Build(m.name, m.commands).Some?
    ensures ok ==> Build(m.name, m.commands) == Some(commands)
  {
    hide Leaves, InsertLeaves;
    var builder := new ModuleBuilder(m.name);
    ok, commands := true, map[];
    for c := 0 to |m.commands|
      invariant builder.name == m.name && Build(m.name, m.commands[..c]) == Some(builder.commands)
    {
      assert m.commands[..c + 1][..c] == m.commands[..c];
      ok := builder.Command(m.commands[c]);
      if !ok {
        BuildFails(m.name, m.commands, c + 1);
        return;
      }
    }
    assert m.commands[..|m.commands|] == m.commands;
    ok, commands := true, builder.commands;
  }

  /** Builds and registers modules one after the other, as start-up does. */
  method RegisterModules(modules: seq<Module>) returns (registry: Registry, ok: bool)
    ensures fresh(registry)
    ensures ok <==> forall i :: 0 <= i < |modules| ==> Build(modules[i].name, modules[i].commands).Some?
    ensures ok ==> registry.commands == RegisterAll(modules)
    ensures ok ==> forall key :: registry.FindCommand(key) == Routed(modules, key)
    ensures ok <==> forall i :: 0 <= i < |modules| ==> AllComplete(modules[i].commands)
    ensures ok ==> forall key :: registry.FindCommand(key).Some? ==> KnownKey(modules, key)
    ensures ok && WellNamedModules(modules) ==>
              forall i, j :: 0 <= i < |modules| && 0 <= j < |modules[i].commands| ==>
                var c := modules[i].commands[j];
                && Serves(registry.commands, modules[i].name, c)
                && (registry.FindCommand(c.name).Some? <==> c.groups == [] && c.subcommands == [])
  {
    hide Build, Routed, AllComplete, KnownKey, WellNamedModules, Serves;
    forall m: Module ensures Build(m.name, m.commands).Some? <==> AllComplete(m.commands) {
      BuiltFrom(m.name, m.commands);
    }
    registry := new Registry();
    for i := 0 to |modules|
      invariant forall j :: 0 <= j < i ==> Build(modules[j].name, modules[j].commands).Some?
      invariant registry.commands == RegisterAll(modules[..i])
      invariant fresh(registry)
    {
      var commands;
      ok, commands := BuildModule(modules[i]);
      if !ok {
        return;
      }
      assert modules[..i + 1][..i] == modules[..i];
      registry.Register(commands);
    }
    assert modules[..|modules|] == modules;
    forall key ensures registry.FindCommand(key) == Routed(modules, key) {
      RegistryIsLast(modules, key);
    }
    forall key | registry.FindCommand(key).Some? ensures KnownKey(modules, key) {
      RegisteredOnly(modules, key);
    }
    if WellNamedModules(modules) {
      forall i, j | 0 <= i < |modules| && 0 <= j < |modules[i].commands|
        ensures var c := modules[i].commands[j];
                && Serves(registry.commands, modules[i].name, c)
                && (registry.FindCommand(c.name).Some? <==> c.groups == [] && c.subcommands == [])
      {
        RegisteredServes(modules, i, j);
        OwnNameIff(modules, i, j);
      }
    }
    ok := true;
  }

  lemma {:induction false} BuildFails(moduleName: string, commands: seq<CommandBuilder>, n: nat)
    requires n <= |commands| && Build(moduleName, commands[..n]).None?
    ensures Build(moduleName, commands).None?
    decreases |commands|
  {
    if n == |commands| {
      assert commands[..n] == commands;
    } else {
      var init := commands[..|commands| - 1];
      assert init[..n] == commands[..n];
      BuildFails(moduleName, init, n);
    }
  }

  // ------------------------------------------------------------------- routing

  ghost predicate NamesSpaceFree(c: CommandBuilder) {
    && SpaceFree(c.name)
    && (forall g :: 0 <= g < |c.groups| ==> SpaceFree(c.groups[g].name))
    && (forall g, i :: 0 <= g < |c.groups| && 0 <= i < |c.groups[g].commands| ==> SpaceFree(c.groups[g].commands[i].name))
    && forall i :: 0 <= i < |c.subcommands| ==> SpaceFree(c.subcommands[i].name)
  }

  ghost predicate DistinctSubs(subs: seq<SubCommandBuilder>) {
    forall i, j :: 0 <= i < j < |subs| ==> subs[i].name != subs[j].name
  }

  /** No two siblings of the command tree share a name. */
  ghost predicate SiblingsDistinct(c: CommandBuilder) {
    && (forall g, h :: 0 <= g < h < |c.groups| ==> c.groups[g].name != c.groups[h].name)
    && (forall g :: 0 <= g < |c.groups| ==> DistinctSubs(c.groups[g].commands))
    && DistinctSubs(c.subcommands)
  }

  lemma {:induction false} GroupsLeafShape(c: CommandBuilder, n: nat, l: nat) returns (g: nat, i: nat)
    requires n <= |c.groups| && l < |GroupsLeaves(c.name, c.groups, n)|
    ensures g < n && i < |c.groups[g].commands|
    ensures GroupsLeaves(c.name, c.groups, n)[l]
         == Leaf([c.name, c.groups[g].name, c.groups[g].commands[i].name], c.groups[g].commands[i].func)
  {
    var before := GroupsLeaves(c.name, c.groups, n - 1);
    if l < |before| {
      g, i := GroupsLeafShape(c, n - 1, l);
    } else {
      g, i := n - 1, l - |before|;
    }
  }

  /** Every leaf path starts with the command's name and is space-free. */
  lemma LeafShape(c: CommandBuilder, l: nat)
    requires l < |Leaves(c)|
    ensures Leaves(c)[l].path != [] && Leaves(c)[l].path[0] == c.name
    ensures NamesSpaceFree(c) ==> AllSpaceFree(Leaves(c)[l].path)
  {
    if l < |GroupsLeaves(c.name, c.groups, |c.groups|)| {
      var g, i := GroupsLeafShape(c, |c.groups|, l);
    }
  }

  lemma {:induction false} GroupsLeavesDistinct(c: CommandBuilder, n: nat, k: nat, l: nat)
    requires SiblingsDistinct(c) && n <= |c.groups| && k < l < |GroupsLeaves(c.name, c.groups, n)|
    ensures GroupsLeaves(c.name, c.groups, n)[k].path != GroupsLeaves(c.name, c.groups, n)[l].path
  {
    var before := GroupsLeaves(c.name, c.groups, n - 1);
    if l < |before| {
      GroupsLeavesDistinct(c, n - 1, k, l);
    } else {
      var last := c.groups[n - 1];
      var pl := [c.name, last.name, last.commands[l - |before|].name];
      assert GroupsLeaves(c.name, c.groups, n)[l].path == pl;
      if k < |before| {
        var g, i := GroupsLeafShape(c, n - 1, k);
        assert GroupsLeaves(c.name, c.groups, n)[k].path[1] == c.groups[g].name != pl[1];
      } else {
        assert DistinctSubs(last.commands);
        assert GroupsLeaves(c.name, c.groups, n)[k].path[2] == last.commands[k - |before|].name != pl[2];
      }
    }
  }

  lemma LeavesDistinct(c: CommandBuilder, k: nat, l: nat)
    requires SiblingsDistinct(c) && k < l < |Leaves(c)|
    ensures Leaves(c)[k].path != Leaves(c)[l].path
  {
    var groups := GroupsLeaves(c.name, c.groups, |c.groups|);
    if l < |groups| {
      GroupsLeavesDistinct(c, |c.groups|, k, l);
    } else if k < |groups| {
      var g, i := GroupsLeafShape(c, |c.groups|, k);
      assert |Leaves(c)[k].path| == 3 && |Leaves(c)[l].path| < 3;
    } else if c.subcommands != [] {
      assert Leaves(c)[k].path[1] == c.subcommands[k - |groups|].name;
      assert Leaves(c)[l].path[1] == c.subcommands[l - |groups|].name;
    }
  }

  /** The handler registered for leaf l of a command. */
  ghost predicate IsHandlerOf(moduleName: string, c: CommandBuilder, l: int, path: seq<string>, h: Handler) {
    0 <= l < |Leaves(c)| && Leaves(c)[l].path == path && Leaves(c)[l].func.Some?
    && h == Handler(moduleName, Join(path), Leaves(c)[l].func.value)
  }

  ghost predicate CommandHandles(moduleName: string, c: CommandBuilder, path: seq<string>, h: Handler) {
    exists l :: IsHandlerOf(moduleName, c, l, path, h)
  }

  ghost predicate Maps(m: Commands, key: string, h: Handler) {
    key in m && m[key] == h
  }

  /** Inserting leaves with pairwise different space-free paths changes exactly their keys. */
  lemma {:induction false} InsertLookup(start: Commands, moduleName: string, leaves: seq<Leaf>, path: seq<string>)
    requires InsertLeaves(start, moduleName, leaves).Some? && path != [] && AllSpaceFree(path)
    requires forall l :: 0 <= l < |leaves| ==> leaves[l].path != [] && AllSpaceFree(leaves[l].path)
    requires forall k, l :: 0 <= k < l < |leaves| ==> leaves[k].path != leaves[l].path
    ensures var m := InsertLeaves(start, moduleName, leaves).value;
            && (forall l :: 0 <= l < |leaves| && leaves[l].path == path ==>
                  leaves[l].func.Some? && Maps(m, Join(path), Handler(moduleName, Join(path), leaves[l].func.value)))
            && ((forall l :: 0 <= l < |leaves| ==> leaves[l].path != path) ==>
                  (Join(path) in m <==> Join(path) in start) && (Join(path) in m ==> m[Join(path)] == start[Join(path)]))
  {
    hide Join;
    if leaves != [] {
      var init, last := leaves[..|leaves| - 1], leaves[|leaves| - 1];
      InsertLookup(start, moduleName, init, path);
      if Join(last.path) == Join(path) {
        JoinInjective(last.path, path);
      }
      assert forall l :: 0 <= l < |init| ==> init[l] == leaves[l];
    }
  }

  lemma CommandLookup(start: Commands, moduleName: string, c: CommandBuilder, path: seq<string>, h: Handler)
    requires InsertLeaves(start, moduleName, Leaves(c)).Some? && path != [] && AllSpaceFree(path)
    requires NamesSpaceFree(c) && SiblingsDistinct(c)
    ensures var m := InsertLeaves(start, moduleName, Leaves(c)).value;
            && (CommandHandles(moduleName, c, path, h) ==> Maps(m, Join(path), h))
            && (path[0] != c.name ==> (Maps(m, Join(path), h) <==> Maps(start, Join(path), h)))
            && (Join(path) !in start && Maps(m, Join(path), h) ==> CommandHandles(moduleName, c, path, h))
  {
    hide Leaves, Join, NamesSpaceFree, SiblingsDistinct;
    var leaves := Leaves(c);
    forall l | 0 <= l < |leaves| ensures leaves[l].path != [] && leaves[l].path[0] == c.name && AllSpaceFree(leaves[l].path) {
      LeafShape(c, l);
    }
    forall k, l | 0 <= k < l < |leaves| ensures leaves[k].path != leaves[l].path {
      LeavesDistinct(c, k, l);
    }
    InsertLookup(start, moduleName, leaves, path);
    var m := InsertLeaves(start, moduleName, leaves).value;
    if Join(path) !in start && Maps(m, Join(path), h) {
      var l :| 0 <= l < |leaves| && leaves[l].path == path;
      assert IsHandlerOf(moduleName, c, l, path, h);
    }
  }

  /** h handles the leaf with this path in one of the commands. */
  ghost predicate HandledBy(moduleName: string, commands: seq<CommandBuilder>, path: seq<string>, h: Handler) {
    exists j, l :: 0 <= j < |commands| && IsHandlerOf(moduleName, commands[j], l, path, h)
  }

  ghost predicate WellNamed(commands: seq<CommandBuilder>) {
    && (forall j :: 0 <= j < |commands| ==> NamesSpaceFree(commands[j]) && SiblingsDistinct(commands[j]))
    && forall i, j :: 0 <= i < j < |commands| ==> commands[i].name != commands[j].name
  }

  lemma {:induction false} BuildLookup(moduleName: string, commands: seq<CommandBuilder>, path: seq<string>, h: Handler)
    requires Build(moduleName, commands).Some? && path != [] && AllSpaceFree(path) && WellNamed(commands)
    ensures Maps(Build(moduleName, commands).value, Join(path), h) <==> HandledBy(moduleName, commands, path, h)
    ensures Join(path) in Build(moduleName, commands).value ==> exists j :: 0 <= j < |commands| && commands[j].name == path[0]
    decreases |commands|
  {
    hide Leaves, Join, NamesSpaceFree, SiblingsDistinct;
    if commands != [] {
      var init, last := commands[..|commands| - 1], commands[|commands| - 1];
      var start := Build(moduleName, init).value;
      BuildLookup(moduleName, init, path, h);
      CommandLookup(start, moduleName, last, path, h);
      HandledSnoc(moduleName, commands, path, h);
      if Join(path) in Build(moduleName, commands).value {
        BuildLookup(moduleName, init, path, Build(moduleName, commands).value[Join(path)]);
        CommandLookup(start, moduleName, last, path, Build(moduleName, commands).value[Join(path)]);
      }
      if Join(path) in start {
        var j :| 0 <= j < |init| && init[j].name == path[0];
        assert commands[j].name != last.name;
      }
      if Maps(start, Join(path), h) || path[0] != last.name {
        if CommandHandles(moduleName, last, path, h) {
          var l :| IsHandlerOf(moduleName, last, l, path, h);
          LeafShape(last, l);
        }
      }
    }
  }

  lemma HandledSnoc(moduleName: string, commands: seq<CommandBuilder>, path: seq<string>, h: Handler)
    requires commands != []
    ensures HandledBy(moduleName, commands, path, h) <==>
            HandledBy(moduleName, commands[..|commands| - 1], path, h)
            || CommandHandles(moduleName, commands[|commands| - 1], path, h)
  {
  }

  /** Names are space-free, siblings differ, and no command name occurs twice in all modules together. */
  ghost predicate WellNamedModules(modules: seq<Module>) {
    && (forall i :: 0 <= i < |modules| ==> WellNamed(modules[i].commands))
    && forall i, j, a, b :: 0 <= i < j < |modules| && 0 <= a < |modules[i].commands| && 0 <= b < |modules[j].commands|
         ==> modules[i].commands[a].name != modules[j].commands[b].name
  }

  ghost predicate AllBuild(modules: seq<Module>) {
    forall i :: 0 <= i < |modules| ==> Build(modules[i].name, modules[i].commands).Some?
  }

  /** h handles the leaf with this path in one of the modules. */
  ghost predicate HandlesLeaf(modules: seq<Module>, path: seq<string>, h: Handler) {
    exists i :: 0 <= i < |modules| && HandledBy(modules[i].name, modules[i].commands, path, h)
  }

  ghost predicate HasCommand(m: Module, name: string) {
    exists j :: 0 <= j < |m.commands| && m.commands[j].name == name
  }

  lemma {:induction false} RegisterLookup(modules: seq<Module>, path: seq<string>, h: Handler)
    requires AllBuild(modules) && WellNamedModules(modules) && path != [] && AllSpaceFree(path)
    ensures Maps(RegisterAll(modules), Join(path), h) <==> HandlesLeaf(modules, path, h)
    ensures Join(path) in RegisterAll(modules) ==> exists i :: 0 <= i < |modules| && HasCommand(modules[i], path[0])
    decreases |modules|
  {
    hide Join, WellNamed, HandledBy, Build;
    if modules != [] {
      var init, last := modules[..|modules| - 1], modules[|modules| - 1];
      assert forall i :: 0 <= i < |init| ==> init[i] == modules[i];
      RegisterLookup(init, path, h);
      var own := Build(last.name, last.commands).value;
      BuildLookup(last.name, last.commands, path, h);
      if Join(path) in own { assert HasCommand(last, path[0]); }
    }
  }

  /**
   * Whatever an interaction invokes, the registry finds handler h for the extracted name exactly when
   * h handles the leaf the interaction's names lead to; the options handed over contain no further
   * nested level.
   */
  lemma RouteIff(modules: seq<Module>, name: string, options: seq<Choice>, h: Handler)
    requires AllBuild(modules) && WellNamedModules(modules) && AllSpaceFree(Chain(name, options))
    ensures var (key, own) := ExtractCommand(name, options, []);
            && (Maps(RegisterAll(modules), key, h) <==> HandlesLeaf(modules, Chain(name, options), h))
            && FirstNested(own).None?
  {
    hide Join, WellNamedModules, AllBuild, RegisterAll;
    ExtractIsChain(name, options, []);
    assert [] + Chain(name, options) == Chain(name, options);
    RegisterLookup(modules, Chain(name, options), h);
  }

  /** Invoking a registered leaf runs exactly its own handler with exactly its own options. */
  lemma LeafIsRouted(modules: seq<Module>, i: nat, j: nat, l: nat, own: seq<Choice>)
    requires AllBuild(modules) && WellNamedModules(modules) && FirstNested(own).None?
    requires i < |modules| && j < |modules[i].commands| && l < |Leaves(modules[i].commands[j])|
    ensures var leaf := Leaves(modules[i].commands[j])[l];
            && leaf.path != [] && leaf.func.Some?
            && var (key, options) := ExtractCommand(leaf.path[0], Invocation(leaf.path, own), []);
            && Maps(RegisterAll(modules), key, Handler(modules[i].name, key, leaf.func.value))
            && options == own
  {
    hide Join, Leaves, NamesSpaceFree, SiblingsDistinct, RegisterAll;
    var m, c := modules[i], modules[i].commands[j];
    var leaf := Leaves(c)[l];
    LeafShape(c, l);
    BuiltLeavesHaveHandlers(m.name, m.commands, j, l);
    var h := Handler(m.name, Join(leaf.path), leaf.func.value);
    assert IsHandlerOf(m.name, c, l, leaf.path, h);
    assert HandledBy(m.name, m.commands, leaf.path, h);
    InvocationRoundTrip(leaf.path, own, []);
    assert [] + leaf.path == leaf.path;
    RegisterLookup(modules, leaf.path, h);
  }

  lemma {:induction false} BuiltLeavesHaveHandlers(moduleName: string, commands: seq<CommandBuilder>, j: nat, l: nat)
    requires Build(moduleName, commands).Some? && j < |commands| && l < |Leaves(commands[j])|
    ensures Leaves(commands[j])[l].func.Some?
    decreases |commands|
  {
    hide Leaves;
    var init := commands[..|commands| - 1];
    if j < |init| {
      assert init[j] == commands[j];
      BuiltLeavesHaveHandlers(moduleName, init, j, l);
    } else {
      InsertedHaveHandlers(Build(moduleName, init).value, moduleName, Leaves(commands[j]), l);
    }
  }

  lemma {:induction false} InsertedHaveHandlers(start: Commands, moduleName: string, leaves: seq<Leaf>, l: nat)
    requires InsertLeaves(start, moduleName, leaves).Some? && l < |leaves|
    ensures leaves[l].func.Some?
  {
    hide Join;
    if l < |leaves| - 1 { InsertedHaveHandlers(start, moduleName, leaves[..|leaves| - 1], l); }
  }

  // ------------------------------------- what is registered, told from the builders

  /** The key leads to this function of this module. */
  predicate Runs(found: Commands, moduleName: string, key: string, func: Option<Func>) {
    func.Some? && key in found && found[key] == Handler(moduleName, key, func.value)
  }

  /** Every subcommand, in a group or not, is found under its full name; the command itself if it has none. */
  ghost predicate Serves(found: Commands, moduleName: string, c: CommandBuilder) {
    && (forall g, i :: 0 <= g < |c.groups| && 0 <= i < |c.groups[g].commands| ==>
          Runs(found, moduleName, c.name + " " + c.groups[g].name + " " + c.groups[g].commands[i].name, c.groups[g].commands[i].func))
    && (forall i :: 0 <= i < |c.subcommands| ==>
          Runs(found, moduleName, c.name + " " + c.subcommands[i].name, c.subcommands[i].func))
    && (c.groups == [] && c.subcommands == [] ==> Runs(found, moduleName, c.name, c.func))
  }

  /** The key is one of those names. */
  ghost predicate Answers(c: CommandBuilder, key: string) {
    || (exists g, i :: 0 <= g < |c.groups| && 0 <= i < |c.groups[g].commands|
                       && key == c.name + " " + c.groups[g].name + " " + c.groups[g].commands[i].name)
    || (exists i :: 0 <= i < |c.subcommands| && key == c.name + " " + c.subcommands[i].name)
    || (c.groups == [] && c.subcommands == [] && key == c.name)
  }

  /** Whatever can be invoked has a handler. */
  ghost predicate Complete(c: CommandBuilder) {
    && (forall g, i :: 0 <= g < |c.groups| && 0 <= i < |c.groups[g].commands| ==> c.groups[g].commands[i].func.Some?)
    && (forall i :: 0 <= i < |c.subcommands| ==> c.subcommands[i].func.Some?)
    && (c.groups == [] && c.subcommands == [] ==> c.func.Some?)
  }

  lemma JoinedNames(a: string, b: string, c: string)
    ensures Join([a]) == a && Join([a, b]) == a + " " + b && Join([a, b, c]) == a + " " + b + " " + c
  {
    assert [a, b][..1] == [a] && [a, b, c][..2] == [a, b];
  }

  /** The three shapes of an interaction, and the key and the options extracted from each. */
  lemma ExtractedKeys(c: string, g: string, s: string, own: seq<Choice>)
    requires FirstNested(own).None?
    ensures ExtractCommand(c, own, []) == (c, own)
    ensures ExtractCommand(c, [SubCommand(s, own)], []) == (c + " " + s, own)
    ensures ExtractCommand(c, [SubCommandGroup(g, [SubCommand(s, own)])], []) == (c + " " + g + " " + s, own)
  {
    JoinedNames(c, s, "");
    JoinedNames(c, g, s);
    hide Join;
    assert [] + [c] == [c] && [c] + [s] == [c, s] && [c] + [g] == [c, g] && [c, g] + [s] == [c, g, s];
    assert FirstNested([SubCommand(s, own)]) == Some(SubCommand(s, own));
    assert FirstNested([SubCommandGroup(g, [SubCommand(s, own)])]) == Some(SubCommandGroup(g, [SubCommand(s, own)]));
    assert ExtractCommand(s, own, [c]) == (Join([c, s]), own) && ExtractCommand(s, own, [c, g]) == (Join([c, g, s]), own);
    assert ExtractCommand(g, [SubCommand(s, own)], [c]) == ExtractCommand(s, own, [c, g]);
  }

  lemma GroupLeaf(c: CommandBuilder, g: nat, i: nat) returns (l: nat)
    requires g < |c.groups| && i < |c.groups[g].commands|
    ensures l < |Leaves(c)|
    ensures Leaves(c)[l] == Leaf([c.name, c.groups[g].name, c.groups[g].commands[i].name], c.groups[g].commands[i].func)
  {
    l := |GroupsLeaves(c.name, c.groups, g)| + i;
    GroupPrefix(c, g, i + 1);
    var first := GroupsLeaves(c.name, c.groups, g) + GroupLeaves(c.name, c.groups[g], i + 1);
    assert Leaves(c)[l] == first[l];
  }

  lemma SubLeaf(c: CommandBuilder, i: nat) returns (l: nat)
    requires i < |c.subcommands|
    ensures l < |Leaves(c)| && Leaves(c)[l] == Leaf([c.name, c.subcommands[i].name], c.subcommands[i].func)
  {
    l := |GroupsLeaves(c.name, c.groups, |c.groups|)| + i;
  }

  lemma OwnLeaf(c: CommandBuilder)
    requires c.groups == [] && c.subcommands == []
    ensures Leaves(c) == [Leaf([c.name], c.func)]
  {
  }

  /** There are no other leaves. */
  lemma LeafAnswers(c: CommandBuilder, l: nat)
    requires l < |Leaves(c)|
    ensures Answers(c, Join(Leaves(c)[l].path)) && (Complete(c) ==> Leaves(c)[l].func.Some?)
  {
    var groups := GroupsLeaves(c.name, c.groups, |c.groups|);
    hide Join;
    if l < |groups| {
      var g, i := GroupsLeafShape(c, |c.groups|, l);
      JoinedNames(c.name, c.groups[g].name, c.groups[g].commands[i].name);
    } else if l < |groups| + |c.subcommands| {
      JoinedNames(c.name, c.subcommands[l - |groups|].name, "");
    } else {
      JoinedNames(c.name, "", "");
    }
  }

  lemma {:induction false} InsertSucceedsIff(start: Commands, moduleName: string, leaves: seq<Leaf>)
    ensures InsertLeaves(start, moduleName, leaves).Some? <==> forall l :: 0 <= l < |leaves| ==> leaves[l].func.Some?
  {
    hide Join;
    if leaves != [] {
      var before := leaves[..|leaves| - 1];
      InsertSucceedsIff(start, moduleName, before);
      assert forall l :: 0 <= l < |before| ==> leaves[l] == before[l];
    }
  }

  lemma {:induction false} InsertKeeps(start: Commands, moduleName: string, leaves: seq<Leaf>, key: string)
    requires InsertLeaves(start, moduleName, leaves).Some? && forall l :: 0 <= l < |leaves| ==> Join(leaves[l].path) != key
    ensures Lookup(InsertLeaves(start, moduleName, leaves).value, key) == Lookup(start, key)
  {
    hide Join;
    if leaves != [] {
      InsertKeeps(start, moduleName, leaves[..|leaves| - 1], key);
    }
  }

  lemma CompleteIff(c: CommandBuilder)
    ensures Complete(c) <==> forall l :: 0 <= l < |Leaves(c)| ==> Leaves(c)[l].func.Some?
  {
    hide Leaves, Answers;
    if Complete(c) {
      forall l | 0 <= l < |Leaves(c)| ensures Leaves(c)[l].func.Some? {
        LeafAnswers(c, l);
      }
    }
    if forall l :: 0 <= l < |Leaves(c)| ==> Leaves(c)[l].func.Some? {
      forall g, i | 0 <= g < |c.groups| && 0 <= i < |c.groups[g].commands| ensures c.groups[g].commands[i].func.Some? {
        var l := GroupLeaf(c, g, i);
      }
      forall i | 0 <= i < |c.subcommands| ensures c.subcommands[i].func.Some? {
        var l := SubLeaf(c, i);
      }
      if c.groups == [] && c.subcommands == [] {
        OwnLeaf(c);
        assert Leaves(c)[0].func.Some?;
      }
    }
  }

  /** Adding a command succeeds exactly if it is complete, and changes only its own names. */
  lemma CommandAdded(start: Commands, moduleName: string, c: CommandBuilder)
    ensures InsertLeaves(start, moduleName, Leaves(c)).Some? <==> Complete(c)
    ensures Complete(c) ==> forall key :: !Answers(c, key) ==>
              Lookup(InsertLeaves(start, moduleName, Leaves(c)).value, key) == Lookup(start, key)
    ensures Complete(c) && NamesSpaceFree(c) && SiblingsDistinct(c) ==>
              Serves(InsertLeaves(start, moduleName, Leaves(c)).value, moduleName, c)
  {
    hide Leaves, InsertLeaves, Answers, Complete, Serves, Join, NamesSpaceFree, SiblingsDistinct;
    CompleteIff(c);
    InsertSucceedsIff(start, moduleName, Leaves(c));
    if Complete(c) {
      forall key | !Answers(c, key) ensures Lookup(InsertLeaves(start, moduleName, Leaves(c)).value, key) == Lookup(start, key) {
        forall l | 0 <= l < |Leaves(c)| ensures Join(Leaves(c)[l].path) != key {
          LeafAnswers(c, l);
        }
        InsertKeeps(start, moduleName, Leaves(c), key);
      }
      if NamesSpaceFree(c) && SiblingsDistinct(c) {
        var m := InsertLeaves(start, moduleName, Leaves(c)).value;
        forall l | 0 <= l < |Leaves(c)| ensures Runs(m, moduleName, Join(Leaves(c)[l].path), Leaves(c)[l].func) {
          LeafShape(c, l);
          var path := Leaves(c)[l].path;
          var h := Handler(moduleName, Join(path), Leaves(c)[l].func.value);
          assert IsHandlerOf(moduleName, c, l, path, h);
          CommandLookup(start, moduleName, c, path, h);
        }
        LeavesServe(m, moduleName, c);
      }
    }
  }

  lemma LeavesServe(m: Commands, moduleName: string, c: CommandBuilder)
    requires forall l :: 0 <= l < |Leaves(c)| ==> Runs(m, moduleName, Join(Leaves(c)[l].path), Leaves(c)[l].func)
    ensures Serves(m, moduleName, c)
  {
    hide Leaves, Join, Runs;
    forall g, i | 0 <= g < |c.groups| && 0 <= i < |c.groups[g].commands|
      ensures Runs(m, moduleName, c.name + " " + c.groups[g].name + " " + c.groups[g].commands[i].name, c.groups[g].commands[i].func)
    {
      var l := GroupLeaf(c, g, i);
      JoinedNames(c.name, c.groups[g].name, c.groups[g].commands[i].name);
    }
    forall i | 0 <= i < |c.subcommands|
      ensures Runs(m, moduleName, c.name + " " + c.subcommands[i].name, c.subcommands[i].func)
    {
      var l := SubLeaf(c, i);
      JoinedNames(c.name, c.subcommands[i].name, "");
    }
    if c.groups == [] && c.subcommands == [] {
      OwnLeaf(c);
      JoinedNames(c.name, "", "");
      assert Runs(m, moduleName, Join(Leaves(c)[0].path), Leaves(c)[0].func);
    }
  }

  /** One of the commands answers to the key. */
  ghost predicate AnswersAny(commands: seq<CommandBuilder>, key: string) {
    exists j :: 0 <= j < |commands| && Answers(commands[j], key)
  }

  ghost predicate AllComplete(commands: seq<CommandBuilder>) {
    forall j :: 0 <= j < |commands| ==> Complete(commands[j])
  }

  lemma {:induction false} BuiltFrom(moduleName: string, commands: seq<CommandBuilder>)
    ensures Build(moduleName, commands).Some? <==> AllComplete(commands)
    ensures AllComplete(commands) ==> forall key :: key in Build(moduleName, commands).value ==> AnswersAny(commands, key)
    decreases |commands|
  {
    hide Leaves, InsertLeaves, Complete, Answers;
    if commands != [] {
      var before, last := commands[..|commands| - 1], commands[|commands| - 1];
      BuiltFrom(moduleName, before);
      assert forall j :: 0 <= j < |before| ==> commands[j] == before[j];
      if AllComplete(before) {
        CommandAdded(Build(moduleName, before).value, moduleName, last);
      }
    }
  }

  ghost predicate KnownKey(modules: seq<Module>, key: string) {
    exists i :: 0 <= i < |modules| && AnswersAny(modules[i].commands, key)
  }

  /** Nothing is registered under any other key, whatever the names. */
  lemma {:induction false} RegisteredOnly(modules: seq<Module>, key: string)
    requires AllBuild(modules) && key in RegisterAll(modules)
    ensures KnownKey(modules, key)
    decreases |modules|
  {
    hide Build, AnswersAny;
    var before, last := modules[..|modules| - 1], modules[|modules| - 1];
    BuiltFrom(last.name, last.commands);
    if key !in Build(last.name, last.commands).value {
      assert forall i :: 0 <= i < |before| ==> modules[i] == before[i];
      RegisteredOnly(before, key);
    } else {
      assert AnswersAny(modules[|modules| - 1].commands, key);
    }
  }

  /** With well-formed names every command of every module is served by its own handlers. */
  lemma RegisteredServes(modules: seq<Module>, i: nat, j: nat)
    requires AllBuild(modules) && WellNamedModules(modules) && i < |modules| && j < |modules[i].commands|
    ensures Serves(RegisterAll(modules), modules[i].name, modules[i].commands[j])
  {
    hide Leaves, Join, NamesSpaceFree, SiblingsDistinct, RegisterAll, Serves, Build;
    var m, c := modules[i], modules[i].commands[j];
    forall l | 0 <= l < |Leaves(c)| ensures Runs(RegisterAll(modules), m.name, Join(Leaves(c)[l].path), Leaves(c)[l].func) {
      LeafShape(c, l);
      BuiltLeavesHaveHandlers(m.name, m.commands, j, l);
      var path := Leaves(c)[l].path;
      var h := Handler(m.name, Join(path), Leaves(c)[l].func.value);
      assert IsHandlerOf(m.name, c, l, path, h);
      assert HandledBy(m.name, m.commands, path, h);
      RegisterLookup(modules, path, h);
    }
    LeavesServe(RegisterAll(modules), m.name, c);
  }

  /** A space-free key is the name of a command without subcommands. */
  lemma BareAnswer(c: CommandBuilder, key: string)
    requires Answers(c, key) && SpaceFree(key)
    ensures c.groups == [] && c.subcommands == [] && key == c.name
  {
  }

  /** A command's own name is found exactly if it has no subcommands. */
  lemma OwnNameIff(modules: seq<Module>, i: nat, j: nat)
    requires AllBuild(modules) && WellNamedModules(modules) && i < |modules| && j < |modules[i].commands|
    ensures var c := modules[i].commands[j];
            c.name in RegisterAll(modules) <==> c.groups == [] && c.subcommands == []
  {
    hide RegisterAll, Build, Answers;
    var c := modules[i].commands[j];
    RegisteredServes(modules, i, j);
    if c.name in RegisterAll(modules) {
      RegisteredOnly(modules, c.name);
      var k :| 0 <= k < |modules| && AnswersAny(modules[k].commands, c.name);
      var l :| 0 <= l < |modules[k].commands| && Answers(modules[k].commands[l], c.name);
      BareAnswer(modules[k].commands[l], c.name);
      assert modules[k].commands[l].name == c.name;
    }
  }

  // ---------------------------------------------------- without naming rules

  /** A leaf with the module that registers it. */
  datatype Entry = Entry(moduleName: string, leaf: Leaf)

  function EntriesOf(moduleName: string, leaves: seq<Leaf>): (r: seq<Entry>)
    ensures |r| == |leaves| && forall l :: 0 <= l < |r| ==> r[l] == Entry(moduleName, leaves[l])
  {
    seq(|leaves|, l requires 0 <= l < |leaves| => Entry(moduleName, leaves[l]))
  }

  function ModuleEntries(moduleName: string, commands: seq<CommandBuilder>): seq<Entry> {
    if commands == [] then []
    else ModuleEntries(moduleName, commands[..|commands| - 1]) + EntriesOf(moduleName, Leaves(commands[|commands| - 1]))
  }

  /** Every leaf of every module, in the order in which they are registered. */
  function AllEntries(modules: seq<Module>): seq<Entry> {
    if modules == [] then []
    else AllEntries(modules[..|modules| - 1]) + ModuleEntries(modules[|modules| - 1].name, modules[|modules| - 1].commands)
  }

  /** The last entry whose joined path is the key. */
  function LastKeyed(entries: seq<Entry>, key: string): Option<Entry> {
    if entries == [] then None
    else if Join(entries[|entries| - 1].leaf.path) == key then Some(entries[|entries| - 1])
    else LastKeyed(entries[..|entries| - 1], key)
  }

  ghost predicate IsLastKeyed(entries: seq<Entry>, key: string, k: int) {
    && 0 <= k < |entries| && Join(entries[k].leaf.path) == key
    && forall m :: k < m < |entries| ==> Join(entries[m].leaf.path) != key
  }

  lemma {:induction false} LastKeyedIsLast(entries: seq<Entry>, key: string) returns (k: int)
    ensures LastKeyed(entries, key).Some? ==> IsLastKeyed(entries, key, k) && entries[k] == LastKeyed(entries, key).value
    ensures LastKeyed(entries, key).None? ==> forall m :: 0 <= m < |entries| ==> Join(entries[m].leaf.path) != key
  {
    hide Join;
    k := |entries| - 1;
    if entries != [] && Join(entries[k].leaf.path) != key {
      var before := entries[..k];
      k := LastKeyedIsLast(before, key);
      assert forall m :: 0 <= m < |before| ==> entries[m] == before[m];
    }
  }

  /** What the program should run for a key: the handler of the last leaf registered under it. */
  function Routed(modules: seq<Module>, key: string): Option<Handler> {
    Handled(LastKeyed(AllEntries(modules), key), key)
  }

  function Handled(e: Option<Entry>, key: string): Option<Handler> {
    match e
    case None => None
    case Some(entry) =>
      if entry.leaf.func.None? then None else Some(Handler(entry.moduleName, key, entry.leaf.func.value))
  }

  function Lookup(m: Commands, key: string): Option<Handler> {
    if key in m then Some(m[key]) else None
  }

  lemma {:induction false} LastKeyedConcat(a: seq<Entry>, b: seq<Entry>, key: string)
    ensures LastKeyed(a + b, key) == if LastKeyed(b, key).Some? then LastKeyed(b, key) else LastKeyed(a, key)
  {
    hide Join;
    if b == [] {
      assert a + b == a;
    } else {
      assert (a + b)[..|a + b| - 1] == a + b[..|b| - 1];
      LastKeyedConcat(a, b[..|b| - 1], key);
    }
  }

  lemma {:induction false} InsertIsLast(start: Commands, moduleName: string, leaves: seq<Leaf>, key: string)
    requires InsertLeaves(start, moduleName, leaves).Some?
    ensures var last := LastKeyed(EntriesOf(moduleName, leaves), key);
            Lookup(InsertLeaves(start, moduleName, leaves).value, key) == if last.Some? then Handled(last, key) else Lookup(start, key)
    ensures LastKeyed(EntriesOf(moduleName, leaves), key).Some? ==> LastKeyed(EntriesOf(moduleName, leaves), key).value.leaf.func.Some?
  {
    hide Join;
    if leaves != [] {
      InsertIsLast(start, moduleName, leaves[..|leaves| - 1], key);
      assert EntriesOf(moduleName, leaves)[..|leaves| - 1] == EntriesOf(moduleName, leaves[..|leaves| - 1]);
    }
  }

  lemma {:induction false} BuildIsLast(moduleName: string, commands: seq<CommandBuilder>, key: string)
    requires Build(moduleName, commands).Some?
    ensures Lookup(Build(moduleName, commands).value, key) == Handled(LastKeyed(ModuleEntries(moduleName, commands), key), key)
    ensures var last := LastKeyed(ModuleEntries(moduleName, commands), key); last.Some? ==> last.value.leaf.func.Some?
    decreases |commands|
  {
    assert LastKeyed([], key) == None;
    hide Join, Leaves, InsertLeaves, LastKeyed;
    if commands != [] {
      var init, last := commands[..|commands| - 1], commands[|commands| - 1];
      BuildIsLast(moduleName, init, key);
      InsertIsLast(Build(moduleName, init).value, moduleName, Leaves(last), key);
      LastKeyedConcat(ModuleEntries(moduleName, init), EntriesOf(moduleName, Leaves(last)), key);
    }
  }

  /** Whatever the names, the registry holds under a key the handler of the last leaf registered under it, if there is one. */
  lemma {:induction false} RegistryIsLast(modules: seq<Module>, key: string)
    requires AllBuild(modules)
    ensures Lookup(RegisterAll(modules), key) == Routed(modules, key)
    ensures var last := LastKeyed(AllEntries(modules), key); last.Some? ==> last.value.leaf.func.Some?
    decreases |modules|
  {
    assert LastKeyed([], key) == None;
    hide Join, Build, LastKeyed, ModuleEntries;
    if modules != [] {
      var init, last := modules[..|modules| - 1], modules[|modules| - 1];
      assert forall i :: 0 <= i < |init| ==> init[i] == modules[i];
      RegistryIsLast(init, key);
      BuildIsLast(last.name, last.commands, key);
      LastKeyedConcat(AllEntries(init), ModuleEntries(last.name, last.commands), key);
    }
  }

  /** So any interaction at all runs the last leaf registered under the joined names it leads to, or nothing. */
  lemma RoutedToLast(modules: seq<Module>, name: string, options: seq<Choice>) returns (k: int)
    requires AllBuild(modules)
    ensures var (key, own) := ExtractCommand(name, options, []);
            var entries, handler := AllEntries(modules), Lookup(RegisterAll(modules), key);
            && key == Join(Chain(name, options)) && FirstNested(own).None?
            && (handler.Some? ==> IsLastKeyed(entries, key, k) && IsHandler(entries[k], key, handler.value))
            && (handler.None? ==> forall m :: 0 <= m < |entries| ==> Join(entries[m].leaf.path) != key)
  {
    hide Join, RegisterAll, AllBuild, AllEntries, LastKeyed, IsLastKeyed;
    ExtractIsChain(name, options, []);
    assert [] + Chain(name, options) == Chain(name, options);
    var key := Join(Chain(name, options));
    RegistryIsLast(modules, key);
    k := LastKeyedIsLast(AllEntries(modules), key);
  }

  /** The handler belongs to the entry's leaf. */
  predicate IsHandler(e: Entry, key: string, handler: Handler) {
    e.leaf.func.Some? && handler == Handler(e.moduleName, key, e.leaf.func.value)
  }

  /** Names with spaces can collide: a subcommand "b c" of "a" is registered like "c" in group "b". */
  lemma SpacesCollide()
    ensures Join(["a", "b c"]) == Join(["a", "b", "c"])
  {
  }

  const COLLIDING: CommandBuilder :=
    CommandBuilder("a", None, [GroupBuilder("b", [SubCommandBuilder("c", Some(1))])], [SubCommandBuilder("b c", Some(2))])

  lemma CollidingLeaves()
    ensures Leaves(COLLIDING) == [Leaf(["a", "b", "c"], Some(1)), Leaf(["a", "b c"], Some(2))]
  {
    assert GroupsLeaves("a", COLLIDING.groups, 0) == [];
    assert GroupsLeaves("a", COLLIDING.groups, 1) == [Leaf(["a", "b", "c"], Some(1))];
  }

  /** Then whoever invokes "c" in the group runs the handler of the subcommand, which was registered last. */
  lemma CollisionShadows(moduleName: string, own: seq<Choice>)
    requires FirstNested(own).None?
    ensures Build(moduleName, [COLLIDING]).Some?
    ensures var key := ExtractCommand("a", Invocation(["a", "b", "c"], own), []).0;
            Lookup(Build(moduleName, [COLLIDING]).value, key) == Some(Handler(moduleName, key, 2))
  {
    var path, leaves := ["a", "b", "c"], Leaves(COLLIDING);
    InvocationRoundTrip(path, own, []);
    assert [] + path == path && path[0] == "a";
    SpacesCollide();
    CollidingLeaves();
    hide Join, Leaves, Invocation;
    assert [COLLIDING][..0] == [];
    InsertSnoc(map[], moduleName, [], leaves[0]);
    InsertSnoc(map[], moduleName, [leaves[0]], leaves[1]);
    assert leaves == [leaves[0]] + [leaves[1]] && [] + [leaves[0]] == [leaves[0]];
  }
}
