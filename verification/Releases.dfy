/** Which workspace releases a release run makes: propagation from a crate to the crates that use it. */
module Releases {
  import opened Base

  /** A semantic version; build metadata, which comparison ignores, is left out. */
  datatype Version = Version(major: nat, minor: nat, patch: nat, prerelease: Option<string>)

  /** Precedence of versions; two prereleases of the same version are left unordered. */
  predicate Precedes(v: Version, w: Version) {
    || v.major < w.major
    || (v.major == w.major && v.minor < w.minor)
    || (v.major == w.major && v.minor == w.minor && v.patch < w.patch)
    || (v.major == w.major && v.minor == w.minor && v.patch == w.patch && v.prerelease.Some? && w.prerelease.None?)
  }

  /** w is the first release above v: no other one lies between them, and only the patch number may differ. */
  ghost predicate FirstReleaseAbove(v: Version, w: Version) {
    && Precedes(v, w) && w.prerelease.None?
    && w.major == v.major && w.minor == v.minor
    && forall x :: Precedes(v, x) && x.prerelease.None? ==> x == w || Precedes(w, x)
  }

  /** The next patch release: a prerelease is completed, otherwise the patch number grows. */
  function NextPatch(v: Version): (r: Version)
    ensures FirstReleaseAbove(v, r)
  {
    if v.prerelease.Some? then v.(prerelease := None) else v.(patch := v.patch + 1)
  }

  datatype CrateInfo = CrateInfo(name: string, workspaceDependencies: set<string>)

  // -------------------------------------------------------------------- graph

  /** The crates of each release, in processing order. */
  type Layout = seq<seq<CrateInfo>>

  /** A crate of release j uses a crate of release i. */
  ghost predicate Edge(g: Layout, i: nat, j: nat) {
    i < |g| && j < |g| && exists a, b :: 0 <= a < |g[i]| && 0 <= b < |g[j]| && Uses(g[j][b], g[i][a])
  }

  predicate Uses(user: CrateInfo, used: CrateInfo) {
    used.name in user.workspaceDependencies
  }

  ghost function Dependents(g: Layout, i: nat): set<nat> {
    set j | 0 <= j < |g| && Edge(g, i, j)
  }

  ghost predicate Path(g: Layout, p: seq<nat>) {
    && p != []
    && (forall k :: 0 <= k < |p| ==> p[k] < |g|)
    && forall k :: 0 < k < |p| ==> Edge(g, p[k - 1], p[k])
  }

  ghost predicate Reaches(g: Layout, from: set<nat>, j: nat) {
    exists p :: Path(g, p) && p[0] in from && p[|p| - 1] == j
  }

  /** Everything reachable through dependents: what a release run should make. */
  ghost function Closure(g: Layout, from: set<nat>): set<nat> {
    set j | 0 <= j < |g| && Reaches(g, from, j)
  }

  /** The single forward pass that the release run makes, from position i on. */
  ghost function Pass(g: Layout, marked: set<nat>, i: nat): set<nat>
    decreases |g| - i
  {
    if i >= |g| then marked
    else Pass(g, if i in marked then marked + Dependents(g, i) else marked, i + 1)
  }

  /** The marks when the pass arrives at position i. */
  ghost function Arriving(g: Layout, marked: set<nat>, i: nat): set<nat>
    requires i <= |g|
  {
    if i == 0 then marked
    else
      var before := Arriving(g, marked, i - 1);
      if i - 1 in before then before + Dependents(g, i - 1) else before
  }

  lemma {:induction false} PassFrom(g: Layout, marked: set<nat>, i: nat)
    requires i <= |g|
    ensures Pass(g, marked, 0) == Pass(g, Arriving(g, marked, i), i)
  {
    if i > 0 { PassFrom(g, marked, i - 1); }
  }

  lemma {:induction false} PassMonotone(g: Layout, a: set<nat>, b: set<nat>, i: nat)
    requires a <= b
    ensures a <= Pass(g, a, i) <= Pass(g, b, i)
    decreases |g| - i
  {
    if i < |g| {
      var a' := if i in a then a + Dependents(g, i) else a;
      var b' := if i in b then b + Dependents(g, i) else b;
      PassMonotone(g, a', b', i + 1);
    }
  }

  /** Nothing happens before the pass meets its first mark. */
  lemma {:induction false} PassSkips(g: Layout, k: nat, i: nat)
    requires i <= k < |g|
    ensures Pass(g, {k}, i) == Pass(g, {k}, k)
    decreases k - i
  {
    if i < k { PassSkips(g, k, i + 1); }
  }

  /** A member of the result was marked at the start of the pass or by a marked release it uses. */
  lemma {:induction false} PassMember(g: Layout, marked: set<nat>, x: nat) returns (k: nat)
    requires x in Pass(g, marked, 0) && x !in marked && x < |g|
    ensures k < |g| && k in Arriving(g, marked, k) && Edge(g, k, x)
  {
    assert Arriving(g, marked, |g|) == Pass(g, marked, 0) by { PassFrom(g, marked, |g|); }
    k := |g| - 1;
    while x in Arriving(g, marked, k)
      invariant k < |g| && x in Arriving(g, marked, k + 1)
      decreases k
    {
      k := k - 1;
    }
  }

  /** Whoever is marked when the pass arrives there has its dependents in the result. */
  lemma PassProcesses(g: Layout, marked: set<nat>, x: nat)
    requires x < |g| && x in Arriving(g, marked, x)
    ensures Dependents(g, x) <= Pass(g, marked, 0)
  {
    PassFrom(g, marked, x + 1);
    PassMonotone(g, Arriving(g, marked, x + 1), Arriving(g, marked, x + 1), x + 1);
  }

  lemma {:induction false} ArrivingReachable(g: Layout, marked: set<nat>, i: nat)
    requires i <= |g| && forall x :: x in marked ==> x < |g|
    ensures Arriving(g, marked, i) <= Closure(g, marked)
  {
    if i == 0 {
      forall x | x in marked ensures Reaches(g, marked, x) {
        assert Path(g, [x]) && [x][0] in marked && [x][|[x]| - 1] == x;
      }
    } else {
      ArrivingReachable(g, marked, i - 1);
      if i - 1 in Arriving(g, marked, i - 1) {
        forall j | j in Dependents(g, i - 1) ensures j in Closure(g, marked) {
          ReachesNext(g, marked, i - 1, j);
        }
      }
    }
  }

  lemma ReachesNext(g: Layout, from: set<nat>, i: nat, j: nat)
    requires Reaches(g, from, i) && Edge(g, i, j)
    ensures Reaches(g, from, j)
  {
    var p :| Path(g, p) && p[0] in from && p[|p| - 1] == i;
    var q := p + [j];
    assert forall k :: 0 <= k < |p| ==> q[k] == p[k];
    assert Path(g, q) && q[0] in from && q[|q| - 1] == j;
  }

  /** Whatever uses a crate of a release in the set is in the set. */
  ghost predicate ClosedUnderUse(g: Layout, s: set<nat>) {
    forall i: nat, j: nat, a: nat, b: nat ::
      i < |g| && j < |g| && a < |g[i]| && b < |g[j]| && i in s && g[i][a].name in g[j][b].workspaceDependencies ==> j in s
  }

  /** The closure is the least set that holds the given releases and whatever uses a crate of a release in it. */
  lemma ClosureIsLeast(g: Layout, from: set<nat>, s: set<nat>)
    requires forall x :: x in from ==> x < |g|
    ensures from <= Closure(g, from) && ClosedUnderUse(g, Closure(g, from))
    ensures from <= s && ClosedUnderUse(g, s) ==> Closure(g, from) <= s
  {
    ArrivingReachable(g, from, 0);
    ClosureIsClosed(g, from);
    if from <= s && ClosedUnderUse(g, s) {
      ClosureWithin(g, from, s);
    }
  }

  lemma ClosureIsClosed(g: Layout, from: set<nat>)
    ensures ClosedUnderUse(g, Closure(g, from))
  {
    forall i: nat, j: nat, a: nat, b: nat
      | i < |g| && j < |g| && a < |g[i]| && b < |g[j]| && i in Closure(g, from) && g[i][a].name in g[j][b].workspaceDependencies
      ensures j in Closure(g, from)
    {
      assert Uses(g[j][b], g[i][a]) && Edge(g, i, j);
      ReachesNext(g, from, i, j);
    }
  }

  lemma ClosureWithin(g: Layout, from: set<nat>, s: set<nat>)
    requires from <= s && ClosedUnderUse(g, s)
    ensures Closure(g, from) <= s
  {
    forall x: nat, y: nat | x in s && Edge(g, x, y) ensures y in s {
      var a, b :| 0 <= a < |g[x]| && 0 <= b < |g[y]| && Uses(g[y][b], g[x][a]);
    }
    hide ClosedUnderUse, Edge, Uses;
    forall j | j in Closure(g, from) ensures j in s {
      var p :| Path(g, p) && p[0] in from && p[|p| - 1] == j;
      ClosedContainsReachable(g, from, s, p);
    }
  }

  lemma {:induction false} ClosedContainsReachable(g: Layout, from: set<nat>, closed: set<nat>, p: seq<nat>)
    requires from <= closed && Path(g, p) && p[0] in from
    requires forall i, j :: i in closed && Edge(g, i, j) ==> j in closed
    ensures p[|p| - 1] in closed
  {
    if |p| > 1 {
      var q := p[..|p| - 1];
      assert Path(g, q);
      ClosedContainsReachable(g, from, closed, q);
      assert Edge(g, p[|p| - 2], p[|p| - 1]);
    }
  }

  /** The pass computes the closure from every initial marking. */
  ghost predicate PassComplete(g: Layout) {
    forall marked: set<nat> :: (forall x :: x in marked ==> x < |g|) ==> Pass(g, marked, 0) == Closure(g, marked)
  }

  /** A path along which the positions rise, so that one forward pass can follow it. */
  ghost predicate Ascends(g: Layout, p: seq<nat>) {
    Path(g, p) && forall k :: 0 < k < |p| ==> p[k - 1] < p[k]
  }

  ghost predicate AscendsTo(g: Layout, a: nat, k: nat) {
    exists p :: Ascends(g, p) && p[0] == a && p[|p| - 1] == k
  }

  /** c is one edge away from the end of a rising path from a marked release. */
  ghost predicate RisenTo(g: Layout, marked: set<nat>, c: nat) {
    exists a, k :: a in marked && AscendsTo(g, a, k) && Edge(g, k, c)
  }

  ghost predicate Found(g: Layout, marked: set<nat>, c: nat) {
    c in marked || RisenTo(g, marked, c)
  }

  lemma AscendsHere(g: Layout, a: nat)
    requires a < |g|
    ensures AscendsTo(g, a, a)
  {
    assert Ascends(g, [a]) && [a][0] == a && [a][|[a]| - 1] == a;
  }

  lemma AscendsOn(g: Layout, a: nat, k: nat, j: nat)
    requires AscendsTo(g, a, k) && Edge(g, k, j) && k < j
    ensures AscendsTo(g, a, j)
  {
    var p :| Ascends(g, p) && p[0] == a && p[|p| - 1] == k;
    var q := p + [j];
    assert forall i :: 0 <= i < |p| ==> q[i] == p[i];
    assert Ascends(g, q) && q[0] == a && q[|q| - 1] == j;
  }

  /** What the pass has marked when it arrives at i was found over a rising path that ends before i. */
  lemma {:induction false} ArrivingFound(g: Layout, marked: set<nat>, i: nat, c: nat) returns (a: nat, k: nat)
    requires i <= |g| && c in Arriving(g, marked, i)
    ensures c !in marked ==> a in marked && k < i && AscendsTo(g, a, k) && Edge(g, k, c)
  {
    a, k := 0, 0;
    if c !in marked {
      if c in Arriving(g, marked, i - 1) {
        a, k := ArrivingFound(g, marked, i - 1, c);
      } else {
        k := i - 1;
        if k in marked {
          a := k;
          AscendsHere(g, k);
        } else {
          var j;
          a, j := ArrivingFound(g, marked, k, k);
          AscendsOn(g, a, j, k);
        }
      }
    }
  }

  /** The pass marks every release on a rising path before it arrives there. */
  lemma {:induction false} AscendingArrives(g: Layout, marked: set<nat>, p: seq<nat>)
    requires Ascends(g, p) && p[0] in marked
    ensures p[|p| - 1] in Arriving(g, marked, p[|p| - 1])
  {
    var k := p[|p| - 1];
    if |p| == 1 {
      ArrivingGrows(g, marked, k);
    } else {
      var q := p[..|p| - 1];
      assert Ascends(g, q);
      AscendingArrives(g, marked, q);
      ArrivingAfter(g, marked, q[|q| - 1], k);
      assert Edge(g, p[|p| - 2], p[|p| - 1]);
    }
  }

  /** What the pass finds, told from the graph and the order alone. */
  lemma PassFindsIff(g: Layout, marked: set<nat>, c: nat)
    ensures c in Pass(g, marked, 0) <==> Found(g, marked, c)
  {
    PassFrom(g, marked, |g|);
    PassMonotone(g, marked, marked, 0);
    if c in Pass(g, marked, 0) {
      var a, k := ArrivingFound(g, marked, |g|, c);
    }
    if c !in marked && Found(g, marked, c) {
      var a, k :| a in marked && AscendsTo(g, a, k) && Edge(g, k, c);
      var p :| Ascends(g, p) && p[0] == a && p[|p| - 1] == k;
      AscendingArrives(g, marked, p);
      PassProcesses(g, marked, k);
    }
  }

  /** Whatever lies beyond an edge that points backwards can also be reached from its source by rising. */
  ghost predicate Bridged(g: Layout) {
    forall a: nat, b: nat, c: nat :: Edge(g, a, b) && b < a && Edge(g, b, c) ==> Found(g, {a}, c)
  }

  lemma BridgedClosed(g: Layout, marked: set<nat>, x: nat, y: nat)
    requires Bridged(g) && x in Pass(g, marked, 0) && Edge(g, x, y)
    ensures y in Pass(g, marked, 0)
  {
    if x in Arriving(g, marked, x) {
      PassProcesses(g, marked, x);
    } else {
      if x in marked { ArrivingGrows(g, marked, x); }
      var k := PassMember(g, marked, x);
      if k < x { ArrivingAfter(g, marked, k, x); }
      assert k > x;
      assert Found(g, {k}, y);
      PassFindsIff(g, {k}, y);
      PassSkips(g, k, 0);
      PassFrom(g, marked, k);
      PassMonotone(g, {k}, Arriving(g, marked, k), k);
    }
  }

  lemma {:induction false} ArrivingGrows(g: Layout, marked: set<nat>, i: nat)
    requires i <= |g|
    ensures marked <= Arriving(g, marked, i)
  {
    if i > 0 { ArrivingGrows(g, marked, i - 1); }
  }

  lemma {:induction false} ArrivingAfter(g: Layout, marked: set<nat>, k: nat, i: nat)
    requires k < i <= |g| && k in Arriving(g, marked, k)
    ensures Dependents(g, k) <= Arriving(g, marked, i)
  {
    if k < i - 1 { ArrivingAfter(g, marked, k, i - 1); }
  }

  /** One forward pass suffices for every initial marking exactly when the order is bridged. */
  lemma PassCompleteIff(g: Layout)
    ensures PassComplete(g) <==> Bridged(g)
  {
    if Bridged(g) {
      forall marked: set<nat> | forall x :: x in marked ==> x < |g|
        ensures Pass(g, marked, 0) == Closure(g, marked)
      {
        PassFrom(g, marked, |g|);
        ArrivingReachable(g, marked, |g|);
        PassMonotone(g, marked, marked, 0);
        forall j | j in Closure(g, marked) ensures j in Pass(g, marked, 0) {
          var p :| Path(g, p) && p[0] in marked && p[|p| - 1] == j;
          forall x, y | x in Pass(g, marked, 0) && Edge(g, x, y) ensures y in Pass(g, marked, 0) {
            BridgedClosed(g, marked, x, y);
          }
          ClosedContainsReachable(g, marked, Pass(g, marked, 0), p);
        }
      }
    }
    if PassComplete(g) {
      forall a: nat, b: nat, c: nat | Edge(g, a, b) && b < a && Edge(g, b, c) ensures Found(g, {a}, c) {
        assert Path(g, [a, b, c]) && [a, b, c][0] in {a} && [a, b, c][|[a, b, c]| - 1] == c;
        assert c in Closure(g, {a});
        PassFindsIff(g, {a}, c);
      }
    }
  }

  /** Edges point forwards, or to a release that nothing else uses. */
  ghost predicate ForwardOrSink(g: Layout) {
    forall i: nat, j: nat :: Edge(g, i, j) && i != j ==> i < j || forall k: nat :: Edge(g, j, k) ==> k == j
  }

  lemma ForwardOrSinkBridged(g: Layout)
    requires ForwardOrSink(g)
    ensures Bridged(g)
  {
    forall a: nat, b: nat, c: nat | Edge(g, a, b) && b < a && Edge(g, b, c) ensures Found(g, {a}, c) {
      assert c == b;
      AscendsHere(g, a);
    }
  }

  const A := CrateInfo("a", {})
  const B := CrateInfo("b", {"x"})
  const Y := CrateInfo("y", {"a"})
  const X := CrateInfo("x", {})

  /**
   * Without that restriction the pass can be wrong: a group of two crates comes first because of
   * its first crate, while its second one uses a release that comes later; the release that uses
   * the group is then missed.
   */
  lemma PassMissesDependent()
    ensures var g := [[A, B], [Y], [X]]; 1 in Closure(g, {2}) && 1 !in Pass(g, {2}, 0)
  {
    var g := [[A, B], [Y], [X]];
    assert Uses(g[0][1], g[2][0]) && Uses(g[1][0], g[0][0]);
    assert Edge(g, 2, 0) && Edge(g, 0, 1);
    assert Path(g, [2, 0, 1]) && [2, 0, 1][0] in {2} && [2, 0, 1][|[2, 0, 1]| - 1] == 1;
    assert !Edge(g, 2, 1) && !Edge(g, 2, 2);
    assert Dependents(g, 2) == {0};
    assert Pass(g, {2}, 3) == {2} && Pass(g, {2, 0}, 3) == {2, 0};
    assert Pass(g, {2}, 0) == Pass(g, {2}, 1) == Pass(g, {2}, 2) == Pass(g, {2} + Dependents(g, 2), 3);
  }

  /** The releases that the pass reaches through a marked one. */
  ghost function Touched(g: Layout, marked: set<nat>, i: nat): set<nat>
    requires i <= |g|
  {
    if i == 0 then {}
    else Touched(g, marked, i - 1) + (if i - 1 in Arriving(g, marked, i - 1) then Dependents(g, i - 1) else {})
  }

  lemma {:induction false} TouchedBefore(g: Layout, marked: set<nat>, k: nat, i: nat)
    requires k < i <= |g| && k in Arriving(g, marked, k)
    ensures Dependents(g, k) <= Touched(g, marked, i)
  {
    if k < i - 1 { TouchedBefore(g, marked, k, i - 1); }
  }

  /** What the pass reaches through a marked release, told from the graph and the order alone. */
  lemma TouchedIsRisenTo(g: Layout, marked: set<nat>, j: nat)
    requires forall x :: x in marked ==> x < |g|
    ensures j in Touched(g, marked, |g|) <==> RisenTo(g, marked, j)
  {
    if j in Touched(g, marked, |g|) {
      var k := TouchedFrom(g, marked, j, |g|);
      if k in marked {
        AscendsHere(g, k);
      } else {
        var a, i := ArrivingFound(g, marked, k, k);
        AscendsOn(g, a, i, k);
      }
    }
    if RisenTo(g, marked, j) {
      var a, k :| a in marked && AscendsTo(g, a, k) && Edge(g, k, j);
      var p :| Ascends(g, p) && p[0] == a && p[|p| - 1] == k;
      AscendingArrives(g, marked, p);
      TouchedBefore(g, marked, k, |g|);
    }
  }

  lemma {:induction false} TouchedFrom(g: Layout, marked: set<nat>, j: nat, i: nat) returns (k: nat)
    requires i <= |g| && j in Touched(g, marked, i)
    ensures k < i && k in Arriving(g, marked, k) && Edge(g, k, j)
  {
    if i - 1 in Arriving(g, marked, i - 1) && j in Dependents(g, i - 1) {
      k := i - 1;
    } else {
      k := TouchedFrom(g, marked, j, i - 1);
    }
  }

  /** On a forward order, exactly the releases that use a release of the closure are touched. */
  lemma TouchedIff(g: Layout, marked: set<nat>, j: nat)
    requires ForwardOrSink(g) && j < |g| && forall x :: x in marked ==> x < |g|
    ensures j in Touched(g, marked, |g|) <==> exists k: nat :: k in Closure(g, marked) && Edge(g, k, j)
  {
    ForwardOrSinkBridged(g);
    PassCompleteIff(g);
    PassFrom(g, marked, |g|);
    if j in Touched(g, marked, |g|) {
      var k := TouchedFrom(g, marked, j, |g|);
      ArrivingReachable(g, marked, k);
    }
    if exists k: nat :: k in Closure(g, marked) && Edge(g, k, j) {
      var k: nat :| k in Closure(g, marked) && Edge(g, k, j);
      if k in Arriving(g, marked, k) {
        TouchedBefore(g, marked, k, |g|);
      } else {
        if k in marked { ArrivingGrows(g, marked, k); }
        var a := PassMember(g, marked, k);
        if a < k { ArrivingAfter(g, marked, a, k); }
        assert j == k;
        TouchedBefore(g, marked, a, |g|);
      }
    }
  }

  // --------------------------------------------------------- release records

  /** One planned release; several crates are released together. Marks and version change in place. */
  class ReleaseInfo {
    const crates: seq<CrateInfo>
    const prevVersion: Version
    var currVersion: Version
    var shouldRelease: bool

    constructor (crates: seq<CrateInfo>, prevVersion: Version, currVersion: Version, shouldRelease: bool)
      ensures this.crates == crates && this.prevVersion == prevVersion
      ensures this.currVersion == currVersion && this.shouldRelease == shouldRelease
    {
      this.crates, this.prevVersion := crates, prevVersion;
      this.currVersion, this.shouldRelease := currVersion, shouldRelease;
    }

    predicate Changed()
      reads this
    {
      prevVersion != currVersion
    }

    /** Marks a release that uses a released crate; an unchanged version moves to the next patch. */
    method Propagate()
      modifies this
      ensures shouldRelease && Changed()
      ensures currVersion == if old(Changed()) then old(currVersion) else NextPatch(old(currVersion))
      ensures !old(Changed()) ==> FirstReleaseAbove(prevVersion, currVersion)
    {
      shouldRelease := true;
      if !Changed() {
        currVersion := NextPatch(currVersion);
      }
    }
  }

  function LayoutOf(releases: seq<ReleaseInfo>): (g: Layout)
    ensures |g| == |releases| && forall i :: 0 <= i < |g| ==> g[i] == releases[i].crates
  {
    seq(|releases|, i requires 0 <= i < |releases| => releases[i].crates)
  }

  ghost function Marked(releases: seq<ReleaseInfo>): (m: set<nat>)
    reads releases
    ensures forall i :: i in m ==> i < |releases|
  {
    set i: nat | i < |releases| && releases[i].shouldRelease
  }

  ghost function VersionsOf(releases: seq<ReleaseInfo>): (r: seq<Version>)
    reads releases
    ensures |r| == |releases| && forall j :: 0 <= j < |r| ==> r[j] == releases[j].currVersion
  {
    if releases == [] then [] else VersionsOf(releases[..|releases| - 1]) + [releases[|releases| - 1].currVersion]
  }

  /** No two crates of the workspace share a name. */
  ghost predicate UniqueNames(g: Layout) {
    forall i, a, j, b :: 0 <= i < |g| && 0 <= a < |g[i]| && 0 <= j < |g| && 0 <= b < |g[j]| && g[i][a].name == g[j][b].name
                         ==> i == j && a == b
  }

  predicate HasCrate(crates: seq<CrateInfo>, name: string) {
    exists a :: 0 <= a < |crates| && crates[a].name == name
  }

  /** The release of every crate, by name. */
  ghost predicate Indexes(owner: map<string, nat>, g: Layout) {
    && (forall n :: n in owner ==> owner[n] < |g| && HasCrate(g[owner[n]], n))
    && forall i: nat, n :: i < |g| && HasCrate(g[i], n) ==> n in owner && owner[n] == i
  }

  method IndexByCrate(g: Layout) returns (owner: map<string, nat>)
    requires UniqueNames(g)
    ensures Indexes(owner, g)
  {
    owner := map[];
    for i := 0 to |g|
      invariant forall n :: n in owner ==> owner[n] < i && HasCrate(g[owner[n]], n)
      invariant forall j: nat, n :: j < i && HasCrate(g[j], n) ==> n in owner && owner[n] == j
    {
      ghost var before := owner;
      owner := IndexRelease(owner, g[i], i);
      forall j: nat, n | j < i && HasCrate(g[j], n) ensures n in owner && owner[n] == j {
        assert n in before;
        if HasCrate(g[i], n) { OneHome(g, i, j, n); }
      }
    }
  }

  lemma OneHome(g: Layout, i: nat, j: nat, n: string)
    requires UniqueNames(g) && i < |g| && j < |g| && HasCrate(g[i], n) && HasCrate(g[j], n)
    ensures i == j
  {
  }

  method IndexRelease(owner: map<string, nat>, crates: seq<CrateInfo>, i: nat) returns (r: map<string, nat>)
    ensures forall n :: n in r <==> n in owner || HasCrate(crates, n)
    ensures forall n :: n in r ==> r[n] == if HasCrate(crates, n) then i else owner[n]
  {
    r := owner;
    for a := 0 to |crates|
      invariant forall n :: n in r <==> n in owner || HasCrate(crates[..a], n)
      invariant forall n :: n in r ==> r[n] == if HasCrate(crates[..a], n) then i else owner[n]
    {
      forall n ensures HasCrate(crates[..a + 1], n) <==> HasCrate(crates[..a], n) || n == crates[a].name {
        CrateSnoc(crates, a, n);
      }
      r := r[crates[a].name := i];
    }
    assert crates[..|crates|] == crates;
  }

  lemma CrateSnoc(crates: seq<CrateInfo>, a: nat, n: string)
    requires a < |crates|
    ensures HasCrate(crates[..a + 1], n) <==> HasCrate(crates[..a], n) || n == crates[a].name
  {
  }

  /** The crates that use a crate, by its name. */
  ghost predicate UsersOf(users: map<string, set<CrateInfo>>, g: Layout) {
    forall n, c :: c in UsersFor(users, n) <==> InLayout(g, c) && n in c.workspaceDependencies
  }

  /** A name without users is simply absent. */
  function UsersFor(users: map<string, set<CrateInfo>>, n: string): set<CrateInfo> {
    if n in users then users[n] else {}
  }

  ghost predicate InLayout(g: Layout, c: CrateInfo) {
    exists j, b :: 0 <= j < |g| && 0 <= b < |g[j]| && g[j][b] == c
  }

  method IndexUsers(g: Layout) returns (users: map<string, set<CrateInfo>>)
    ensures UsersOf(users, g)
  {
    users := map[];
    ghost var seen: set<CrateInfo> := {};
    for j := 0 to |g|
      invariant forall n, c :: c in UsersFor(users, n) <==> c in seen && n in c.workspaceDependencies
      invariant forall c :: c in seen <==> InLayout(g[..j], c)
    {
      for b := 0 to |g[j]|
        invariant forall n, c :: c in UsersFor(users, n) <==> c in seen && n in c.workspaceDependencies
        invariant forall c :: c in seen <==> InLayout(g[..j], c) || c in g[j][..b]
      {
        users := AddUser(users, g[j][b]);
        assert g[j][..b + 1] == g[j][..b] + [g[j][b]];
        seen := seen + {g[j][b]};
      }
      forall c ensures InLayout(g[..j + 1], c) <==> InLayout(g[..j], c) || c in g[j] { LayoutSnoc(g, j, c); }
      assert g[j][..|g[j]|] == g[j];
    }
    assert g[..|g|] == g;
  }

  lemma LayoutSnoc(g: Layout, j: nat, c: CrateInfo)
    requires j < |g|
    ensures InLayout(g[..j + 1], c) <==> InLayout(g[..j], c) || c in g[j]
  {
  }

  method AddUser(users: map<string, set<CrateInfo>>, user: CrateInfo) returns (r: map<string, set<CrateInfo>>)
    ensures forall n, c :: c in UsersFor(r, n) <==> c in UsersFor(users, n) || (c == user && n in user.workspaceDependencies)
  {
    r := users;
    var rest := user.workspaceDependencies;
    while rest != {}
      invariant rest <= user.workspaceDependencies
      invariant forall n, c :: c in UsersFor(r, n) <==>
                  c in UsersFor(users, n) || (c == user && n in user.workspaceDependencies - rest)
      decreases rest
    {
      var n :| n in rest;
      ghost var before := r;
      r := r[n := UsersFor(r, n) + {user}];
      rest := rest - {n};
      assert forall m :: UsersFor(r, m) == if m == n then UsersFor(before, m) + {user} else UsersFor(before, m);
    }
  }

  /** The version of a copy: as it was, unless the release was reached unchanged. */
  function ExpectedVersion(prev: Version, was: Version, touched: bool): Version {
    if touched && was == prev then NextPatch(was) else was
  }

  ghost predicate AllDifferent(copies: seq<ReleaseInfo>) {
    forall i, j :: 0 <= i < j < |copies| ==> copies[i] != copies[j]
  }

  /** The copies carry these marks, and these of them have been reached. */
  ghost predicate Reflects(copies: seq<ReleaseInfo>, was: seq<Version>, marks: set<nat>, touched: set<nat>)
    reads copies
  {
    && |copies| == |was| && AllDifferent(copies)
    && forall j: nat :: j < |copies| ==>
         && (copies[j].shouldRelease <==> j in marks)
         && copies[j].currVersion == ExpectedVersion(copies[j].prevVersion, was[j], j in touched)
  }

  ghost function OwnersOf(cs: set<CrateInfo>, owner: map<string, nat>): set<nat> {
    set c | c in cs && c.name in owner :: owner[c.name]
  }

  lemma OwnersOfNone(users: set<CrateInfo>, owner: map<string, nat>)
    ensures OwnersOf(users - users, owner) == {}
  {
  }

  lemma OwnersTake(users: set<CrateInfo>, rest: set<CrateInfo>, c: CrateInfo, owner: map<string, nat>)
    requires rest <= users && c in rest && c.name in owner
    ensures OwnersOf(users - (rest - {c}), owner) == OwnersOf(users - rest, owner) + {owner[c.name]}
  {
  }

  /** Propagates to one release. */
  method PropagateTo(copies: seq<ReleaseInfo>, i: nat, ghost was: seq<Version>, ghost marks: set<nat>, ghost touched: set<nat>)
    requires Reflects(copies, was, marks, touched) && i < |copies|
    modifies copies
    ensures Reflects(copies, was, marks + {i}, touched + {i})
  {
    copies[i].Propagate();
  }

  /** Propagates to the releases of the given crates, in whatever order the set yields them. */
  method MarkOwners(copies: seq<ReleaseInfo>, users: set<CrateInfo>, owner: map<string, nat>,
                    ghost was: seq<Version>, ghost marks: set<nat>, ghost touched: set<nat>)
    requires Reflects(copies, was, marks, touched)
    requires forall c :: c in users ==> c.name in owner && owner[c.name] < |copies|
    modifies copies
    ensures Reflects(copies, was, marks + OwnersOf(users, owner), touched + OwnersOf(users, owner))
  {
    hide Reflects, OwnersOf;
    var rest := users;
    OwnersOfNone(users, owner);
    assert marks + {} == marks && touched + {} == touched;
    while rest != {}
      invariant rest <= users
      invariant Reflects(copies, was, marks + OwnersOf(users - rest, owner), touched + OwnersOf(users - rest, owner))
      decreases rest
    {
      var c :| c in rest;
      ghost var before := OwnersOf(users - rest, owner);
      OwnersTake(users, rest, c, owner);
      PropagateTo(copies, owner[c.name], was, marks + before, touched + before);
      assert marks + before + {owner[c.name]} == marks + (before + {owner[c.name]});
      assert touched + before + {owner[c.name]} == touched + (before + {owner[c.name]});
      rest := rest - {c};
    }
    assert users - {} == users;
  }

  /** The dependents of release i through its first n crates. */
  ghost function DependentsThrough(g: Layout, i: nat, n: nat): set<nat>
    requires i < |g| && n <= |g[i]|
  {
    set j | 0 <= j < |g| && exists a, b :: 0 <= a < n && 0 <= b < |g[j]| && Uses(g[j][b], g[i][a])
  }

  lemma OwnersAreDependents(g: Layout, i: nat, a: nat, owner: map<string, nat>, users: set<CrateInfo>)
    requires i < |g| && a < |g[i]| && Indexes(owner, g)
    requires forall c :: c in users <==> InLayout(g, c) && Uses(c, g[i][a])
    ensures DependentsThrough(g, i, a + 1) == DependentsThrough(g, i, a) + OwnersOf(users, owner)
  {
  }

  /** What MarkOwners needs to know about the users of one crate. */
  lemma UsersOwned(users: map<string, set<CrateInfo>>, g: Layout, i: nat, a: nat, owner: map<string, nat>)
    requires i < |g| && a < |g[i]| && Indexes(owner, g) && UsersOf(users, g)
    ensures forall c :: c in UsersFor(users, g[i][a].name) ==> c.name in owner && owner[c.name] < |g|
    ensures DependentsThrough(g, i, a + 1) == DependentsThrough(g, i, a) + OwnersOf(UsersFor(users, g[i][a].name), owner)
  {
    var using := UsersFor(users, g[i][a].name);
    forall c | c in using ensures c.name in owner && owner[c.name] < |g| {
      assert InLayout(g, c);
      var j, b :| 0 <= j < |g| && 0 <= b < |g[j]| && g[j][b] == c;
      assert HasCrate(g[j], c.name);
    }
    OwnersAreDependents(g, i, a, owner, using);
  }

  lemma DependentsInAll(g: Layout, i: nat)
    requires i < |g|
    ensures DependentsThrough(g, i, 0) == {} && DependentsThrough(g, i, |g[i]|) == Dependents(g, i)
  {
  }

  method MarkDependents(copies: seq<ReleaseInfo>, ghost g: Layout, i: nat, users: map<string, set<CrateInfo>>, owner: map<string, nat>,
                        ghost was: seq<Version>, ghost marks: set<nat>, ghost touched: set<nat>)
    requires g == LayoutOf(copies) && i < |g| && Indexes(owner, g) && UsersOf(users, g)
    requires Reflects(copies, was, marks, touched)
    modifies copies
    ensures Reflects(copies, was, marks + Dependents(g, i), touched + Dependents(g, i))
  {
    hide Reflects, Indexes, UsersOf, DependentsThrough, Dependents, OwnersOf, UsersFor;
    DependentsInAll(g, i);
    assert marks + {} == marks && touched + {} == touched;
    for a := 0 to |copies[i].crates|
      invariant Reflects(copies, was, marks + DependentsThrough(g, i, a), touched + DependentsThrough(g, i, a))
    {
      var using := UsersFor(users, copies[i].crates[a].name);
      ghost var sofar := DependentsThrough(g, i, a);
      UsersOwned(users, g, i, a, owner);
      MarkOwners(copies, using, owner, was, marks + sofar, touched + sofar);
      assert marks + sofar + OwnersOf(using, owner) == marks + (sofar + OwnersOf(using, owner));
      assert touched + sofar + OwnersOf(using, owner) == touched + (sofar + OwnersOf(using, owner));
    }
  }

  /** Copies of the records, so that the caller's ones stay as they are. */
  method CopyReleases(releases: seq<ReleaseInfo>) returns (copies: seq<ReleaseInfo>)
    ensures LayoutOf(copies) == LayoutOf(releases)
    ensures forall j :: 0 <= j < |copies| ==> fresh(copies[j]) && copies[j].prevVersion == releases[j].prevVersion
    ensures Reflects(copies, VersionsOf(releases), Marked(releases), {})
  {
    copies := [];
    for j := 0 to |releases|
      invariant |copies| == j && AllDifferent(copies)
      invariant forall k :: 0 <= k < j ==>
                  && fresh(copies[k]) && copies[k].crates == releases[k].crates && copies[k].prevVersion == releases[k].prevVersion
                  && copies[k].currVersion == releases[k].currVersion && copies[k].shouldRelease == releases[k].shouldRelease
    {
      var r := releases[j];
      var copy := new ReleaseInfo(r.crates, r.prevVersion, r.currVersion, r.shouldRelease);
      copies := copies + [copy];
    }
  }

  /** The single pass over the copies. */
  method RunPass(copies: seq<ReleaseInfo>, ghost was: seq<Version>, ghost marked: set<nat>)
    requires UniqueNames(LayoutOf(copies)) && Reflects(copies, was, marked, {})
    modifies copies
    ensures var g := LayoutOf(copies);
            Reflects(copies, was, Arriving(g, marked, |g|), Touched(g, marked, |g|))
  {
    hide Reflects, UniqueNames, UsersOf;
    ghost var g := LayoutOf(copies);
    var owner := IndexByCrate(LayoutOf(copies));
    var users := IndexUsers(LayoutOf(copies));
    for i := 0 to |copies|
      invariant Reflects(copies, was, Arriving(g, marked, i), Touched(g, marked, i))
    {
      ReflectsMark(copies, was, Arriving(g, marked, i), Touched(g, marked, i), i);
      if copies[i].shouldRelease {
        MarkDependents(copies, g, i, users, owner, was, Arriving(g, marked, i), Touched(g, marked, i));
      } else {
        assert Touched(g, marked, i) + {} == Touched(g, marked, i);
      }
    }
  }

  lemma ReflectsMark(copies: seq<ReleaseInfo>, was: seq<Version>, marks: set<nat>, touched: set<nat>, i: nat)
    requires Reflects(copies, was, marks, touched) && i < |copies|
    ensures copies[i].shouldRelease <==> i in marks
  {
  }

  /** The marked copies, in order. */
  method CollectMarked(copies: seq<ReleaseInfo>) returns (result: seq<ReleaseInfo>, ghost picked: seq<nat>)
    ensures |picked| == |result|
    ensures forall k :: 0 <= k < |picked| ==> picked[k] < |copies| && result[k] == copies[picked[k]]
    ensures forall k, l :: 0 <= k < l < |picked| ==> picked[k] < picked[l]
    ensures Elements(picked) == Marked(copies)
  {
    result, picked := [], [];
    for j := 0 to |copies|
      invariant |picked| == |result|
      invariant forall k :: 0 <= k < |picked| ==> picked[k] < j && copies[picked[k]].shouldRelease && result[k] == copies[picked[k]]
      invariant forall k, l :: 0 <= k < l < |picked| ==> picked[k] < picked[l]
      invariant forall k: nat :: k < j && copies[k].shouldRelease ==> k in picked
    {
      if copies[j].shouldRelease {
        result, picked := result + [copies[j]], picked + [j];
      }
    }
  }

  /**
   * The pass over the releases in dependency order. The result lists, in that order, new records of
   * exactly the releases the pass marks; a version changes exactly for a release that was reached
   * from another one and had no change of its own. The given records are not modified.
   */
  method ProcessDependencies(releases: seq<ReleaseInfo>) returns (result: seq<ReleaseInfo>, ghost picked: seq<nat>)
    requires UniqueNames(LayoutOf(releases))
    ensures |picked| == |result| && (forall k :: 0 <= k < |picked| ==> picked[k] < |releases|)
    ensures forall k, l :: 0 <= k < l < |picked| ==> picked[k] < picked[l]
    ensures Elements(picked) == Pass(LayoutOf(releases), Marked(releases), 0)
    ensures forall k :: 0 <= k < |result| ==>
              var r, g := releases[picked[k]], LayoutOf(releases);
              && fresh(result[k]) && result[k].shouldRelease
              && result[k].crates == r.crates && result[k].prevVersion == r.prevVersion
              && result[k].currVersion == ExpectedVersion(r.prevVersion, r.currVersion, picked[k] in Touched(g, Marked(releases), |g|))
  {
    hide Arriving, Touched, Pass, UniqueNames;
    ghost var g, marked, was := LayoutOf(releases), Marked(releases), VersionsOf(releases);
    var copies := CopyReleases(releases);
    RunPass(copies, was, marked);
    PassFrom(g, marked, |g|);
    PassAtEnd(g, Arriving(g, marked, |g|));
    PassInRange(g, marked);
    result, picked := CollectMarked(copies);
    assert Marked(copies) == Arriving(g, marked, |g|);
    forall k | 0 <= k < |result| ensures copies[picked[k]].shouldRelease {
      assert picked[k] in Elements(picked);
    }
  }

  lemma PassAtEnd(g: Layout, marks: set<nat>)
    ensures Pass(g, marks, |g|) == marks
  {
  }

  lemma PassInRange(g: Layout, marked: set<nat>)
    requires forall x :: x in marked ==> x < |g|
    ensures forall x :: x in Pass(g, marked, 0) ==> x < |g|
  {
    PassFrom(g, marked, |g|);
    ArrivingReachable(g, marked, |g|);
  }

  // ------------------------------------------------------------------ sorting

  /** A topological order of the crate names: every crate comes after the ones it uses. */
  ghost predicate LinearExtension(order: seq<string>, g: Layout) {
    && Distinct(order)
    && (forall i, a :: 0 <= i < |g| && 0 <= a < |g[i]| ==> g[i][a].name in order)
    && forall p, q, i, a ::
         (0 <= p < |order| && 0 <= q < |order| && 0 <= i < |g| && 0 <= a < |g[i]|
          && g[i][a].name == order[q] && order[p] in g[i][a].workspaceDependencies)
         ==> p < q
  }

  /**
   * The releases by the first of their crates in the order: result[k] is first met at position
   * met[k], and every earlier position belongs to an earlier release.
   */
  ghost predicate ByFirstCrate(result: seq<nat>, met: seq<nat>, order: seq<string>, owner: map<string, nat>, n: nat)
    requires n <= |order|
  {
    && |met| == |result|
    && (forall k :: 0 <= k < |met| ==> met[k] < n && order[met[k]] in owner && owner[order[met[k]]] == result[k])
    && (forall k, l :: 0 <= k < l < |met| ==> met[k] < met[l] && result[k] != result[l])
    && forall m :: 0 <= m < n ==> order[m] in owner && owner[order[m]] in result
  }

  ghost predicate IsCrateName(g: Layout, n: string) {
    exists i :: 0 <= i < |g| && HasCrate(g[i], n)
  }

  lemma MetBefore(result: seq<nat>, met: seq<nat>, order: seq<string>, owner: map<string, nat>, n: nat)
    requires n < |order| && ByFirstCrate(result, met, order, owner, n)
    requires order[n] in owner && owner[order[n]] in result
    ensures ByFirstCrate(result, met, order, owner, n + 1)
  {
  }

  lemma FirstMet(result: seq<nat>, met: seq<nat>, order: seq<string>, owner: map<string, nat>, n: nat)
    requires n < |order| && ByFirstCrate(result, met, order, owner, n)
    requires order[n] in owner && owner[order[n]] !in result
    ensures ByFirstCrate(result + [owner[order[n]]], met + [n], order, owner, n + 1)
  {
    var longer := result + [owner[order[n]]];
    forall m | 0 <= m < n + 1 ensures order[m] in owner && owner[order[m]] in longer {
      assert m == n ==> longer[|result|] == owner[order[m]];
    }
  }

  lemma AllMet(result: seq<nat>, met: seq<nat>, order: seq<string>, owner: map<string, nat>)
    requires ByFirstCrate(result, met, order, owner, |order|)
    ensures forall m :: 0 <= m < |order| ==> order[m] in owner
  {
  }

  /** None is the lookup error for a dependency that is no crate of any release. */
  method SortReleasesByDeps(g: Layout, order: seq<string>) returns (sorted: Option<seq<nat>>, ghost met: seq<nat>)
    requires UniqueNames(g)
    ensures sorted.None? <==> exists m :: 0 <= m < |order| && !IsCrateName(g, order[m])
    ensures sorted.Some? ==>
              exists owner :: Indexes(owner, g) && ByFirstCrate(sorted.value, met, order, owner, |order|)
  {
    var owner := IndexByCrate(g);
    assert forall n :: n in owner <==> IsCrateName(g, n);
    assert ByFirstCrate([], [], order, owner, 0);
    hide ByFirstCrate, Indexes, IsCrateName, UniqueNames;
    var result: seq<nat> := [];
    met := [];
    for n := 0 to |order|
      invariant ByFirstCrate(result, met, order, owner, n)
    {
      if order[n] !in owner {
        return None, met;
      }
      var release := owner[order[n]];
      if release !in result {
        FirstMet(result, met, order, owner, n);
        result, met := result + [release], met + [n];
      } else {
        MetBefore(result, met, order, owner, n);
      }
    }
    AllMet(result, met, order, owner);
    sorted := Some(result);
  }

  /** Only releases of a single crate are used by other releases: no such crate uses a group. */
  ghost predicate OnlySinglesAreUsed(g: Layout) {
    forall i: nat, j: nat :: Edge(g, i, j) && i != j ==> |g[i]| == 1
  }

  function Reorder(g: Layout, sorted: seq<nat>): (r: Layout)
    requires forall k :: 0 <= k < |sorted| ==> sorted[k] < |g|
    ensures |r| == |sorted| && forall k :: 0 <= k < |r| ==> r[k] == g[sorted[k]]
  {
    seq(|sorted|, k requires 0 <= k < |sorted| => g[sorted[k]])
  }

  /** Sorting by first crates puts the releases in an order on which a single forward pass is complete. */
  lemma SortedIsForwardOrSink(g: Layout, order: seq<string>, sorted: seq<nat>, met: seq<nat>, owner: map<string, nat>)
    requires UniqueNames(g) && LinearExtension(order, g) && OnlySinglesAreUsed(g) && Indexes(owner, g)
    requires ByFirstCrate(sorted, met, order, owner, |order|)
    requires forall k :: 0 <= k < |sorted| ==> sorted[k] < |g|
    ensures ForwardOrSink(Reorder(g, sorted))
  {
    hide UniqueNames, LinearExtension, Indexes, ByFirstCrate, Edge;
    var r := Reorder(g, sorted);
    forall i: nat, j: nat | Edge(r, i, j) && i != j
      ensures i < j || forall k: nat :: Edge(r, j, k) ==> k == j
    {
      ReorderedEdge(g, order, sorted, met, owner, i, j);
      if exists k: nat :: Edge(r, j, k) && k != j {
        var k: nat :| Edge(r, j, k) && k != j;
        ReorderedEdge(g, order, sorted, met, owner, j, k);
        SingleBeforeSingle(g, order, sorted, met, owner, i, j);
      }
    }
  }

  lemma ReorderedEdge(g: Layout, order: seq<string>, sorted: seq<nat>, met: seq<nat>, owner: map<string, nat>, i: nat, j: nat)
    requires forall k :: 0 <= k < |sorted| ==> sorted[k] < |g|
    requires ByFirstCrate(sorted, met, order, owner, |order|)
    requires Edge(Reorder(g, sorted), i, j) && i != j
    ensures i < |sorted| && j < |sorted| && Edge(g, sorted[i], sorted[j]) && sorted[i] != sorted[j]
  {
  }

  lemma SingleBeforeSingle(g: Layout, order: seq<string>, sorted: seq<nat>, met: seq<nat>, owner: map<string, nat>, i: nat, j: nat)
    requires UniqueNames(g) && LinearExtension(order, g) && Indexes(owner, g)
    requires ByFirstCrate(sorted, met, order, owner, |order|)
    requires i < |sorted| && j < |sorted| && sorted[i] < |g| && sorted[j] < |g|
    requires |g[sorted[i]]| == 1 && |g[sorted[j]]| == 1 && Edge(g, sorted[i], sorted[j]) && sorted[i] != sorted[j]
    ensures i < j
  {
    hide UniqueNames, Edge, Indexes, ByFirstCrate;
    SingleMet(g, order, sorted, met, owner, i);
    SingleMet(g, order, sorted, met, owner, j);
    assert Uses(g[sorted[j]][0], g[sorted[i]][0]) by { SingleEdge(g, sorted[i], sorted[j]); }
    MetInOrder(g, order, sorted, met, owner, i, j);
  }

  lemma SingleEdge(g: Layout, i: nat, j: nat)
    requires Edge(g, i, j) && |g[i]| == 1 && |g[j]| == 1
    ensures Uses(g[j][0], g[i][0])
  {
  }

  /** A single-crate release is met at the position of its crate. */
  lemma SingleMet(g: Layout, order: seq<string>, sorted: seq<nat>, met: seq<nat>, owner: map<string, nat>, k: nat)
    requires Indexes(owner, g) && ByFirstCrate(sorted, met, order, owner, |order|)
    requires k < |sorted| && sorted[k] < |g| && |g[sorted[k]]| == 1
    ensures |met| == |sorted| && met[k] < |order| && order[met[k]] == g[sorted[k]][0].name
  {
  }

  lemma MetInOrder(g: Layout, order: seq<string>, sorted: seq<nat>, met: seq<nat>, owner: map<string, nat>, i: nat, j: nat)
    requires ByFirstCrate(sorted, met, order, owner, |order|) && i < |sorted| && j < |sorted| && i != j
    ensures |met| == |sorted| && (met[i] < met[j] ==> i < j)
  {
  }

  /**
   * The run as a whole: if no release other than itself uses a group, then on the sorted order the
   * single pass computes exactly what is reachable through dependents, from every initial marking.
   */
  lemma SortedPassIsClosure(g: Layout, order: seq<string>, sorted: seq<nat>, met: seq<nat>, owner: map<string, nat>, marked: set<nat>)
    requires UniqueNames(g) && LinearExtension(order, g) && OnlySinglesAreUsed(g) && Indexes(owner, g)
    requires ByFirstCrate(sorted, met, order, owner, |order|)
    requires forall k :: 0 <= k < |sorted| ==> sorted[k] < |g|
    requires forall x :: x in marked ==> x < |sorted|
    ensures Pass(Reorder(g, sorted), marked, 0) == Closure(Reorder(g, sorted), marked)
  {
    SortedIsForwardOrSink(g, order, sorted, met, owner);
    ForwardOrSinkBridged(Reorder(g, sorted));
    PassCompleteIff(Reorder(g, sorted));
  }

  // ---------------------------------------------------- sorting and propagating

  const WORKSPACE: Layout := [[Y], [X], [A, B]]
  const BY_DEPENDENCIES: seq<string> := ["a", "y", "x", "b"]
  const OWNERS: map<string, nat> := map["y" := 0, "x" := 1, "a" := 2, "b" := 2]

  lemma WorkspaceIndexed()
    ensures Indexes(OWNERS, WORKSPACE)
  {
    var g: Layout := WORKSPACE;
    assert g[0][0].name == "y" && g[1][0].name == "x" && g[2][0].name == "a" && g[2][1].name == "b";
    forall i: nat, n | i < |g| && HasCrate(g[i], n) ensures n in OWNERS && OWNERS[n] == i {
      assert i == 0 || i == 1 || i == 2;
    }
  }

  lemma WorkspaceSorted()
    ensures ByFirstCrate([2, 0, 1], [0, 1, 2], BY_DEPENDENCIES, OWNERS, 4)
  {
    assert BY_DEPENDENCIES[0] == "a" && BY_DEPENDENCIES[1] == "y" && BY_DEPENDENCIES[2] == "x" && BY_DEPENDENCIES[3] == "b";
  }

  lemma WorkspaceOrdered()
    ensures UniqueNames(WORKSPACE) && LinearExtension(BY_DEPENDENCIES, WORKSPACE)
  {
    var g: Layout, order := WORKSPACE, BY_DEPENDENCIES;
    assert order[0] == "a" && order[1] == "y" && order[2] == "x" && order[3] == "b";
    assert g[0][0].name == order[1] && g[1][0].name == order[2] && g[2][0].name == order[0] && g[2][1].name == order[3];
  }

  lemma WorkspaceReordered()
    ensures Reorder(WORKSPACE, [2, 0, 1]) == [[A, B], [Y], [X]]
  {
  }

  /**
   * The sorter can produce such an order: it meets the group by its first crate, before the crate that the second one
   * uses.
   */
  lemma SorterCanMiss()
    ensures UniqueNames(WORKSPACE) && LinearExtension(BY_DEPENDENCIES, WORKSPACE) && Indexes(OWNERS, WORKSPACE)
    ensures ByFirstCrate([2, 0, 1], [0, 1, 2], BY_DEPENDENCIES, OWNERS, |BY_DEPENDENCIES|)
    ensures var g := Reorder(WORKSPACE, [2, 0, 1]); 1 in Closure(g, {2}) && 1 !in Pass(g, {2}, 0)
  {
    hide UniqueNames, LinearExtension, Indexes, ByFirstCrate, Closure, Pass, Reorder;
    WorkspaceIndexed();
    WorkspaceSorted();
    WorkspaceOrdered();
    WorkspaceReordered();
    PassMissesDependent();
  }

  /** Every release with a crate is sorted in, once. */
  ghost predicate SortsAll(g: Layout, sorted: seq<nat>) {
    && Distinct(sorted)
    && (forall k :: 0 <= k < |sorted| ==> sorted[k] < |g| && g[sorted[k]] != [])
    && (forall i: nat :: i < |g| && g[i] != [] ==> i in sorted)
  }

  lemma SortedAll(g: Layout, order: seq<string>, sorted: seq<nat>, met: seq<nat>, owner: map<string, nat>)
    requires LinearExtension(order, g) && Indexes(owner, g) && ByFirstCrate(sorted, met, order, owner, |order|)
    ensures SortsAll(g, sorted)
  {
    forall k | 0 <= k < |sorted| ensures sorted[k] < |g| && g[sorted[k]] != [] {
      assert HasCrate(g[owner[order[met[k]]]], order[met[k]]);
    }
    forall i: nat | i < |g| && g[i] != [] ensures i in sorted {
      assert HasCrate(g[i], g[i][0].name) && g[i][0].name in order;
    }
  }

  /** The positions of marked releases in the sorted order. */
  ghost function SortedMarks(sorted: seq<nat>, marks: set<nat>): set<nat> {
    set m: nat | m < |sorted| && sorted[m] in marks
  }

  lemma EdgeReordered(g: Layout, sorted: seq<nat>, i: nat, j: nat)
    requires SortsAll(g, sorted) && i < |sorted| && j < |sorted|
    ensures Edge(Reorder(g, sorted), i, j) <==> Edge(g, sorted[i], sorted[j])
  {
  }

  lemma {:induction false} ReachesInWorkspace(g: Layout, sorted: seq<nat>, marks: set<nat>, p: seq<nat>)
    requires SortsAll(g, sorted) && Path(Reorder(g, sorted), p) && p[0] in SortedMarks(sorted, marks)
    ensures Reaches(g, marks, sorted[p[|p| - 1]])
  {
    var k := sorted[p[|p| - 1]];
    if |p| == 1 {
      assert Path(g, [k]) && [k][0] in marks && [k][|[k]| - 1] == k;
    } else {
      var q := p[..|p| - 1];
      assert Path(Reorder(g, sorted), q);
      ReachesInWorkspace(g, sorted, marks, q);
      assert Edge(Reorder(g, sorted), p[|p| - 2], p[|p| - 1]);
      EdgeReordered(g, sorted, p[|p| - 2], p[|p| - 1]);
      ReachesNext(g, marks, sorted[p[|p| - 2]], k);
    }
  }

  lemma {:induction false} ReachesInOrder(g: Layout, sorted: seq<nat>, marks: set<nat>, p: seq<nat>) returns (k: nat)
    requires SortsAll(g, sorted) && Path(g, p) && p[0] in marks && g[p[|p| - 1]] != []
    ensures k < |sorted| && sorted[k] == p[|p| - 1] && Reaches(Reorder(g, sorted), SortedMarks(sorted, marks), k)
  {
    var last := p[|p| - 1];
    k :| 0 <= k < |sorted| && sorted[k] == last;
    if |p| == 1 {
      assert Path(Reorder(g, sorted), [k]) && [k][0] in SortedMarks(sorted, marks) && [k][|[k]| - 1] == k;
    } else {
      var q := p[..|p| - 1];
      assert Edge(g, p[|p| - 2], last) && Path(g, q);
      var before := ReachesInOrder(g, sorted, marks, q);
      EdgeReordered(g, sorted, before, k);
      ReachesNext(Reorder(g, sorted), SortedMarks(sorted, marks), before, k);
    }
  }

  /** The closure does not depend on the order. */
  lemma ClosureReordered(g: Layout, sorted: seq<nat>, marks: set<nat>, k: nat)
    requires SortsAll(g, sorted) && k < |sorted|
    ensures k in Closure(Reorder(g, sorted), SortedMarks(sorted, marks)) <==> sorted[k] in Closure(g, marks)
  {
    if k in Closure(Reorder(g, sorted), SortedMarks(sorted, marks)) {
      var p :| Path(Reorder(g, sorted), p) && p[0] in SortedMarks(sorted, marks) && p[|p| - 1] == k;
      ReachesInWorkspace(g, sorted, marks, p);
    }
    if sorted[k] in Closure(g, marks) {
      var p :| Path(g, p) && p[0] in marks && p[|p| - 1] == sorted[k];
      var j := ReachesInOrder(g, sorted, marks, p);
      assert j == k;
    }
  }

  /** The release uses a release that is to be made. */
  ghost predicate Reached(g: Layout, marks: set<nat>, j: nat) {
    exists x: nat :: x in Closure(g, marks) && Edge(g, x, j)
  }

  lemma ReachedReordered(g: Layout, sorted: seq<nat>, marks: set<nat>, k: nat)
    requires SortsAll(g, sorted) && k < |sorted|
    ensures Reached(Reorder(g, sorted), SortedMarks(sorted, marks), k) <==> Reached(g, marks, sorted[k])
  {
    var r, rm := Reorder(g, sorted), SortedMarks(sorted, marks);
    hide Closure, Edge;
    if Reached(r, rm, k) {
      var x: nat :| x in Closure(r, rm) && Edge(r, x, k);
      assert x < |sorted| by { EdgeInRange(r, x, k); }
      ClosureReordered(g, sorted, marks, x);
      EdgeReordered(g, sorted, x, k);
    }
    if Reached(g, marks, sorted[k]) {
      var x: nat :| x in Closure(g, marks) && Edge(g, x, sorted[k]);
      EdgeInRange(g, x, sorted[k]);
      var m :| 0 <= m < |sorted| && sorted[m] == x;
      ClosureReordered(g, sorted, marks, m);
      EdgeReordered(g, sorted, m, k);
    }
  }

  lemma EdgeInRange(g: Layout, i: nat, j: nat)
    requires Edge(g, i, j)
    ensures i < |g| && j < |g| && g[i] != [] && g[j] != []
  {
  }

  lemma UniqueReordered(g: Layout, sorted: seq<nat>)
    requires UniqueNames(g) && SortsAll(g, sorted)
    ensures UniqueNames(Reorder(g, sorted))
  {
  }

  /** A release of the plan: a new record, with the version moved if it was reached and had not changed. */
  ghost predicate Planned(r: ReleaseInfo, from: ReleaseInfo, reached: bool)
    reads r, from
  {
    && r.shouldRelease && r.crates == from.crates && r.prevVersion == from.prevVersion
    && (if reached && !from.Changed() then FirstReleaseAbove(from.currVersion, r.currVersion) else r.currVersion == from.currVersion)
    && (reached ==> r.Changed())
  }

  /** From all marks alike, the pass over the sorted order finds exactly what is reachable through dependents. */
  ghost predicate PlanComplete(g: Layout, sorted: seq<nat>)
    requires SortsAll(g, sorted)
  {
    forall marks: set<nat> :: (forall x :: x in marks ==> x < |g|) ==> FindsClosure(g, sorted, marks)
  }

  ghost predicate FindsClosure(g: Layout, sorted: seq<nat>, marks: set<nat>)
    requires SortsAll(g, sorted)
  {
    forall m: nat :: m < |sorted| ==>
      (Found(Reorder(g, sorted), SortedMarks(sorted, marks), m) <==> sorted[m] in Closure(g, marks))
  }

  lemma BridgedFinds(g: Layout, sorted: seq<nat>, marks: set<nat>)
    requires SortsAll(g, sorted) && Bridged(Reorder(g, sorted))
    ensures FindsClosure(g, sorted, marks)
  {
    var r, rm := Reorder(g, sorted), SortedMarks(sorted, marks);
    PassCompleteIff(r);
    assert Pass(r, rm, 0) == Closure(r, rm);
    hide SortsAll, Found, Closure, Pass, Bridged, PassComplete;
    forall m: nat | m < |sorted| ensures Found(r, rm, m) <==> sorted[m] in Closure(g, marks) {
      PassFindsIff(r, rm, m);
      ClosureReordered(g, sorted, marks, m);
    }
  }

  /** Any positions are those of some marks. */
  lemma MarksOfPositions(g: Layout, sorted: seq<nat>, positions: set<nat>) returns (marks: set<nat>)
    requires SortsAll(g, sorted) && forall m :: m in positions ==> m < |sorted|
    ensures SortedMarks(sorted, marks) == positions && forall x :: x in marks ==> x < |g|
  {
    marks := set m | m in positions :: sorted[m];
    forall m: nat | m < |sorted| && sorted[m] in marks ensures m in positions {
      var k :| k in positions && sorted[k] == sorted[m];
      assert k == m;
    }
    assert forall m :: m in positions ==> sorted[m] in marks;
  }

  /** On the order that sorting gives, the plan is right for all marks exactly if that order is bridged. */
  lemma PlanCompleteIff(g: Layout, sorted: seq<nat>)
    requires SortsAll(g, sorted)
    ensures PlanComplete(g, sorted) <==> Bridged(Reorder(g, sorted))
  {
    var r := Reorder(g, sorted);
    hide SortsAll, Found, Closure, Bridged, Pass, SortedMarks;
    if Bridged(r) {
      forall marks: set<nat> | forall x :: x in marks ==> x < |g| ensures FindsClosure(g, sorted, marks) {
        BridgedFinds(g, sorted, marks);
      }
    }
    if PlanComplete(g, sorted) {
      forall positions: set<nat> | forall x :: x in positions ==> x < |r| ensures Pass(r, positions, 0) == Closure(r, positions) {
        var marks := MarksOfPositions(g, sorted, positions);
        assert FindsClosure(g, sorted, marks);
        PassInRange(r, positions);
        ClosureInRange(r, positions);
        forall m: nat | m < |r| ensures m in Pass(r, positions, 0) <==> m in Closure(r, positions) {
          PassFindsIff(r, positions, m);
          ClosureReordered(g, sorted, marks, m);
        }
      }
      PassCompleteIff(r);
    }
  }

  lemma ClosureInRange(g: Layout, from: set<nat>)
    ensures forall x :: x in Closure(g, from) ==> x < |g|
  {
  }

  lemma TouchedReached(g: Layout, marks: set<nat>, sorted: seq<nat>, m: nat)
    requires SortsAll(g, sorted) && ForwardOrSink(Reorder(g, sorted)) && m < |sorted|
    ensures m in Touched(Reorder(g, sorted), SortedMarks(sorted, marks), |sorted|) <==> Reached(g, marks, sorted[m])
  {
    hide ForwardOrSink, Touched, Closure;
    TouchedIff(Reorder(g, sorted), SortedMarks(sorted, marks), m);
    ReachedReordered(g, sorted, marks, m);
  }

  /** The order is the one that sorting by first crates gives. */
  ghost predicate SortedBy(g: Layout, order: seq<string>, sorted: seq<nat>) {
    exists met, owner :: Indexes(owner, g) && ByFirstCrate(sorted, met, order, owner, |order|)
  }

  lemma SinglesSorted(g: Layout, order: seq<string>, sorted: seq<nat>)
    requires UniqueNames(g) && LinearExtension(order, g) && OnlySinglesAreUsed(g)
    requires SortedBy(g, order, sorted) && SortsAll(g, sorted)
    ensures ForwardOrSink(Reorder(g, sorted)) && Bridged(Reorder(g, sorted))
  {
    var met, owner :| Indexes(owner, g) && ByFirstCrate(sorted, met, order, owner, |order|);
    SortedIsForwardOrSink(g, order, sorted, met, owner);
    ForwardOrSinkBridged(Reorder(g, sorted));
  }

  /** The records in the order of their dependencies, or the lookup error. */
  method SortRecords(releases: seq<ReleaseInfo>, order: seq<string>) returns (byDeps: Option<seq<ReleaseInfo>>, ghost sorted: seq<nat>)
    requires UniqueNames(LayoutOf(releases)) && LinearExtension(order, LayoutOf(releases))
    ensures byDeps.None? <==> exists m :: 0 <= m < |order| && !IsCrateName(LayoutOf(releases), order[m])
    ensures byDeps.Some? ==>
              && SortsAll(LayoutOf(releases), sorted) && SortedBy(LayoutOf(releases), order, sorted)
              && |byDeps.value| == |sorted|
              && (forall k :: 0 <= k < |sorted| ==> byDeps.value[k] == releases[sorted[k]])
  {
    hide UniqueNames, LinearExtension, Indexes, ByFirstCrate, IsCrateName;
    ghost var g := LayoutOf(releases);
    var found, met := SortReleasesByDeps(LayoutOf(releases), order);
    sorted := [];
    byDeps := None;
    if found.Some? {
      sorted := found.value;
      ghost var owner :| Indexes(owner, g) && ByFirstCrate(sorted, met, order, owner, |order|);
      SortedAll(g, order, sorted, met, owner);
      var indices := found.value;
      byDeps := Some(seq(|indices|, k requires 0 <= k < |indices| => releases[indices[k]]));
    }
  }

  /** The positions are exactly those found from the marks, in rising order. */
  ghost predicate PicksFound(r: Layout, marks: set<nat>, positions: seq<nat>) {
    && (forall k, l :: 0 <= k < l < |positions| ==> positions[k] < positions[l])
    && forall m: nat :: m in positions <==> m < |r| && Found(r, marks, m)
  }

  lemma PassPicks(r: Layout, marks: set<nat>, positions: seq<nat>)
    requires forall x :: x in marks ==> x < |r|
    requires forall k, l :: 0 <= k < l < |positions| ==> positions[k] < positions[l]
    requires Elements(positions) == Pass(r, marks, 0)
    ensures PicksFound(r, marks, positions)
  {
    PassInRange(r, marks);
    hide Pass, Found;
    forall m: nat ensures m in positions <==> m < |r| && Found(r, marks, m) {
      assert m in positions <==> m in Elements(positions);
      PassFindsIff(r, marks, m);
    }
  }

  /**
   * The tool's plan, for any dependency order: sort, then propagate in one pass. The plan has, in sorted order, a new
   * record for exactly the releases that a rising path leads to, and moves the version of exactly those that one leads to
   * over an edge and that had not changed. If the sorted order is bridged, these are the releases that are reachable
   * through dependents from those marked; so it is if nothing else uses a group, and then every release that uses a
   * release of the plan has changed.
   */
  method PlanReleases(releases: seq<ReleaseInfo>, order: seq<string>)
    returns (plan: Option<seq<ReleaseInfo>>, ghost sorted: seq<nat>, ghost positions: seq<nat>)
    requires UniqueNames(LayoutOf(releases)) && LinearExtension(order, LayoutOf(releases))
    ensures plan.None? <==> exists m :: 0 <= m < |order| && !IsCrateName(LayoutOf(releases), order[m])
    ensures plan.Some? ==>
              && SortsAll(LayoutOf(releases), sorted) && SortedBy(LayoutOf(releases), order, sorted)
              && PicksFound(Reorder(LayoutOf(releases), sorted), SortedMarks(sorted, Marked(releases)), positions)
              && |plan.value| == |positions|
              && forall k :: 0 <= k < |positions| ==>
                   && positions[k] < |sorted| && fresh(plan.value[k])
                   && Planned(plan.value[k], releases[sorted[positions[k]]],
                              RisenTo(Reorder(LayoutOf(releases), sorted), SortedMarks(sorted, Marked(releases)), positions[k]))
    ensures plan.Some? && Bridged(Reorder(LayoutOf(releases), sorted)) ==>
              forall m: nat :: m < |sorted| ==> (m in positions <==> sorted[m] in Closure(LayoutOf(releases), Marked(releases)))
    ensures plan.Some? && OnlySinglesAreUsed(LayoutOf(releases)) ==>
              && Bridged(Reorder(LayoutOf(releases), sorted))
              && forall k :: 0 <= k < |positions| ==>
                   Planned(plan.value[k], releases[sorted[positions[k]]],
                           Reached(LayoutOf(releases), Marked(releases), sorted[positions[k]]))
  {
    hide UniqueNames, LinearExtension, OnlySinglesAreUsed, ForwardOrSink, Closure, Reached, RisenTo, Touched, Pass, Found,
         Bridged, IsCrateName, SortedBy;
    ghost var g, marks := LayoutOf(releases), Marked(releases);
    var byDeps;
    byDeps, sorted := SortRecords(releases, order);
    positions := [];
    plan := None;
    if byDeps.Some? {
      UniqueReordered(g, sorted);
      ghost var r, rm := Reorder(g, sorted), SortedMarks(sorted, marks);
      assert LayoutOf(byDeps.value) == r && Marked(byDeps.value) == rm;
      var result;
      result, positions := ProcessDependencies(byDeps.value);
      PassPicks(r, rm, positions);
      forall k | 0 <= k < |positions| ensures positions[k] in Touched(r, rm, |r|) <==> RisenTo(r, rm, positions[k]) {
        TouchedIsRisenTo(r, rm, positions[k]);
      }
      if Bridged(r) {
        BridgedFinds(g, sorted, marks);
      }
      if OnlySinglesAreUsed(g) {
        SinglesSorted(g, order, sorted);
        BridgedFinds(g, sorted, marks);
        forall k | 0 <= k < |positions| ensures positions[k] in Touched(r, rm, |r|) <==> Reached(g, marks, sorted[positions[k]]) {
          TouchedReached(g, marks, sorted, positions[k]);
        }
      }
      plan := Some(result);
    }
  }
}
