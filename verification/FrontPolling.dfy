/**
 * The front-update service: every tick it attempts the (at most) five stalest systems that are
 * tracked and have not been updated for a minute.
 */
module FrontPolling {
  import opened Base

  type System = nat

  /** Seconds. */
  type Time = int

  const BATCH: nat := 5
  const MINUTE: Time := 60

  /** `updated_at` of the stored fronters; a system without a row has never been attempted. */
  type Stamps = map<System, Time>

  predicate Due(st: Stamps, s: System, now: Time) {
    s !in st || st[s] <= now - MINUTE
  }

  /** Ascending by stamp, systems without a stamp first. */
  predicate AsStale(st: Stamps, a: System, b: System) {
    a !in st || (b in st && st[a] <= st[b])
  }

  predicate StrictlyStaler(st: Stamps, a: System, b: System) {
    AsStale(st, a, b) && !AsStale(st, b, a)
  }

  ghost function DueSystems(st: Stamps, tracked: set<System>, now: Time): set<System> {
    set s | s in tracked && Due(st, s, now)
  }

  /** Any answer the query may give: ties are in no particular order. */
  ghost predicate IsSelection(st: Stamps, tracked: set<System>, now: Time, sel: seq<System>) {
    var due := DueSystems(st, tracked, now);
    && Distinct(sel)
    && Elements(sel) <= due
    && |sel| == (if |due| < BATCH then |due| else BATCH)
    && (forall i, j :: 0 <= i < j < |sel| ==> AsStale(st, sel[i], sel[j]))
    && forall i, d :: 0 <= i < |sel| && d in due && d !in Elements(sel) ==> AsStale(st, sel[i], d)
  }

  /** `sel` are the stalest of the due systems, stalest first, and `rest` are the others. */
  ghost predicate StalestFirst(st: Stamps, due: set<System>, sel: seq<System>, rest: set<System>) {
    && Distinct(sel)
    && Elements(sel) !! rest && Elements(sel) + rest == due
    && |sel| + |rest| == |due|
    && (forall i, j :: 0 <= i < j < |sel| ==> AsStale(st, sel[i], sel[j]))
    && forall i, d :: 0 <= i < |sel| && d in rest ==> AsStale(st, sel[i], d)
  }

  lemma TakeInOrder(st: Stamps, sel: seq<System>, s: System)
    requires forall i, j :: 0 <= i < j < |sel| ==> AsStale(st, sel[i], sel[j])
    requires forall i :: 0 <= i < |sel| ==> AsStale(st, sel[i], s)
    ensures var sel' := sel + [s]; forall i, j :: 0 <= i < j < |sel'| ==> AsStale(st, sel'[i], sel'[j])
  {
    hide AsStale;
  }

  lemma TakeDistinct(sel: seq<System>, s: System)
    requires Distinct(sel) && s !in Elements(sel)
    ensures Distinct(sel + [s]) && Elements(sel + [s]) == Elements(sel) + {s}
  {
  }

  lemma TakeStalest(st: Stamps, due: set<System>, sel: seq<System>, rest: set<System>, s: System)
    requires StalestFirst(st, due, sel, rest)
    requires s in rest && forall c :: c in rest ==> AsStale(st, s, c)
    ensures StalestFirst(st, due, sel + [s], rest - {s})
  {
    TakeDistinct(sel, s);
    TakeInOrder(st, sel, s);
    hide AsStale, Distinct, Elements;
  }

  lemma FullOrExhausted(st: Stamps, tracked: set<System>, now: Time, sel: seq<System>, rest: set<System>)
    requires StalestFirst(st, DueSystems(st, tracked, now), sel, rest)
    requires |sel| <= BATCH && (rest == {} || |sel| == BATCH)
    ensures IsSelection(st, tracked, now, sel)
  {
  }

  type Member = nat

  /** A row of the stored fronters. */
  datatype Row = Row(fronters: seq<Member>, updatedAt: Time)

  function StampsOf(rows: map<System, Row>): Stamps {
    map s | s in rows :: rows[s].updatedAt
  }

  /** Never attempted, or not for sixty seconds. */
  predicate Stale(rows: map<System, Row>, s: System, now: Time) {
    s !in rows || rows[s].updatedAt <= now - 60
  }

  /** Systems that were never attempted come first, then those whose last attempt is longest ago. */
  predicate Earlier(rows: map<System, Row>, a: System, b: System) {
    a !in rows || (b in rows && rows[a].updatedAt <= rows[b].updatedAt)
  }

  /** At most five different stale systems in order; nobody stale is left out unless there are five that are no less stale. */
  ghost predicate StalestFive(rows: map<System, Row>, tracked: set<System>, now: Time, sel: seq<System>) {
    && |sel| <= 5
    && (forall i :: 0 <= i < |sel| ==> sel[i] in tracked && Stale(rows, sel[i], now))
    && (forall i, j :: 0 <= i < j < |sel| ==> sel[i] != sel[j] && Earlier(rows, sel[i], sel[j]))
    && forall s :: s in tracked && Stale(rows, s, now) && s !in sel ==>
         |sel| == 5 && forall i :: 0 <= i < 5 ==> Earlier(rows, sel[i], s)
  }

  lemma SelectionMeans(rows: map<System, Row>, tracked: set<System>, now: Time, sel: seq<System>)
    requires IsSelection(StampsOf(rows), tracked, now, sel)
    ensures StalestFive(rows, tracked, now, sel)
  {
    var st := StampsOf(rows);
    var due := DueSystems(st, tracked, now);
    StampsMean(rows, now);
    DistinctCardinality(sel);
    hide StampsOf, Due, AsStale, Stale, Earlier;
    forall i | 0 <= i < |sel| ensures sel[i] in due {
      assert sel[i] in Elements(sel);
    }
    forall s | s in due && s !in sel ensures |sel| == 5 {
      SubsetCardinality(Elements(sel), due - {s});
    }
  }

  lemma StampsMean(rows: map<System, Row>, now: Time)
    ensures forall s :: Due(StampsOf(rows), s, now) <==> Stale(rows, s, now)
    ensures forall a, b :: AsStale(StampsOf(rows), a, b) <==> Earlier(rows, a, b)
  {
  }

  /** What PluralKit, or the database, makes of one attempt at time `at`. */
  datatype Answer =
    | Fronters(current: Option<seq<Member>>, at: Time)
    | Private(at: Time)
    | NotFound(at: Time)
    | Other

  datatype Attempt = Changed(fronters: seq<Member>) | Unchanged | Failed

  /** The stored fronters, written in place. */
  class FrontTable {
    var rows: map<System, Row>

    constructor ()
      ensures rows == map[]
    {
      rows := map[];
    }

    method DidFrontersChange(s: System, fronters: seq<Member>) returns (changed: bool)
      ensures changed <==> s !in rows || rows[s].fronters != fronters
    {
      if s !in rows { return true; }
      changed := rows[s].fronters != fronters;
    }

    /** Inserts an empty row, or only moves the stamp of an existing one. */
    method UpdateFrontersTimestamp(s: System, at: Time)
      modifies this
      ensures rows == old(rows)[s := Row(if s in old(rows) then old(rows)[s].fronters else [], at)]
    {
      rows := if s in rows then rows[s := rows[s].(updatedAt := at)] else rows[s := Row([], at)];
    }

    /**
     * Attempts one system. A successful answer is stored whether or not it differs from the stored
     * one, so skipping the write of an unchanged list loses nothing, and it is reported as a change
     * exactly when it differs. A private or deleted system keeps its list and still moves its stamp.
     */
    method UpdateSystemFronters(s: System, answer: Answer) returns (r: Attempt)
      modifies this
      ensures answer.Fronters? ==>
                var current := if answer.current.Some? then answer.current.value else [];
                && rows == old(rows)[s := Row(current, answer.at)]
                && (r == Changed(current) || r == Unchanged)
                && (r.Unchanged? <==> s in old(rows) && old(rows)[s].fronters == current)
      ensures answer.Private? || answer.NotFound? ==>
                r == Failed && rows == old(rows)[s := Row(if s in old(rows) then old(rows)[s].fronters else [], answer.at)]
      ensures answer.Other? ==> r == Failed && rows == old(rows)
    {
      match answer
      case Other => r := Failed;
      case Private(at) =>
        UpdateFrontersTimestamp(s, at);
        r := Failed;
      case NotFound(at) =>
        UpdateFrontersTimestamp(s, at);
        r := Failed;
      case Fronters(current, at) =>
        var fronters := if current.Some? then current.value else [];
        var changed := DidFrontersChange(s, fronters);
        if changed {
          rows := rows[s := Row(fronters, at)];
          r := Changed(fronters);
        } else {
          UpdateFrontersTimestamp(s, at);
          r := Unchanged;
        }
    }

    /** The query: repeatedly takes a stalest remaining system until five are taken. */
    method GetSystemsToUpdate(tracked: set<System>, now: Time) returns (sel: seq<System>)
      ensures IsSelection(StampsOf(rows), tracked, now, sel)
      ensures StalestFive(rows, tracked, now, sel)
    {
      var stamps := StampsOf(rows);
      var due := set s | s in tracked && Due(stamps, s, now);
      var rest := due;
      sel := [];
      while rest != {} && |sel| < BATCH
        invariant |sel| <= BATCH && StalestFirst(stamps, due, sel, rest)
        decreases rest
      {
        var s := Stalest(stamps, rest);
        TakeStalest(stamps, due, sel, rest, s);
        sel := sel + [s];
        rest := rest - {s};
      }
      assert due == DueSystems(stamps, tracked, now);
      FullOrExhausted(stamps, tracked, now, sel, rest);
      SelectionMeans(rows, tracked, now, sel);
    }

    method Stalest(stamps: Stamps, candidates: set<System>) returns (s: System)
      requires candidates != {}
      ensures s in candidates && forall c :: c in candidates ==> AsStale(stamps, s, c)
    {
      s :| s in candidates;
      var rest := candidates - {s};
      while rest != {}
        invariant s in candidates && rest <= candidates
        invariant forall c :: c in candidates && c !in rest ==> AsStale(stamps, s, c)
        decreases rest
      {
        var c :| c in rest;
        if !AsStale(stamps, s, c) { s := c; }
        rest := rest - {c};
      }
    }

    /** One tick: select, then attempt the selected systems in order. */
    method DoTick(tracked: set<System>, now: Time, answer: System -> Answer) returns (ghost t: Tick)
      requires forall s :: !answer(s).Other? ==> answer(s).at > now - MINUTE
      modifies this
      ensures t.tracked == tracked && t.now == now && t.after == StampsOf(rows)
      ensures forall s :: s in t.sel ==> (s in t.failed <==> answer(s).Other?)
      ensures IsTick(StampsOf(old(rows)), t)
    {
      ghost var before := StampsOf(rows);
      var sel := GetSystemsToUpdate(tracked, now);
      for i := 0 to |sel|
        invariant Stamped(before, StampsOf(rows), now, sel[..i], answer)
      {
        assert sel[..i + 1] == sel[..i] + [sel[i]];
        var _ := UpdateSystemFronters(sel[i], answer(sel[i]));
      }
      assert sel[..|sel|] == sel;
      ghost var failed := set s | s in sel && answer(s).Other?;
      t := Tick(tracked, now, sel, failed, StampsOf(rows));
    }
  }

  /** Exactly the systems in `sel` whose attempt did not fail carry a new stamp. */
  ghost predicate Stamped(before: Stamps, after: Stamps, now: Time, sel: seq<System>, answer: System -> Answer) {
    forall s ::
      if s in sel && !answer(s).Other? then s in after && after[s] > now - MINUTE
      else (s in after <==> s in before) && (s in before ==> after[s] == before[s])
  }

  // ------------------------------------------------------------------- runs

  /** One tick as seen from outside: what was selected, which attempts failed, the stamps after. */
  datatype Tick = Tick(tracked: set<System>, now: Time, sel: seq<System>, failed: set<System>, after: Stamps)

  /** The clock of the stamps and that of the query may differ by less than a minute. */
  ghost predicate IsTick(before: Stamps, t: Tick) {
    && IsSelection(before, t.tracked, t.now, t.sel)
    && forall s ::
         if s in t.sel && s !in t.failed then s in t.after && t.after[s] > t.now - MINUTE
         else (s in t.after <==> s in before) && (s in before ==> t.after[s] == before[s])
  }

  ghost predicate IsRun(st: Stamps, ts: seq<Tick>)
    decreases |ts|
  {
    ts != [] ==>
      && IsTick(st, ts[0])
      && (|ts| > 1 ==> ts[0].now <= ts[1].now)
      && IsRun(ts[0].after, ts[1..])
  }

  /** Tracked systems other than x that the query may prefer to x. */
  ghost function Ahead(st: Stamps, tracked: set<System>, x: System): set<System> {
    set s | s in tracked && s != x && AsStale(st, s, x)
  }

  /** If a due system is passed over, the batch is full of systems ahead of it. */
  lemma PassedOver(st: Stamps, t: Tick, x: System)
    requires IsTick(st, t) && x in t.tracked && Due(st, x, t.now) && x !in t.sel
    ensures |Elements(t.sel)| == BATCH
    ensures Elements(t.sel) <= Ahead(st, t.tracked, x)
  {
    var due := DueSystems(st, t.tracked, t.now);
    assert x in due;
    DistinctCardinality(t.sel);
    if |due| <= |t.sel| {
      SubsetCardinality(Elements(t.sel), due - {x});
    }
  }

  /** Being passed over costs x no rank, and everything attempted successfully falls behind it. */
  lemma AheadShrinks(st: Stamps, t: Tick, tracked: set<System>, x: System)
    requires IsTick(st, t) && x in t.tracked && Due(st, x, t.now) && x !in t.sel
    requires tracked <= t.tracked
    ensures Ahead(t.after, tracked, x) <= Ahead(st, t.tracked, x) - (Elements(t.sel) - t.failed)
    ensures Due(t.after, x, t.now)
  {
  }

  /** x stays tracked, nothing new becomes tracked, and only systems in `failing` fail. */
  ghost predicate Steady(ts: seq<Tick>, x: System, failing: set<System>) {
    && (forall i :: 0 <= i < |ts| ==> x in ts[i].tracked && ts[i].failed <= failing)
    && forall i :: 0 < i < |ts| ==> ts[i].tracked <= ts[i - 1].tracked
  }

  lemma SteadyTail(ts: seq<Tick>, x: System, failing: set<System>)
    requires Steady(ts, x, failing) && ts != []
    ensures Steady(ts[1..], x, failing)
    ensures |ts| > 1 ==> ts[1].tracked <= ts[0].tracked
  {
  }

  /** x is attempted by the tick with index n at the latest. */
  ghost predicate AttemptedBy(ts: seq<Tick>, x: System, n: int) {
    exists i :: 0 <= i <= n && i < |ts| && x in ts[i].sel
  }

  /** How many batches with d stamped systems each fit into k. */
  function Batches(k: nat, d: nat): nat
    requires d > 0
  {
    k / d
  }

  /**
   * No starvation. Let x be due and tracked throughout, let only systems in `failing` ever fail
   * without a stamp, at most f < 5 of them ahead of x, and let k other systems be ahead of x.
   * Then x is attempted within k / (5 - f) + 1 ticks. With f = 0 this is k / 5 + 1.
   */
  lemma BoundedWait(st: Stamps, ts: seq<Tick>, x: System, tracked: set<System>, failing: set<System>, k: nat, f: nat)
    requires IsRun(st, ts) && Steady(ts, x, failing) && f < BATCH
    requires ts != [] ==> Due(st, x, ts[0].now) && ts[0].tracked <= tracked
    requires |Ahead(st, tracked, x) - failing| <= k
    requires |Ahead(st, tracked, x) * failing| <= f
    requires |ts| >= k / (BATCH - f) + 1
    ensures AttemptedBy(ts, x, k / (BATCH - f))
  {
    hide IsRun, Steady, Ahead;
    WaitsAtMost(st, ts, x, tracked, failing, k, f, BATCH - f);
  }

  lemma {:induction false} WaitsAtMost(st: Stamps, ts: seq<Tick>, x: System, tracked: set<System>, failing: set<System>,
                                       k: nat, f: nat, d: nat)
    requires IsRun(st, ts) && Steady(ts, x, failing) && d > 0 && f + d == BATCH
    requires ts != [] ==> Due(st, x, ts[0].now) && ts[0].tracked <= tracked
    requires |Ahead(st, tracked, x) - failing| <= k
    requires |Ahead(st, tracked, x) * failing| <= f
    requires |ts| >= Batches(k, d) + 1
    ensures AttemptedBy(ts, x, Batches(k, d))
    decreases |ts|
  {
    hide Ahead, IsTick, Batches, AttemptedBy;
    var t, rest := ts[0], ts[1..];
    if x in t.sel {
      AttemptedNow(ts, x, Batches(k, d));
    } else {
      Closer(st, t, x, tracked, failing, k, f, d);
      SteadyTail(ts, x, failing);
      WaitsAtMost(t.after, rest, x, t.tracked, failing, k - d, f, d);
      AttemptedLater(ts, x, Batches(k, d));
    }
  }

  lemma AttemptedNow(ts: seq<Tick>, x: System, n: nat)
    requires ts != [] && x in ts[0].sel
    ensures AttemptedBy(ts, x, n)
  {
  }

  lemma AttemptedLater(ts: seq<Tick>, x: System, n: nat)
    requires ts != [] && n > 0 && AttemptedBy(ts[1..], x, n - 1)
    ensures AttemptedBy(ts, x, n)
  {
    var i :| 0 <= i <= n - 1 && i < |ts[1..]| && x in ts[1..][i].sel;
    assert ts[i + 1] == ts[1..][i];
  }

  lemma Closer(st: Stamps, t: Tick, x: System, tracked: set<System>, failing: set<System>, k: nat, f: nat, d: nat)
    requires IsTick(st, t) && d > 0 && f + d == BATCH && x !in t.sel
    requires Due(st, x, t.now) && x in t.tracked && t.tracked <= tracked && t.failed <= failing
    requires |Ahead(st, tracked, x) - failing| <= k
    requires |Ahead(st, tracked, x) * failing| <= f
    ensures Due(t.after, x, t.now) && d <= k
    ensures |Ahead(t.after, t.tracked, x) - failing| <= k - d
    ensures |Ahead(t.after, t.tracked, x) * failing| <= f
    ensures Batches(k, d) == Batches(k - d, d) + 1
  {
    PassedOver(st, t, x);
    AheadShrinks(st, t, t.tracked, x);
    AheadTracked(st, t.tracked, tracked, x);
    hide Ahead, IsTick, Batches;
    BatchLeaves(Ahead(st, tracked, x), Ahead(t.after, t.tracked, x), Elements(t.sel), failing, f);
    OneBatchLess(k, d);
  }

  lemma AheadTracked(st: Stamps, tracked: set<System>, more: set<System>, x: System)
    requires tracked <= more
    ensures Ahead(st, tracked, x) <= Ahead(st, more, x)
  {
  }

  /** A full batch with at most f failures takes at least 5 - f systems from those ahead. */
  lemma BatchLeaves(ahead: set<System>, ahead': set<System>, sel: set<System>, failing: set<System>, f: nat)
    requires sel <= ahead && |sel| == BATCH && |ahead * failing| <= f < BATCH
    requires ahead' <= ahead - (sel - failing)
    ensures |ahead' * failing| <= f
    ensures |ahead' - failing| <= |ahead - failing| - (BATCH - f)
  {
    Parts(sel, failing);
    SubsetCardinality(sel * failing, ahead * failing);
    SubsetCardinality(ahead' * failing, ahead * failing);
    var taken, others := sel - failing, ahead - failing;
    Parts(others, taken);
    assert others * taken == taken;
    SubsetCardinality(ahead' - failing, others - taken);
  }

  lemma Parts<T>(s: set<T>, t: set<T>)
    ensures |s| == |s - t| + |s * t|
  {
    assert s == (s - t) + (s * t);
  }

  lemma OneBatchLess(k: nat, d: nat)
    requires 0 < d <= BATCH && d <= k
    ensures Batches(k, d) == Batches(k - d, d) + 1
  {
  }

  /**
   * The bound on failures is needed: five systems that are staler than x and whose attempts keep
   * failing without a stamp hold every batch, and x is never attempted, however long the run.
   */
  lemma {:induction false} StarvedByFailures(st: Stamps, ts: seq<Tick>, x: System, failing: set<System>)
    requires IsRun(st, ts)
    requires |failing| >= BATCH
    requires forall f :: f in failing ==> StrictlyStaler(st, f, x)
    requires ts != [] ==> forall f :: f in failing ==> Due(st, f, ts[0].now)
    requires forall i :: 0 <= i < |ts| ==> failing <= ts[i].tracked && failing * Elements(ts[i].sel) <= ts[i].failed
    ensures forall i :: 0 <= i < |ts| ==> x !in ts[i].sel
    decreases |ts|
  {
    if ts != [] {
      var t := ts[0];
      StarvedNow(st, t, x, failing);
      StaysStarved(st, t, x, failing);
      hide IsTick, StrictlyStaler, Due;
      StarvedByFailures(t.after, ts[1..], x, failing);
      assert forall i :: 0 < i < |ts| ==> ts[i] == ts[1..][i - 1];
    }
  }

  lemma StarvedNow(st: Stamps, t: Tick, x: System, failing: set<System>)
    requires IsTick(st, t) && |failing| >= BATCH && failing <= t.tracked
    requires forall f :: f in failing ==> StrictlyStaler(st, f, x) && Due(st, f, t.now)
    ensures x !in t.sel
  {
    if x in t.sel {
      DistinctCardinality(t.sel);
      forall f | f in failing ensures f in Elements(t.sel) - {x} {
        assert f in DueSystems(st, t.tracked, t.now);
      }
      SubsetCardinality(failing, Elements(t.sel) - {x});
      assert false;
    }
  }

  lemma StaysStarved(st: Stamps, t: Tick, x: System, failing: set<System>)
    requires IsTick(st, t) && x !in t.sel && failing * Elements(t.sel) <= t.failed
    requires forall f :: f in failing ==> StrictlyStaler(st, f, x) && Due(st, f, t.now)
    ensures forall f :: f in failing ==> StrictlyStaler(t.after, f, x)
    ensures forall f, now :: f in failing && t.now <= now ==> Due(t.after, f, now)
  {
    hide IsSelection;
    forall f | f in failing ensures (f in t.after <==> f in st) && (f in st ==> t.after[f] == st[f]) {
      assert f in t.sel ==> f in failing * Elements(t.sel);
    }
  }

  // ------------------------------------------------------------ the exact condition

  /** Of a set of candidates, one that is as stale as all of them. */
  lemma {:induction false} PickStalest(st: Stamps, candidates: set<System>) returns (s: System)
    requires candidates != {}
    ensures s in candidates && forall c :: c in candidates ==> AsStale(st, s, c)
    decreases candidates
  {
    var c :| c in candidates;
    s := c;
    var others := candidates - {c};
    assert candidates == others + {c};
    if others != {} {
      s := PickStalest(st, others);
      if !AsStale(st, s, c) {
        s := c;
      }
    }
  }

  /** The n stalest of the due systems. */
  lemma {:induction false} PickBatch(st: Stamps, due: set<System>, n: nat) returns (sel: seq<System>, rest: set<System>)
    requires n <= |due|
    ensures |sel| == n && StalestFirst(st, due, sel, rest)
    decreases n
  {
    if n == 0 {
      sel, rest := [], due;
    } else {
      var sel', rest' := PickBatch(st, due, n - 1);
      var s := PickStalest(st, rest');
      TakeStalest(st, due, sel', rest', s);
      sel, rest := sel' + [s], rest' - {s};
    }
  }

  /** Whoever is ahead of a due system is due itself. */
  lemma AheadIsDue(st: Stamps, tracked: set<System>, x: System, now: Time)
    requires Due(st, x, now)
    ensures Ahead(st, tracked, x) <= DueSystems(st, tracked, now) - {x}
  {
  }

  /** A batch of the stalest others is all as stale as x, if enough are ahead of x. */
  lemma BatchIsAhead(st: Stamps, tracked: set<System>, x: System, now: Time, sel: seq<System>, rest: set<System>)
    requires Due(st, x, now) && |Ahead(st, tracked, x)| >= |sel|
    requires StalestFirst(st, DueSystems(st, tracked, now) - {x}, sel, rest)
    ensures forall i :: 0 <= i < |sel| ==> AsStale(st, sel[i], x)
  {
    AheadIsDue(st, tracked, x, now);
    forall i | 0 <= i < |sel| ensures AsStale(st, sel[i], x) {
      if !AsStale(st, sel[i], x) {
        forall a | a in Ahead(st, tracked, x) ensures a in Elements(sel) - {sel[i]} {
          assert a in rest ==> AsStale(st, sel[i], a);
        }
        SubsetCardinality(Ahead(st, tracked, x), Elements(sel) - {sel[i]});
        DistinctCardinality(sel);
      }
    }
  }

  /** If five tracked systems are ahead of x, the query may answer with a batch without x. */
  lemma BatchWithout(st: Stamps, tracked: set<System>, x: System, now: Time) returns (sel: seq<System>)
    requires x in tracked && Due(st, x, now) && |Ahead(st, tracked, x)| >= BATCH
    ensures IsSelection(st, tracked, now, sel) && x !in sel
  {
    var due := DueSystems(st, tracked, now);
    AheadIsDue(st, tracked, x, now);
    SubsetCardinality(Ahead(st, tracked, x), due - {x});
    var rest;
    sel, rest := PickBatch(st, due - {x}, BATCH);
    BatchIsAhead(st, tracked, x, now, sel, rest);
    assert forall s :: s in sel <==> s in Elements(sel);
  }

  /** A run of n ticks from now in which the tracked set is fixed, only `failing` fails, and x is never selected. */
  ghost predicate Starves(st: Stamps, ts: seq<Tick>, tracked: set<System>, x: System, failing: set<System>, now: Time, n: nat) {
    && |ts| == n && IsRun(st, ts) && Steady(ts, x, failing)
    && (ts != [] ==> ts[0].now == now)
    && forall i :: 0 <= i < |ts| ==> ts[i].tracked == tracked && x !in ts[i].sel
  }

  ghost predicate CanStarve(st: Stamps, tracked: set<System>, x: System, failing: set<System>, now: Time, n: nat) {
    exists ts :: Starves(st, ts, tracked, x, failing, now, n)
  }

  /** A tick that passes x over, in which exactly the failing systems of the batch fail. */
  lemma PassingTick(st: Stamps, tracked: set<System>, x: System, failing: set<System>, now: Time) returns (t: Tick)
    requires x in tracked && Due(st, x, now) && |Ahead(st, tracked, x)| >= BATCH
    ensures IsTick(st, t) && t.tracked == tracked && t.now == now && t.failed <= failing && x !in t.sel
    ensures Due(t.after, x, now + MINUTE)
    ensures Ahead(st, tracked, x) * failing <= Ahead(t.after, tracked, x) * failing
  {
    var sel := BatchWithout(st, tracked, x, now);
    var stamped := Elements(sel) - failing;
    var after := map s | s in st.Keys + stamped :: if s in stamped then now else st[s];
    t := Tick(tracked, now, sel, Elements(sel) * failing, after);
    hide IsSelection;
    assert IsTick(st, t);
    assert forall s :: s !in stamped ==> (s in after <==> s in st) && (s in st ==> after[s] == st[s]);
  }

  /** As long as five failing systems are ahead of x, x can be passed over once more. */
  lemma {:induction false} StarvingRuns(st: Stamps, tracked: set<System>, x: System, failing: set<System>, now: Time, n: nat)
    returns (ts: seq<Tick>)
    requires x in tracked && Due(st, x, now) && |Ahead(st, tracked, x) * failing| >= BATCH
    ensures Starves(st, ts, tracked, x, failing, now, n)
    decreases n
  {
    hide Ahead, IsTick, Due;
    ts := [];
    if n > 0 {
      SubsetCardinality(Ahead(st, tracked, x) * failing, Ahead(st, tracked, x));
      var t := PassingTick(st, tracked, x, failing, now);
      SubsetCardinality(Ahead(st, tracked, x) * failing, Ahead(t.after, tracked, x) * failing);
      var rest := StarvingRuns(t.after, tracked, x, failing, now + MINUTE, n - 1);
      ts := [t] + rest;
      assert ts[1..] == rest;
    }
  }

  /**
   * A due and tracked system can be passed over for ever exactly if at least five systems that are at least as stale
   * keep failing without a stamp: then there is such a run of every length, and otherwise no run is longer than the
   * bounded wait.
   */
  lemma StarvationIff(st: Stamps, tracked: set<System>, x: System, failing: set<System>, now: Time)
    requires x in tracked && Due(st, x, now)
    ensures (forall n: nat :: CanStarve(st, tracked, x, failing, now, n))
       <==> |Ahead(st, tracked, x) * failing| >= BATCH
  {
    var f := |Ahead(st, tracked, x) * failing|;
    if f >= BATCH {
      forall n: nat ensures CanStarve(st, tracked, x, failing, now, n) {
        var ts := StarvingRuns(st, tracked, x, failing, now, n);
      }
    } else {
      var n := WaitBound(st, tracked, x, failing);
      forall ts ensures !Starves(st, ts, tracked, x, failing, now, n) {
        NotThatLong(st, ts, tracked, x, failing, now);
      }
      assert !CanStarve(st, tracked, x, failing, now, n);
    }
  }

  /** The ticks within which x is attempted if fewer than five systems ahead of it fail. */
  ghost function WaitBound(st: Stamps, tracked: set<System>, x: System, failing: set<System>): nat
    requires |Ahead(st, tracked, x) * failing| < BATCH
  {
    |Ahead(st, tracked, x) - failing| / (BATCH - |Ahead(st, tracked, x) * failing|) + 1
  }

  lemma NotThatLong(st: Stamps, ts: seq<Tick>, tracked: set<System>, x: System, failing: set<System>, now: Time)
    requires Due(st, x, now) && |Ahead(st, tracked, x) * failing| < BATCH
    ensures !Starves(st, ts, tracked, x, failing, now, WaitBound(st, tracked, x, failing))
  {
    if Starves(st, ts, tracked, x, failing, now, WaitBound(st, tracked, x, failing)) {
      hide Ahead, IsRun, Steady;
      BoundedWait(st, ts, x, tracked, failing, |Ahead(st, tracked, x) - failing|, |Ahead(st, tracked, x) * failing|);
    }
  }

  // Such a run: systems 0 to 4 have no row and always fail, system 5 was updated at time 0.

  const STUCK: Stamps := map[5 := 0]
  const EVERYONE: set<System> := {0, 1, 2, 3, 4, 5}
  const UNREACHABLE: set<System> := {0, 1, 2, 3, 4}

  /** A tick every minute, from minute i + 1 on. */
  function StarvingTick(i: nat): Tick {
    Tick(EVERYONE, MINUTE * (i + 1), [0, 1, 2, 3, 4], UNREACHABLE, STUCK)
  }

  function StarvingRun(i: nat, n: nat): seq<Tick>
    decreases n
  {
    if n == 0 then [] else [StarvingTick(i)] + StarvingRun(i + 1, n - 1)
  }

  lemma StarvingSelects(now: Time)
    requires now >= MINUTE
    ensures IsSelection(STUCK, EVERYONE, now, [0, 1, 2, 3, 4])
  {
    var sel := [0, 1, 2, 3, 4];
    assert DueSystems(STUCK, EVERYONE, now) == EVERYONE;
    assert Elements(sel) == UNREACHABLE;
    assert |EVERYONE| == 6;
  }

  lemma StarvingIsTick(i: nat)
    ensures IsTick(STUCK, StarvingTick(i))
  {
    StarvingSelects(MINUTE * (i + 1));
    hide IsSelection;
  }

  /** For every length there is a run in which the due and tracked system 5 is never attempted. */
  lemma {:induction false} StarvationHappens(i: nat, n: nat)
    ensures |StarvingRun(i, n)| == n && IsRun(STUCK, StarvingRun(i, n))
    ensures forall k :: 0 <= k < n ==>
              var t := StarvingRun(i, n)[k]; 5 in t.tracked && Due(STUCK, 5, t.now) && t.after == STUCK && 5 !in t.sel
    decreases n
  {
    if n > 0 {
      StarvingIsTick(i);
      StarvationHappens(i + 1, n - 1);
      assert StarvingRun(i, n)[1..] == StarvingRun(i + 1, n - 1);
    }
  }
}
