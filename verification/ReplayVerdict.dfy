/** The verdict on a replay in `scripts/heimdal_g1_simulation.py`: gap runs, percentiles, summary and checks. */
module ReplayVerdict {
  import opened Sorted
  import opened Replay
  import opened Wrappers

  const RECOVERY_QUEUE_WAIT := 1.0

  // ---------- `gap_runs` ----------

  datatype Run = Run(first: nat, last: nat)

  /** Nonempty runs in order, with at least one index between any two. */
  predicate Maximal(runs: seq<Run>) {
    && (forall i | 0 <= i < |runs| :: runs[i].first <= runs[i].last)
    && (forall i, j | 0 <= i < j < |runs| :: runs[i].last + 1 < runs[j].first)
  }

  predicate Covered(runs: seq<Run>, x: nat) { exists i :: 0 <= i < |runs| && runs[i].first <= x <= runs[i].last }

  ghost predicate RunsOf(runs: seq<Run>, xs: set<nat>) {
    Maximal(runs) && forall x: nat :: Covered(runs, x) <==> x in xs
  }

  /** `gap_runs`: the maximal disjoint runs whose union is the set. */
  method GapRuns(indexes: set<nat>) returns (runs: seq<Run>)
    ensures RunsOf(runs, indexes)
  {
    var sorted := SortedSet(indexes);
    runs := [];
    for i := 0 to |sorted|
      invariant RunsOf(runs, set k | 0 <= k < i :: sorted[k])
      invariant (runs == [] <==> i == 0) && (i > 0 ==> runs[|runs| - 1].last == sorted[i - 1])
    {
      var index := sorted[i];
      ghost var done := set k | 0 <= k < i :: sorted[k];
      assert forall x | x in done :: x < index;
      assert (set k | 0 <= k < i + 1 :: sorted[k]) == done + {index};
      if runs != [] && index == runs[|runs| - 1].last + 1 {
        ExtendRun(runs, done, index);
        runs := runs[|runs| - 1 := Run(runs[|runs| - 1].first, index)];
      } else {
        NewRun(runs, done, index);
        runs := runs + [Run(index, index)];
      }
    }
    assert (set k | 0 <= k < |sorted| :: sorted[k]) == indexes;
  }

  lemma ExtendRun(runs: seq<Run>, done: set<nat>, index: nat)
    requires RunsOf(runs, done) && runs != [] && index == runs[|runs| - 1].last + 1
    ensures RunsOf(runs[|runs| - 1 := Run(runs[|runs| - 1].first, index)], done + {index})
  {
    var n := |runs| - 1;
    var longer := runs[n := Run(runs[n].first, index)];
    forall x: nat ensures Covered(longer, x) <==> x in done + {index} {
      if Covered(runs, x) {
        var i :| 0 <= i < |runs| && runs[i].first <= x <= runs[i].last;
        assert longer[i].first <= x <= longer[i].last;
      }
      if x == index { assert longer[n].first <= x <= longer[n].last; }
      if Covered(longer, x) && x != index {
        var i :| 0 <= i < |longer| && longer[i].first <= x <= longer[i].last;
        assert runs[i].first <= x <= runs[i].last;
      }
    }
  }

  lemma NewRun(runs: seq<Run>, done: set<nat>, index: nat)
    requires RunsOf(runs, done)
    requires runs != [] ==> runs[|runs| - 1].last + 1 < index
    ensures RunsOf(runs + [Run(index, index)], done + {index})
  {
    var more := runs + [Run(index, index)];
    forall x: nat ensures Covered(more, x) <==> x in done + {index} {
      if Covered(runs, x) {
        var i :| 0 <= i < |runs| && runs[i].first <= x <= runs[i].last;
        assert more[i].first <= x <= more[i].last;
      }
      if x == index { assert more[|runs|].first <= x <= more[|runs|].last; }
      if Covered(more, x) && x != index {
        var i :| 0 <= i < |more| && more[i].first <= x <= more[i].last;
        assert runs[i].first <= x <= runs[i].last;
      }
    }
  }

  /** Every index of the last run is above all the earlier runs. */
  lemma CoveredByRest(runs: seq<Run>, x: nat)
    requires Maximal(runs) && runs != []
    ensures Covered(runs[..|runs| - 1], x) <==> Covered(runs, x) && x < runs[|runs| - 1].first
    ensures Covered(runs, x) ==> x <= runs[|runs| - 1].last
  {
    var n := |runs| - 1;
    if Covered(runs[..n], x) {
      var i :| 0 <= i < n && runs[..n][i].first <= x <= runs[..n][i].last;
      assert runs[i].first <= x <= runs[i].last;
    }
    if Covered(runs, x) {
      var i :| 0 <= i < |runs| && runs[i].first <= x <= runs[i].last;
      if i < n { assert runs[..n][i].first <= x <= runs[..n][i].last; }
    }
  }

  /** A set has one list of maximal runs. */
  lemma {:induction false} RunsUnique(a: seq<Run>, b: seq<Run>)
    requires Maximal(a) && Maximal(b) && forall x: nat :: Covered(a, x) <==> Covered(b, x)
    ensures a == b
  {
    if a == [] || b == [] {
      EmptyRuns(a);
      EmptyRuns(b);
    } else {
      LastRunEqual(a, b);
      var n, m := |a| - 1, |b| - 1;
      forall x: nat ensures Covered(a[..n], x) <==> Covered(b[..m], x) {
        CoveredByRest(a, x);
        CoveredByRest(b, x);
      }
      RunsUnique(a[..n], b[..m]);
      assert a == a[..n] + [a[n]] && b == b[..m] + [b[m]];
    }
  }

  lemma EmptyRuns(a: seq<Run>)
    requires Maximal(a)
    ensures a == [] <==> forall x: nat :: !Covered(a, x)
  {
    assert a != [] ==> Covered(a, a[0].first);
  }

  lemma LastRunEqual(a: seq<Run>, b: seq<Run>)
    requires Maximal(a) && Maximal(b) && a != [] && b != [] && forall x: nat :: Covered(a, x) <==> Covered(b, x)
    ensures a[|a| - 1] == b[|b| - 1]
  {
    var p, q := a[|a| - 1], b[|b| - 1];
    assert Covered(a, p.last) && Covered(b, q.last);
    CoveredByRest(a, q.last);
    CoveredByRest(b, p.last);
    NoEarlierStart(a, b);
    NoEarlierStart(b, a);
  }

  lemma NoEarlierStart(a: seq<Run>, b: seq<Run>)
    requires Maximal(a) && Maximal(b) && a != [] && b != [] && a[|a| - 1].last == b[|b| - 1].last
    requires forall x: nat :: Covered(a, x) ==> Covered(b, x)
    ensures b[|b| - 1].first <= a[|a| - 1].first
  {
    var p, q := a[|a| - 1], b[|b| - 1];
    if p.first < q.first {
      assert p.first <= q.first - 1 <= p.last;
      assert Covered(a, q.first - 1);
      var i :| 0 <= i < |b| && b[i].first <= q.first - 1 <= b[i].last;
      assert false;
    }
  }

  // ---------- `percentile` ----------

  predicate Nondecreasing(s: seq<real>) { forall i, j | 0 <= i < j < |s| :: s[i] <= s[j] }

  function InsertReal(s: seq<real>, x: real): seq<real> {
    if s == [] || x <= s[0] then [x] + s else [s[0]] + InsertReal(s[1..], x)
  }

  function SortReals(s: seq<real>): seq<real> {
    if s == [] then [] else InsertReal(SortReals(s[1..]), s[0])
  }

  lemma {:induction false} InsertRealMembers(s: seq<real>, x: real)
    ensures multiset(InsertReal(s, x)) == multiset(s) + multiset{x}
  {
    if s != [] && x > s[0] {
      InsertRealMembers(s[1..], x);
      assert s == [s[0]] + s[1..];
    }
  }

  lemma {:induction false} InsertRealOrdered(s: seq<real>, x: real)
    requires Nondecreasing(s)
    ensures Nondecreasing(InsertReal(s, x))
  {
    if s != [] && x > s[0] {
      var r := InsertReal(s[1..], x);
      InsertRealOrdered(s[1..], x);
      InsertRealMembers(s[1..], x);
      forall i | 0 <= i < |r| ensures s[0] <= r[i] {
        assert r[i] in multiset(r);
        assert r[i] == x || r[i] in multiset(s[1..]);
      }
      Prepend(s[0], r);
    }
  }

  lemma Prepend(x: real, s: seq<real>)
    requires Nondecreasing(s) && forall i | 0 <= i < |s| :: x <= s[i]
    ensures Nondecreasing([x] + s)
  {
  }

  lemma {:induction false} SortRealsSorts(s: seq<real>)
    ensures Nondecreasing(SortReals(s)) && multiset(SortReals(s)) == multiset(s) && |SortReals(s)| == |s|
  {
    if s != [] {
      SortRealsSorts(s[1..]);
      InsertRealMembers(SortReals(s[1..]), s[0]);
      InsertRealOrdered(SortReals(s[1..]), s[0]);
      assert s == [s[0]] + s[1..];
      assert |multiset(SortReals(s))| == |SortReals(s)|;
    }
  }

  function Rank(n: nat, pct: real): real { (n - 1) as real * pct / 100.0 }

  /** Linear interpolation at `rank` between neighbours. */
  function At(ordered: seq<real>, rank: real): real
    requires ordered != [] && 0.0 <= rank <= (|ordered| - 1) as real
  {
    var low := rank.Floor;
    var high := if low + 1 <= |ordered| - 1 then low + 1 else |ordered| - 1;
    ordered[low] + (ordered[high] - ordered[low]) * (rank - low as real)
  }

  lemma RankInRange(n: nat, pct: real)
    requires n > 0 && 0.0 <= pct <= 100.0
    ensures 0.0 <= Rank(n, pct) <= (n - 1) as real
  {
    ScaledMonotone((n - 1) as real, 0.0, pct);
    ScaledMonotone((n - 1) as real, pct, 100.0);
  }

  function Percentile(values: seq<real>, pct: real): Option<real>
    requires 0.0 <= pct <= 100.0
  {
    if values == [] then None
    else
      SortRealsSorts(values);
      RankInRange(|values|, pct);
      Some(At(SortReals(values), Rank(|values|, pct)))
  }

  /** The interpolated value lies between its neighbours. */
  lemma AtBetween(ordered: seq<real>, rank: real)
    requires Nondecreasing(ordered) && ordered != [] && 0.0 <= rank <= (|ordered| - 1) as real
    ensures ordered[rank.Floor] <= At(ordered, rank)
    ensures rank.Floor + 1 < |ordered| ==> At(ordered, rank) <= ordered[rank.Floor + 1]
  {
    var low := rank.Floor;
    if low + 1 < |ordered| {
      Scaled(ordered[low + 1] - ordered[low], rank - low as real);
    }
  }

  lemma Scaled(d: real, f: real)
    requires d >= 0.0 && 0.0 <= f <= 1.0
    ensures 0.0 <= d * f <= d
  {
  }

  lemma ScaledMonotone(d: real, f: real, g: real)
    requires d >= 0.0 && f <= g
    ensures d * f <= d * g
  {
    assert d * g - d * f == d * (g - f);
  }

  lemma AtMonotoneWithin(ordered: seq<real>, a: real, b: real)
    requires Nondecreasing(ordered) && ordered != [] && 0.0 <= a <= b <= (|ordered| - 1) as real && a.Floor == b.Floor
    ensures At(ordered, a) <= At(ordered, b)
  {
    var low := a.Floor;
    var high := if low + 1 <= |ordered| - 1 then low + 1 else |ordered| - 1;
    var d, f, g := ordered[high] - ordered[low], a - low as real, b - low as real;
    assert d >= 0.0 && f <= g;
    ScaledMonotone(d, f, g);
    assert At(ordered, a) == ordered[low] + d * f && At(ordered, b) == ordered[low] + d * g;
  }

  /** A higher rank gives no smaller value. */
  lemma AtMonotone(ordered: seq<real>, a: real, b: real)
    requires Nondecreasing(ordered) && ordered != [] && 0.0 <= a <= b <= (|ordered| - 1) as real
    ensures At(ordered, a) <= At(ordered, b)
  {
    AtBetween(ordered, a);
    AtBetween(ordered, b);
    if a.Floor == b.Floor {
      AtMonotoneWithin(ordered, a, b);
    } else {
      assert a.Floor + 1 <= b.Floor;
      assert ordered[a.Floor + 1] <= ordered[b.Floor];
    }
  }

  predicate FirstBelow(ordered: seq<real>, k: nat, bound: real) {
    k <= |ordered| && forall i | 0 <= i < k :: ordered[i] < bound
  }

  /** A 99th percentile below a bound leaves at most one value in a hundred, rounded up, at or above it. */
  lemma PercentileBounds(values: seq<real>, bound: real) returns (k: nat)
    requires values != [] && Percentile(values, 99.0).value < bound
    ensures multiset(SortReals(values)) == multiset(values) && FirstBelow(SortReals(values), k, bound)
    ensures 100 * (|values| - k) <= |values| - 1 + 99
  {
    SortRealsSorts(values);
    RankInRange(|values|, 99.0);
    AtBetween(SortReals(values), Rank(|values|, 99.0));
    k := Rank(|values|, 99.0).Floor + 1;
    RankOf99(|values|);
  }

  lemma RankOf99(n: nat)
    requires n > 0
    ensures 100 * (n - (Rank(n, 99.0).Floor + 1)) <= n - 1 + 99
  {
    var rank := Rank(n, 99.0);
    assert rank < rank.Floor as real + 1.0;
    assert 100.0 * rank == 99.0 * (n - 1) as real;
  }

  // ---------- `summarize` and `interpret` ----------

  function Select(records: seq<Record>, p: Record -> bool): seq<Record> {
    if records == [] then []
    else Select(records[..|records| - 1], p) + (if p(records[|records| - 1]) then [records[|records| - 1]] else [])
  }

  lemma {:induction false} SelectMembers(records: seq<Record>, p: Record -> bool)
    ensures forall r :: r in Select(records, p) <==> r in records && p(r)
  {
    if records != [] {
      SelectMembers(records[..|records| - 1], p);
      assert records == records[..|records| - 1] + [records[|records| - 1]];
    }
  }

  function Indexes(records: seq<Record>): seq<nat> { seq(|records|, i requires 0 <= i < |records| => records[i].index) }

  predicate IsAdmitted(r: Record) { r.sent.Some? && r.outcome == ADMITTED }

  predicate IsFailed(r: Record) { r.sent.Some? && r.outcome != ADMITTED }

  predicate IsDropped(r: Record) { r.outcome == DROPPED }

  /** Delivered on first try and sent as soon as ready. */
  predicate IsSteady(r: Record) {
    IsAdmitted(r) && !r.buffered && r.sent.value.attempts == 1 && r.sent.value.queueWait < RECOVERY_QUEUE_WAIT
  }

  predicate Echoed(r: Record) { IsAdmitted(r) && r.sent.value.echoOk }

  predicate HasDuplicate(r: Record) { r.sent.Some? && r.sent.value.duplicate.Some? }

  predicate Idempotent(d: Duplicate) { d.status == Some(200) && d.idempotent && d.sameReceipt }

  predicate HasIdempotentDuplicate(r: Record) { HasDuplicate(r) && Idempotent(r.sent.value.duplicate.value) }

  function SteadyTimes(records: seq<Record>): seq<real> {
    var steady := Select(records, IsSteady);
    SelectMembers(records, IsSteady);
    seq(|steady|, i requires 0 <= i < |steady| => assert steady[i] in steady; steady[i].sent.value.e2e)
  }

  /** The dropped indexes, in the order of the records. */
  function Dropped(records: seq<Record>): seq<nat> { Indexes(Select(records, IsDropped)) }

  function Missing(records: seq<Record>, rec: Reconciliation): set<nat> {
    rec.notAdmitted + set x | x in Dropped(records)
  }

  predicate ZeroLost(records: seq<Record>, rec: Reconciliation) {
    Select(records, IsFailed) == [] && rec.admitted == |Select(records, IsAdmitted)|
  }

  predicate ZeroDuplicates(records: seq<Record>) {
    && |Select(records, HasIdempotentDuplicate)| == |Select(records, HasDuplicate)|
    && |Select(records, Echoed)| == |Select(records, IsAdmitted)|
  }

  /** The sorted missing indexes equal the sorted dropped ones: as sorted lists do exactly if as multisets. */
  predicate GapsLegible(records: seq<Record>, rec: Reconciliation) {
    multiset(Missing(records, rec)) == multiset(Dropped(records))
  }

  predicate KeepsUp(records: seq<Record>, seconds: real) {
    var p99 := Percentile(SteadyTimes(records), 99.0);
    p99.Some? && p99.value < seconds
  }

  predicate HeldBy(o: Outage, r: Record) { IsAdmitted(r) && r.buffered && Holds(o, r.ready) }

  /** The slowest drain of an outage's backlog is shorter than the outage. */
  predicate BacklogRecovers(records: seq<Record>, outages: seq<Outage>) {
    forall o, r | o in outages && r in records && HeldBy(o, r) :: r.sent.value.equivalent - r.uplinkWait < o.duration
  }

  /** `interpret` on the summary of a run: `simulated_path` is pass. */
  predicate Pass(records: seq<Record>, rec: Reconciliation, outages: seq<Outage>, seconds: real) {
    && ZeroLost(records, rec) && ZeroDuplicates(records) && GapsLegible(records, rec)
    && KeepsUp(records, seconds) && BacklogRecovers(records, outages)
  }

  // ---------- what a pass means ----------

  /** Hub-confirmed admitted, or dropped by design and never sent: one of the two. */
  ghost predicate Settled(r: Record, queries: seq<Query>, drops: set<nat>) {
    if r.index in drops then r.sent.None? && r.outcome == DROPPED && !Confirmed(queries, r)
    else r.outcome == ADMITTED && Confirmed(queries, r)
  }

  /** Every record is unsent exactly if its segment is to be dropped. */
  predicate Designed(records: seq<Record>, drops: set<nat>) {
    forall r | r in records :: (r.index in drops <==> r.sent.None?) && (r.sent.None? ==> r.outcome == DROPPED)
  }

  lemma ReplayedIsDesigned(records: seq<Record>, hub: Hub, plan: Plan)
    requires Replayed(records, hub, plan)
    ensures Designed(records, plan.drops)
  {
    forall r | r in records
      ensures (r.index in plan.drops <==> r.sent.None?) && (r.sent.None? ==> r.outcome == DROPPED)
    {
      var i :| 0 <= i < |records| && records[i] == r;
      assert RecordFor(records[i], hub, plan, i, plan.segments[i]);
    }
  }

  /** How many of the records that were sent the hub did not confirm. */
  ghost function Unconfirmed(queries: seq<Query>, records: seq<Record>): nat {
    if records == [] then 0
    else
      var r := records[|records| - 1];
      Unconfirmed(queries, records[..|records| - 1]) + (if r.sent.Some? && !Confirmed(queries, r) then 1 else 0)
  }

  lemma {:induction false} UnconfirmedCount(queries: seq<Query>, records: seq<Record>)
    requires Select(records, IsFailed) == []
    ensures ConfirmedCount(queries, records) + Unconfirmed(queries, records) == |Select(records, IsAdmitted)|
  {
    if records != [] {
      UnconfirmedCount(queries, records[..|records| - 1]);
    }
  }

  lemma {:induction false} NoneUnconfirmed(queries: seq<Query>, records: seq<Record>)
    ensures Unconfirmed(queries, records) == 0 <==> forall r | r in records :: r.sent.Some? ==> Confirmed(queries, r)
  {
    if records != [] {
      NoneUnconfirmed(queries, records[..|records| - 1]);
      assert records == records[..|records| - 1] + [records[|records| - 1]];
    }
  }

  lemma {:induction false} SelectNone(records: seq<Record>, p: Record -> bool)
    ensures Select(records, p) == [] <==> forall r | r in records :: !p(r)
  {
    if records != [] {
      SelectNone(records[..|records| - 1], p);
      assert records == records[..|records| - 1] + [records[|records| - 1]];
    }
  }

  /** The loss check alone says exactly that every segment is settled, whatever indexes the segments carry. */
  lemma ZeroLostIff(records: seq<Record>, drops: set<nat>, rec: Reconciliation, queries: seq<Query>)
    requires Designed(records, drops) && Reconciled(rec, queries, records)
    ensures ZeroLost(records, rec) <==> forall r | r in records :: Settled(r, queries, drops)
  {
    SelectNone(records, IsFailed);
    NoneUnconfirmed(queries, records);
    if forall r | r in records :: Settled(r, queries, drops) {
      assert forall r | r in records :: Settled(r, queries, drops) && !IsFailed(r);
    }
    if Select(records, IsFailed) == [] {
      UnconfirmedCount(queries, records);
      assert forall r | r in records :: !IsFailed(r);
    }
  }

  predicate Distinct(s: seq<nat>) { forall i, j | 0 <= i < j < |s| :: s[i] != s[j] }

  function Elements(s: seq<nat>): set<nat> { set x | x in s }

  lemma RepeatedElement(s: seq<nat>, x: nat)
    requires x in s
    ensures !Distinct(s + [x]) && multiset(Elements(s + [x])) != multiset(s + [x])
  {
    var i :| 0 <= i < |s| && s[i] == x;
    assert (s + [x])[i] == (s + [x])[|s|];
    assert multiset(s + [x]) == multiset(s) + multiset{x} && x in multiset(s);
    assert multiset(Elements(s + [x]))[x] <= 1;
  }

  lemma FreshElement(s: seq<nat>, x: nat)
    requires x !in s
    ensures Distinct(s + [x]) <==> Distinct(s)
    ensures multiset(Elements(s + [x])) == multiset(Elements(s)) + multiset{x}
  {
    assert Elements(s + [x]) == Elements(s) + {x};
    assert forall i, j | 0 <= i < j < |s| :: s[i] == (s + [x])[i] && s[j] == (s + [x])[j];
  }

  /** A list is a permutation of its set exactly if it has no repetition. */
  lemma {:induction false} DistinctIff(s: seq<nat>)
    ensures multiset(Elements(s)) == multiset(s) <==> Distinct(s)
  {
    if s != [] {
      var t, x := s[..|s| - 1], s[|s| - 1];
      assert s == t + [x];
      DistinctIff(t);
      if x in t {
        RepeatedElement(t, x);
      } else {
        FreshElement(t, x);
        CancelOne(multiset(Elements(t)), multiset(t), x);
      }
    }
  }

  lemma CancelOne(a: multiset<nat>, b: multiset<nat>, x: nat)
    ensures a + multiset{x} == b + multiset{x} <==> a == b
  {
    assert a == (a + multiset{x}) - multiset{x} && b == (b + multiset{x}) - multiset{x};
  }

  /** The loss and gap checks together say exactly that every segment is settled and that no two dropped
      segments carry the same index. */
  lemma ChecksIff(records: seq<Record>, drops: set<nat>, rec: Reconciliation, queries: seq<Query>)
    requires Designed(records, drops) && Reconciled(rec, queries, records)
    ensures ZeroLost(records, rec) && GapsLegible(records, rec) <==>
      (forall r | r in records :: Settled(r, queries, drops)) && Distinct(Dropped(records))
  {
    ZeroLostIff(records, drops, rec, queries);
    if forall r | r in records :: Settled(r, queries, drops) {
      assert rec.notAdmitted == {};
      assert Missing(records, rec) == Elements(Dropped(records));
      DistinctIff(Dropped(records));
    }
  }

  lemma DroppedMembers(records: seq<Record>, x: nat)
    ensures x in Dropped(records) <==> exists r :: r in records && IsDropped(r) && r.index == x
  {
    SelectMembers(records, IsDropped);
    var sel := Select(records, IsDropped);
    if x in Dropped(records) {
      var k :| 0 <= k < |sel| && sel[k].index == x;
      assert sel[k] in sel;
    }
    if r :| r in records && IsDropped(r) && r.index == x {
      var k :| 0 <= k < |sel| && sel[k] == r;
      assert Dropped(records)[k] == x;
    }
  }

  /** With the loss check, the reported gaps are exactly the runs of dropped segments. */
  lemma GapsAreDrops(records: seq<Record>, drops: set<nat>, rec: Reconciliation, queries: seq<Query>, runs: seq<Run>)
    requires Designed(records, drops) && Reconciled(rec, queries, records)
    requires ZeroLost(records, rec) && RunsOf(runs, Missing(records, rec))
    ensures forall x: nat :: Covered(runs, x) <==> x in drops && exists r :: r in records && r.index == x
  {
    ZeroLostIff(records, drops, rec, queries);
    assert rec.notAdmitted == {};
    forall x: nat ensures x in Missing(records, rec) <==> x in drops && exists r :: r in records && r.index == x {
      DroppedMembers(records, x);
      if x in Dropped(records) {
        var r :| r in records && IsDropped(r) && r.index == x;
        assert Settled(r, queries, drops);
      }
      if x in drops && exists r :: r in records && r.index == x {
        var r :| r in records && r.index == x;
        assert Settled(r, queries, drops) && IsDropped(r);
      }
    }
  }

  lemma {:induction false} SelectCounts(records: seq<Record>, p: Record -> bool, q: Record -> bool)
    requires forall r :: p(r) ==> q(r)
    ensures |Select(records, p)| <= |Select(records, q)|
    ensures |Select(records, p)| == |Select(records, q)| <==> forall r | r in records :: q(r) ==> p(r)
  {
    if records != [] {
      SelectCounts(records[..|records| - 1], p, q);
      assert records == records[..|records| - 1] + [records[|records| - 1]];
    }
  }

  /** The counts of the duplicate check agree exactly if every duplicate sent was answered as the same delivery,
      and every admitted segment was echoed with its own content hash. */
  lemma ZeroDuplicatesIff(records: seq<Record>)
    ensures ZeroDuplicates(records) <==>
      forall r | r in records :: (HasDuplicate(r) ==> Idempotent(r.sent.value.duplicate.value))
                                 && (IsAdmitted(r) ==> r.sent.value.echoOk)
  {
    SelectCounts(records, HasIdempotentDuplicate, HasDuplicate);
    SelectCounts(records, Echoed, IsAdmitted);
    assert forall r :: HasIdempotentDuplicate(r) <==> HasDuplicate(r) && Idempotent(r.sent.value.duplicate.value);
    assert forall r :: Echoed(r) <==> IsAdmitted(r) && r.sent.value.echoOk;
  }

  /** A pass keeps up: all but one in a hundred steady segments, rounded up, took less than their own length. */
  lemma PassKeepsUp(records: seq<Record>, rec: Reconciliation, outages: seq<Outage>, seconds: real) returns (k: nat)
    requires Pass(records, rec, outages, seconds)
    ensures SteadyTimes(records) != [] && FirstBelow(SortReals(SteadyTimes(records)), k, seconds)
    ensures 100 * (|SteadyTimes(records)| - k) <= |SteadyTimes(records)| - 1 + 99
  {
    k := PercentileBounds(SteadyTimes(records), seconds);
  }

  /** The whole chain: replay, reconcile, summarize and interpret. It passes exactly if every segment is accounted
      for, by the hub's own replies and answers, no dropped index repeats, every duplicate sent was answered as the
      same delivery and every admitted segment echoed, and the run keeps up and recovers from its outages; the
      gaps it then reports are exactly the indexes of the dropped segments. */
  method ReplayAndJudge(hub: Hub, plan: Plan) returns (pass: bool, records: seq<Record>, gaps: seq<Run>)
    ensures |records| == |plan.segments| && Replayed(records, hub, plan)
    ensures pass <==>
      && (forall r | r in records :: Settled(r, Queries(hub, Captures(records), 0), plan.drops))
      && Distinct(Dropped(records))
      && (forall r | r in records :: (HasDuplicate(r) ==> Idempotent(r.sent.value.duplicate.value))
                                     && (IsAdmitted(r) ==> r.sent.value.echoOk))
      && KeepsUp(records, plan.seconds) && BacklogRecovers(records, plan.outages)
    ensures pass ==> Maximal(gaps)
    ensures pass ==>
      forall x: nat :: Covered(gaps, x) <==> x in plan.drops && exists r :: r in records && r.index == x
  {
    ghost var decided;
    records, decided := Replay.Replay(hub, plan);
    var rec := Reconcile(hub, records);
    gaps := GapRuns(Missing(records, rec));
    pass := Pass(records, rec, plan.outages, plan.seconds);
    ReplayedIsDesigned(records, hub, plan);
    ChecksIff(records, plan.drops, rec, Queries(hub, Captures(records), 0));
    ZeroDuplicatesIff(records);
    if pass {
      GapsAreDrops(records, plan.drops, rec, Queries(hub, Captures(records), 0), gaps);
    }
  }
}
