/** The delivery liveness checker of `scripts/dev_delivery_liveness.py`: ordering of producer signals, the
    early stop of the paginated history, and what a green result means. Times are in microseconds. */
module Liveness {
  import opened Wrappers

  datatype Result<T> = Found(value: T) | Refused

  const SECOND := 1_000_000
  const GRACE := 6 * 3600 * SECOND
  const HEARTBEAT_GRACE := 2 * 3600 * SECOND
  const PAGE := 100
  const MAX_HISTORY_PAGES := 20
  const MAX_HEARTBEAT_COMMITS := 100

  type positive = n: int | 0 < n witness 1

  /** A heartbeat description: an old unsequenced one, a sequenced tick or pause, the read-only diagnostic of
      a failed start, or text that the protocol refuses. */
  datatype Signal =
    | Legacy(observed: int)
    | Tick(sequence: positive, observed: int)
    | Pause(sequence: positive, observed: int, issue: nat, until: int)
    | StartupFailed(after: nat, observed: int)
    | Garbled

  /** A commit status with its creation time; `None` for one of another context. */
  datatype Status = Status(created: int, signal: Option<Signal>)

  predicate IsActivity(s: Signal) { !s.StartupFailed? }

  function SequenceOf(s: Signal): nat {
    match s
    case Tick(n, _) => n
    case Pause(n, _, _, _) => n
    case StartupFailed(n, _) => n
    case _ => 0
  }

  function Observed(s: Signal): int { if s.Garbled? then 0 else s.observed }

  /** `_heartbeat_order`, compared lexicographically: a diagnostic comes right after the activity it read. */
  predicate Below(a: Signal, b: Signal) {
    var da, db := if IsActivity(a) then 0 else 1, if IsActivity(b) then 0 else 1;
    || SequenceOf(a) < SequenceOf(b)
    || (SequenceOf(a) == SequenceOf(b) && da < db)
    || (SequenceOf(a) == SequenceOf(b) && da == db && Observed(a) < Observed(b))
  }

  predicate Sequenced(s: Signal) { s.Tick? || s.Pause? }

  // ---------- `_latest_status` ----------

  /** One observation per sequence number, and clocks that follow the sequence. */
  predicate InOrder(a: Signal, b: Signal) {
    Sequenced(a) && Sequenced(b) ==>
      && (SequenceOf(a) == SequenceOf(b) ==> a == b)
      && (SequenceOf(a) < SequenceOf(b) ==> Observed(a) <= Observed(b))
  }

  predicate Consistent(ss: seq<Signal>) {
    Garbled !in ss && forall a, b | a in ss && b in ss :: InOrder(a, b)
  }

  /** The first of the greatest signals. */
  function Greatest(ss: seq<Signal>): (g: Signal)
    requires ss != []
    ensures g in ss
  {
    if |ss| == 1 then ss[0]
    else
      var g := Greatest(ss[..|ss| - 1]);
      if Below(g, ss[|ss| - 1]) then ss[|ss| - 1] else g
  }

  function Latest(ss: seq<Signal>): Result<Option<Signal>> {
    if !Consistent(ss) then Refused else Found(if ss == [] then None else Some(Greatest(ss)))
  }

  lemma {:induction false} GreatestTops(ss: seq<Signal>)
    requires ss != []
    ensures forall s | s in ss :: !Below(Greatest(ss), s)
  {
    if |ss| > 1 {
      GreatestTops(ss[..|ss| - 1]);
      assert ss == ss[..|ss| - 1] + [ss[|ss| - 1]];
    }
  }

  /** What is above everything before and not below anything after is the greatest of all. */
  lemma {:induction false} GreatestAppend(ss: seq<Signal>, more: seq<Signal>)
    requires ss != [] && forall s | s in more :: !Below(Greatest(ss), s)
    ensures Greatest(ss + more) == Greatest(ss)
  {
    if more == [] {
      assert ss + more == ss;
    } else {
      var n := |more| - 1;
      assert forall s | s in more[..n] :: s in more;
      GreatestAppend(ss, more[..n]);
      assert (ss + more)[..|ss + more| - 1] == ss + more[..n];
      assert more[n] in more;
    }
  }

  /** `_latest_status`: one observation per sequence number, the clock check, the maximum. */
  method LatestStatus(ss: seq<Signal>) returns (r: Result<Option<Signal>>)
    ensures r == Latest(ss)
  {
    var observations := ReadObservations(ss);
    if observations.Refused? { return Refused; }
    var o := observations.value;
    if exists a, b | a in o && b in o :: a < b && Observed(o[a]) > Observed(o[b]) {
      return Refused;
    }
    ObservationsConsistent(ss, o);
    if ss == [] { return Found(None); }
    var g := MaxSignal(ss);
    return Found(Some(g));
  }

  method MaxSignal(ss: seq<Signal>) returns (g: Signal)
    requires ss != []
    ensures g == Greatest(ss)
  {
    g := ss[0];
    for i := 1 to |ss|
      invariant g == Greatest(ss[..i])
    {
      assert ss[..i + 1][..i] == ss[..i];
      if Below(g, ss[i]) { g := ss[i]; }
    }
    assert ss[..|ss|] == ss;
  }

  /** The sequenced observations by number; refused on a garbled text or on two different ones. */
  method ReadObservations(ss: seq<Signal>) returns (r: Result<map<nat, Signal>>)
    ensures r.Refused? ==> !Consistent(ss)
    ensures r.Found? ==> Garbled !in ss
    ensures r.Found? ==>
      forall n | n in r.value :: r.value[n] in ss && Sequenced(r.value[n]) && SequenceOf(r.value[n]) == n
    ensures r.Found? ==> forall s | s in ss && Sequenced(s) :: SequenceOf(s) in r.value && r.value[SequenceOf(s)] == s
  {
    var observations: map<nat, Signal> := map[];
    for i := 0 to |ss|
      invariant Garbled !in ss[..i]
      invariant forall n | n in observations ::
        observations[n] in ss && Sequenced(observations[n]) && SequenceOf(observations[n]) == n
      invariant forall j | 0 <= j < i && Sequenced(ss[j]) ::
        SequenceOf(ss[j]) in observations && observations[SequenceOf(ss[j])] == ss[j]
    {
      if ss[i].Garbled? { return Refused; }
      if Sequenced(ss[i]) {
        var n := SequenceOf(ss[i]);
        if n in observations && observations[n] != ss[i] {
          assert !InOrder(observations[n], ss[i]);
          return Refused;
        }
        observations := observations[n := ss[i]];
      }
    }
    return Found(observations);
  }

  lemma ObservationsConsistent(ss: seq<Signal>, o: map<nat, Signal>)
    requires Garbled !in ss
    requires forall s | s in ss && Sequenced(s) :: SequenceOf(s) in o && o[SequenceOf(s)] == s
    requires forall a, b | a in o && b in o && a < b :: Observed(o[a]) <= Observed(o[b])
    ensures Consistent(ss)
  {
  }

  // ---------- the history of one commit ----------

  function Signals(h: seq<Status>): seq<Signal> {
    if h == [] then []
    else Signals(h[..|h| - 1]) + (if h[|h| - 1].signal.Some? then [h[|h| - 1].signal.value] else [])
  }

  function Activities(ss: seq<Signal>): seq<Signal> {
    if ss == [] then []
    else Activities(ss[..|ss| - 1]) + (if IsActivity(ss[|ss| - 1]) then [ss[|ss| - 1]] else [])
  }

  /** Truncation to whole seconds, which is the precision of creation times. */
  function WholeSeconds(t: int): int { t - t % SECOND }

  /** Older writes cannot contain a later producer observation. */
  predicate PastCutoff(latest: Option<Signal>, created: int) {
    latest.Some? && SequenceOf(latest.value) > 0 && created < WholeSeconds(Observed(latest.value))
  }

  predicate CanStop(read: seq<Status>) {
    var latest := Latest(Activities(Signals(read)));
    read != [] && latest.Found? && PastCutoff(latest.value, read[|read| - 1].created)
  }

  predicate NewestFirst(h: seq<Status>) {
    forall i, j | 0 <= i < j < |h| :: h[i].created >= h[j].created
  }

  /** `_status_history` for the heartbeat context; page `k` of the API is the `k`-th hundred of `history`. */
  method StatusHistory(history: seq<Status>) returns (r: Result<seq<Status>>)
    ensures r.Found? ==> r.value <= history && (r.value == history || CanStop(r.value))
    ensures r.Found? && r.value != history ==> NewestFirst(r.value) && Consistent(Signals(r.value))
    ensures NewestFirst(history) && Consistent(Signals(history)) && |history| < MAX_HISTORY_PAGES * PAGE ==> r.Found?
  {
    var collected: seq<Status> := [];
    for page := 0 to MAX_HISTORY_PAGES
      invariant |collected| == page * PAGE && collected <= history && NewestFirst(collected)
    {
      var start := |collected|;
      if |history| < start + PAGE { return Found(history); }
      assert history[..start] == collected;
      collected := history[..start + PAGE];
      var reading := ReadPage(history, start, start + PAGE);
      if reading == Refused { return Refused; }
      if reading == Found(true) { return Found(collected); }
    }
    return Refused;
  }

  /** Takes in one full page: refused unless statuses stay in order and consistent, else whether to stop. */
  method ReadPage(history: seq<Status>, start: nat, end: nat) returns (r: Result<bool>)
    requires start < end <= |history| && NewestFirst(history[..start])
    ensures r.Refused? ==> !NewestFirst(history) || !Consistent(Signals(history))
    ensures r.Found? ==>
      NewestFirst(history[..end]) && Consistent(Signals(history[..end])) && r.value == CanStop(history[..end])
  {
    PageInOrder(history, start, end);
    if !NewestFirst(history[start..end]) || (start > 0 && history[start].created > history[start - 1].created) {
      return Refused;
    }
    ReadingStaysConsistent(history, end);
    r := MayStop(history[..end]);
  }

  /** Validates what was read, diagnostics included, before deciding on its activities. */
  method MayStop(read: seq<Status>) returns (r: Result<bool>)
    requires read != []
    ensures r.Refused? <==> !Consistent(Signals(read)) || !Consistent(Activities(Signals(read)))
    ensures r.Found? ==> r.value == CanStop(read)
  {
    var all := LatestStatus(Signals(read));
    if all.Refused? { return Refused; }
    var latest := LatestStatus(Activities(Signals(read)));
    if latest.Refused? { return Refused; }
    return Found(PastCutoff(latest.value, read[|read| - 1].created));
  }

  /** A history is in order so far iff each page is and follows the one before. */
  lemma PageInOrder(h: seq<Status>, start: nat, end: nat)
    requires start <= end <= |h| && NewestFirst(h[..start])
    ensures NewestFirst(h) ==> NewestFirst(h[..end])
    ensures NewestFirst(h[..end]) <==>
      NewestFirst(h[start..end]) && (0 < start < end ==> h[start].created <= h[start - 1].created)
  {
    var a, b := h[..start], h[start..end];
    assert h[..end] == a + b;
    if NewestFirst(b) && (0 < start < end ==> h[start].created <= h[start - 1].created) { NewestFirstAppend(a, b); }
    if NewestFirst(a + b) {
      assert forall i | 0 <= i < |b| :: b[i] == (a + b)[start + i];
    }
  }

  /** A consistent history stays consistent however little of it was read. */
  lemma {:induction false} ReadingStaysConsistent(h: seq<Status>, k: nat)
    requires k <= |h|
    ensures Consistent(Signals(h)) ==> Consistent(Signals(h[..k])) && Consistent(Activities(Signals(h[..k])))
  {
    assert h == h[..k] + h[k..];
    SignalsAppend(h[..k], h[k..]);
    ActivitiesMembers(Signals(h[..k]));
  }

  lemma NewestFirstAppend(a: seq<Status>, b: seq<Status>)
    requires NewestFirst(a) && NewestFirst(b)
    requires a != [] && b != [] ==> b[0].created <= a[|a| - 1].created
    ensures NewestFirst(a + b)
  {
  }

  // ---------- the early stop is sound ----------

  /** The trusted producer: one nondecreasing clock by sequence number, diagnostics floored at it, and every
      status written at or after its observation, with creation times in whole seconds. */
  ghost predicate Produced(h: seq<Status>, clock: nat -> int) {
    && (forall a: nat, b: nat | a <= b :: clock(a) <= clock(b))
    && (forall i | 0 <= i < |h| && h[i].signal.Some? :: ProducedOne(h[i].created, h[i].signal.value, clock))
    && (forall i, j | 0 <= i < |h| && 0 <= j < |h| && h[i].signal.Some? && h[j].signal.Some? ::
          OneObservation(h[i].signal.value, h[j].signal.value))
  }

  ghost predicate ProducedOne(created: int, s: Signal, clock: nat -> int) {
    && !s.Garbled?
    && (Sequenced(s) ==> Observed(s) == clock(SequenceOf(s)))
    && (!IsActivity(s) ==> Observed(s) >= clock(SequenceOf(s)))
    && (exists written :: Observed(s) <= written && created == WholeSeconds(written))
  }

  ghost predicate OneObservation(a: Signal, b: Signal) {
    Sequenced(a) && Sequenced(b) && SequenceOf(a) == SequenceOf(b) ==> a == b
  }

  lemma WholeSecondsMonotone(a: int, b: int)
    requires a <= b
    ensures WholeSeconds(a) <= WholeSeconds(b)
  {
  }

  /** Everything written before the cutoff is older than the latest activity, diagnostics included. */
  lemma UnreadIsOlder(h: seq<Status>, clock: nat -> int, l: Signal, k: nat, i: nat)
    requires Produced(h, clock) && NewestFirst(h) && 0 < k <= i < |h| && h[i].signal.Some?
    requires Sequenced(l) && Observed(l) == clock(SequenceOf(l)) && h[k - 1].created < WholeSeconds(Observed(l))
    ensures SequenceOf(h[i].signal.value) < SequenceOf(l)
  {
    var u := h[i].signal.value;
    assert ProducedOne(h[i].created, u, clock);
    var written :| Observed(u) <= written && h[i].created == WholeSeconds(written);
    WholeSecondsMonotone(Observed(u), written);
    if SequenceOf(u) >= SequenceOf(l) {
      assert clock(SequenceOf(l)) <= clock(SequenceOf(u)) <= Observed(u);
      WholeSecondsMonotone(Observed(l), Observed(u));
    }
  }

  lemma {:induction false} SignalsMembers(h: seq<Status>, s: Signal)
    ensures s in Signals(h) <==> exists i :: 0 <= i < |h| && h[i].signal == Some(s)
  {
    if h != [] {
      var n := |h| - 1;
      SignalsMembers(h[..n], s);
      if i :| 0 <= i < |h| && h[i].signal == Some(s) {
        if i < n { assert h[..n][i].signal == Some(s); }
      }
      if s in Signals(h[..n]) {
        var i :| 0 <= i < n && h[..n][i].signal == Some(s);
        assert h[i].signal == Some(s);
      }
    }
  }

  lemma {:induction false} SignalsAppend(a: seq<Status>, b: seq<Status>)
    ensures Signals(a + b) == Signals(a) + Signals(b)
  {
    if b == [] {
      assert a + b == a;
    } else {
      assert (a + b)[..|a + b| - 1] == a + b[..|b| - 1];
      SignalsAppend(a, b[..|b| - 1]);
    }
  }

  lemma {:induction false} ActivitiesMembers(ss: seq<Signal>)
    ensures forall s :: s in Activities(ss) <==> s in ss && IsActivity(s)
  {
    if ss != [] {
      ActivitiesMembers(ss[..|ss| - 1]);
      assert ss == ss[..|ss| - 1] + [ss[|ss| - 1]];
    }
  }

  lemma {:induction false} ActivitiesAppend(a: seq<Signal>, b: seq<Signal>)
    ensures Activities(a + b) == Activities(a) + Activities(b)
  {
    if b == [] {
      assert a + b == a;
    } else {
      assert (a + b)[..|a + b| - 1] == a + b[..|b| - 1];
      ActivitiesAppend(a, b[..|b| - 1]);
    }
  }

  lemma {:induction false} ProducedIsConsistent(h: seq<Status>, clock: nat -> int)
    requires Produced(h, clock)
    ensures Consistent(Signals(h))
    ensures forall s | s in Signals(h) :: Sequenced(s) ==> Observed(s) == clock(SequenceOf(s))
  {
    var ss := Signals(h);
    forall s | s in ss
      ensures exists i :: 0 <= i < |h| && h[i].signal == Some(s) && ProducedOne(h[i].created, s, clock)
    {
      SignalsMembers(h, s);
      var i :| 0 <= i < |h| && h[i].signal == Some(s);
      assert ProducedOne(h[i].created, s, clock);
    }
    forall a, b | a in ss && b in ss ensures InOrder(a, b) {
      var i :| 0 <= i < |h| && h[i].signal == Some(a) && ProducedOne(h[i].created, a, clock);
      var j :| 0 <= j < |h| && h[j].signal == Some(b) && ProducedOne(h[j].created, b, clock);
      assert OneObservation(h[i].signal.value, h[j].signal.value);
    }
  }

  lemma SubsetConsistent(all: seq<Signal>, some: seq<Signal>)
    requires Consistent(all) && forall s | s in some :: s in all
    ensures Consistent(some)
  {
  }

  /** Reading on cannot change the latest of `read` when everything further is older. */
  lemma LatestUnchanged(read: seq<Signal>, more: seq<Signal>, l: Signal)
    requires Consistent(read + more) && l in read && Sequenced(l)
    requires forall s | s in more :: SequenceOf(s) < SequenceOf(l)
    ensures Latest(read + more) == Latest(read)
  {
    SubsetConsistent(read + more, read);
    GreatestTops(read);
    assert !Below(Greatest(read), l);
    GreatestAppend(read, more);
  }

  lemma UnreadAllOlder(h: seq<Status>, clock: nat -> int, l: Signal, k: nat)
    requires Produced(h, clock) && NewestFirst(h) && 0 < k <= |h|
    requires Sequenced(l) && Observed(l) == clock(SequenceOf(l)) && h[k - 1].created < WholeSeconds(Observed(l))
    ensures forall s | s in Signals(h[k..]) :: SequenceOf(s) < SequenceOf(l)
  {
    forall s | s in Signals(h[k..]) ensures SequenceOf(s) < SequenceOf(l) {
      SignalsMembers(h[k..], s);
      var i :| 0 <= i < |h[k..]| && h[k..][i].signal == Some(s);
      assert h[k + i].signal == Some(s);
      UnreadIsOlder(h, clock, l, k, k + i);
    }
  }

  /** Diagnostics add nothing to a history but themselves: they are not sequenced. */
  predicate OnlyDiagnostics(ss: seq<Signal>) { forall s | s in ss :: s.StartupFailed? }

  lemma {:induction false} NoActivityIn(ss: seq<Signal>)
    ensures OnlyDiagnostics(ss) <==> Activities(ss) == []
  {
    ActivitiesMembers(ss);
    if Activities(ss) != [] { assert Activities(ss)[0] in Activities(ss); }
  }

  /** If the producer's clock follows its sequence and creation times are truncated write times, stopping early
      loses nothing: both the latest signal and the latest activity are those of the whole history. The
      diagnostics of later commits may come first. */
  lemma {:induction false} EarlyStopSound(before: seq<Status>, h: seq<Status>, clock: nat -> int, k: nat)
    requires Produced(h, clock) && NewestFirst(h) && k <= |h| && CanStop(h[..k]) && OnlyDiagnostics(Signals(before))
    ensures Latest(Signals(before + h)) == Latest(Signals(before + h[..k]))
    ensures Latest(Activities(Signals(before + h))) == Latest(Activities(Signals(before + h[..k])))
  {
    assert h == h[..k] + h[k..];
    SignalsAppend(h[..k], h[k..]);
    SignalsAppend(before, h[..k]);
    SignalsAppend(before, h);
    ProducedIsConsistent(h, clock);
    var read := Signals(h[..k]);
    var l := Greatest(Activities(read));
    ActivitiesMembers(read);
    assert l in read && l in Signals(h);
    UnreadAllOlder(h, clock, l, k);
    OlderChangesNothing(Signals(before), read, Signals(h[k..]), l);
  }

  lemma {:induction false} OlderChangesNothing(first: seq<Signal>, read: seq<Signal>, more: seq<Signal>, l: Signal)
    requires OnlyDiagnostics(first) && Consistent(read + more) && l in read && Sequenced(l)
    requires forall s | s in more :: SequenceOf(s) < SequenceOf(l)
    ensures Latest(first + (read + more)) == Latest(first + read)
    ensures Latest(Activities(first + (read + more))) == Latest(Activities(first + read))
  {
    SkipDiagnostics(first, read);
    SkipDiagnostics(first, read + more);
    ActivitiesAppend(read, more);
    OlderActivitiesChangeNothing(read, more, l);
    assert (first + read) + more == first + (read + more);
    DiagnosticsStayConsistent(first, read + more);
    LatestUnchanged(first + read, more, l);
  }

  lemma {:induction false} OlderActivitiesChangeNothing(read: seq<Signal>, more: seq<Signal>, l: Signal)
    requires Consistent(read + more) && l in read && Sequenced(l)
    requires forall s | s in more :: SequenceOf(s) < SequenceOf(l)
    ensures Latest(Activities(read) + Activities(more)) == Latest(Activities(read))
  {
    ActivitiesMembers(read);
    ActivitiesMembers(more);
    SubsetConsistent(read + more, Activities(read) + Activities(more));
    LatestUnchanged(Activities(read), Activities(more), l);
  }

  lemma {:induction false} SkipDiagnostics(first: seq<Signal>, ss: seq<Signal>)
    requires OnlyDiagnostics(first)
    ensures Activities(first + ss) == Activities(ss)
  {
    NoActivityIn(first);
    ActivitiesAppend(first, ss);
  }

  lemma DiagnosticsStayConsistent(first: seq<Signal>, ss: seq<Signal>)
    requires OnlyDiagnostics(first) && Consistent(ss)
    ensures Consistent(first + ss)
  {
    forall a, b | a in first + ss && b in first + ss ensures InOrder(a, b) {
      if Sequenced(a) && Sequenced(b) { assert a in ss && b in ss; }
    }
  }

  /** A clock with the observations of two signals. */
  function ClockOf(a: Signal, b: Signal): nat -> int { n => if n < SequenceOf(b) then Observed(a) else Observed(b) }

  /** Equality of seconds proves nothing: of any two activities observed and written in the same second, the
      first read may be the older, and stopping at it would lose the newer. */
  lemma SameSecondCannotStop(a: Signal, b: Signal, second: int)
    requires Sequenced(a) && Sequenced(b) && SequenceOf(a) < SequenceOf(b) && Observed(a) <= Observed(b)
    requires WholeSeconds(Observed(a)) == WholeSeconds(Observed(b)) == second
    ensures var h := [Status(second, Some(a)), Status(second, Some(b))];
      && Produced(h, ClockOf(a, b)) && NewestFirst(h)
      && Latest(Activities(Signals(h))) != Latest(Activities(Signals(h[..1])))
  {
    var x, y := Status(second, Some(a)), Status(second, Some(b));
    var clock := ClockOf(a, b);
    assert ProducedOne(second, a, clock) && ProducedOne(second, b, clock);
    ProducedTwo(x, y, clock);
    assert [x, y][..1] == [x];
    LatestOfTwo(x, y);
  }

  lemma ProducedTwo(a: Status, b: Status, clock: nat -> int)
    requires a.signal.Some? && b.signal.Some? && OneObservation(a.signal.value, b.signal.value)
    requires forall m: nat, n: nat | m <= n :: clock(m) <= clock(n)
    requires ProducedOne(a.created, a.signal.value, clock) && ProducedOne(b.created, b.signal.value, clock)
    ensures Produced([a, b], clock)
  {
  }

  lemma LatestOfTwo(a: Status, b: Status)
    requires a.signal.Some? && b.signal.Some? && Sequenced(a.signal.value) && Sequenced(b.signal.value)
    requires Below(a.signal.value, b.signal.value)
    ensures Activities(Signals([a])) == [a.signal.value]
    ensures Latest(Activities(Signals([a, b]))) != Latest([a.signal.value])
  {
    var s, t := a.signal.value, b.signal.value;
    assert [a][..0] == [] && [a, b][..1] == [a] && [s][..0] == [] && [s, t][..1] == [s];
    assert Signals([a]) == [s] && Signals([a, b]) == [s, t];
    assert Activities([s]) == [s] && Activities([s, t]) == [s, t];
    assert Greatest([s, t]) == t;
  }

  // ---------- `evaluate` ----------

  datatype Build = Build(sha: string, completedAt: int, runId: nat, createdAt: int)

  /** A dev verdict status: success or failure is terminal; a malformed description is refused. */
  datatype Verdict = Reported(terminal: bool, observed: int) | GarbledVerdict

  datatype Check = Green | Red | Unreadable

  function LatestVerdict(vs: seq<Verdict>): Result<Option<Verdict>> {
    if GarbledVerdict in vs then Refused
    else if vs == [] then Found(None)
    else Found(Some(Newest(vs)))
  }

  function Newest(vs: seq<Verdict>): (v: Verdict)
    requires vs != [] && GarbledVerdict !in vs
    ensures v in vs && v.Reported?
  {
    if |vs| == 1 then vs[0]
    else
      var v := Newest(vs[..|vs| - 1]);
      if v.observed < vs[|vs| - 1].observed then vs[|vs| - 1] else v
  }

  /** The latest verdict is a terminal one for this build, and not from the future. */
  predicate Terminal(b: Build, vs: seq<Verdict>, now: int) {
    var v := LatestVerdict(vs);
    v.Found? && v.value.Some? && v.value.value.terminal && b.completedAt <= v.value.value.observed <= now
  }

  /** The alarms that come before any verdict is read; `None` when there is none. */
  function Alarm(beats: seq<Signal>, now: int): Option<Check> {
    if !Consistent(beats) || !Consistent(Activities(beats)) then Some(Unreadable)
    else
      var heartbeat, activity := Latest(beats).value, Latest(Activities(beats)).value;
      var paused := activity.Some? && activity.value.Pause?;
      if paused && activity.value.until <= activity.value.observed then Some(Unreadable)
      else if heartbeat.Some? && Observed(heartbeat.value) > now then Some(Red)
      else if heartbeat.Some? && !IsActivity(heartbeat.value) then Some(Red)
      else if paused && activity.value.observed <= now < activity.value.until then Some(Red)
      else None
  }

  /** The rest of `evaluate`: freshness of a verdict or of the heartbeat, then the build's grace period. */
  function Freshness(build: Option<Build>, beats: seq<Signal>, verdicts: seq<Verdict>, now: int): Check
    requires Consistent(beats) && Consistent(Activities(beats))
  {
    var heartbeat, activity, verdict := Latest(beats).value, Latest(Activities(beats)).value, LatestVerdict(verdicts);
    var paused := activity.Some? && activity.value.Pause?;
    if verdict.Refused? then Unreadable
    else
      var terminal := build.Some? && Terminal(build.value, verdicts, now);
      if terminal && now - verdict.value.value.observed <= HEARTBEAT_GRACE then Green
      else if heartbeat.None? || (heartbeat.value.Pause? && !paused) then Red
      else if !(0 <= now - Observed(heartbeat.value) <= HEARTBEAT_GRACE) then Red
      else if build.None? || terminal then Green
      else if now - build.value.completedAt > GRACE then Red
      else Green
  }

  function Evaluate(build: Option<Build>, beats: seq<Signal>, verdicts: seq<Verdict>, now: int): Check {
    if Alarm(beats, now).Some? then Alarm(beats, now).value else Freshness(build, beats, verdicts, now)
  }

  /** When the latest signal is an activity, the latest activity is it, or an old one of the same time. */
  lemma {:induction false} LatestIsActivity(ss: seq<Signal>)
    requires Consistent(ss) && ss != [] && IsActivity(Greatest(ss))
    ensures Activities(ss) != [] && Consistent(Activities(ss))
    ensures Observed(Greatest(Activities(ss))) == Observed(Greatest(ss))
    ensures Sequenced(Greatest(Activities(ss))) || Sequenced(Greatest(ss)) ==> Greatest(Activities(ss)) == Greatest(ss)
    ensures IsActivity(Greatest(Activities(ss)))
  {
    ActivitiesMembers(ss);
    SubsetConsistent(ss, Activities(ss));
    GreatestTops(ss);
    GreatestTops(Activities(ss));
    var a, g := Greatest(Activities(ss)), Greatest(ss);
    assert a in ss && g in Activities(ss) && !Below(a, g) && !Below(g, a);
  }

  /** A signal that stands against a green result: a failed start, an observation from the future, or a
      pause that has not expired. */
  predicate Alarming(s: Signal, now: int) {
    !IsActivity(s) || Observed(s) > now || (s.Pause? && now < s.until)
  }

  /** The latest signal is not alarming, and no pause ends before it was observed. */
  predicate Quiet(beats: seq<Signal>, now: int) {
    Consistent(beats) && (beats != [] ==> QuietSignal(Greatest(beats), now))
  }

  predicate QuietSignal(s: Signal, now: int) {
    !Alarming(s, now) && (s.Pause? ==> s.observed < s.until)
  }

  /** The alarms look at the latest activity as well, yet the latest signal decides them. */
  lemma NoAlarmIff(beats: seq<Signal>, now: int)
    ensures Alarm(beats, now) == None <==> Quiet(beats, now)
  {
    if Consistent(beats) {
      ActivitiesMembers(beats);
      if beats != [] && IsActivity(Greatest(beats)) {
        LatestIsActivity(beats);
      }
    }
  }

  /** A quiet history holds no unexpired pause that a later diagnostic could hide. */
  lemma {:induction false} QuietActivity(beats: seq<Signal>, now: int)
    requires Quiet(beats, now) && beats != []
    ensures Activities(beats) != [] && !Alarming(Greatest(Activities(beats)), now)
  {
    LatestIsActivity(beats);
  }

  /** A heartbeat of the last two hours. */
  predicate FreshBeat(beats: seq<Signal>, now: int) {
    beats != [] && 0 <= now - Observed(Greatest(beats)) <= HEARTBEAT_GRACE
  }

  /** A terminal verdict of the last two hours. */
  predicate FreshVerdict(b: Build, verdicts: seq<Verdict>, now: int) {
    Terminal(b, verdicts, now) && now - LatestVerdict(verdicts).value.value.observed <= HEARTBEAT_GRACE
  }

  /** The build has its verdict or completed within six hours. */
  predicate OnTime(b: Build, verdicts: seq<Verdict>, now: int) {
    Terminal(b, verdicts, now) || now - b.completedAt <= GRACE
  }

  /** Exactly when an evaluation is green. */
  lemma EvaluateGreenIff(build: Option<Build>, beats: seq<Signal>, verdicts: seq<Verdict>, now: int)
    ensures Evaluate(build, beats, verdicts, now) == Green <==>
      && Quiet(beats, now) && GarbledVerdict !in verdicts
      && (|| (build.Some? && FreshVerdict(build.value, verdicts, now))
          || (FreshBeat(beats, now) && (build.Some? ==> OnTime(build.value, verdicts, now))))
  {
    NoAlarmIff(beats, now);
    if Alarm(beats, now) == None && beats != [] { LatestIsActivity(beats); }
  }

  // ---------- `_main_heartbeat_history` ----------

  /** The whole heartbeat histories of a chain of commits. */
  function Whole(histories: string -> seq<Status>, chain: seq<string>): seq<Status> {
    if chain == [] then [] else Whole(histories, chain[..|chain| - 1]) + histories(chain[|chain| - 1])
  }

  /** First-parent ancestry without repetition. */
  predicate Lineage(parents: string -> Result<seq<string>>, chain: seq<string>) {
    && (forall i, j | 0 <= i < j < |chain| :: chain[i] != chain[j])
    && (forall i | 0 < i < |chain| :: FirstParent(parents, chain[i], chain[i - 1]))
  }

  predicate FirstParent(parents: string -> Result<seq<string>>, parent: string, child: string) {
    var p := parents(child);
    p.Found? && p.value != [] && p.value[0] == parent
  }

  /** The read statuses are those of all commits before the last, which hold no activity, and a sufficient part
      of the last commit's, where the nearest activity is unless the ancestry ended. */
  ghost predicate ReadUpTo(histories: string -> seq<Status>, parents: string -> Result<seq<string>>, chain: seq<string>,
                           read: seq<Status>) {
    && chain != [] && Lineage(parents, chain)
    && var later, last := Whole(histories, chain[..|chain| - 1]), histories(chain[|chain| - 1]);
       && OnlyDiagnostics(Signals(later))
       && later <= read && read[|later|..] <= last && (read[|later|..] == last || CanStop(read[|later|..]))
       && (OnlyDiagnostics(Signals(read)) ==> parents(chain[|chain| - 1]) == Found([]))
  }

  ghost predicate ReadFrom(sha: string, histories: string -> seq<Status>, parents: string -> Result<seq<string>>,
                           chain: seq<string>, read: seq<Status>) {
    ReadUpTo(histories, parents, chain, read) && chain[0] == sha && |chain| <= MAX_HEARTBEAT_COMMITS
  }

  /** A history that every check accepts. */
  ghost predicate Orderly(h: seq<Status>) {
    NewestFirst(h) && Consistent(Signals(h)) && |h| < MAX_HISTORY_PAGES * PAGE
  }

  /** Orderly histories along main's lineage, up to an activity or the root, within a hundred commits. */
  ghost predicate Decidable(sha: string, histories: string -> seq<Status>, parents: string -> Result<seq<string>>,
                            d: seq<string>) {
    && 0 < |d| <= MAX_HEARTBEAT_COMMITS && d[0] == sha && Lineage(parents, d)
    && (forall c | c in d :: Orderly(histories(c)))
    && (Activities(Signals(histories(d[|d| - 1]))) != [] || parents(d[|d| - 1]) == Found([]))
  }

  /** Reads and validates the statuses of one commit; diagnostics are validated too. */
  method ReadCommit(history: seq<Status>) returns (r: Result<seq<Status>>)
    ensures r.Found? ==> r.value <= history && (r.value == history || CanStop(r.value))
    ensures Orderly(history) ==> r.Found?
  {
    r := StatusHistory(history);
    if r.Refused? { return; }
    assert r.value == history[..|r.value|];
    ReadingStaysConsistent(history, |r.value|);
    var valid := LatestStatus(Signals(r.value));
    if valid.Refused? { return Refused; }
    var activity := LatestStatus(Activities(Signals(r.value)));
    if activity.Refused? { return Refused; }
  }

  /** The walk stands before `current`; the commits passed hold no activity. */
  ghost predicate Walking(sha: string, histories: string -> seq<Status>, parents: string -> Result<seq<string>>,
                          chain: seq<string>, current: string, collected: seq<Status>) {
    && collected == Whole(histories, chain) && OnlyDiagnostics(Signals(collected))
    && (chain + [current])[0] == sha && (Lineage(parents, chain + [current]) || current in chain)
  }

  /** The walk follows the decidable lineage `d`, if that is one. */
  ghost predicate OnTrack(sha: string, histories: string -> seq<Status>, parents: string -> Result<seq<string>>,
                          d: seq<string>, chain: seq<string>, current: string) {
    Decidable(sha, histories, parents, d) ==> chain + [current] <= d
  }

  lemma {:induction false} WalkEnds(sha: string, histories: string -> seq<Status>,
                                    parents: string -> Result<seq<string>>, chain: seq<string>, current: string,
                                    collected: seq<Status>, statuses: seq<Status>)
    requires Walking(sha, histories, parents, chain, current, collected) && current !in chain
    requires |chain| < MAX_HEARTBEAT_COMMITS
    requires statuses <= histories(current) && (statuses == histories(current) || CanStop(statuses))
    requires Activities(Signals(statuses)) != [] || parents(current) == Found([])
    ensures ReadFrom(sha, histories, parents, chain + [current], collected + statuses)
  {
    SignalsAppend(collected, statuses);
    NoActivityIn(Signals(statuses));
    assert (chain + [current])[..|chain|] == chain && (collected + statuses)[|collected|..] == statuses;
    if Activities(Signals(statuses)) != [] { StillActive(Signals(collected), Signals(statuses)); }
  }

  lemma WalkOn(sha: string, histories: string -> seq<Status>, parents: string -> Result<seq<string>>,
               chain: seq<string>, current: string, collected: seq<Status>, next: string)
    requires Walking(sha, histories, parents, chain, current, collected) && current !in chain
    requires Activities(Signals(histories(current))) == [] && FirstParent(parents, next, current)
    ensures Walking(sha, histories, parents, chain + [current], next, collected + histories(current))
  {
    SignalsAppend(collected, histories(current));
    NoActivityIn(Signals(histories(current)));
    assert (chain + [current])[..|chain|] == chain;
    LineageNext(parents, chain + [current], next);
  }

  lemma TrackIsOpen(sha: string, histories: string -> seq<Status>, parents: string -> Result<seq<string>>,
                    d: seq<string>, chain: seq<string>, current: string)
    requires OnTrack(sha, histories, parents, d, chain, current) && Decidable(sha, histories, parents, d)
    ensures |chain| < MAX_HEARTBEAT_COMMITS && current !in chain && Orderly(histories(current))
  {
    assert d[|chain|] == current;
    assert forall i | 0 <= i < |chain| :: d[i] == chain[i];
  }

  /** A commit of a decidable lineage that has no activity is the root, or is followed by its first parent. */
  lemma TrackOn(sha: string, histories: string -> seq<Status>, parents: string -> Result<seq<string>>,
                d: seq<string>, chain: seq<string>, current: string)
    requires OnTrack(sha, histories, parents, d, chain, current) && Activities(Signals(histories(current))) == []
    ensures Decidable(sha, histories, parents, d) ==> parents(current).Found?
    ensures parents(current).Found? && parents(current).value != [] ==>
      OnTrack(sha, histories, parents, d, chain + [current], parents(current).value[0])
  {
    if Decidable(sha, histories, parents, d) {
      var n := |chain|;
      assert d[n] == current;
      if n + 1 < |d| { assert FirstParent(parents, d[n + 1], d[n]); }
    }
  }

  /** Reads on along the first parents to the nearest commit with an activity; refuses repetition, unreadable
      ancestry and more than a hundred commits. */
  method MainHeartbeatHistory(sha: string, histories: string -> seq<Status>, parents: string -> Result<seq<string>>)
    returns (r: Result<seq<Status>>)
    ensures r.Found? ==> exists chain :: ReadFrom(sha, histories, parents, chain, r.value)
    ensures (exists d :: Decidable(sha, histories, parents, d)) ==> r.Found?
  {
    var collected: seq<Status> := [];
    var seen: set<string> := {};
    var current := sha;
    ghost var chain: seq<string> := [];
    ghost var d: seq<string> := [];
    if exists d :: Decidable(sha, histories, parents, d) { d :| Decidable(sha, histories, parents, d); }
    for n := 0 to MAX_HEARTBEAT_COMMITS
      invariant |chain| == n && (forall c :: c in seen <==> c in chain)
      invariant Walking(sha, histories, parents, chain, current, collected)
      invariant OnTrack(sha, histories, parents, d, chain, current)
    {
      if Decidable(sha, histories, parents, d) { TrackIsOpen(sha, histories, parents, d, chain, current); }
      if current in seen { return Refused; }
      seen := seen + {current};
      var statuses := ReadCommit(histories(current));
      if statuses.Refused? { return Refused; }
      ghost var later := collected;
      collected := collected + statuses.value;
      if Activities(Signals(statuses.value)) != [] {
        WalkEnds(sha, histories, parents, chain, current, later, statuses.value);
        return Found(collected);
      }
      ReadAll(statuses.value, histories(current));
      TrackOn(sha, histories, parents, d, chain, current);
      var commit := parents(current);
      if commit.Refused? { return Refused; }
      if commit.value == [] {
        WalkEnds(sha, histories, parents, chain, current, later, statuses.value);
        return Found(collected);
      }
      WalkOn(sha, histories, parents, chain, current, later, commit.value[0]);
      chain := chain + [current];
      current := commit.value[0];
    }
    if Decidable(sha, histories, parents, d) { TrackIsOpen(sha, histories, parents, d, chain, current); }
    return Refused;
  }

  lemma StillActive(first: seq<Signal>, ss: seq<Signal>)
    requires !OnlyDiagnostics(ss)
    ensures !OnlyDiagnostics(first + ss)
  {
    var s :| s in ss && !s.StartupFailed?;
    assert s in first + ss;
  }

  /** Without an activity there is no early stop. */
  lemma {:induction false} ReadAll(read: seq<Status>, all: seq<Status>)
    requires (read == all || CanStop(read)) && Activities(Signals(read)) == []
    ensures read == all
  {
  }

  lemma LineageNext(parents: string -> Result<seq<string>>, chain: seq<string>, next: string)
    requires chain != [] && Lineage(parents, chain) && FirstParent(parents, next, chain[|chain| - 1])
    ensures Lineage(parents, chain + [next]) || next in chain
  {
  }

  /** What the checker read decides as the whole histories of the same commits would, for a trusted producer. */
  lemma {:induction false} ReadingSuffices(histories: string -> seq<Status>, parents: string -> Result<seq<string>>,
                                           chain: seq<string>, read: seq<Status>, clock: nat -> int)
    requires ReadUpTo(histories, parents, chain, read)
    requires Produced(histories(chain[|chain| - 1]), clock) && NewestFirst(histories(chain[|chain| - 1]))
    ensures Latest(Signals(read)) == Latest(Signals(Whole(histories, chain)))
    ensures Latest(Activities(Signals(read))) == Latest(Activities(Signals(Whole(histories, chain))))
  {
    var later, last := Whole(histories, chain[..|chain| - 1]), histories(chain[|chain| - 1]);
    var part := read[|later|..];
    assert read == later + part && part == last[..|part|];
    if part != last { EarlyStopSound(later, last, clock, |part|); }
  }

  // ---------- `check` ----------

  predicate NewerThan(a: Build, b: Build) {
    a.createdAt > b.createdAt || (a.createdAt == b.createdAt && a.runId > b.runId)
  }

  predicate NewestBuildFirst(bs: seq<Build>) {
    forall i, j | 0 <= i < j < |bs| :: !NewerThan(bs[j], bs[i])
  }

  predicate OnePerCommit(bs: seq<Build>) {
    forall i, j | 0 <= i < j < |bs| :: bs[i].sha != bs[j].sha
  }

  /** Per commit one newest admitted run, newest first; `None` stands for a run that is not admitted. */
  ghost predicate AdmittedFrom(builds: seq<Build>, runs: seq<Option<Build>>) {
    && NewestBuildFirst(builds) && OnePerCommit(builds)
    && (forall b | b in builds :: Some(b) in runs)
    && (forall r | r in runs && r.Some? :: exists b :: b in builds && b.sha == r.value.sha && !NewerThan(r.value, b))
  }

  predicate Collected(candidates: map<string, Build>, runs: seq<Option<Build>>) {
    && (forall k | k in candidates :: Some(candidates[k]) in runs && candidates[k].sha == k)
    && (forall r | r in runs && r.Some? :: r.value.sha in candidates && !NewerThan(r.value, candidates[r.value.sha]))
  }

  function Candidate(candidates: map<string, Build>, run: Option<Build>): map<string, Build> {
    if run.Some? && (run.value.sha !in candidates || NewerThan(run.value, candidates[run.value.sha]))
    then candidates[run.value.sha := run.value] else candidates
  }

  lemma CollectedNext(candidates: map<string, Build>, runs: seq<Option<Build>>, run: Option<Build>)
    requires Collected(candidates, runs)
    ensures Collected(Candidate(candidates, run), runs + [run])
  {
    assert run in runs + [run];
  }

  /** `_admitted_builds`; page `k` of the listing is the `k`-th hundred of `runs`. */
  method AdmittedBuilds(runs: seq<Option<Build>>) returns (r: Result<seq<Build>>)
    ensures r.Found? <==> |runs| < MAX_HISTORY_PAGES * PAGE
    ensures r.Found? ==> AdmittedFrom(r.value, runs)
  {
    var candidates: map<string, Build> := map[];
    for page := 0 to MAX_HISTORY_PAGES
      invariant page * PAGE <= |runs| && Collected(candidates, runs[..page * PAGE])
    {
      var start := page * PAGE;
      var end := if start + PAGE <= |runs| then start + PAGE else |runs|;
      for i := start to end
        invariant Collected(candidates, runs[..i])
      {
        CollectedNext(candidates, runs[..i], runs[i]);
        assert runs[..i + 1] == runs[..i] + [runs[i]];
        candidates := Candidate(candidates, runs[i]);
      }
      if end - start < PAGE {
        assert runs[..end] == runs;
        var builds := SortBuilds(candidates);
        SortedAdmitted(candidates, runs, builds);
        return Found(builds);
      }
    }
    return Refused;
  }

  ghost predicate ValuesOf(builds: seq<Build>, candidates: map<string, Build>, without: set<string>) {
    forall b :: b in builds <==> b.sha in candidates && b.sha !in without && candidates[b.sha] == b
  }

  lemma SortedAdmitted(candidates: map<string, Build>, runs: seq<Option<Build>>, builds: seq<Build>)
    requires Collected(candidates, runs) && NewestBuildFirst(builds) && OnePerCommit(builds)
    requires ValuesOf(builds, candidates, {})
    ensures AdmittedFrom(builds, runs)
  {
    forall r | r in runs && r.Some? ensures exists b :: b in builds && b.sha == r.value.sha && !NewerThan(r.value, b) {
      var b := candidates[r.value.sha];
      assert b in builds && b.sha == r.value.sha && !NewerThan(r.value, b);
    }
  }

  /** The candidates sorted by creation and run, newest first. */
  method SortBuilds(candidates: map<string, Build>) returns (builds: seq<Build>)
    requires forall k | k in candidates :: candidates[k].sha == k
    ensures NewestBuildFirst(builds) && OnePerCommit(builds) && ValuesOf(builds, candidates, {})
  {
    builds := [];
    var left := candidates.Keys;
    while left != {}
      invariant left <= candidates.Keys && NewestBuildFirst(builds) && OnePerCommit(builds)
      invariant ValuesOf(builds, candidates, left)
      decreases left
    {
      var k :| k in left;
      left := left - {k};
      builds := InsertBuild(builds, candidates[k]);
    }
  }

  method InsertBuild(builds: seq<Build>, b: Build) returns (r: seq<Build>)
    requires NewestBuildFirst(builds) && OnePerCommit(builds)
    requires forall x | x in builds :: x.sha != b.sha
    ensures NewestBuildFirst(r) && OnePerCommit(r)
    ensures forall x :: x in r <==> x in builds || x == b
  {
    var i := 0;
    while i < |builds| && !NewerThan(b, builds[i])
      invariant 0 <= i <= |builds|
      invariant forall j | 0 <= j < i :: !NewerThan(b, builds[j])
    {
      i := i + 1;
    }
    var a, c := builds[..i], builds[i..];
    assert builds == a + c;
    assert forall x | x in c :: x in builds && !NewerThan(x, b) by { RestIsOlder(builds, i, b); }
    InsertedInOrder(a, b, c);
    r := a + ([b] + c);
  }

  lemma RestIsOlder(builds: seq<Build>, i: nat, b: Build)
    requires NewestBuildFirst(builds) && i <= |builds| && (i < |builds| ==> NewerThan(b, builds[i]))
    ensures forall x | x in builds[i..] :: !NewerThan(x, b)
  {
  }

  lemma InsertedInOrder(a: seq<Build>, b: Build, c: seq<Build>)
    requires NewestBuildFirst(a + c) && OnePerCommit(a + c)
    requires forall x | x in a :: !NewerThan(b, x) && x.sha != b.sha
    requires forall x | x in c :: !NewerThan(x, b) && x.sha != b.sha
    ensures NewestBuildFirst(a + ([b] + c)) && OnePerCommit(a + ([b] + c))
  {
    var r, n := a + ([b] + c), |a|;
    forall i, j | 0 <= i < j < |r| ensures !NewerThan(r[j], r[i]) && r[i].sha != r[j].sha {
      if i == n {
        assert r[j] in c;
      } else if j == n {
        assert r[i] in a;
      } else {
        assert r[i] == (a + c)[if i < n then i else i - 1] && r[j] == (a + c)[if j < n then j else j - 1];
      }
    }
  }

  /** Builds before `n` lack a valid terminal verdict and build `n`, if any, has one. */
  ghost predicate Watermark(builds: seq<Build>, n: nat, verdictsOf: string -> seq<Verdict>, now: int) {
    && n <= |builds|
    && (forall j | 0 <= j < n :: !Terminal(builds[j], verdictsOf(builds[j].sha), now))
    && (n < |builds| ==> Terminal(builds[n], verdictsOf(builds[n].sha), now))
  }

  /** The build is newer than every build with a valid terminal verdict. */
  ghost predicate Outstanding(b: Build, builds: seq<Build>, verdictsOf: string -> seq<Verdict>, now: int) {
    b in builds && forall c | c in builds && Terminal(c, verdictsOf(c.sha), now) :: NewerThan(b, c)
  }

  lemma OutstandingIsBeforeWatermark(b: Build, builds: seq<Build>, n: nat, verdictsOf: string -> seq<Verdict>, now: int)
    requires NewestBuildFirst(builds) && Watermark(builds, n, verdictsOf, now)
    requires Outstanding(b, builds, verdictsOf, now)
    ensures b in builds[..n]
  {
    var j :| 0 <= j < |builds| && builds[j] == b;
    assert n < |builds| ==> builds[n] in builds && NewerThan(b, builds[n]);
    assert builds[..n][j] == b;
  }

  /** No malformed verdict up to and including build `n`. */
  ghost predicate Readable(builds: seq<Build>, n: nat, verdictsOf: string -> seq<Verdict>) {
    forall j | 0 <= j <= n && j < |builds| :: GarbledVerdict !in verdictsOf(builds[j].sha)
  }

  /** The scan for the progress watermark; refuses on a malformed verdict. */
  method FindWatermark(builds: seq<Build>, verdictsOf: string -> seq<Verdict>, now: int) returns (r: Result<nat>)
    ensures r.Found? ==> Watermark(builds, r.value, verdictsOf, now) && Readable(builds, r.value, verdictsOf)
    ensures forall n: nat | Watermark(builds, n, verdictsOf, now) && Readable(builds, n, verdictsOf) :: r == Found(n)
  {
    for i := 0 to |builds|
      invariant forall j | 0 <= j < i :: !Terminal(builds[j], verdictsOf(builds[j].sha), now)
      invariant forall j | 0 <= j < i :: GarbledVerdict !in verdictsOf(builds[j].sha)
    {
      if LatestVerdict(verdictsOf(builds[i].sha)).Refused? { return Refused; }
      if Terminal(builds[i], verdictsOf(builds[i].sha), now) { return Found(i); }
    }
    return Found(|builds|);
  }

  method OldestCompleted(bs: seq<Build>) returns (oldest: Build)
    requires bs != []
    ensures oldest in bs && forall b | b in bs :: oldest.completedAt <= b.completedAt
  {
    oldest := bs[0];
    for i := 1 to |bs|
      invariant oldest in bs && forall j | 0 <= j < i :: oldest.completedAt <= bs[j].completedAt
    {
      if bs[i].completedAt < oldest.completedAt { oldest := bs[i]; }
    }
  }

  /** When the result is green: `n` counts the builds newer than the newest one with a terminal verdict. */
  ghost predicate Alive(builds: seq<Build>, n: nat, beats: seq<Signal>, verdictsOf: string -> seq<Verdict>, now: int) {
    && Watermark(builds, n, verdictsOf, now) && Readable(builds, n, verdictsOf) && Quiet(beats, now)
    && (forall j | 0 <= j < n :: now - builds[j].completedAt <= GRACE)
    && (FreshBeat(beats, now) || (n < |builds| && FreshVerdict(builds[n], verdictsOf(builds[n].sha), now)))
  }

  /** Green: work newer than everything with a terminal verdict is younger than six hours. */
  lemma AliveHasNoStaleWork(builds: seq<Build>, n: nat, beats: seq<Signal>, verdictsOf: string -> seq<Verdict>,
                            now: int, b: Build)
    requires NewestBuildFirst(builds) && Alive(builds, n, beats, verdictsOf, now)
    requires Outstanding(b, builds, verdictsOf, now)
    ensures now - b.completedAt <= GRACE
  {
    OutstandingIsBeforeWatermark(b, builds, n, verdictsOf, now);
  }

  /** The decision of `check` on what it read. */
  method Judge(builds: seq<Build>, beats: seq<Signal>, verdictsOf: string -> seq<Verdict>, now: int)
    returns (result: Check)
    ensures result == Green <==> exists n: nat :: Alive(builds, n, beats, verdictsOf, now)
  {
    var watermark := FindWatermark(builds, verdictsOf, now);
    if watermark.Refused? { return Unreadable; }
    var n := watermark.value;
    var outstanding := builds[..n];
    if outstanding != [] {
      var oldest := OldestCompleted(outstanding);
      if now - oldest.completedAt > GRACE {
        result := Evaluate(Some(oldest), beats, [], now);
        EvaluateGreenIff(Some(oldest), beats, [], now);
        return;
      }
      assert forall j | 0 <= j < n :: builds[j] in outstanding;
    }
    var progress := if n < |builds| then Some(builds[n]) else if builds == [] then None else Some(builds[0]);
    var verdicts := if progress.Some? then verdictsOf(progress.value.sha) else [];
    result := Evaluate(progress, beats, verdicts, now);
    EvaluateGreenIff(progress, beats, verdicts, now);
    assert result == Green ==> Alive(builds, n, beats, verdictsOf, now);
  }

  /** What a decision rests on: the admitted builds, and a sufficient reading of main's lineage. */
  ghost predicate Evidence(sha: string, runs: seq<Option<Build>>, histories: string -> seq<Status>,
                           parents: string -> Result<seq<string>>, builds: seq<Build>, chain: seq<string>,
                           read: seq<Status>) {
    AdmittedFrom(builds, runs) && ReadFrom(sha, histories, parents, chain, read)
  }

  ghost predicate IsAlive(builds: seq<Build>, beats: seq<Signal>, verdictsOf: string -> seq<Verdict>, now: int) {
    exists n: nat :: Alive(builds, n, beats, verdictsOf, now)
  }

  ghost predicate MustDecide(sha: string, runs: seq<Option<Build>>, histories: string -> seq<Status>,
                             parents: string -> Result<seq<string>>) {
    |runs| < MAX_HISTORY_PAGES * PAGE && exists d :: Decidable(sha, histories, parents, d)
  }

  /** The history of a trusted producer, as the listing gives it. */
  ghost predicate Trusted(h: seq<Status>) { NewestFirst(h) && exists clock :: Produced(h, clock) }

  /** Whether the controller is alive depends on the signals only through the latest one. */
  lemma LatestDecides(builds: seq<Build>, a: seq<Signal>, b: seq<Signal>, verdictsOf: string -> seq<Verdict>, now: int)
    requires Latest(a) == Latest(b)
    ensures IsAlive(builds, a, verdictsOf, now) <==> IsAlive(builds, b, verdictsOf, now)
  {
    assert (Quiet(a, now) <==> Quiet(b, now)) && (Quiet(a, now) ==> (FreshBeat(a, now) <==> FreshBeat(b, now)));
    forall n: nat ensures Alive(builds, n, a, verdictsOf, now) <==> Alive(builds, n, b, verdictsOf, now) { }
  }

  /** For a trusted producer the controller is alive by what was read exactly if it is by the whole histories. */
  lemma {:induction false} AliveByTheWhole(histories: string -> seq<Status>, parents: string -> Result<seq<string>>,
                                           chain: seq<string>, read: seq<Status>, builds: seq<Build>,
                                           verdictsOf: string -> seq<Verdict>, now: int)
    requires ReadUpTo(histories, parents, chain, read) && Trusted(histories(chain[|chain| - 1]))
    ensures IsAlive(builds, Signals(read), verdictsOf, now)
      <==> IsAlive(builds, Signals(Whole(histories, chain)), verdictsOf, now)
  {
    var clock :| Produced(histories(chain[|chain| - 1]), clock);
    ReadingSuffices(histories, parents, chain, read, clock);
    LatestDecides(builds, Signals(read), Signals(Whole(histories, chain)), verdictsOf, now);
  }

  /** `check`: whenever it gives a colour, and always when the run listing ends and the lineage is decidable, the
      result is green exactly if the controller is alive by the evidence read; and, for a trusted producer, exactly
      if it is alive by the whole histories of the commits read. */
  method CheckDelivery(sha: string, runs: seq<Option<Build>>, histories: string -> seq<Status>,
                       parents: string -> Result<seq<string>>, verdictsOf: string -> seq<Verdict>, now: int)
    returns (result: Check)
    ensures result != Unreadable || MustDecide(sha, runs, histories, parents) ==>
      exists builds, chain, read ::
        && Evidence(sha, runs, histories, parents, builds, chain, read)
        && (result == Green <==> IsAlive(builds, Signals(read), verdictsOf, now))
        && (Trusted(histories(chain[|chain| - 1])) ==>
              (result == Green <==> IsAlive(builds, Signals(Whole(histories, chain)), verdictsOf, now)))
  {
    var admitted := AdmittedBuilds(runs);
    if admitted.Refused? { return Unreadable; }
    var heartbeat := MainHeartbeatHistory(sha, histories, parents);
    if heartbeat.Refused? { return Unreadable; }
    ghost var chain :| ReadFrom(sha, histories, parents, chain, heartbeat.value);
    assert Evidence(sha, runs, histories, parents, admitted.value, chain, heartbeat.value);
    result := Judge(admitted.value, Signals(heartbeat.value), verdictsOf, now);
    if Trusted(histories(chain[|chain| - 1])) {
      AliveByTheWhole(histories, parents, chain, heartbeat.value, admitted.value, verdictsOf, now);
    }
  }
}
