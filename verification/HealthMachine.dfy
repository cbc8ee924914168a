/** The hysteresis state machine and its sample sequencing, from `app/health_contract.py`. */
module HealthMachine {
  import opened Wrappers

  datatype Health = Boot | CatchUp | Degraded | Recovery | Running | Unhealthy | SafeMode

  datatype Reason =
    | Initializing
    | OutboxIdle(age: real)
    | CatchingUp(age: real)
    | Recovered
    | Recovering
    | RecentActivity

  datatype Thresholds = Thresholds(degradeLimit: real, recoverLimit: real, degradeSamples: int, recoverSamples: int)

  /** One applied observation, with the settings in force when it was applied. */
  datatype Sample = Sample(age: real, thresholds: Thresholds, now: int)

  datatype Transition = Transition(state: Health, reason: Reason, since: int)

  const HISTORY_LIMIT := 20

  // ---------- what the state means: a closed form of the tail of the samples ----------

  datatype Kind = Bad | Good | Neutral

  function KindOf(x: Sample): Kind {
    if x.age > x.thresholds.degradeLimit then Bad
    else if x.age < x.thresholds.recoverLimit then Good
    else Neutral
  }

  function Last<T>(s: seq<T>): T
    requires s != []
  {
    s[|s| - 1]
  }

  function Front<T>(s: seq<T>): seq<T>
    requires s != []
  {
    s[..|s| - 1]
  }

  /** Length of the maximal block of `kind` at the end. */
  function Trailing(s: seq<Sample>, kind: Kind): (n: nat)
    ensures n <= |s|
  {
    if s != [] && KindOf(Last(s)) == kind then Trailing(Front(s), kind) + 1 else 0
  }

  /** The bad block at the end is long enough to degrade. */
  predicate EndsDegraded(s: seq<Sample>) {
    s != [] && KindOf(Last(s)) == Bad && Trailing(s, Bad) >= Last(s).thresholds.degradeSamples
  }

  /** No sample from `b` on, counted from there, completes a recovery. */
  predicate Incomplete(s: seq<Sample>, b: nat) {
    forall j | b <= j < |s| :: j - b + 1 < s[j].thresholds.recoverSamples
  }

  /** A degrading bad block, then good samples none of which completed the recovery. */
  predicate EndsRecovering(s: seq<Sample>) {
    var b := |s| - Trailing(s, Good);
    b < |s| && EndsDegraded(s[..b]) && Incomplete(s, b)
  }

  function StateAfter(s: seq<Sample>): Health {
    if s == [] then Boot
    else match KindOf(Last(s))
      case Bad => if EndsDegraded(s) then Degraded else CatchUp
      case Good => if EndsRecovering(s) then Recovery else Running
      case Neutral => Running
  }

  function ReasonAfter(s: seq<Sample>): Reason
    requires s != []
  {
    match StateAfter(s)
    case Degraded => OutboxIdle(Last(s).age)
    case CatchUp => CatchingUp(Last(s).age)
    case Recovery => Recovering
    case _ =>
      if KindOf(Last(s)) == Good && StateAfter(Front(s)) in {Degraded, Recovery} then Recovered else RecentActivity
  }

  /** Every change of state, newest first, without bound. */
  function Transitions(s: seq<Sample>): seq<Transition> {
    if s == [] then []
    else if StateAfter(s) == StateAfter(Front(s)) then Transitions(Front(s))
    else [Transition(StateAfter(s), ReasonAfter(s), Last(s).now)] + Transitions(Front(s))
  }

  function Latest<T>(s: seq<T>): seq<T> {
    if |s| > HISTORY_LIMIT then s[..HISTORY_LIMIT] else s
  }

  // ---------- one more sample ----------

  lemma {:induction false} TrailingAppend(s: seq<Sample>, x: Sample)
    ensures Front(s + [x]) == s && Last(s + [x]) == x
    ensures forall k :: Trailing(s + [x], k) == if KindOf(x) == k then Trailing(s, k) + 1 else 0
  {
    assert Front(s + [x]) == s;
  }

  /** A good sample keeps a recovery going, completes it, or is ordinary activity. */
  lemma {:induction false} GoodAppend(s: seq<Sample>, x: Sample)
    requires KindOf(x) == Good
    ensures EndsRecovering(s + [x]) <==>
      StateAfter(s) in {Degraded, Recovery} && Trailing(s, Good) + 1 < x.thresholds.recoverSamples
  {
    TrailingAppend(s, x);
    var g := Trailing(s, Good);
    var before := s[..|s| - g];
    assert (s + [x])[..|s| - g] == before;
    if g == 0 {
      assert before == s;
      assert !EndsRecovering(s);
    } else {
      assert KindOf(Last(s)) == Good;
      GoodBlockContinues(s, x, |before|);
    }
  }

  lemma GoodBlockContinues(s: seq<Sample>, x: Sample, b: nat)
    requires b <= |s|
    ensures Incomplete(s + [x], b) <==> Incomplete(s, b) && |s| - b + 1 < x.thresholds.recoverSamples
  {
    var t := s + [x];
    if Incomplete(t, b) {
      assert t[|s|] == x;
      forall j | b <= j < |s| ensures j - b + 1 < s[j].thresholds.recoverSamples { assert t[j] == s[j]; }
    }
  }

  lemma LatestPrepend<T>(e: T, s: seq<T>)
    ensures Latest([e] + Latest(s)) == Latest([e] + s)
  {
  }

  /** Adjacent entries of the history have distinct states, and the oldest leaves `Boot`. */
  lemma {:induction false} TransitionsAlternate(s: seq<Sample>)
    ensures var h := Transitions(s);
      && (forall i | 0 <= i < |h| - 1 :: h[i].state != h[i + 1].state)
      && (if h == [] then StateAfter(s) == Boot else h[0].state == StateAfter(s) && Last(h).state != Boot)
  {
    if s != [] {
      TransitionsAlternate(Front(s));
    }
  }

  /** The machine's own state is never one that blocks writes. */
  lemma StateNeverBlocks(s: seq<Sample>)
    ensures StateAfter(s) != Unhealthy && StateAfter(s) != SafeMode
  {
  }

  ghost predicate Fixed(s: seq<Sample>, d: int, r: int) {
    forall i | 0 <= i < |s| :: s[i].thresholds.degradeSamples == d && s[i].thresholds.recoverSamples == r
  }

  lemma {:induction false} DegradedFixed(s: seq<Sample>, d: int, r: int)
    requires Fixed(s, d, r)
    ensures EndsDegraded(s) <==> Trailing(s, Bad) >= 1 && Trailing(s, Bad) >= d
  {
  }

  lemma IncompleteFixed(s: seq<Sample>, b: nat, d: int, r: int)
    requires Fixed(s, d, r) && b < |s|
    ensures Incomplete(s, b) <==> |s| - b < r
  {
    if Incomplete(s, b) { assert |s| - 1 - b + 1 < s[|s| - 1].thresholds.recoverSamples; }
  }

  /** With fixed thresholds: degraded exactly when the trailing bad block is long enough, else catching up. */
  lemma {:induction false} FixedDegraded(s: seq<Sample>, d: int, r: int)
    requires Fixed(s, d, r)
    ensures StateAfter(s) == Degraded <==> Trailing(s, Bad) >= 1 && Trailing(s, Bad) >= d
    ensures StateAfter(s) == CatchUp <==> 1 <= Trailing(s, Bad) < d
  {
    DegradedFixed(s, d, r);
    if s != [] { StateByKind(s); }
  }

  /** With fixed thresholds: recovering exactly when a long enough bad block is followed by some good
      samples, but fewer than the recovery needs. */
  lemma {:induction false} FixedRecovery(s: seq<Sample>, d: int, r: int, b: nat)
    requires Fixed(s, d, r) && b == |s| - Trailing(s, Good)
    ensures StateAfter(s) == Recovery <==>
      1 <= |s| - b < r && Trailing(s[..b], Bad) >= 1 && Trailing(s[..b], Bad) >= d
  {
    DegradedFixed(s[..b], d, r);
    if b < |s| {
      IncompleteFixed(s, b, d, r);
      StateByKind(s);
    }
  }

  lemma {:induction false} StateByKind(s: seq<Sample>)
    requires s != []
    ensures forall k :: Trailing(s, k) > 0 <==> KindOf(Last(s)) == k
    ensures StateAfter(s) == Degraded <==> EndsDegraded(s)
    ensures StateAfter(s) == CatchUp <==> Trailing(s, Bad) > 0 && !EndsDegraded(s)
    ensures StateAfter(s) == Recovery <==> EndsRecovering(s)
    ensures StateAfter(s) != Boot
  {
  }

  // ---------- sequencing ----------

  datatype Event =
    | Reserve
    | Arrive(number: nat)   // a sample with a reserved number
    | ArriveUnnumbered      // a sample that takes its number on arrival
    | Advance(number: nat)
    | Reset

  /** How many numbers the events have handed out. */
  function Reserved(es: seq<Event>): nat {
    if es == [] then 0
    else Reserved(Front(es)) + (if Last(es) == Reserve || Last(es) == ArriveUnnumbered then 1 else 0)
  }

  function Max(a: nat, b: nat): nat { if a < b then b else a }

  /** What one event makes of the watermark `w` when `reserved` numbers have been handed out. */
  function Raised(w: nat, reserved: nat, e: Event): nat {
    match e
    case Reserve => w
    case Arrive(n) => Max(w, n)
    case ArriveUnnumbered => Max(w, reserved + 1)
    case Advance(n) => Max(w, n)
    case Reset => reserved
  }

  /** The watermark at or below which samples are discarded. */
  function Watermark(es: seq<Event>): nat {
    if es == [] then 0 else Raised(Watermark(Front(es)), Reserved(Front(es)), Last(es))
  }

  lemma {:induction false} EventAppend(es: seq<Event>, e: Event)
    ensures (es + [e])[..|es|] == es
    ensures Reserved(es + [e]) == Reserved(es) + (if e == Reserve || e == ArriveUnnumbered then 1 else 0)
    ensures Watermark(es + [e]) == Raised(Watermark(es), Reserved(es), e)
  {
    assert Front(es + [e]) == es && Last(es + [e]) == e;
  }

  /** Whether the last event is an applied sample. */
  lemma {:induction false} AppliesLast(es: seq<Event>, e: Event)
    ensures Applies(es + [e], |es|) <==>
      (e.Arrive? && e.number > Watermark(es)) || (e.ArriveUnnumbered? && Reserved(es) + 1 > Watermark(es))
  {
    assert (es + [e])[..|es|] == es && (es + [e])[|es|] == e;
  }

  /** Callers only pass numbers that were handed out. */
  predicate UsesReserved(es: seq<Event>) {
    forall i | 0 <= i < |es| && (es[i].Arrive? || es[i].Advance?) :: es[i].number <= Reserved(es[..i])
  }

  /** The number presented by event `i`, or the numbers it invalidates. */
  function Presented(es: seq<Event>, i: nat): nat
    requires i < |es|
  {
    match es[i]
    case Reserve => 0
    case Arrive(n) => n
    case ArriveUnnumbered => Reserved(es[..i]) + 1
    case Advance(n) => n
    case Reset => Reserved(es[..i])
  }

  /** Event `i` is a sample that gets applied. */
  predicate Applies(es: seq<Event>, i: nat)
    requires i < |es|
  {
    (es[i].Arrive? || es[i].ArriveUnnumbered?) && Presented(es, i) > Watermark(es[..i])
  }

  /** At every reset the watermark is at most the count of numbers handed out. */
  predicate ResetsSafe(es: seq<Event>) {
    forall i | 0 <= i < |es| && es[i].Reset? :: Watermark(es[..i]) <= Reserved(es[..i])
  }

  ghost predicate NeverFalls(es: seq<Event>) {
    forall i | 0 <= i < |es| :: Watermark(es[..i]) <= Watermark(es[..i + 1])
  }

  /** Exactly when the watermark never falls. */
  lemma NeverFallsIff(es: seq<Event>)
    ensures NeverFalls(es) <==> ResetsSafe(es)
  {
    forall i | 0 <= i < |es|
      ensures Watermark(es[..i + 1]) == Raised(Watermark(es[..i]), Reserved(es[..i]), es[i])
    {
      assert es[..i + 1] == es[..i] + [es[i]];
      EventAppend(es[..i], es[i]);
    }
    if NeverFalls(es) {
      forall i | 0 <= i < |es| && es[i].Reset? ensures Watermark(es[..i]) <= Reserved(es[..i]) {
        assert Watermark(es[..i]) <= Watermark(es[..i + 1]);
      }
    }
  }

  lemma {:induction false} WatermarkBounded(es: seq<Event>)
    requires UsesReserved(es)
    ensures Watermark(es) <= Reserved(es)
  {
    if es != [] {
      UsesReservedPrefix(es, |es| - 1);
      WatermarkBounded(es[..|es| - 1]);
      if Last(es).Arrive? || Last(es).Advance? { assert es[|es| - 1].number <= Reserved(es[..|es| - 1]); }
    }
  }

  /** Callers who pass only numbers that were handed out keep it so. */
  lemma UsesReservedIsSafe(es: seq<Event>)
    requires UsesReserved(es)
    ensures ResetsSafe(es)
  {
    forall i | 0 <= i < |es| && es[i].Reset? ensures Watermark(es[..i]) <= Reserved(es[..i]) {
      UsesReservedPrefix(es, i);
      WatermarkBounded(es[..i]);
    }
  }

  lemma UsesReservedPrefix(es: seq<Event>, k: nat)
    requires UsesReserved(es) && k <= |es|
    ensures UsesReserved(es[..k])
  {
    forall i | 0 <= i < k && (es[..k][i].Arrive? || es[..k][i].Advance?)
      ensures es[..k][i].number <= Reserved(es[..k][..i])
    {
      assert es[..k][..i] == es[..i];
      assert es[i].number <= Reserved(es[..i]);
    }
  }

  lemma WatermarkStep(es: seq<Event>, k: nat)
    requires ResetsSafe(es) && 0 < k <= |es|
    ensures Watermark(es[..k]) == Max(Watermark(es[..k - 1]), Presented(es, k - 1))
  {
    assert es[..k] == es[..k - 1] + [es[k - 1]];
    EventAppend(es[..k - 1], es[k - 1]);
  }

  /** The watermark is the greatest number presented so far, or invalidated by a reset. */
  lemma {:induction false} WatermarkIsGreatest(es: seq<Event>, k: nat)
    requires ResetsSafe(es) && k <= |es|
    ensures forall i | 0 <= i < k :: Presented(es, i) <= Watermark(es[..k])
    ensures Watermark(es[..k]) == 0 || exists i :: 0 <= i < k && Presented(es, i) == Watermark(es[..k])
  {
    if k > 0 {
      WatermarkIsGreatest(es, k - 1);
      WatermarkStep(es, k);
    }
  }

  /** A sample applies exactly when its number is greater than everything presented or invalidated before it. */
  lemma AppliesIff(es: seq<Event>, i: nat)
    requires ResetsSafe(es) && i < |es| && (es[i].Arrive? || es[i].ArriveUnnumbered?)
    ensures Applies(es, i) <==> 0 < Presented(es, i) && forall j | 0 <= j < i :: Presented(es, j) < Presented(es, i)
  {
    WatermarkIsGreatest(es, i);
  }

  /** Applied samples are strictly increasing in number; hence each applies at most once, and none whose
      number was handed out before a reset applies after it. */
  lemma AppliedInOrder(es: seq<Event>, i: nat, j: nat)
    requires ResetsSafe(es) && i < j < |es| && Applies(es, j)
    ensures Applies(es, i) ==> Presented(es, i) < Presented(es, j)
    ensures es[i].Reset? ==> Reserved(es[..i]) < Presented(es, j)
  {
    AppliesIff(es, j);
    assert Presented(es, i) < Presented(es, j);
  }

  /** Otherwise the order can break: a number that was never handed out is applied, a reset lowers the watermark
      to what was handed out, and then a smaller number is applied. */
  lemma UnreservedBreaksOrder(n: nat)
    requires n > 1
    ensures var es := [Arrive(n), Reset, Reserve, Arrive(1)];
      && !UsesReserved(es) && !ResetsSafe(es)
      && Applies(es, 0) && Applies(es, 3) && Presented(es, 3) < Presented(es, 0)
  {
    var es := [Arrive(n), Reset, Reserve, Arrive(1)];
    assert es[..0] == [] && es[..1] == [Arrive(n)];
    assert Front(es[..1]) == [] && Last(es[..1]) == Arrive(n);
    assert es[0].number > Reserved(es[..0]);
    assert Watermark(es[..1]) == n && Reserved(es[..1]) == 0 && es[1].Reset?;
    assert Front(es[..2]) == es[..1] && Last(es[..2]) == Reset;
    assert Watermark(es[..2]) == 0;
    assert Front(es[..3]) == es[..2] && Last(es[..3]) == Reserve;
    assert Watermark(es[..3]) == 0;
  }

  // ---------- the object ----------

  /** The closed forms before any sample. */
  lemma NothingApplied()
    ensures StateAfter([]) == Boot && Trailing([], Bad) == 0 && Trailing([], Good) == 0
    ensures Transitions([]) == [] && Latest(Transitions([])) == []
  {
  }

  /** `HealthStateMachine`. The ghost fields are its history: what was asked of it, and which samples
      it applied since the last reset. */
  class HealthStateMachine {
    var state: Health
    var reason: Reason
    var since: int
    var badCounter: nat
    var goodCounter: nat
    var transitionHistory: seq<Transition>
    var nextSampleSequence: nat
    var lastAppliedSampleSequence: nat
    ghost var samples: seq<Sample>
    ghost var events: seq<Event>
    ghost var resetAt: int

    ghost predicate Valid()
      reads this
    {
      && CoreValid()
      && nextSampleSequence == Reserved(events)
      && lastAppliedSampleSequence == Watermark(events)
    }

    /** State, counters and history are the closed forms of the applied samples. */
    ghost predicate CoreValid()
      reads this
    {
      var h := Transitions(samples);
      && state == StateAfter(samples)
      && badCounter == Trailing(samples, Bad)
      && goodCounter == Trailing(samples, Good)
      && transitionHistory == Latest(h)
      && reason == (if h == [] then Initializing else h[0].reason)
      && since == (if h == [] then resetAt else h[0].since)
    }

    constructor (now: int)
      ensures Valid() && samples == [] && events == []
    {
      state, reason, since := Boot, Initializing, now;
      badCounter, goodCounter := 0, 0;
      transitionHistory := [];
      nextSampleSequence, lastAppliedSampleSequence := 0, 0;
      samples, events, resetAt := [], [], now;
    }

    method Reset(now: int)
      requires Valid()
      modifies this
      ensures Valid() && samples == [] && events == old(events) + [Event.Reset]
      ensures state == Boot && transitionHistory == []
    {
      EventAppend(events, Event.Reset);
      events := events + [Event.Reset];
      ResetUnlocked(now);
      // Invalidate evaluations that reserved a sample before this reset.
      lastAppliedSampleSequence := nextSampleSequence;
    }

    method ResetUnlocked(now: int)
      modifies this`state, this`reason, this`since, this`badCounter, this`goodCounter,
               this`transitionHistory, this`samples, this`resetAt
      ensures CoreValid() && samples == [] && state == Boot && transitionHistory == []
    {
      NothingApplied();
      state, reason, since := Boot, Initializing, now;
      badCounter, goodCounter, transitionHistory := 0, 0, [];
      samples, resetAt := [], now;
    }

    method ReserveSampleSequence() returns (n: nat)
      requires Valid()
      modifies this
      ensures Valid() && events == old(events) + [Reserve] && samples == old(samples)
      ensures n == Reserved(events)
    {
      EventAppend(events, Reserve);
      events := events + [Reserve];
      nextSampleSequence := nextSampleSequence + 1;
      n := nextSampleSequence;
    }

    method AdvanceSampleSequence(n: nat) returns (current: Health, history: seq<Transition>)
      requires Valid()
      modifies this
      ensures Valid() && events == old(events) + [Advance(n)] && samples == old(samples)
      ensures current == StateAfter(samples) && history == Latest(Transitions(samples))
    {
      EventAppend(events, Advance(n));
      events := events + [Advance(n)];
      if n > lastAppliedSampleSequence {
        lastAppliedSampleSequence := n;
      }
      current, history := state, transitionHistory;
    }

    /** `update_with_transition`: a stale sample changes nothing; a newer one is applied. */
    method UpdateWithTransition(age: real, thresholds: Thresholds, now: int, number: Option<nat>)
      returns (result: Health, transitioned: bool, history: seq<Transition>, applied: bool)
      requires Valid()
      modifies this
      ensures Valid()
      ensures events == old(events) + [if number.Some? then Arrive(number.value) else ArriveUnnumbered]
      ensures applied <==> Applies(events, |old(events)|)
      ensures samples == if applied then old(samples) + [Sample(age, thresholds, now)] else old(samples)
      ensures result == StateAfter(samples) && history == Latest(Transitions(samples))
      ensures transitioned <==> StateAfter(samples) != StateAfter(old(samples))
    {
      var n, isNew := TakeNumber(number);
      if !isNew {
        return state, false, transitionHistory, false;
      }
      var previous := state;
      UpdateUnlocked(age, thresholds, now);
      lastAppliedSampleSequence := n;
      return state, state != previous, transitionHistory, true;
    }

    /** The number of the arriving sample, reserved now if it has none, and whether it is above the watermark. */
    method TakeNumber(number: Option<nat>) returns (n: nat, isNew: bool)
      requires nextSampleSequence == Reserved(events) && lastAppliedSampleSequence == Watermark(events)
      modifies this`nextSampleSequence, this`events
      ensures events == old(events) + [if number.Some? then Arrive(number.value) else ArriveUnnumbered]
      ensures nextSampleSequence == Reserved(events)
      ensures Watermark(events) == if isNew then n else lastAppliedSampleSequence
      ensures isNew <==> Applies(events, |old(events)|)
    {
      ghost var event := if number.Some? then Arrive(number.value) else ArriveUnnumbered;
      EventAppend(events, event);
      AppliesLast(events, event);
      events := events + [event];
      if number.Some? {
        n := number.value;
      } else {
        nextSampleSequence := nextSampleSequence + 1;
        n := nextSampleSequence;
      }
      isNew := n > lastAppliedSampleSequence;
    }

    /** `_update_unlocked`: the counters and branches of the source. */
    method UpdateUnlocked(age: real, thresholds: Thresholds, now: int)
      requires CoreValid()
      modifies this`state, this`reason, this`since, this`badCounter, this`goodCounter,
               this`transitionHistory, this`samples
      ensures CoreValid() && samples == old(samples) + [Sample(age, thresholds, now)]
    {
      ghost var x := Sample(age, thresholds, now);
      TrailingAppend(samples, x);
      if KindOf(x) == Good { GoodAppend(samples, x); }
      samples := samples + [x];
      var nextState, nextReason;
      if age > thresholds.degradeLimit {
        badCounter := badCounter + 1;
        goodCounter := 0;
        if badCounter >= thresholds.degradeSamples {
          nextState, nextReason := Degraded, OutboxIdle(age);
        } else {
          nextState, nextReason := CatchUp, CatchingUp(age);
        }
      } else if age < thresholds.recoverLimit {
        goodCounter := goodCounter + 1;
        badCounter := 0;
        if state in {Degraded, Recovery} {
          if goodCounter >= thresholds.recoverSamples {
            nextState, nextReason := Running, Recovered;
          } else {
            nextState, nextReason := Recovery, Recovering;
          }
        } else {
          nextState, nextReason := Running, RecentActivity;
        }
      } else {
        badCounter := 0;
        goodCounter := 0;
        nextState, nextReason := Running, RecentActivity;
      }
      assert nextState == StateAfter(samples);
      if nextState != state {
        assert nextReason == ReasonAfter(samples);
        state, reason, since := nextState, nextReason, now;
        RecordTransition(Transitions(old(samples)));
      }
    }

    /** `_record_transition`: cutting at every entry loses nothing but what the latest twenty leave out of all. */
    method RecordTransition(ghost all: seq<Transition>)
      requires transitionHistory == Latest(all)
      modifies this`transitionHistory
      ensures transitionHistory == Latest([Transition(state, reason, since)] + all)
    {
      LatestPrepend(Transition(state, reason, since), all);
      transitionHistory := [Transition(state, reason, since)] + transitionHistory;
      if |transitionHistory| > HISTORY_LIMIT {
        transitionHistory := transitionHistory[..HISTORY_LIMIT];
      }
    }
  }
}
