/** Publication of health snapshots and the one-incident-per-outage rule, from `app/health_contract.py`,
    with the write guard of `app/write_guard.py` that reads them. */
module HealthContract {
  import opened HealthMachine
  import opened Wrappers

  /** What one evaluation found out about the dependency. */
  datatype Observation = Observation(number: nat, down: Option<string>)

  /** A finished evaluation. The reason is kept only where a dependency failure put it there. */
  datatype Snapshot = Snapshot(number: nat, state: Health, override: Option<string>)

  predicate WriteBlocked(state: Health) { state == SafeMode || state == Unhealthy }

  // ---------- observations: what is accepted, and when an outage starts ----------

  /** The greatest number observed so far. */
  function Frontier(os: seq<Observation>): nat {
    if os == [] then 0 else Max(Frontier(Front(os)), Last(os).number)
  }

  /** The observations that were newer than everything before them, in order of arrival. */
  function Accepted(os: seq<Observation>): seq<Observation> {
    if os == [] then []
    else if Last(os).number > Frontier(Front(os)) then Accepted(Front(os)) + [Last(os)]
    else Accepted(Front(os))
  }

  /** Observation `i` of an accepted sequence opens a down period. */
  predicate OpensOutage(accepted: seq<Observation>, i: nat)
    requires i < |accepted|
  {
    accepted[i].down.Some? && (i == 0 || accepted[i - 1].down.None?)
  }

  /** The first observation of every maximal down period. */
  function Outages(accepted: seq<Observation>): seq<nat> {
    if accepted == [] then []
    else Outages(Front(accepted)) + (if OpensOutage(accepted, |accepted| - 1) then [Last(accepted).number] else [])
  }

  lemma {:induction false} AcceptedInOrder(os: seq<Observation>)
    ensures var a := Accepted(os);
      && Frontier(os) == (if a == [] then 0 else Last(a).number)
      && (forall i, j | 0 <= i < j < |a| :: a[i].number < a[j].number)
      && (forall x | x in a :: x in os && x.number > 0)
  {
    if os != [] {
      AcceptedInOrder(Front(os));
      var a := Accepted(Front(os));
      assert forall x | x in Front(os) :: x in os;
    }
  }

  /** Every accepted outage start is reported, and nothing else is. */
  lemma {:induction false} OutagesExact(accepted: seq<Observation>, n: nat)
    ensures n in Outages(accepted)
       <==> exists i :: 0 <= i < |accepted| && OpensOutage(accepted, i) && accepted[i].number == n
  {
    if accepted != [] {
      var front, last := Front(accepted), |accepted| - 1;
      OutagesExact(front, n);
      forall i | 0 <= i < |front|
        ensures OpensOutage(front, i) == OpensOutage(accepted, i) && front[i] == accepted[i]
      {
      }
      if OpensOutage(accepted, last) && accepted[last].number == n {
        assert n in Outages(accepted);
      }
      if n in Outages(front) {
        var i :| 0 <= i < |front| && OpensOutage(front, i) && front[i].number == n;
        assert OpensOutage(accepted, i) && accepted[i].number == n;
      }
      if i :| 0 <= i < |accepted| && OpensOutage(accepted, i) && accepted[i].number == n {
        if i < last { assert OpensOutage(front, i) && front[i].number == n; }
      }
    }
  }

  lemma {:induction false} ObserveAppend(os: seq<Observation>, o: Observation)
    ensures Frontier(os + [o]) == Max(Frontier(os), o.number)
    ensures Accepted(os + [o]) == if o.number > Frontier(os) then Accepted(os) + [o] else Accepted(os)
    ensures (os + [o])[..|os|] == os
  {
    assert Front(os + [o]) == os && Last(os + [o]) == o;
  }

  lemma {:induction false} OutagesAppend(a: seq<Observation>, o: Observation)
    ensures Outages(a + [o])
         == Outages(a) + (if o.down.Some? && (a == [] || Last(a).down.None?) then [o.number] else [])
  {
    assert Front(a + [o]) == a && Last(a + [o]) == o;
    if a != [] { assert (a + [o])[|a| - 1] == Last(a); }
  }

  /** Observation `o`, arriving after `os`, is captured as an incident. */
  predicate Captures(os: seq<Observation>, o: Observation, current: Health) {
    var a := Accepted(os);
    && o.number > Frontier(os) && o.down.Some? && current != Unhealthy
    && (a == [] || Last(a).down.None?)
  }

  // ---------- completions: a register that keeps the greatest ----------

  /** The completed snapshot with the greatest number; the later one of two with the same number. */
  function Greatest(cs: seq<Snapshot>): Snapshot
    requires cs != []
  {
    if |cs| == 1 then cs[0]
    else if Last(cs).number < Greatest(Front(cs)).number then Greatest(Front(cs))
    else Last(cs)
  }

  lemma {:induction false} GreatestIsGreatest(cs: seq<Snapshot>)
    requires cs != []
    ensures Greatest(cs) in cs
    ensures forall c | c in cs :: c.number <= Greatest(cs).number
  {
    if |cs| > 1 {
      GreatestIsGreatest(Front(cs));
      assert cs == Front(cs) + [Last(cs)];
    }
  }

  /** An evaluation that finishes after a newer one has been published returns the newer one; so while the
      newest published snapshot blocks writes, no older evaluation can let them through. */
  lemma {:induction false} OlderCannotUnblock(cs: seq<Snapshot>, late: Snapshot)
    requires cs != [] && WriteBlocked(Greatest(cs).state) && late.number < Greatest(cs).number
    ensures Greatest(cs + [late]) == Greatest(cs) && WriteBlocked(Greatest(cs + [late]).state)
  {
    assert Front(cs + [late]) == cs;
  }

  // ---------- the object ----------

  /** The incident and completion fields of `HealthContract`; the ghost fields record the calls. */
  class Contract {
    var incidentReported: bool
    var incidentSequence: nat
    var downReason: Option<string>
    var latestCompletedSequence: nat
    var latestCompletedSnapshot: Option<Snapshot>
    ghost var observations: seq<Observation>
    ghost var completions: seq<Snapshot>

    ghost predicate Valid()
      reads this
    {
      IncidentValid() && CompletionValid()
    }

    ghost predicate IncidentValid()
      reads this
    {
      var a := Accepted(observations);
      && incidentSequence == Frontier(observations)
      && downReason == (if a == [] then None else Last(a).down)
      && (incidentReported <==> downReason.Some?)
    }

    ghost predicate CompletionValid()
      reads this
    {
      if completions == [] then latestCompletedSequence == 0 && latestCompletedSnapshot == None
      else
        && latestCompletedSnapshot == Some(Greatest(completions))
        && latestCompletedSequence == Greatest(completions).number
    }

    constructor ()
      ensures Valid() && observations == [] && completions == []
    {
      incidentReported, incidentSequence, downReason := false, 0, None;
      latestCompletedSequence, latestCompletedSnapshot := 0, None;
      observations, completions := [], [];
    }

    /** `_should_capture_dependency_incident`: true exactly for an accepted observation that opens an outage,
        unless the caller's own state is already `Unhealthy`. */
    method ShouldCaptureDependencyIncident(number: nat, down: Option<string>, current: Health) returns (capture: bool)
      requires Valid()
      modifies this
      ensures Valid() && completions == old(completions)
      ensures observations == old(observations) + [Observation(number, down)]
      ensures capture <==> Captures(old(observations), Observation(number, down), current)
    {
      ghost var o := Observation(number, down);
      ObserveAppend(observations, o);
      AcceptedInOrder(observations);
      observations := observations + [o];
      if number <= incidentSequence {
        return false;
      }
      incidentSequence := number;
      downReason := down;
      if down.None? {
        incidentReported := false;
        return false;
      }
      capture := current != Unhealthy && !incidentReported;
      incidentReported := true;
    }

    /** `_dependency_override_after`: the reason of the newest accepted observation, if that one is newer
        than the caller and down. */
    method DependencyOverrideAfter(number: nat) returns (r: Option<string>)
      requires Valid()
      ensures r == Override(observations, number)
    {
      AcceptedInOrder(observations);
      if incidentSequence <= number {
        return None;
      }
      return downReason;
    }

    /** `_complete_snapshot`: publishes and returns the newest completed snapshot. */
    method CompleteSnapshot(snapshot: Snapshot) returns (r: Snapshot)
      requires Valid()
      modifies this
      ensures Valid() && observations == old(observations)
      ensures completions == old(completions) + [snapshot]
      ensures r == Greatest(completions)
    {
      assert Front(completions + [snapshot]) == completions;
      completions := completions + [snapshot];
      if snapshot.number < latestCompletedSequence {
        return latestCompletedSnapshot.value;
      }
      latestCompletedSequence := snapshot.number;
      latestCompletedSnapshot := Some(snapshot);
      return snapshot;
    }
  }

  /** The newest accepted observation, when it is newer than `number` and down. */
  function Override(os: seq<Observation>, number: nat): Option<string> {
    var a := Accepted(os);
    if a != [] && Last(a).number > number then Last(a).down else None
  }

  // ---------- evaluations in any interleaving ----------

  /** How far one evaluation has got. Every phase change is one critical section of the source. */
  datatype Phase =
    | Begun
    | DownSeen(reason: string, current: Health)
    | UpSeen
    | Sampled(state: Health)
    | Stale(state: Health)
    | Ready(snapshot: Snapshot, down: bool)
    | Done(returned: Snapshot, down: bool)

  /** The logs of the shared objects, and the phase of every evaluation by its number. */
  datatype System = System(
    events: seq<Event>, samples: seq<Sample>, observations: seq<Observation>,
    captured: seq<nat>, completions: seq<Snapshot>, phases: map<nat, Phase>)

  datatype Step =
    | Begin
    | SeeDown(n: nat, reason: string)
    | AcceptDown(n: nat)
    | AcceptUp(n: nat)
    | Observe(n: nat, sample: Sample)
    | Decide(n: nat)
    | Complete(n: nat)
    | ResetMachine

  const Start := System([], [], [], [], [], map[])

  predicate Can(s: System, step: Step) {
    match step
    case Begin => true
    case SeeDown(n, _) => n in s.phases && s.phases[n].Begun?
    case AcceptDown(n) => n in s.phases && s.phases[n].DownSeen?
    case AcceptUp(n) => n in s.phases && s.phases[n].Begun?
    case Observe(n, _) => n in s.phases && s.phases[n].UpSeen?
    case Decide(n) => n in s.phases && (s.phases[n].Sampled? || s.phases[n].Stale?)
    case Complete(n) => n in s.phases && s.phases[n].Ready?
    case ResetMachine => true
  }

  function Next(s: System, step: Step): System
    requires Can(s, step)
  {
    match step
    case Begin =>
      var n := Reserved(s.events) + 1;
      s.(events := s.events + [Reserve], phases := s.phases[n := Begun])
    case SeeDown(n, reason) =>
      s.(events := s.events + [Advance(n)], phases := s.phases[n := DownSeen(reason, StateAfter(s.samples))])
    case AcceptDown(n) =>
      var o := Observation(n, Some(s.phases[n].reason));
      s.(observations := s.observations + [o],
         captured := if Captures(s.observations, o, s.phases[n].current) then s.captured + [n] else s.captured,
         phases := s.phases[n := Ready(Snapshot(n, Unhealthy, o.down), true)])
    case AcceptUp(n) =>
      s.(observations := s.observations + [Observation(n, None)], phases := s.phases[n := UpSeen])
    case Observe(n, x) =>
      var isNew := n > Watermark(s.events);
      var samples := if isNew then s.samples + [x] else s.samples;
      s.(events := s.events + [Arrive(n)], samples := samples,
         phases := s.phases[n := if isNew then Sampled(StateAfter(samples)) else Stale(StateAfter(samples))])
    case Decide(n) =>
      var o := if s.phases[n].Stale? then Override(s.observations, n) else None;
      s.(phases := s.phases[n := Ready(Snapshot(n, if o.Some? then Unhealthy else s.phases[n].state, o), false)])
    case Complete(n) =>
      var cs := s.completions + [s.phases[n].snapshot];
      s.(completions := cs, phases := s.phases[n := Done(Greatest(cs), s.phases[n].down)])
    case ResetMachine =>
      s.(events := s.events + [Event.Reset], samples := [])
  }

  ghost predicate Reaches(s: System, steps: seq<Step>, t: System)
    decreases steps
  {
    if steps == [] then s == t
    else Can(s, steps[0]) && Reaches(Next(s, steps[0]), steps[1..], t)
  }

  // ---------- the invariant ----------

  ghost predicate PhaseOk(s: System, n: nat)
    requires n in s.phases
  {
    var p := s.phases[n];
    && 0 < n <= Reserved(s.events)
    && (p.DownSeen? ==> !WriteBlocked(p.current))
    && (p.Sampled? || p.Stale? ==> !WriteBlocked(p.state))
    && (p.Ready? ==> p.snapshot.number == n && (WriteBlocked(p.snapshot.state) <==> p.snapshot.override.Some?)
                     && (p.down ==> p.snapshot.override.Some?))
  }

  /** A completion belongs to an evaluation that is done, and shows whether it found the dependency down. */
  ghost predicate CompletionOk(s: System, c: Snapshot) {
    && c.number in s.phases && s.phases[c.number].Done?
    && (WriteBlocked(c.state) <==> c.override.Some?)
    && (s.phases[c.number].down ==> c.override.Some?)
  }

  ghost predicate Inv(s: System) {
    && (forall n | n in s.phases :: PhaseOk(s, n))
    && (forall c | c in s.completions :: CompletionOk(s, c))
    && s.captured == Outages(Accepted(s.observations))
    && WatermarkOk(s)
  }

  /** Whoever found the dependency down has already discarded the older samples. */
  ghost predicate WatermarkOk(s: System) {
    && Watermark(s.events) <= Reserved(s.events)
    && (forall n | n in s.phases && s.phases[n].DownSeen? :: n <= Watermark(s.events))
    && (forall o | o in s.observations && o.down.Some? :: o.number <= Watermark(s.events))
  }

  lemma PhasesNext(s: System, step: Step)
    requires Can(s, step) && forall n | n in s.phases :: PhaseOk(s, n)
    ensures forall n | n in Next(s, step).phases :: PhaseOk(Next(s, step), n)
  {
    var t := Next(s, step);
    StateNeverBlocks(t.samples);
    EventsGrow(s, step);
    forall n | n in t.phases ensures PhaseOk(t, n) {
      if n in s.phases { assert PhaseOk(s, n); }
    }
  }

  lemma InvNext(s: System, step: Step)
    requires Inv(s) && Can(s, step)
    ensures Inv(Next(s, step))
  {
    assert step.AcceptDown? || step.SeeDown? || step.Observe? ==> PhaseOk(s, step.n);
    PhasesNext(s, step);
    CompletionsNext(s, step);
    CapturedNext(s, step);
    WatermarkNext(s, step);
  }

  lemma EventsGrow(s: System, step: Step)
    requires Can(s, step)
    ensures Reserved(s.events) <= Reserved(Next(s, step).events)
    ensures step.Begin? ==> Reserved(Next(s, step).events) == Reserved(s.events) + 1
    ensures Watermark(s.events) <= Reserved(s.events) ==> Watermark(s.events) <= Watermark(Next(s, step).events)
    ensures step.SeeDown? ==> step.n <= Watermark(Next(s, step).events)
  {
    match step
    case Begin => EventAppend(s.events, Reserve);
    case SeeDown(n, _) => EventAppend(s.events, Advance(n));
    case Observe(n, _) => EventAppend(s.events, Arrive(n));
    case ResetMachine => EventAppend(s.events, Event.Reset);
    case _ =>
  }

  lemma DownSeenNext(s: System, step: Step, n: nat)
    requires Can(s, step) && WatermarkOk(s) && n in Next(s, step).phases && Next(s, step).phases[n].DownSeen?
    ensures n <= Watermark(Next(s, step).events)
  {
    EventsGrow(s, step);
  }

  lemma DownObservedNext(s: System, step: Step, o: Observation)
    requires Can(s, step) && WatermarkOk(s) && o in Next(s, step).observations && o.down.Some?
    ensures o.number <= Watermark(Next(s, step).events)
  {
    EventsGrow(s, step);
    assert o in s.observations || step.AcceptDown?;
  }

  lemma WatermarkNext(s: System, step: Step)
    requires Can(s, step) && WatermarkOk(s)
    requires step.SeeDown? || step.Observe? ==> step.n <= Reserved(s.events)
    ensures WatermarkOk(Next(s, step))
  {
    WatermarkStaysReserved(s, step);
    var t := Next(s, step);
    forall n | n in t.phases && t.phases[n].DownSeen? ensures n <= Watermark(t.events) { DownSeenNext(s, step, n); }
    forall o | o in t.observations && o.down.Some? ensures o.number <= Watermark(t.events) {
      DownObservedNext(s, step, o);
    }
  }

  lemma WatermarkStaysReserved(s: System, step: Step)
    requires Can(s, step) && Watermark(s.events) <= Reserved(s.events)
    requires step.SeeDown? || step.Observe? ==> step.n <= Reserved(s.events)
    ensures Watermark(Next(s, step).events) <= Reserved(Next(s, step).events)
  {
    match step
    case Begin => EventAppend(s.events, Reserve);
    case SeeDown(n, _) => EventAppend(s.events, Advance(n));
    case Observe(n, _) => EventAppend(s.events, Arrive(n));
    case ResetMachine => EventAppend(s.events, Event.Reset);
    case _ =>
  }

  /** One more observation: captured if it starts an outage. */
  lemma {:induction false} CapturedObservation(os: seq<Observation>, o: Observation, current: Health)
    requires current != Unhealthy
    ensures Outages(Accepted(os + [o])) == Outages(Accepted(os)) + if Captures(os, o, current) then [o.number] else []
  {
    ObserveAppend(os, o);
    OutagesAppend(Accepted(os), o);
  }

  lemma CapturedNext(s: System, step: Step)
    requires Can(s, step) && s.captured == Outages(Accepted(s.observations))
    requires step.AcceptDown? ==> !WriteBlocked(s.phases[step.n].current)
    ensures Next(s, step).captured == Outages(Accepted(Next(s, step).observations))
  {
    if step.AcceptDown? {
      CapturedObservation(s.observations, Observation(step.n, Some(s.phases[step.n].reason)), s.phases[step.n].current);
    } else if step.AcceptUp? {
      CapturedObservation(s.observations, Observation(step.n, None), Boot);
    }
  }

  lemma CompletionsNext(s: System, step: Step)
    requires Inv(s) && Can(s, step)
    ensures forall c | c in Next(s, step).completions :: CompletionOk(Next(s, step), c)
  {
    var t := Next(s, step);
    assert forall n | n in s.phases :: PhaseOk(s, n) && n <= Reserved(s.events);
    if step.Complete? { assert PhaseOk(s, step.n); }
    forall c | c in t.completions ensures CompletionOk(t, c) {
      assert c in s.completions ==> CompletionOk(s, c);
    }
  }

  lemma {:induction false} InvReaches(s: System, steps: seq<Step>, t: System)
    requires Inv(s) && Reaches(s, steps, t)
    ensures Inv(t)
    decreases steps
  {
    if steps != [] {
      InvNext(s, steps[0]);
      InvReaches(Next(s, steps[0]), steps[1..], t);
    }
  }

  // ---------- main results ----------

  /** `assert_writes_allowed` for an action outside the named bootstrap escapes. */
  predicate PassesGuard(returned: Snapshot) { !WriteBlocked(returned.state) }

  /** Over every interleaving: an evaluation that completes gets the newest completed snapshot, and passes
      the write guard only if the evaluation behind that snapshot found the dependency up. So a published
      dependency-down snapshot stays in force against every older evaluation. */
  lemma {:induction false} GuardPassesOnlyOnNewestUp(steps: seq<Step>, s: System, n: nat)
    requires Reaches(Start, steps, s) && Can(s, Complete(n))
    ensures var t := Next(s, Complete(n));
      var r := t.phases[n].returned;
      && r in t.completions && n <= r.number
      && (forall c | c in t.completions :: c.number <= r.number)
      && r.number in t.phases && t.phases[r.number].Done?
      && (PassesGuard(r) ==> !t.phases[r.number].down)
  {
    InvReaches(Start, steps, s);
    InvNext(s, Complete(n));
    var t := Next(s, Complete(n));
    GreatestIsGreatest(t.completions);
    assert PhaseOk(s, n);
    assert s.phases[n].snapshot in t.completions;
    assert CompletionOk(t, t.phases[n].returned);
  }

  /** Over every interleaving, incidents are captured exactly once per down period of the accepted
      observations, which are in strictly increasing order of their numbers. */
  lemma {:induction false} OneIncidentPerOutage(steps: seq<Step>, s: System)
    requires Reaches(Start, steps, s)
    ensures s.captured == Outages(Accepted(s.observations))
    ensures forall i, j | 0 <= i < j < |Accepted(s.observations)| ::
      Accepted(s.observations)[i].number < Accepted(s.observations)[j].number
  {
    InvReaches(Start, steps, s);
    AcceptedInOrder(s.observations);
  }

  /** An outage accepted from a newer evaluation silences every older one still in flight: its sample is
      dropped without effect, and it reports the outage. */
  lemma {:induction false} OutageSilencesOlder(steps: seq<Step>, s: System, n: nat, x: Sample)
    requires Reaches(Start, steps, s) && Can(s, Observe(n, x))
    requires Override(s.observations, n).Some?
    ensures var t := Next(s, Observe(n, x));
      && t.samples == s.samples && Can(t, Decide(n))
      && Next(t, Decide(n)).phases[n] == Ready(Snapshot(n, Unhealthy, Override(s.observations, n)), false)
  {
    InvReaches(Start, steps, s);
    AcceptedInOrder(s.observations);
    assert Last(Accepted(s.observations)) in s.observations;
  }
}
