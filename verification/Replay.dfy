/** The replay of a recorded day in `scripts/heimdal_g1_simulation.py`: the uplink loop and the reconciliation
    with the hub. Simulated times are reals; the clock is arbitrary, and so is the hub, as a function of what it
    is asked. */
module Replay {
  import opened Wrappers

  const ADMITTED := "admitted"
  const DROPPED := "dropped_by_design"
  const FAILED := "failed"
  const QUERY_MAX := 100

  datatype Segment = Segment(index: nat, digest: string)

  datatype Outage = Outage(start: real, duration: real)

  /** What a run is asked to do. */
  datatype Plan = Plan(segments: seq<Segment>, seconds: real, outages: seq<Outage>, drops: set<nat>, maxAttempts: nat,
                       duplicateEvery: nat)

  /** A hub reply; no status when the connection failed. */
  datatype Reply = Reply(status: Option<int>, outcome: Option<string>, digest: string, replayed: bool, receipt: int)

  datatype Answer = Answer(capture: nat, outcome: string)

  /** The hub: its reply to each attempt at a capture and to the duplicate, and its answers to each query of
      receipts, if the status is 200. */
  datatype Hub = Hub(media: (nat, nat) -> Reply, again: nat -> Reply, receipts: (nat, seq<nat>) -> Option<seq<Answer>>)

  datatype Duplicate = Duplicate(status: Option<int>, idempotent: bool, sameReceipt: bool)

  /** What is known of a sent segment; captures are identified by the position of their segment in the plan. */
  datatype Sent = Sent(capture: nat, attempts: nat, echoOk: bool, queueWait: real, e2e: real, equivalent: real,
                       duplicate: Option<Duplicate>)

  datatype Record = Record(index: nat, ready: real, buffered: bool, uplinkWait: real, outcome: string,
                           sent: Option<Sent>)

  function End(o: Outage): real { o.start + o.duration }

  predicate Holds(o: Outage, t: real) { o.start <= t < End(o) }

  /** `outage_at`: the first outage that holds. */
  function OutageAt(outages: seq<Outage>, t: real): (r: Option<Outage>)
    ensures r.Some? ==> r.value in outages && Holds(r.value, t)
    ensures r.None? ==> forall o | o in outages :: !Holds(o, t)
  {
    if outages == [] then None
    else if Holds(outages[0], t) then Some(outages[0])
    else OutageAt(outages[1..], t)
  }

  function Ready(index: nat, seconds: real): real { (index + 1) as real * seconds }

  /** How many outages end after `t`. */
  function Ahead(outages: seq<Outage>, t: real): nat {
    if outages == [] then 0 else (if End(outages[0]) > t then 1 else 0) + Ahead(outages[1..], t)
  }

  lemma {:induction false} AheadFalls(outages: seq<Outage>, t: real, u: real)
    requires t <= u
    ensures Ahead(outages, u) <= Ahead(outages, t)
    ensures forall o | o in outages && t < End(o) <= u :: Ahead(outages, u) < Ahead(outages, t)
  {
    if outages != [] {
      AheadFalls(outages[1..], t, u);
    }
  }

  // ---------- the oracles ----------

  method Clock(now: real) returns (t: real)
    ensures t >= now
  {
    t := *;
    if t < now { t := now; }
  }

  method SleepUntil(now: real, target: real) returns (t: real)
    ensures t >= now && t >= target
  {
    t := Clock(if now < target then target else now);
  }

  // ---------- one segment ----------

  predicate Retryable(r: Reply) { r.status.None? || r.status.value >= 500 }

  /** The reply that ended the attempts, unless all were retryable. */
  function FinalReply(hub: Hub, capture: nat, attempts: nat): Option<Reply> {
    if attempts > 0 && !Retryable(hub.media(capture, attempts - 1))
    then Some(hub.media(capture, attempts - 1)) else None
  }

  predicate Delivered(hub: Hub, capture: nat, maxAttempts: nat, attempts: nat) {
    && attempts <= maxAttempts && (forall j | 0 <= j < attempts - 1 :: Retryable(hub.media(capture, j)))
    && (FinalReply(hub, capture, attempts).None? ==> attempts == maxAttempts)
  }

  /** Posts until a reply that is not retryable, at most `maxAttempts` times. */
  method Deliver(hub: Hub, capture: nat, maxAttempts: nat) returns (reply: Option<Reply>, attempts: nat)
    ensures Delivered(hub, capture, maxAttempts, attempts) && reply == FinalReply(hub, capture, attempts)
  {
    attempts := 0;
    while attempts < maxAttempts
      invariant attempts <= maxAttempts && forall j | 0 <= j < attempts :: Retryable(hub.media(capture, j))
    {
      var r := hub.media(capture, attempts);
      attempts := attempts + 1;
      if !Retryable(r) { return Some(r), attempts; }
    }
    return None, attempts;
  }

  function OutcomeOf(reply: Option<Reply>): string {
    if reply.Some? && reply.value.outcome.Some? && reply.value.outcome.value != ""
    then reply.value.outcome.value else FAILED
  }

  /** Admitted segments are sent again at the given interval. */
  predicate Repeats(plan: Plan, segment: Segment, outcome: string) {
    plan.duplicateEvery != 0 && outcome == ADMITTED && segment.index % plan.duplicateEvery == 0
  }

  /** The sent part of a record is what the hub replied. */
  predicate SentTo(hub: Hub, plan: Plan, i: nat, segment: Segment, outcome: string, sent: Sent) {
    var reply := FinalReply(hub, i, sent.attempts);
    && sent.capture == i && Delivered(hub, i, plan.maxAttempts, sent.attempts)
    && outcome == OutcomeOf(reply) && (sent.echoOk <==> reply.Some? && reply.value.digest == segment.digest)
    && (sent.duplicate.Some? <==> Repeats(plan, segment, outcome))
    && (sent.duplicate.Some? ==> reply.Some? && sent.duplicate.value == DuplicateOf(hub.again(i), reply.value))
  }

  function DuplicateOf(again: Reply, first: Reply): Duplicate {
    Duplicate(again.status, again.replayed, again.receipt == first.receipt)
  }

  /** The record of the segment at position `i`: dropped without being sent exactly if it is to be dropped. */
  predicate RecordFor(r: Record, hub: Hub, plan: Plan, i: nat, segment: Segment) {
    && r.index == segment.index && r.ready == Ready(segment.index, plan.seconds)
    && (r.buffered <==> exists o :: o in plan.outages && Holds(o, r.ready))
    && (segment.index in plan.drops <==> r.sent.None?) && (r.sent.None? ==> r.outcome == DROPPED)
    && (r.sent.Some? ==> SentTo(hub, plan, i, segment, r.outcome, r.sent.value))
  }

  /** One segment off the queue: dropped by design, or delivered and perhaps sent again. */
  method Process(hub: Hub, plan: Plan, i: nat, segment: Segment) returns (r: Record)
    ensures RecordFor(r, hub, plan, i, segment)
  {
    var ready := Ready(segment.index, plan.seconds);
    var blocking := OutageAt(plan.outages, ready);
    var wait := if blocking.Some? then End(blocking.value) - ready else 0.0;
    if segment.index in plan.drops {
      return Record(segment.index, ready, blocking.Some?, wait, DROPPED, None);
    }
    var reply, attempts := Deliver(hub, i, plan.maxAttempts);
    var outcome := OutcomeOf(reply);
    var echoOk := reply.Some? && reply.value.digest == segment.digest;
    var queueWait, e2e, equivalent: real := *, *, *;
    var duplicate := None;
    if Repeats(plan, segment, outcome) {
      duplicate := Some(DuplicateOf(hub.again(i), reply.value));
    }
    return Record(segment.index, ready, blocking.Some?, wait, outcome,
                  Some(Sent(i, attempts, echoOk, queueWait, e2e, equivalent, duplicate)));
  }

  // ---------- the loop of `cmd_run` ----------

  /** One record per segment, in order. */
  ghost predicate Replayed(records: seq<Record>, hub: Hub, plan: Plan) {
    && |records| <= |plan.segments|
    && (forall i | 0 <= i < |records| :: RecordFor(records[i], hub, plan, i, plan.segments[i]))
  }

  /** Each segment left the queue after its turn came, outside every outage, and in order. */
  ghost predicate Timely(decided: seq<real>, n: nat, seconds: real, outages: seq<Outage>) {
    && |decided| == n
    && (forall i | 0 <= i < n :: Ready(i, seconds) <= decided[i] && forall o | o in outages :: !Holds(o, decided[i]))
    && (forall i, j | 0 <= i < j < n :: decided[i] <= decided[j])
  }

  method Replay(hub: Hub, plan: Plan) returns (records: seq<Record>, ghost decided: seq<real>)
    ensures |records| == |plan.segments| && Replayed(records, hub, plan)
    ensures Timely(decided, |plan.segments|, plan.seconds, plan.outages)
  {
    records, decided := [], [];
    var segments := plan.segments;
    var pending: seq<Segment>, next, now := [], 0, 0.0;
    while next < |segments| || pending != []
      invariant Queued(segments, |records|, next, pending, plan.seconds, now) && Replayed(records, hub, plan)
      invariant Timely(decided, |records|, plan.seconds, plan.outages) && AllBy(decided, now)
      decreases |segments| - |records|, Ahead(plan.outages, now), Waiting(segments, pending, next, plan.seconds, now)
    {
      ghost var before := now;
      now := Clock(now);
      pending, next := Arrive(segments, |records|, next, pending, plan.seconds, now);
      if pending == [] {
        now := SleepUntil(now, Ready(next, plan.seconds));
        AheadFalls(plan.outages, before, now);
        continue;
      }
      var outage := OutageAt(plan.outages, now);
      if outage.Some? {
        now := SleepUntil(now, End(outage.value));
        AheadFalls(plan.outages, before, now);
        continue;
      }
      var segment := pending[0];
      pending := pending[1..];
      var record := Process(hub, plan, |records|, segment);
      TimelyNext(decided, now, plan.seconds, plan.outages);
      ReplayedNext(records, record, hub, plan);
      records, decided := records + [record], decided + [now];
    }
  }

  /** The queue holds the segments that arrived and were not taken yet, all of them ready. */
  predicate Queued(segments: seq<Segment>, taken: nat, next: nat, pending: seq<Segment>, seconds: real, now: real) {
    && taken <= next <= |segments| && pending == segments[taken..next]
    && (forall i | taken <= i < next :: Ready(i, seconds) <= now)
  }

  /** Whether the loop has to wait for the next segment. */
  function Waiting(segments: seq<Segment>, pending: seq<Segment>, next: nat, seconds: real, now: real): nat {
    if pending == [] && next < |segments| && now < Ready(next, seconds) then 1 else 0
  }

  lemma ReplayedNext(records: seq<Record>, r: Record, hub: Hub, plan: Plan)
    requires Replayed(records, hub, plan) && |records| < |plan.segments|
    requires RecordFor(r, hub, plan, |records|, plan.segments[|records|])
    ensures Replayed(records + [r], hub, plan)
  {
  }

  ghost predicate AllBy(decided: seq<real>, now: real) { forall t | t in decided :: t <= now }

  /** The segments that became ready join the queue. */
  method Arrive(segments: seq<Segment>, ghost taken: nat, start: nat, queue: seq<Segment>, seconds: real, now: real)
    returns (pending: seq<Segment>, next: nat)
    requires Queued(segments, taken, start, queue, seconds, now)
    ensures Queued(segments, taken, next, pending, seconds, now) && start <= next
    ensures next < |segments| ==> now < Ready(next, seconds)
  {
    pending, next := queue, start;
    while next < |segments| && Ready(next, seconds) <= now
      invariant Queued(segments, taken, next, pending, seconds, now) && start <= next
    {
      pending := pending + [segments[next]];
      next := next + 1;
    }
  }

  lemma TimelyNext(decided: seq<real>, now: real, seconds: real, outages: seq<Outage>)
    requires Timely(decided, |decided|, seconds, outages) && AllBy(decided, now)
    requires Ready(|decided|, seconds) <= now && forall o | o in outages :: !Holds(o, now)
    ensures Timely(decided + [now], |decided| + 1, seconds, outages)
  {
    assert forall i | 0 <= i < |decided| :: decided[i] in decided;
  }

  // ---------- `reconcile` ----------

  /** One query: the captures asked for, and the answers unless the hub's status was not 200. */
  datatype Query = Query(asked: seq<nat>, answers: Option<seq<Answer>>)

  datatype Reconciliation = Reconciliation(queried: nat, admitted: nat, notAdmitted: set<nat>, errors: nat)

  function Captures(records: seq<Record>): seq<nat> {
    if records == [] then []
    else
      var sent := records[|records| - 1].sent;
      Captures(records[..|records| - 1]) + (if sent.Some? then [sent.value.capture] else [])
  }

  /** What was asked over all queries. */
  function AskedFrom(queries: seq<Query>): seq<nat> {
    if queries == [] then [] else queries[0].asked + AskedFrom(queries[1..])
  }

  function Errors(queries: seq<Query>): nat {
    if queries == [] then 0
    else Errors(queries[..|queries| - 1]) + (if queries[|queries| - 1].answers.None? then 1 else 0)
  }

  /** All answers in the order they arrived; unanswered queries contribute none. */
  function Answers(queries: seq<Query>): seq<Answer> {
    if queries == [] then []
    else
      var answers := queries[|queries| - 1].answers;
      Answers(queries[..|queries| - 1]) + (if answers.Some? then answers.value else [])
  }

  /** The hub's last word on a capture. */
  function LastWord(answers: seq<Answer>, capture: nat): Option<string> {
    if answers == [] then None
    else if answers[|answers| - 1].capture == capture then Some(answers[|answers| - 1].outcome)
    else LastWord(answers[..|answers| - 1], capture)
  }

  ghost predicate Confirmed(queries: seq<Query>, r: Record) {
    r.sent.Some? && LastWord(Answers(queries), r.sent.value.capture) == Some(ADMITTED)
  }

  /** Nothing is confirmed but by an answer to some query. */
  lemma {:induction false} LastWordWasSaid(answers: seq<Answer>, capture: nat)
    ensures LastWord(answers, capture).Some? ==> Answer(capture, LastWord(answers, capture).value) in answers
    ensures LastWord(answers, capture).None? ==> forall a | a in answers :: a.capture != capture
  {
    if answers != [] { LastWordWasSaid(answers[..|answers| - 1], capture); }
  }

  /** The queries for the captures from `offset` on, a hundred at a time, with the hub's answers. */
  function Queries(hub: Hub, captures: seq<nat>, offset: nat): seq<Query>
    decreases |captures| - offset
  {
    if offset >= |captures| then []
    else
      var end := if offset + QUERY_MAX <= |captures| then offset + QUERY_MAX else |captures|;
      var batch := captures[offset..end];
      [Query(batch, hub.receipts(offset, batch))] + Queries(hub, captures, end)
  }

  /** Every capture is asked for once, in order, at most a hundred in a query. */
  lemma {:induction false} QueriesCover(hub: Hub, captures: seq<nat>, offset: nat)
    requires offset <= |captures|
    ensures AskedFrom(Queries(hub, captures, offset)) == captures[offset..]
    ensures forall q | q in Queries(hub, captures, offset) :: 0 < |q.asked| <= QUERY_MAX
    decreases |captures| - offset
  {
    if offset < |captures| {
      var end := if offset + QUERY_MAX <= |captures| then offset + QUERY_MAX else |captures|;
      QueriesCover(hub, captures, end);
      var rest := Queries(hub, captures, end);
      assert Queries(hub, captures, offset)[1..] == rest;
      assert captures[offset..] == captures[offset..end] + captures[end..];
    }
  }

  /** The dictionary of answers holds the hub's last word on every capture. */
  predicate Tabulates(table: map<nat, string>, answers: seq<Answer>) {
    && (forall c | c in table :: LastWord(answers, c) == Some(table[c]))
    && (forall a | a in answers :: a.capture in table)
  }

  lemma TabulatesNext(table: map<nat, string>, answers: seq<Answer>, a: Answer)
    requires Tabulates(table, answers)
    ensures Tabulates(table[a.capture := a.outcome], answers + [a])
  {
    assert (answers + [a])[..|answers|] == answers;
  }

  lemma {:induction false} TabulatedWord(table: map<nat, string>, answers: seq<Answer>, c: nat)
    requires Tabulates(table, answers)
    ensures LastWord(answers, c) == if c in table then Some(table[c]) else None
  {
    LastWordWasSaid(answers, c);
  }

  lemma {:induction false} QueriesNext(queries: seq<Query>, q: Query)
    ensures Errors(queries + [q]) == Errors(queries) + if q.answers.None? then 1 else 0
    ensures Answers(queries + [q]) == Answers(queries) + if q.answers.Some? then q.answers.value else []
  {
    assert (queries + [q])[..|queries|] == queries;
  }

  /** Sends the captures in batches of at most a hundred; returns the dictionary of answers. */
  method QueryAll(hub: Hub, captures: seq<nat>) returns (table: map<nat, string>, errors: nat)
    ensures errors == Errors(Queries(hub, captures, 0)) && Tabulates(table, Answers(Queries(hub, captures, 0)))
  {
    table, errors := map[], 0;
    var offset := 0;
    ghost var queries := [];
    while offset < |captures|
      invariant 0 <= offset <= |captures|
      invariant queries + Queries(hub, captures, offset) == Queries(hub, captures, 0)
      invariant errors == Errors(queries) && Tabulates(table, Answers(queries))
    {
      var end := if offset + QUERY_MAX <= |captures| then offset + QUERY_MAX else |captures|;
      var answers := hub.receipts(offset, captures[offset..end]);
      ghost var q, known := Query(captures[offset..end], answers), Answers(queries);
      assert queries + ([q] + Queries(hub, captures, end)) == (queries + [q]) + Queries(hub, captures, end);
      QueriesNext(queries, q);
      queries, offset := queries + [q], end;
      if answers.None? {
        assert Answers(queries) == known;
        errors := errors + 1;
        continue;
      }
      table := Tabulate(table, known, answers.value);
    }
    assert queries == Queries(hub, captures, 0);
  }

  method Tabulate(start: map<nat, string>, ghost known: seq<Answer>, answers: seq<Answer>)
    returns (table: map<nat, string>)
    requires Tabulates(start, known)
    ensures Tabulates(table, known + answers)
  {
    table := start;
    assert known + answers[..0] == known;
    for i := 0 to |answers|
      invariant Tabulates(table, known + answers[..i])
    {
      TabulatesNext(table, known + answers[..i], answers[i]);
      assert known + answers[..i + 1] == known + answers[..i] + [answers[i]];
      table := table[answers[i].capture := answers[i].outcome];
    }
    assert answers[..|answers|] == answers;
  }

  /** How many records the hub confirmed. */
  ghost function ConfirmedCount(queries: seq<Query>, records: seq<Record>): nat {
    if records == [] then 0
    else
      var one := if Confirmed(queries, records[|records| - 1]) then 1 else 0;
      ConfirmedCount(queries, records[..|records| - 1]) + one
  }

  ghost predicate Reconciled(rec: Reconciliation, queries: seq<Query>, records: seq<Record>) {
    && rec.errors == Errors(queries) && rec.queried == |Captures(records)|
    && rec.admitted == ConfirmedCount(queries, records)
    && (forall x :: x in rec.notAdmitted <==>
          exists r :: r in records && r.index == x && r.sent.Some? && !Confirmed(queries, r))
  }

  /** `reconcile`: whatever the hub did not confirm as admitted is missing, unanswered batches included. */
  method Reconcile(hub: Hub, records: seq<Record>) returns (rec: Reconciliation)
    ensures Reconciled(rec, Queries(hub, Captures(records), 0), records)
  {
    var expected := Captures(records);
    var table, errors := QueryAll(hub, expected);
    ghost var queries := Queries(hub, expected, 0);
    var admitted, missing: set<nat> := 0, {};
    for i := 0 to |records|
      invariant admitted == ConfirmedCount(queries, records[..i])
      invariant forall x :: x in missing <==>
        exists j :: 0 <= j < i && records[j].index == x && records[j].sent.Some? && !Confirmed(queries, records[j])
    {
      assert records[..i + 1][..i] == records[..i];
      if records[i].sent.Some? {
        var c := records[i].sent.value.capture;
        TabulatedWord(table, Answers(queries), c);
        if c in table && table[c] == ADMITTED {
          admitted := admitted + 1;
        } else {
          missing := missing + {records[i].index};
        }
      }
    }
    assert records[..|records|] == records;
    rec := Reconciliation(|expected|, admitted, missing, errors);
  }
}
