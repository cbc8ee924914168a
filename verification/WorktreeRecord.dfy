/** The lifecycle record of one agent worktree and the validity rule that destructive consumers apply to it,
    from `scripts/agent_worktree.py`. */
module WorktreeRecord {
  import opened Text
  import opened Wrappers

  type Path = string
  type Generation = nat  // an opaque generation marker; an absent one is a legacy or malformed marker

  datatype Status = Active | Released | Complete | RemovalPending | Removed | MissingPreserved

  datatype Binding = Binding(branch: string, removedAt: real)
  datatype Preservation = Preservation(at: real, actor: string, disposition: string, head: string)

  datatype Record = Record(
    path: Path, branch: string, generation: Option<Generation>, owner: string, status: Status,
    registeredAt: real, heartbeatAt: real, expiresAt: real,
    releasedAt: Option<real>, completeAt: Option<real>,
    pendingAt: Option<real>, pendingFrom: Option<Status>, removedAt: Option<real>,
    preserved: Option<Preservation>, prior: seq<Binding>)

  const MAX_PRIOR_BINDINGS := 8
  const RETAIN_BRANCH := "retain-branch"

  predicate Removable(s: Status) { s == Active || s == Released || s == Complete }

  predicate IsHead(s: string) {
    40 <= |s| <= 64 && forall i | 0 <= i < |s| :: '0' <= s[i] <= '9' || 'a' <= s[i] <= 'f'
  }

  // ---------- `_validate_authority_record` ----------

  predicate PriorValid(branch: string, prior: seq<Binding>) {
    && |prior| <= MAX_PRIOR_BINDINGS
    && (forall i | 0 <= i < |prior| :: prior[i].branch != "" && prior[i].branch != branch)
    && (forall i, j | 0 <= i < j < |prior| :: prior[i].branch != prior[j].branch)
  }

  predicate PreservationValid(r: Record) {
    && r.preserved.Some? && r.preserved.value.at >= r.expiresAt && r.preserved.value.actor == r.owner
    && r.preserved.value.disposition == RETAIN_BRANCH && IsHead(r.preserved.value.head)
    && r.removedAt.None? && r.pendingAt.None? && r.pendingFrom.None? && r.releasedAt.None? && r.completeAt.None?
  }

  predicate StatusValid(r: Record) {
    match r.status
    case Active => true
    case Released => r.releasedAt == Some(r.expiresAt)
    case Complete => r.completeAt == Some(r.expiresAt)
    case RemovalPending => r.pendingFrom.Some? && Removable(r.pendingFrom.value) && r.pendingAt.Some?
    case Removed => r.removedAt.Some?
    case MissingPreserved => PreservationValid(r)
  }

  predicate Valid(key: Path, r: Record) {
    && r.path == key && r.branch != "" && Strip(r.owner) != "" && r.generation.Some?
    && r.registeredAt <= r.heartbeatAt <= r.expiresAt
    && StatusValid(r)
    && PriorValid(r.branch, r.prior)
  }

  // ---------- what the operations write ----------

  function Taken<T>(s: seq<T>, n: nat): seq<T> { if |s| <= n then s else s[..n] }

  /** The first binding of every branch outside `skip`. */
  function FirstOf(bs: seq<Binding>, skip: set<string>): seq<Binding> {
    if bs == [] then []
    else if bs[0].branch in skip then FirstOf(bs[1..], skip)
    else [bs[0]] + FirstOf(bs[1..], skip + {bs[0].branch})
  }

  function Displaced(existing: Record, timestamp: real): Binding {
    Binding(existing.branch, if existing.removedAt.Some? then existing.removedAt.value else timestamp)
  }

  function Carried(existing: Option<Record>, branch: string, timestamp: real): seq<Binding> {
    if existing.None? then []
    else Taken(FirstOf([Displaced(existing.value, timestamp)] + existing.value.prior, {"", branch}),
               MAX_PRIOR_BINDINGS)
  }

  /** `_carried_prior_bindings`: one pass with a set of the branches already seen. */
  method CarriedPriorBindings(existing: Option<Record>, branch: string, timestamp: real) returns (carried: seq<Binding>)
    ensures carried == Carried(existing, branch, timestamp)
  {
    if existing.None? {
      return [];
    }
    carried := [];
    var seen: set<string> := {};
    var bindings := [Displaced(existing.value, timestamp)] + existing.value.prior;
    assert bindings[0..] == bindings && {"", branch} + seen == {"", branch};
    for i := 0 to |bindings|
      invariant carried + FirstOf(bindings[i..], {"", branch} + seen) == FirstOf(bindings, {"", branch})
    {
      var b := bindings[i];
      ghost var rest := bindings[i..];
      assert rest[0] == b && rest[1..] == bindings[i + 1..];
      if b.branch == "" || b.branch == branch || b.branch in seen {
        continue;
      }
      assert {"", branch} + seen + {b.branch} == {"", branch} + (seen + {b.branch});
      ghost var tail := FirstOf(bindings[i + 1..], {"", branch} + (seen + {b.branch}));
      assert carried + ([b] + tail) == carried + [b] + tail;
      seen := seen + {b.branch};
      carried := carried + [b];
    }
    assert bindings[|bindings|..] == [];
    if |carried| > MAX_PRIOR_BINDINGS {
      carried := carried[..MAX_PRIOR_BINDINGS];
    }
  }

  function Registered(existing: Option<Record>, path: Path, branch: string, generation: Generation,
                      owner: string, now: real, ttl: real): Record {
    Record(path, branch, Some(generation), owner, Active, now, now, now + ttl,
           None, None, None, None, None, None, Carried(existing, branch, now))
  }

  function Heartbeaten(r: Record, generation: Generation, now: real, ttl: real): Record {
    r.(generation := Some(generation), heartbeatAt := now, expiresAt := now + ttl)
  }

  function Finished(r: Record, generation: Generation, status: Status, now: real): Record {
    var f := r.(generation := Some(generation), status := status, expiresAt := now);
    if status == Released then f.(releasedAt := Some(now)) else f.(completeAt := Some(now))
  }

  function MadePreserved(r: Record, head: string, now: real): Record {
    r.(status := MissingPreserved, preserved := Some(Preservation(now, r.owner, RETAIN_BRANCH, head)))
  }

  function MadePending(r: Record, now: real): Record {
    r.(status := RemovalPending, pendingFrom := Some(r.status), pendingAt := Some(now))
  }

  function MadeRemoved(r: Record, now: real): Record {
    r.(status := Removed, removedAt := Some(now), pendingAt := None, pendingFrom := None)
  }

  function Restored(r: Record): Record
    requires r.pendingFrom.Some?
  {
    r.(status := r.pendingFrom.value, pendingAt := None, pendingFrom := None)
  }

  // ---------- the invariant behind validity ----------

  /** The fields that a record may carry, seen through a pending removal: active records carry no terminal
      field, and only pending ones carry pending fields. */
  ghost predicate Clean(r: Record) {
    && (r.status != RemovalPending ==> r.pendingAt.None? && r.pendingFrom.None?)
    && (r.status == RemovalPending ==> r.pendingFrom.Some?)
    && (r.status == Active || r.pendingFrom == Some(Active) ==> r.releasedAt.None? && r.completeAt.None?)
    && (r.pendingFrom == Some(Released) ==> r.releasedAt == Some(r.expiresAt))
    && (r.pendingFrom == Some(Complete) ==> r.completeAt == Some(r.expiresAt))
    && (r.status != Removed ==> r.removedAt.None?)
    && (r.status != MissingPreserved ==> r.preserved.None?)
  }

  ghost predicate Sound(key: Path, r: Record) { Valid(key, r) && Clean(r) }

  ghost predicate DistinctOutside(f: seq<Binding>, skip: set<string>) {
    && (forall i | 0 <= i < |f| :: f[i].branch !in skip)
    && (forall i, j | 0 <= i < j < |f| :: f[i].branch != f[j].branch)
  }

  lemma {:induction false} FirstOfDistinct(bs: seq<Binding>, skip: set<string>)
    ensures DistinctOutside(FirstOf(bs, skip), skip)
  {
    if bs != [] {
      if bs[0].branch in skip {
        FirstOfDistinct(bs[1..], skip);
      } else {
        var skip' := skip + {bs[0].branch};
        FirstOfDistinct(bs[1..], skip');
        DistinctPrepend(bs[0], FirstOf(bs[1..], skip'), skip);
      }
    }
  }

  lemma DistinctPrepend(b: Binding, f: seq<Binding>, skip: set<string>)
    requires b.branch !in skip && DistinctOutside(f, skip + {b.branch})
    ensures DistinctOutside([b] + f, skip)
  {
    var g := [b] + f;
    forall i | 0 <= i < |g| ensures g[i].branch !in skip {
      if i > 0 { assert g[i] == f[i - 1]; }
    }
  }

  /** Registration gives a sound record whatever it replaces, even a malformed one. */
  lemma RegisterSound(existing: Option<Record>, path: Path, branch: string, generation: Generation,
                      owner: string, now: real, ttl: real)
    requires branch != "" && Strip(owner) != "" && ttl >= 1.0
    ensures Sound(path, Registered(existing, path, branch, generation, owner, now, ttl))
  {
    if existing.Some? {
      var bindings := [Displaced(existing.value, now)] + existing.value.prior;
      FirstOfDistinct(bindings, {"", branch});
      var f := FirstOf(bindings, {"", branch});
      assert forall i | 0 <= i < |f| :: f[i].branch !in {"", branch};
    }
  }

  /** A heartbeat keeps a record sound exactly when its time is not before the registration. */
  lemma HeartbeatSoundIff(key: Path, r: Record, generation: Generation, now: real, ttl: real)
    requires Sound(key, r) && r.status == Active && ttl >= 1.0
    ensures Sound(key, Heartbeaten(r, generation, now, ttl)) <==> r.registeredAt <= now
  {
    assert PriorValid(r.branch, r.prior);
  }

  /** Releasing or completing keeps a record sound exactly when its time is not before the last heartbeat. */
  lemma FinishSoundIff(key: Path, r: Record, generation: Generation, status: Status, now: real)
    requires Sound(key, r) && Removable(r.status) && (status == Released || status == Complete)
    ensures Sound(key, Finished(r, generation, status, now)) <==> r.heartbeatAt <= now
  {
    assert PriorValid(r.branch, r.prior);
  }

  /** Preserving an expired active record is sound at any time; this is where its cleanness is needed. */
  lemma PreserveSound(key: Path, r: Record, head: string, now: real)
    requires Sound(key, r) && r.status == Active && r.expiresAt <= now && IsHead(head)
    ensures Sound(key, MadePreserved(r, head, now))
  {
    assert PriorValid(r.branch, r.prior);
  }

  /** The two phases of a removal, and its undoing. */
  lemma RemovalSound(key: Path, r: Record, now: real)
    requires Sound(key, r)
    ensures Removable(r.status) ==> Sound(key, MadePending(r, now)) && Restored(MadePending(r, now)) == r
    ensures r.status == RemovalPending ==> Sound(key, MadeRemoved(r, now)) && Sound(key, Restored(r))
  {
    assert PriorValid(r.branch, r.prior);
  }
}
