/** The registry of agent worktrees: optimistic operations in any interleaving, and two-phase removal with
    crash recovery, from `scripts/agent_worktree.py`. */
module WorktreeRegistry {
  import opened Text
  import opened WorktreeRecord
  import opened WorktreeHistory
  import opened Wrappers

  type Records = map<Path, Record>

  function Lookup(records: Records, p: Path): Option<Record> {
    if p in records then Some(records[p]) else None
  }

  // ---------- guards of registration ----------

  /** `_assert_registration_available`. */
  predicate Available(r: Option<Record>, owner: string, now: real) {
    r.Some? ==>
      && !(r.value.owner != owner && r.value.status == Active && r.value.expiresAt > now)
      && r.value.status != MissingPreserved
  }

  /** `_assert_no_missing_preserved_path_alias`; `ids` is the set of spellings that name the same directory. */
  predicate NoPreservedAlias(records: Records, ids: Path -> set<string>, requested: Path) {
    forall p | p in records && records[p].status == MissingPreserved ::
      ids(requested) !! (ids(p) + ids(records[p].path))
  }

  // ---------- checkouts and removals ----------

  /** What git shows at a path: a checkout with a readable generation marker, or one without. */
  datatype Checkout = Readable(generation: Generation) | Unreadable

  /** A removal that holds the registry lock around its git command. */
  datatype Removal = Removal(paths: set<Path>, succeeded: bool)

  predicate Authorized(records: Records, live: map<Path, Checkout>, p: Path) {
    && p in records && Removable(records[p].status)
    && records[p].generation.Some? && p in live && live[p] == Readable(records[p].generation.value)
  }

  predicate Reconcilable(r: Record) {
    r.status == RemovalPending && r.generation.Some? && r.pendingFrom.Some? && Removable(r.pendingFrom.value)
  }

  /** What reconciliation makes of one record. */
  function Reconciled(r: Record, live: map<Path, Checkout>, p: Path, now: real): Record {
    if !Reconcilable(r) then r
    else if p !in live then MadeRemoved(r, now)
    else if live[p].Unreadable? then r
    else if live[p].generation == r.generation.value then Restored(r)
    else MadeRemoved(r, now)
  }

  function PendingAll(records: Records, paths: set<Path>, now: real): Records {
    map p | p in records :: if p in paths then MadePending(records[p], now) else records[p]
  }

  /** What the end of a removal makes of one pending record. */
  function Ended(r: Record, succeeded: bool, now: real): Record
    requires r.pendingFrom.Some?
  {
    if succeeded then MadeRemoved(r, now) else Restored(r)
  }

  predicate Endable(records: Records, paths: set<Path>) {
    forall p | p in paths :: p in records && records[p].status == RemovalPending && records[p].pendingFrom.Some?
                             && Removable(records[p].pendingFrom.value)
  }

  function EndAll(records: Records, removal: Removal, now: real): Records
    requires Endable(records, removal.paths)
  {
    map p | p in records :: if p in removal.paths then Ended(records[p], removal.succeeded, now) else records[p]
  }

  function ReconcileAll(records: Records, live: map<Path, Checkout>, now: real): Records {
    map p | p in records :: Reconciled(records[p], live, p, now)
  }

  // ---------- operations as a snapshot and a commit ----------

  datatype Request =
    | Register(path: Path, owner: string, now: real, ttl: real)
    | Heartbeat(path: Path, owner: string, now: real, ttl: real)
    | Finish(path: Path, owner: string, now: real, status: Status)
    | Preserve(path: Path, owner: string, branch: string, generation: Generation)

  /** What a commit brings from the slow work before it. */
  datatype Findings =
    | Identity(branch: string, generation: Generation)
    | Head(at: real, head: string)

  /** An operation between its two critical sections, with the record it read in the first. */
  datatype InFlight = InFlight(request: Request, snapshot: Option<Record>)

  /** The registry, the checkouts, and the removal that holds the lock. `registered` lists the branches
      registered on a path so far; no step reads it. */
  datatype Core = Core(records: Records, live: map<Path, Checkout>, removal: Option<Removal>,
                       registered: map<Path, seq<string>>)

  datatype System = System(core: Core, inFlight: map<nat, InFlight>)

  /** Steps that are not split: removals, reconciliation, and whatever happens to the checkouts. */
  datatype Event =
    | BeginRemoval(paths: set<Path>, now: real)
    | Succeed
    | EndRemoval(now: real)
    | Crash
    | Reconcile(now: real)
    | CheckoutChanges(path: Path, checkout: Option<Checkout>)

  datatype Step = Snapshot(op: nat, request: Request) | Commit(op: nat, findings: Findings) | Happens(event: Event)

  /** What the caller passes is checked before anything is read. */
  predicate Requested(q: Request) {
    match q
    case Register(_, owner, _, ttl) => Strip(owner) != "" && ttl >= 1.0
    case Heartbeat(_, _, _, ttl) => ttl >= 1.0
    case Finish(_, _, _, status) => status == Released || status == Complete
    case Preserve(_, _, _, _) => true
  }

  /** The status that a record must have for its owner to update it. */
  predicate Updatable(q: Request, r: Record) {
    && r.owner == q.owner
    && (if q.Finish? then Removable(r.status) else r.status == Active)
  }

  predicate Preservable(q: Request, r: Record)
    requires q.Preserve?
  {
    Valid(q.path, r) && Updatable(q, r) && r.branch == q.branch && r.generation == Some(q.generation)
  }

  predicate Registrable(records: Records, ids: Path -> set<string>, q: Request)
    requires q.Register?
  {
    NoPreservedAlias(records, ids, q.path) && Available(Lookup(records, q.path), q.owner, q.now)
  }

  /** The first critical section lets the request through on the record that it reads. */
  predicate Admitted(q: Request, snapshot: Option<Record>) {
    match q
    case Register(_, owner, now, _) => Available(snapshot, owner, now)
    case Preserve(_, _, _, _) => snapshot.Some? && Preservable(q, snapshot.value)
    case _ => snapshot.Some? && snapshot.value.path == q.path && Updatable(q, snapshot.value)
  }

  predicate CanSnapshot(records: Records, ids: Path -> set<string>, q: Request) {
    && Requested(q) && Admitted(q, Lookup(records, q.path))
    && (q.Register? ==> NoPreservedAlias(records, ids, q.path))
  }

  /** What the slow work between the sections found out fits the record. */
  predicate Fits(q: Request, r: Option<Record>, f: Findings) {
    match q
    case Register(_, _, _, _) => f.Identity? && f.branch != ""
    case Preserve(_, _, _, _) => f.Head? && r.Some? && r.value.expiresAt <= f.at && IsHead(f.head)
    case _ => f.Identity? && r.Some? && r.value.branch == f.branch
                && (r.value.generation.None? || r.value.generation == Some(f.generation))
  }

  /** The second critical section compares the record with the snapshot before it writes. */
  predicate Unchanged(records: Records, i: InFlight) { Lookup(records, i.request.path) == i.snapshot }

  /** What the second critical section tests. An update takes the generation from its snapshot, and does not look
      at the recorded path again. */
  predicate CanCommit(records: Records, ids: Path -> set<string>, i: InFlight, f: Findings) {
    var q, r := i.request, Lookup(records, i.request.path);
    && Unchanged(records, i)
    && match q
       case Register(_, _, _, _) => f.Identity? && f.branch != "" && Registrable(records, ids, q)
       case Preserve(_, _, _, _) => r.Some? && Preservable(q, r.value) && Fits(q, r, f)
       case _ => f.Identity? && r.Some? && Updatable(q, r.value) && r.value.branch == f.branch
                   && i.snapshot.Some?
                   && (i.snapshot.value.generation.None? || i.snapshot.value.generation == Some(f.generation))
  }

  /** The operation may take place as a whole. */
  predicate Enabled(records: Records, ids: Path -> set<string>, q: Request, f: Findings) {
    CanSnapshot(records, ids, q) && Fits(q, Lookup(records, q.path), f)
  }

  /** The findings are of the right kind, and there is a record to update. */
  predicate Writable(records: Records, q: Request, f: Findings) {
    (q.Register? || q.path in records) && (if q.Preserve? then f.Head? else f.Identity?)
  }

  /** The record that the operation writes over `r`. */
  function Written(r: Option<Record>, q: Request, f: Findings): Record
    requires (q.Register? || r.Some?) && (if q.Preserve? then f.Head? else f.Identity?)
  {
    match q
    case Register(p, owner, now, ttl) => Registered(r, p, f.branch, f.generation, owner, now, ttl)
    case Heartbeat(_, _, now, ttl) => Heartbeaten(r.value, f.generation, now, ttl)
    case Finish(_, _, now, status) => Finished(r.value, f.generation, status, now)
    case Preserve(_, _, _, _) => MadePreserved(r.value, f.head, f.at)
  }

  function History(c: Core, p: Path): seq<string> { if p in c.registered then c.registered[p] else [] }

  /** The whole operation in one step. */
  function Performed(c: Core, q: Request, f: Findings): Core
    requires Writable(c.records, q, f)
  {
    c.(records := c.records[q.path := Written(Lookup(c.records, q.path), q, f)],
       registered := if q.Register? then c.registered[q.path := History(c, q.path) + [f.branch]] else c.registered)
  }

  predicate CanHappen(c: Core, e: Event) {
    match e
    case BeginRemoval(paths, _) => c.removal.None? && forall p | p in paths :: Authorized(c.records, c.live, p)
    case Succeed => c.removal.Some?
    case EndRemoval(_) => c.removal.Some? && Endable(c.records, c.removal.value.paths)
    case Crash => c.removal.Some?
    case Reconcile(_) => c.removal.None?
    case CheckoutChanges(_, _) => true
  }

  function Happened(c: Core, e: Event): Core
    requires CanHappen(c, e)
  {
    match e
    case BeginRemoval(paths, now) =>
      c.(records := PendingAll(c.records, paths, now), removal := Some(Removal(paths, false)))
    case Succeed => c.(removal := Some(c.removal.value.(succeeded := true)))
    case EndRemoval(now) => c.(records := EndAll(c.records, c.removal.value, now), removal := None)
    case Crash => c.(removal := None)
    case Reconcile(now) => c.(records := ReconcileAll(c.records, c.live, now))
    case CheckoutChanges(p, checkout) =>
      c.(live := if checkout.Some? then c.live[p := checkout.value] else c.live - {p})
  }

  predicate Can(s: System, ids: Path -> set<string>, step: Step) {
    match step
    case Snapshot(op, q) => op !in s.inFlight && s.core.removal.None? && CanSnapshot(s.core.records, ids, q)
    case Commit(op, f) =>
      op in s.inFlight && s.core.removal.None? && CanCommit(s.core.records, ids, s.inFlight[op], f)
    case Happens(e) => CanHappen(s.core, e)
  }

  function Next(s: System, ids: Path -> set<string>, step: Step): System
    requires Can(s, ids, step)
  {
    match step
    case Snapshot(op, q) => s.(inFlight := s.inFlight[op := InFlight(q, Lookup(s.core.records, q.path))])
    case Commit(op, f) => System(Performed(s.core, s.inFlight[op].request, f), s.inFlight - {op})
    case Happens(e) => s.(core := Happened(s.core, e))
  }

  ghost predicate Reaches(s: System, ids: Path -> set<string>, steps: seq<Step>, t: System)
    decreases steps
  {
    if steps == [] then s == t
    else Can(s, ids, steps[0]) && Reaches(Next(s, ids, steps[0]), ids, steps[1..], t)
  }

  // ---------- split operations are atomic ----------

  /** One operation as a whole, or one other step. */
  datatype Atom = Perform(request: Request, findings: Findings) | Occur(event: Event)

  predicate CanDo(c: Core, ids: Path -> set<string>, a: Atom) {
    match a
    case Perform(q, f) => c.removal.None? && Enabled(c.records, ids, q, f)
    case Occur(e) => CanHappen(c, e)
  }

  function Done(c: Core, ids: Path -> set<string>, a: Atom): Core
    requires CanDo(c, ids, a)
  {
    match a
    case Perform(q, f) => Performed(c, q, f)
    case Occur(e) => Happened(c, e)
  }

  ghost predicate DoneAll(c: Core, ids: Path -> set<string>, atoms: seq<Atom>, d: Core)
    decreases atoms
  {
    if atoms == [] then c == d
    else CanDo(c, ids, atoms[0]) && DoneAll(Done(c, ids, atoms[0]), ids, atoms[1..], d)
  }

  /** The operations and other steps of a run, each where it took effect. */
  ghost function Atoms(s: System, ids: Path -> set<string>, steps: seq<Step>): seq<Atom>
    decreases steps
  {
    if steps == [] || !Can(s, ids, steps[0]) then []
    else
      var rest := Atoms(Next(s, ids, steps[0]), ids, steps[1..]);
      match steps[0]
      case Snapshot(_, _) => rest
      case Commit(op, f) => [Perform(s.inFlight[op].request, f)] + rest
      case Happens(e) => [Occur(e)] + rest
  }

  /** Every operation in flight passed its first section. */
  ghost predicate FlightsOk(s: System) {
    forall op | op in s.inFlight ::
      Requested(s.inFlight[op].request) && Admitted(s.inFlight[op].request, s.inFlight[op].snapshot)
  }

  /** An operation whose snapshot is still the record may take place as a whole where it commits: what the second
      section does not test again was tested on the same record. */
  lemma CommitIsWhole(s: System, ids: Path -> set<string>, op: nat, f: Findings)
    requires FlightsOk(s) && Can(s, ids, Commit(op, f))
    ensures Enabled(s.core.records, ids, s.inFlight[op].request, f)
  {
  }

  /** Every interleaving of split operations reaches the registry that the same operations reach one by one, in
      the order of their commits. */
  lemma {:induction false} Linearizes(s: System, ids: Path -> set<string>, steps: seq<Step>, t: System)
    requires FlightsOk(s) && Reaches(s, ids, steps, t)
    ensures DoneAll(s.core, ids, Atoms(s, ids, steps), t.core) && FlightsOk(t)
    decreases steps
  {
    if steps != [] {
      var u := Next(s, ids, steps[0]);
      if steps[0].Commit? { CommitIsWhole(s, ids, steps[0].op, steps[0].findings); }
      Linearizes(u, ids, steps[1..], t);
      var atoms, rest := Atoms(s, ids, steps), Atoms(u, ids, steps[1..]);
      if !steps[0].Snapshot? { assert atoms[1..] == rest; }
    }
  }

  // ---------- every commit replaces the record it was computed from ----------

  /** The state before step `k` of a run. */
  ghost function Reached(s: System, ids: Path -> set<string>, steps: seq<Step>, k: nat): System
    requires k <= |steps|
    decreases k
  {
    if k == 0 || !Can(s, ids, steps[0]) then s else Reached(Next(s, ids, steps[0]), ids, steps[1..], k - 1)
  }

  /** Step `k` of the run is the first section of the operation that is in flight as `i`. */
  ghost predicate TakenAt(s: System, ids: Path -> set<string>, steps: seq<Step>, k: nat, op: nat, i: InFlight) {
    && k < |steps| && steps[k] == Snapshot(op, i.request) && Can(Reached(s, ids, steps, k), ids, steps[k])
    && Lookup(Reached(s, ids, steps, k).core.records, i.request.path) == i.snapshot
  }

  /** Whatever is in flight was in flight at the start, or holds what its first section read. */
  lemma {:induction false} SnapshotTaken(s: System, ids: Path -> set<string>, steps: seq<Step>, t: System, op: nat)
    returns (k: nat)
    requires Reaches(s, ids, steps, t) && op in t.inFlight
    ensures (k == |steps| && op in s.inFlight && s.inFlight[op] == t.inFlight[op])
            || TakenAt(s, ids, steps, k, op, t.inFlight[op])
    decreases steps
  {
    if steps == [] { return 0; }
    var u := Next(s, ids, steps[0]);
    var j := SnapshotTaken(u, ids, steps[1..], t, op);
    if j < |steps| - 1 {
      assert steps[1..][j] == steps[j + 1] && Reached(s, ids, steps, j + 1) == Reached(u, ids, steps[1..], j);
      k := j + 1;
    } else {
      k := if steps[0].Snapshot? && steps[0].op == op then 0 else |steps|;
    }
  }

  /** Compare and commit, over every run: an operation that was not in flight at the start and commits at its end
      took its snapshot at some step `k`, and replaces exactly the record that it read there. The record it
      writes is the one computed from that snapshot, whatever happened in between. */
  lemma CommitReplacesItsSnapshot(s: System, ids: Path -> set<string>, steps: seq<Step>, t: System, op: nat,
                                  f: Findings) returns (k: nat)
    requires Reaches(s, ids, steps, t) && op !in s.inFlight && Can(t, ids, Commit(op, f))
    ensures TakenAt(s, ids, steps, k, op, t.inFlight[op])
    ensures var q, before := t.inFlight[op].request, Reached(s, ids, steps, k).core.records;
      && Lookup(t.core.records, q.path) == Lookup(before, q.path) && CanSnapshot(before, ids, q)
      && Writable(before, q, f)
      && Next(t, ids, Commit(op, f)).core.records == t.core.records[q.path := Written(Lookup(before, q.path), q, f)]
  {
    k := SnapshotTaken(s, ids, steps, t, op);
  }

  // ---------- every record stays valid ----------

  ghost predicate AllSound(c: Core) {
    forall p | p in c.records :: Sound(p, c.records[p])
  }

  /** The operation's time is not before the times in the record it replaces. */
  predicate Timely(c: Core, a: Atom) {
    a.Perform? && (a.request.Heartbeat? || a.request.Finish?) && a.request.path in c.records ==>
      c.records[a.request.path].heartbeatAt <= a.request.now
  }

  ghost predicate AllTimely(c: Core, ids: Path -> set<string>, atoms: seq<Atom>)
    decreases atoms
  {
    atoms != [] && CanDo(c, ids, atoms[0]) ==>
      Timely(c, atoms[0]) && AllTimely(Done(c, ids, atoms[0]), ids, atoms[1..])
  }

  lemma WrittenSound(c: Core, ids: Path -> set<string>, q: Request, f: Findings)
    requires AllSound(c) && Enabled(c.records, ids, q, f) && Timely(c, Perform(q, f))
    ensures Sound(q.path, Written(Lookup(c.records, q.path), q, f))
  {
    match q
    case Register(p, owner, now, ttl) =>
      RegisterSound(Lookup(c.records, p), p, f.branch, f.generation, owner, now, ttl);
    case Heartbeat(p, _, now, ttl) => HeartbeatSoundIff(p, c.records[p], f.generation, now, ttl);
    case Finish(p, _, now, status) => FinishSoundIff(p, c.records[p], f.generation, status, now);
    case Preserve(p, _, _, _) => PreserveSound(p, c.records[p], f.head, f.at);
  }

  lemma HappenedSound(c: Core, e: Event)
    requires AllSound(c) && CanHappen(c, e)
    ensures AllSound(Happened(c, e))
  {
    var d := Happened(c, e);
    forall p | p in d.records ensures Sound(p, d.records[p]) {
      RemovalSound(p, c.records[p], if e.BeginRemoval? || e.EndRemoval? || e.Reconcile? then e.now else 0.0);
    }
  }

  lemma {:induction false} AtomsSound(c: Core, ids: Path -> set<string>, atoms: seq<Atom>, d: Core)
    requires AllSound(c) && DoneAll(c, ids, atoms, d) && AllTimely(c, ids, atoms)
    ensures AllSound(d)
    decreases atoms
  {
    if atoms != [] {
      match atoms[0] {
        case Perform(q, f) => WrittenSound(c, ids, q, f);
        case Occur(e) => HappenedSound(c, e);
      }
      AtomsSound(Done(c, ids, atoms[0]), ids, atoms[1..], d);
    }
  }

  /** Every record reachable from registration by timely operations, in any interleaving, passes the authority
      validation. */
  lemma {:induction false} EveryRecordValid(s: System, ids: Path -> set<string>, steps: seq<Step>, t: System)
    requires FlightsOk(s) && AllSound(s.core) && Reaches(s, ids, steps, t)
    requires AllTimely(s.core, ids, Atoms(s, ids, steps))
    ensures AllSound(t.core)
  {
    Linearizes(s, ids, steps, t);
    AtomsSound(s.core, ids, Atoms(s, ids, steps), t.core);
  }

  // ---------- the branch history ----------

  ghost predicate RefinesHistory(c: Core, p: Path) {
    p in c.records ==>
      && c.records[p].branch != "" && PriorValid(c.records[p].branch, c.records[p].prior)
      && Remembered(c.records[p]) == Taken(Recent(History(c, p)), MAX_PRIOR_BINDINGS + 1)
  }

  ghost predicate AllRefine(c: Core) {
    && (forall p | p in c.records :: RefinesHistory(c, p))
    && (forall p | p in c.registered :: p in c.records)
  }

  lemma RegisteredRefines(c: Core, ids: Path -> set<string>, q: Request, f: Findings)
    requires AllRefine(c) && q.Register? && Enabled(c.records, ids, q, f)
    ensures RefinesHistory(Performed(c, q, f), q.path)
  {
    var rs := History(c, q.path);
    RegisterSound(Lookup(c.records, q.path), q.path, f.branch, f.generation, q.owner, q.now, q.ttl);
    if q.path in c.records {
      assert RefinesHistory(c, q.path);
      RegisterRefines(c.records[q.path], rs, q.path, f.branch, f.generation, q.owner, q.now, q.ttl);
    } else {
      assert rs + [f.branch] == [f.branch];
      FirstRegisterRefines(q.path, f.branch, f.generation, q.owner, q.now, q.ttl);
    }
  }

  /** No other operation touches a record's branches or the log of registrations. */
  lemma OtherBranchesKept(c: Core, q: Request, f: Findings, p: Path)
    requires Writable(c.records, q, f) && p in Performed(c, q, f).records && !(q.Register? && q.path == p)
    ensures p in c.records && History(Performed(c, q, f), p) == History(c, p)
    ensures Performed(c, q, f).records[p].branch == c.records[p].branch
    ensures Performed(c, q, f).records[p].prior == c.records[p].prior
  {
  }

  lemma PerformedRefines(c: Core, ids: Path -> set<string>, q: Request, f: Findings)
    requires AllRefine(c) && Enabled(c.records, ids, q, f)
    ensures AllRefine(Performed(c, q, f))
  {
    var d := Performed(c, q, f);
    forall p | p in d.records ensures RefinesHistory(d, p) {
      if q.Register? && q.path == p {
        RegisteredRefines(c, ids, q, f);
      } else {
        OtherBranchesKept(c, q, f, p);
        assert RefinesHistory(c, p);
      }
    }
  }

  /** Nothing else that happens touches them either. */
  lemma HappenedKeepsBranches(c: Core, e: Event)
    requires CanHappen(c, e)
    ensures SameBranches(c, Happened(c, e))
  {
  }

  ghost predicate SameBranches(c: Core, d: Core) {
    && d.records.Keys == c.records.Keys && d.registered == c.registered
    && (forall p | p in c.records ::
          d.records[p].branch == c.records[p].branch && d.records[p].prior == c.records[p].prior)
  }

  lemma SameBranchesRefine(c: Core, d: Core)
    requires AllRefine(c) && SameBranches(c, d)
    ensures AllRefine(d)
  {
    forall p | p in d.records ensures RefinesHistory(d, p) {
      assert RefinesHistory(c, p);
    }
  }

  lemma DoneRefines(c: Core, ids: Path -> set<string>, a: Atom)
    requires AllRefine(c) && CanDo(c, ids, a)
    ensures AllRefine(Done(c, ids, a))
  {
    match a
    case Perform(q, f) => PerformedRefines(c, ids, q, f);
    case Occur(e) =>
      HappenedKeepsBranches(c, e);
      SameBranchesRefine(c, Happened(c, e));
  }

  lemma {:induction false} AtomsRefine(c: Core, ids: Path -> set<string>, atoms: seq<Atom>, d: Core)
    requires AllRefine(c) && DoneAll(c, ids, atoms, d)
    ensures AllRefine(d)
    decreases atoms
  {
    if atoms != [] {
      DoneRefines(c, ids, atoms[0]);
      AtomsRefine(Done(c, ids, atoms[0]), ids, atoms[1..], d);
    }
  }

  /** After any run, a record's branch and prior bindings are the first nine of the unbounded,
      most-recent-first list of the distinct branches registered on its path. */
  lemma {:induction false} HistoryRefines(s: System, ids: Path -> set<string>, steps: seq<Step>, t: System)
    requires AllRefine(s.core) && FlightsOk(s) && Reaches(s, ids, steps, t)
    ensures AllRefine(t.core)
  {
    Linearizes(s, ids, steps, t);
    AtomsRefine(s.core, ids, Atoms(s, ids, steps), t.core);
  }

  // ---------- leases and terminal records ----------

  /** A registration of the path. */
  predicate Registers(a: Atom, p: Path) { a.Perform? && a.request.Register? && a.request.path == p }

  /** The steps that may touch an active record: its owner's, cleanup's, and registrations at or after expiry. */
  predicate MayTouch(a: Atom, p: Path, r: Record) {
    || (a.Perform? && a.request.path == p && a.request.owner == r.owner)
    || (Registers(a, p) && r.expiresAt <= a.request.now)
    || (a.Occur? && a.event.BeginRemoval? && p in a.event.paths)
  }

  lemma {:induction false} LeaseKeptByAtoms(c: Core, ids: Path -> set<string>, atoms: seq<Atom>, d: Core, p: Path)
    requires DoneAll(c, ids, atoms, d) && p in c.records && c.records[p].status == Active
    requires c.removal.Some? ==> p !in c.removal.value.paths
    requires forall a | a in atoms :: !MayTouch(a, p, c.records[p])
    ensures p in d.records && d.records[p] == c.records[p]
    decreases atoms
  {
    if atoms != [] {
      var b := Done(c, ids, atoms[0]);
      LeaseKeptOnce(c, ids, atoms[0], p);
      assert forall a | a in atoms[1..] :: a in atoms;
      LeaseKeptByAtoms(b, ids, atoms[1..], d, p);
    }
  }

  lemma LeaseKeptOnce(c: Core, ids: Path -> set<string>, a: Atom, p: Path)
    requires CanDo(c, ids, a) && p in c.records && c.records[p].status == Active && !MayTouch(a, p, c.records[p])
    requires c.removal.Some? ==> p !in c.removal.value.paths
    ensures var d := Done(c, ids, a);
      p in d.records && d.records[p] == c.records[p] && (d.removal.Some? ==> p !in d.removal.value.paths)
  {
  }

  /** A lease holds its record along every run, however operations interleave, in which its owner does nothing to
      it, cleanup does not take it, and others register its path only with times before its expiry. */
  lemma {:induction false} LeaseRespected(s: System, ids: Path -> set<string>, steps: seq<Step>, t: System, p: Path)
    requires FlightsOk(s) && Reaches(s, ids, steps, t) && p in s.core.records && s.core.records[p].status == Active
    requires s.core.removal.Some? ==> p !in s.core.removal.value.paths
    requires forall a | a in Atoms(s, ids, steps) :: !MayTouch(a, p, s.core.records[p])
    ensures p in t.core.records && t.core.records[p] == s.core.records[p]
  {
    Linearizes(s, ids, steps, t);
    LeaseKeptByAtoms(s.core, ids, Atoms(s, ids, steps), t.core, p);
  }

  lemma PreservedStays(c: Core, ids: Path -> set<string>, a: Atom, p: Path)
    requires CanDo(c, ids, a) && p in c.records && c.records[p].status == MissingPreserved
    ensures p in Done(c, ids, a).records && Done(c, ids, a).records[p] == c.records[p]
  {
  }

  lemma {:induction false} PreservedByAtoms(c: Core, ids: Path -> set<string>, atoms: seq<Atom>, d: Core, p: Path)
    requires DoneAll(c, ids, atoms, d) && p in c.records && c.records[p].status == MissingPreserved
    ensures p in d.records && d.records[p] == c.records[p]
    decreases atoms
  {
    if atoms != [] {
      PreservedStays(c, ids, atoms[0], p);
      PreservedByAtoms(Done(c, ids, atoms[0]), ids, atoms[1..], d, p);
    }
  }

  /** From the moment a path is preserved as missing, its record never changes, in any interleaving. */
  lemma {:induction false} PreservedForever(s: System, ids: Path -> set<string>, steps: seq<Step>, t: System, p: Path)
    requires FlightsOk(s) && Reaches(s, ids, steps, t)
    requires p in s.core.records && s.core.records[p].status == MissingPreserved
    ensures p in t.core.records && t.core.records[p] == s.core.records[p]
  {
    Linearizes(s, ids, steps, t);
    PreservedByAtoms(s.core, ids, Atoms(s, ids, steps), t.core, p);
  }

  /** From then on neither the path nor any alias of it is registered again, even by an operation whose
      snapshot is older than the preservation. */
  lemma {:induction false} NoAliasRegistered(s: System, ids: Path -> set<string>, steps: seq<Step>, t: System,
                                             p: Path, op: nat, f: Findings)
    requires FlightsOk(s) && Reaches(s, ids, steps, t)
    requires p in s.core.records && s.core.records[p].status == MissingPreserved
    requires Can(t, ids, Commit(op, f)) && t.inFlight[op].request.Register?
    ensures t.inFlight[op].request.path != p
    ensures ids(t.inFlight[op].request.path) !! ids(p)
  {
    PreservedForever(s, ids, steps, t, p);
  }
}
