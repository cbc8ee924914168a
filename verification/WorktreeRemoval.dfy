/** Crash safety of the two-phase removal of `scripts/agent_worktree.py`, over every run of the registry. */
module WorktreeRemoval {
  import opened Text
  import opened WorktreeRecord
  import opened WorktreeRegistry
  import opened Wrappers

  // ---------- one record ----------

  /** Reconciliation decides a pending record by the checkout alone: restored exactly when the checkout is
      live with the same generation, retired exactly when it is gone or of another generation, and left
      pending exactly when its marker cannot be read. */
  lemma ReconcileExact(key: Path, r: Record, live: map<Path, Checkout>, now: real)
    requires Sound(key, r) && r.status == RemovalPending
    ensures var t := Reconciled(r, live, key, now);
      && (t == Restored(r) && Removable(t.status) <==> key in live && live[key] == Readable(r.generation.value))
      && (t.status == Removed <==> key !in live || (live[key].Readable? && live[key].generation != r.generation.value))
      && (t == r <==> key in live && live[key].Unreadable?)
      && Sound(key, t)
  {
    RemovalSound(key, r, now);
  }

  /** On sound records a removal that fails leaves no trace. */
  lemma FailedRemovalUndone(records: Records, paths: set<Path>, pendingAt: real, now: real)
    requires forall p | p in records :: Sound(p, records[p])
    requires forall p | p in paths :: p in records && Removable(records[p].status)
    ensures Endable(PendingAll(records, paths, pendingAt), paths)
    ensures EndAll(PendingAll(records, paths, pendingAt), Removal(paths, false), now) == records
  {
    forall p | p in paths ensures Restored(MadePending(records[p], pendingAt)) == records[p] {
      RemovalSound(p, records[p], pendingAt);
    }
  }

  // ---------- retirement has a cause ----------

  /** The step that retires the record of `p`: the end of a removal whose command reported success, or a
      reconciliation that sees the checkout gone or of another generation. */
  predicate Retires(c: Core, a: Atom, p: Path) {
    && a.Occur? && p in c.records
    && (|| (a.event.EndRemoval? && c.removal.Some? && c.removal.value.succeeded && p in c.removal.value.paths)
        || (a.event.Reconcile? && c.records[p].generation.Some?
            && (p !in c.live || (c.live[p].Readable? && c.live[p].generation != c.records[p].generation.value))))
  }

  /** The state before atom `k` of a run. */
  ghost function Before(c: Core, ids: Path -> set<string>, atoms: seq<Atom>, k: nat): Core
    requires k <= |atoms|
    decreases k
  {
    if k == 0 || !CanDo(c, ids, atoms[0]) then c else Before(Done(c, ids, atoms[0]), ids, atoms[1..], k - 1)
  }

  lemma RetiredOnce(c: Core, ids: Path -> set<string>, a: Atom, p: Path)
    requires CanDo(c, ids, a) && p in Done(c, ids, a).records && Done(c, ids, a).records[p].status == Removed
    ensures (p in c.records && c.records[p].status == Removed) || Retires(c, a, p)
  {
  }

  lemma {:induction false} AtomsRetire(c: Core, ids: Path -> set<string>, atoms: seq<Atom>, d: Core, p: Path)
    returns (k: nat)
    requires DoneAll(c, ids, atoms, d) && p in d.records && d.records[p].status == Removed
    requires !(p in c.records && c.records[p].status == Removed)
    ensures k < |atoms| && Retires(Before(c, ids, atoms, k), atoms[k], p)
    ensures CanDo(Before(c, ids, atoms, k), ids, atoms[k]) && p in Before(c, ids, atoms, k).records
    ensures Before(c, ids, atoms, k).records[p].status == RemovalPending
    decreases atoms
  {
    var b := Done(c, ids, atoms[0]);
    if p in b.records && b.records[p].status == Removed {
      RetiredOnce(c, ids, atoms[0], p);
      k := 0;
    } else {
      var j := AtomsRetire(b, ids, atoms[1..], d, p);
      k := j + 1;
    }
  }

  /** Over every run, a record becomes removed only from pending, by the end of a removal whose command succeeded
      or by a reconciliation that saw the checkout gone or of another generation. */
  lemma RemovedHasCause(s: System, ids: Path -> set<string>, steps: seq<Step>, t: System, p: Path) returns (k: nat)
    requires FlightsOk(s) && Reaches(s, ids, steps, t) && p in t.core.records && t.core.records[p].status == Removed
    requires !(p in s.core.records && s.core.records[p].status == Removed)
    ensures var atoms := Atoms(s, ids, steps);
      && k < |atoms| && Retires(Before(s.core, ids, atoms, k), atoms[k], p)
      && p in Before(s.core, ids, atoms, k).records && Before(s.core, ids, atoms, k).records[p].status == RemovalPending
  {
    Linearizes(s, ids, steps, t);
    k := AtomsRetire(s.core, ids, Atoms(s, ids, steps), t.core, p);
  }

  // ---------- a crashed removal ----------

  /** While a removal holds the lock, nothing writes the registry until it ends or dies. */
  lemma {:induction false} LockedUntilCrash(c: Core, ids: Path -> set<string>, atoms: seq<Atom>, d: Core)
    requires DoneAll(c, ids, atoms, d) && c.removal.Some?
    requires forall a | a in atoms :: a.Occur? ==> !a.event.EndRemoval? && !a.event.Crash?
    ensures d.records == c.records && d.removal.Some? && d.removal.value.paths == c.removal.value.paths
    decreases atoms
  {
    if atoms != [] {
      assert forall a | a in atoms[1..] :: a in atoms;
      LockedUntilCrash(Done(c, ids, atoms[0]), ids, atoms[1..], d);
    }
  }

  predicate Reconciles(a: Atom) { a.Occur? && a.event.Reconcile? }

  predicate Begins(a: Atom, p: Path) { a.Occur? && a.event.BeginRemoval? && p in a.event.paths }

  ghost predicate RegisteredIn(atoms: seq<Atom>, p: Path) { exists a :: a in atoms && Registers(a, p) }

  ghost predicate BegunIn(atoms: seq<Atom>, p: Path) { exists a :: a in atoms && Begins(a, p) }

  /** No removal in progress is one of `p`. */
  predicate NotRemoving(c: Core, p: Path) { c.removal.Some? ==> p !in c.removal.value.paths }

  lemma PendingOnce(c: Core, ids: Path -> set<string>, a: Atom, p: Path)
    requires CanDo(c, ids, a) && p in c.records && NotRemoving(c, p) && !Reconciles(a) && !Registers(a, p)
    requires c.records[p].status == RemovalPending
    ensures p in Done(c, ids, a).records && Done(c, ids, a).records[p] == c.records[p]
    ensures NotRemoving(Done(c, ids, a), p)
  {
  }

  lemma SettledOnce(c: Core, ids: Path -> set<string>, a: Atom, p: Path)
    requires CanDo(c, ids, a) && p in c.records && NotRemoving(c, p) && !Reconciles(a) && !Begins(a, p)
    requires c.records[p].status != RemovalPending || Registers(a, p)
    ensures p in Done(c, ids, a).records && Done(c, ids, a).records[p].status != RemovalPending
    ensures NotRemoving(Done(c, ids, a), p)
  {
  }

  lemma {:induction false} PendingAtoms(c: Core, ids: Path -> set<string>, atoms: seq<Atom>, d: Core, p: Path)
    requires DoneAll(c, ids, atoms, d) && p in c.records && NotRemoving(c, p) && c.records[p].status == RemovalPending
    requires forall a | a in atoms :: !Reconciles(a) && !Registers(a, p)
    ensures p in d.records && d.records[p] == c.records[p]
    decreases atoms
  {
    if atoms != [] {
      PendingOnce(c, ids, atoms[0], p);
      assert forall a | a in atoms[1..] :: a in atoms;
      PendingAtoms(Done(c, ids, atoms[0]), ids, atoms[1..], d, p);
    }
  }

  lemma {:induction false} SettledAtoms(c: Core, ids: Path -> set<string>, atoms: seq<Atom>, d: Core, p: Path)
    requires DoneAll(c, ids, atoms, d) && p in c.records && NotRemoving(c, p)
    requires c.records[p].status != RemovalPending || RegisteredIn(atoms, p)
    requires forall a | a in atoms :: !Reconciles(a) && !Begins(a, p)
    ensures p in d.records && d.records[p].status != RemovalPending
    decreases atoms
  {
    if atoms != [] {
      var b := Done(c, ids, atoms[0]);
      assert forall a | a in atoms[1..] :: a in atoms;
      if c.records[p].status != RemovalPending || Registers(atoms[0], p) {
        SettledOnce(c, ids, atoms[0], p);
      } else {
        PendingOnce(c, ids, atoms[0], p);
        var a :| a in atoms && Registers(a, p);
        assert a in atoms[1..];
      }
      SettledAtoms(b, ids, atoms[1..], d, p);
    }
  }

  /** A removal of a sound record `r` that died, whatever else happens until the next reconciliation. If nobody
      registers the path, the reconciliation gives back `r` itself if its checkout is live, retires it if that is
      gone or of another generation, and leaves it pending if the marker is unreadable. If somebody does, and no
      new removal of it begins, the reconciliation does not touch what it finds. */
  lemma {:induction false} CrashedRemovalReconciles(s: System, ids: Path -> set<string>, steps: seq<Step>, t: System,
                                                    p: Path, r: Record, at: real, now: real)
    requires FlightsOk(s) && Reaches(s, ids, steps, t) && s.core.removal.None? && t.core.removal.None?
    requires p in s.core.records && s.core.records[p] == MadePending(r, at) && Removable(r.status) && Sound(p, r)
    requires forall a | a in Atoms(s, ids, steps) :: !Reconciles(a)
    ensures p in t.core.records
    ensures !RegisteredIn(Atoms(s, ids, steps), p) ==>
      Happened(t.core, Reconcile(now)).records[p] == AfterReconcile(r, t.core.live, p, at, now)
    ensures RegisteredIn(Atoms(s, ids, steps), p) && !BegunIn(Atoms(s, ids, steps), p) ==>
      && t.core.records[p].status != RemovalPending
      && Happened(t.core, Reconcile(now)).records[p] == t.core.records[p]
  {
    var atoms := Atoms(s, ids, steps);
    Linearizes(s, ids, steps, t);
    RecordsStay(s.core, ids, atoms, t.core, p);
    if !RegisteredIn(atoms, p) {
      PendingAtoms(s.core, ids, atoms, t.core, p);
      RemovalSound(p, r, at);
    } else if !BegunIn(atoms, p) {
      SettledAtoms(s.core, ids, atoms, t.core, p);
    }
  }

  lemma {:induction false} RecordsStay(c: Core, ids: Path -> set<string>, atoms: seq<Atom>, d: Core, p: Path)
    requires DoneAll(c, ids, atoms, d) && p in c.records
    ensures p in d.records
    decreases atoms
  {
    if atoms != [] { RecordsStay(Done(c, ids, atoms[0]), ids, atoms[1..], d, p); }
  }

  /** A removal that dies leaves exactly its targets pending, whatever its command did to the checkouts. */
  lemma {:induction false} CrashLeavesPending(c: Core, ids: Path -> set<string>, paths: set<Path>, at: real,
                                              atoms: seq<Atom>, d: Core)
    requires CanHappen(c, BeginRemoval(paths, at)) && DoneAll(Happened(c, BeginRemoval(paths, at)), ids, atoms, d)
    requires forall a | a in atoms :: a.Occur? ==> !a.event.EndRemoval? && !a.event.Crash?
    ensures CanHappen(d, Crash)
    ensures var e := Happened(d, Crash); e.removal.None? && e.records == PendingAll(c.records, paths, at)
  {
    LockedUntilCrash(Happened(c, BeginRemoval(paths, at)), ids, atoms, d);
  }

  /** The record that a removal started from, after the reconciliation that follows its crash. */
  function AfterReconcile(r: Record, live: map<Path, Checkout>, p: Path, at: real, now: real): Record
    requires r.generation.Some?
  {
    if p !in live then MadeRemoved(r, now)
    else if live[p].Unreadable? then MadePending(r, at)
    else if live[p].generation == r.generation.value then r
    else MadeRemoved(r, now)
  }

  // ---------- whatever is pending can be given back ----------

  /** Only a pending record carries the marks of a removal. */
  ghost predicate AllUnmarked(c: Core) {
    forall p | p in c.records && c.records[p].status != RemovalPending :: Unmarked(c.records[p])
  }

  predicate Unmarked(r: Record) { r.pendingFrom.None? && r.pendingAt.None? }

  lemma UnmarkedStays(c: Core, ids: Path -> set<string>, a: Atom)
    requires AllUnmarked(c) && CanDo(c, ids, a)
    ensures AllUnmarked(Done(c, ids, a))
  {
    var d := Done(c, ids, a);
    forall p | p in d.records && d.records[p].status != RemovalPending ensures Unmarked(d.records[p]) {
      assert p in c.records && c.records[p].status != RemovalPending ==> Unmarked(c.records[p]);
    }
  }

  /** Atom `k` of the run begins the removal of `p`. */
  ghost predicate BeginsAt(c: Core, ids: Path -> set<string>, atoms: seq<Atom>, k: nat, p: Path) {
    && k < |atoms| && Begins(atoms[k], p) && CanDo(Before(c, ids, atoms, k), ids, atoms[k])
    && p in Before(c, ids, atoms, k).records
  }

  lemma PendingStep(c: Core, ids: Path -> set<string>, a: Atom, p: Path)
    requires CanDo(c, ids, a) && p in Done(c, ids, a).records && Done(c, ids, a).records[p].status == RemovalPending
    ensures p in c.records
    ensures || c.records[p] == Done(c, ids, a).records[p]
            || (Begins(a, p) && Done(c, ids, a).records[p] == MadePending(c.records[p], a.event.now))
  {
  }

  lemma {:induction false} PendingOrigin(c: Core, ids: Path -> set<string>, atoms: seq<Atom>, d: Core, p: Path)
    returns (k: nat)
    requires AllUnmarked(c) && DoneAll(c, ids, atoms, d) && p in d.records && d.records[p].status == RemovalPending
    ensures || (k == |atoms| && p in c.records && c.records[p] == d.records[p])
            || (&& BeginsAt(c, ids, atoms, k, p) && Unmarked(Before(c, ids, atoms, k).records[p])
                && d.records[p] == MadePending(Before(c, ids, atoms, k).records[p], atoms[k].event.now))
    decreases atoms
  {
    if atoms == [] { return 0; }
    var b := Done(c, ids, atoms[0]);
    UnmarkedStays(c, ids, atoms[0]);
    var j := PendingOrigin(b, ids, atoms[1..], d, p);
    if j < |atoms| - 1 {
      k := j + 1;
      assert atoms[1..][j] == atoms[k] && Before(c, ids, atoms, k) == Before(b, ids, atoms[1..], j);
    } else {
      PendingStep(c, ids, atoms[0], p);
      k := if c.records[p] == d.records[p] then |atoms| else 0;
    }
  }

  /** Over every run, whatever registrations, removals and reconciliations it holds: a record that is pending at
      its end, and was not at its start, is the record `r` that some removal of the path found there, marked. The
      next reconciliation gives back `r` itself if its checkout is live, retires it if that is gone or of another
      generation, and leaves it pending if the marker is unreadable. */
  lemma PendingReconciles(s: System, ids: Path -> set<string>, steps: seq<Step>, t: System, p: Path, now: real)
    returns (k: nat)
    requires FlightsOk(s) && Reaches(s, ids, steps, t) && AllUnmarked(s.core) && t.core.removal.None?
    requires p in t.core.records && t.core.records[p].status == RemovalPending
    requires !(p in s.core.records && s.core.records[p].status == RemovalPending)
    ensures var atoms := Atoms(s, ids, steps);
      && BeginsAt(s.core, ids, atoms, k, p)
      && var r, at := Before(s.core, ids, atoms, k).records[p], atoms[k].event.now;
         && Removable(r.status) && r.generation.Some? && t.core.records[p] == MadePending(r, at)
         && Happened(t.core, Reconcile(now)).records[p] == AfterReconcile(r, t.core.live, p, at, now)
  {
    Linearizes(s, ids, steps, t);
    k := PendingOrigin(s.core, ids, Atoms(s, ids, steps), t.core, p);
  }

  /** The run in which the record is not given back: while a removal is pending after its crash, any other owner
      may register the path, and reconciliation keeps that registration although the old checkout is live. */
  lemma PendingCanBeReplaced(s: System, ids: Path -> set<string>, op: nat, q: Request, branch: string,
                             generation: Generation, now: real)
    returns (steps: seq<Step>, t: System)
    requires s.core.removal.None? && op !in s.inFlight && q.Register? && branch != "" && Strip(q.owner) != ""
    requires q.ttl >= 1.0
    requires q.path in s.core.records && s.core.records[q.path].status == RemovalPending
    requires s.core.records[q.path].owner != q.owner && NoPreservedAlias(s.core.records, ids, q.path)
    ensures Reaches(s, ids, steps, t) && t.core.live == s.core.live && t.core.removal.None?
    ensures q.path in t.core.records && Happened(t.core, Reconcile(now)).records[q.path] == t.core.records[q.path]
    ensures t.core.records[q.path].owner == q.owner
  {
    var look, write := Snapshot(op, q), Commit(op, Identity(branch, generation));
    steps := [look, write];
    var u := Next(s, ids, look);
    assert Can(u, ids, write);
    t := Next(u, ids, write);
    assert steps[1..] == [write] && [write][1..] == [];
    assert Reaches(t, ids, [], t);
  }
}
