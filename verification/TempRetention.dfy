/** What the pruning of `conftest.py` takes away and what it retains. A rename carries off everything below the
    namespace it names, so a namespace is taken away when it, or one that encloses it, is moved. */
module TempRetention {
  import opened TempLease
  import opened Wrappers

  // ---------- enclosing namespaces ----------

  /** Each namespace of the chain lies directly in the next one. */
  ghost predicate IsChain(s: State, c: seq<NsId>) {
    && c != [] && (forall k | 0 <= k < |c| :: c[k] in s.ns)
    && (forall k | 0 < k < |c| :: s.ns[c[k - 1]].key.dir == In(c[k]))
  }

  /** `a` is `i` or encloses it. */
  ghost predicate Within(s: State, i: NsId, a: NsId) {
    exists c :: IsChain(s, c) && c[0] == i && c[|c| - 1] == a
  }

  ghost predicate WasMoved(s: State, i: NsId) { exists m :: m in s.moves && m.ns == i }

  ghost predicate Taken(s: State, i: NsId) { exists a :: Within(s, i, a) && WasMoved(s, a) }

  lemma WithinSelf(s: State, i: NsId)
    requires i in s.ns
    ensures Within(s, i, i)
  {
    assert IsChain(s, [i]);
  }

  /** Nothing encloses a top-level namespace but itself. */
  lemma WithinTop(s: State, i: NsId, a: NsId)
    requires Within(s, i, a) && s.ns[i].key.dir == Top
    ensures a == i
  {
    var c :| IsChain(s, c) && c[0] == i && c[|c| - 1] == a;
    if |c| > 1 {
      NextInChain(s, c);
      assert false;
    }
  }

  lemma NextInChain(s: State, c: seq<NsId>)
    requires IsChain(s, c) && |c| > 1
    ensures s.ns[c[0]].key.dir == In(c[1])
  {
  }

  lemma WithinUp(s: State, i: NsId, p: NsId, a: NsId)
    requires i in s.ns && s.ns[i].key.dir == In(p) && Within(s, p, a)
    ensures Within(s, i, a)
  {
    var c :| IsChain(s, c) && c[0] == p && c[|c| - 1] == a;
    var d := [i] + c;
    assert forall k | 0 < k < |d| :: d[k] == c[k - 1];
    assert IsChain(s, d);
  }

  /** What encloses a namespace is itself, or encloses its directory. */
  lemma WithinDown(s: State, i: NsId, a: NsId)
    requires Within(s, i, a) && a != i
    ensures s.ns[i].key.dir.In? && Within(s, s.ns[i].key.dir.ns, a)
  {
    var c :| IsChain(s, c) && c[0] == i && c[|c| - 1] == a;
    assert s.ns[c[0]].key.dir == In(c[1]);
    var d := c[1..];
    assert forall k | 0 < k < |d| :: d[k] == c[k + 1] && d[k - 1] == c[k];
    assert IsChain(s, d) && d[|d| - 1] == a;
  }

  // ---------- places never change ----------

  ghost predicate KeepsKeys(s: State, t: State) {
    forall i | i in s.ns :: i in t.ns && t.ns[i].key == s.ns[i].key
  }

  ghost predicate ParentsOk(s: State) {
    forall i | i in s.ns && s.ns[i].key.dir.In? :: s.ns[i].key.dir.ns in s.ns
  }

  lemma RunKeepsKeys(s: State, a: RunAction)
    requires RunCan(s, a)
    ensures KeepsKeys(s, RunStep(s, a))
    ensures !a.MakeOwn? ==> RunStep(s, a).ns.Keys == s.ns.Keys
  {
  }

  lemma CleanerKeepsKeys(s: State, a: CleanerAction)
    requires CleanerCan(s, a)
    ensures KeepsKeys(s, CleanerStep(s, a)) && CleanerStep(s, a).ns.Keys == s.ns.Keys
  {
  }

  lemma StepKeepsKeys(s: State, a: Action)
    requires Can(s, a)
    ensures KeepsKeys(s, Step(s, a))
  {
    match a {
      case Tick(_) =>
      case ByRun(b) => RunKeepsKeys(s, b);
      case ByCleaner(b) => CleanerKeepsKeys(s, b);
    }
  }

  lemma {:induction false} RunsKeepKeys(s: State, actions: seq<Action>, t: State)
    requires Runs(s, actions, t)
    ensures KeepsKeys(s, t)
    decreases actions
  {
    if actions != [] {
      StepKeepsKeys(s, actions[0]);
      RunsKeepKeys(Step(s, actions[0]), actions[1..], t);
    }
  }

  /** So what encloses a namespace is fixed when it is made. */
  lemma WithinKept(s: State, t: State, i: NsId, a: NsId)
    requires KeepsKeys(s, t) && ParentsOk(s) && i in s.ns
    ensures Within(t, i, a) <==> Within(s, i, a)
  {
    if Within(s, i, a) {
      var c :| IsChain(s, c) && c[0] == i && c[|c| - 1] == a;
      assert IsChain(t, c);
    }
    if Within(t, i, a) {
      var c :| IsChain(t, c) && c[0] == i && c[|c| - 1] == a;
      ChainKept(s, t, c);
    }
  }

  lemma {:induction false} ChainKept(s: State, t: State, c: seq<NsId>)
    requires KeepsKeys(s, t) && ParentsOk(s) && IsChain(t, c) && c[0] in s.ns
    ensures IsChain(s, c)
  {
    if |c| > 1 {
      assert t.ns[c[0]].key.dir == In(c[1]);
      var d := c[1..];
      assert forall k | 0 < k < |d| :: d[k] == c[k + 1] && d[k - 1] == c[k];
      ChainKept(s, t, d);
      assert forall k | 0 < k < |c| :: c[k] == d[k - 1];
    }
  }

  // ---------- doomed namespaces ----------

  /** A child marker, or a missing terminal marker, whose writer is gone. */
  ghost predicate Orphaned(s: State, i: NsId) {
    && i in s.ns && s.ns[i].owner in s.runs
    && (|| (s.ns[i].finished.None? && !s.runs[s.ns[i].owner].alive)
        || (exists q :: q in s.ns[i].children && q.run in s.runs && !s.runs[q.run].alive))
  }

  /** The run still has its own namespace `i` to finish. */
  predicate MayFinish(s: State, r: RunId, i: NsId) {
    Live(s, r) && (s.runs[r].own == Made(i) || s.runs[r].own == Marked(i))
  }

  /** The run of the child marker still holds it. */
  predicate MayUnlink(s: State, q: Acquisition, i: NsId) {
    && Live(s, q.run) && q.level in s.runs[q.run].held && q.level !in s.runs[q.run].unlinked
    && s.runs[q.run].held[q.level] == i
  }

  /** No run can write the terminal marker any more, or no run can take some child marker away any more. */
  ghost predicate Doomed(s: State, i: NsId) {
    && i in s.ns
    && (|| (s.ns[i].finished.None? && !MayFinish(s, s.ns[i].owner, i))
        || (exists q :: q in s.ns[i].children && !MayUnlink(s, q, i)))
  }

  lemma OrphanedIsDoomed(s: State, i: NsId)
    requires Orphaned(s, i)
    ensures Doomed(s, i)
  {
    if q :| q in s.ns[i].children && q.run in s.runs && !s.runs[q.run].alive {
      assert !MayUnlink(s, q, i);
    }
  }

  /** A step of run `r` gives it nothing to finish or unlink that it did not have. */
  ghost predicate RunNarrows(s: State, t: State, r: RunId) {
    && (forall i | i in s.ns && MayFinish(t, r, i) :: MayFinish(s, r, i))
    && (forall i, l | i in s.ns && MayUnlink(t, Acquisition(r, l), i) ::
          MayUnlink(s, Acquisition(r, l), i) || Acquisition(r, l) !in s.ns[i].acquired)
  }

  /** A namespace loses only what its writers take away. */
  ghost predicate NsNarrows(s: State, i: NsId, n: Namespace, n': Namespace) {
    && n'.owner == n.owner
    && (n'.finished.Some? ==> n.finished.Some? || MayFinish(s, n.owner, i))
    && (forall q | q in n.children :: q in n'.children || MayUnlink(s, q, i))
  }

  lemma DoomKept(s: State, t: State, r: RunId)
    requires NamespacesOk(s)
    requires forall x | x in s.runs && x != r :: x in t.runs && t.runs[x] == s.runs[x]
    requires forall i | i in s.ns :: i in t.ns && NsNarrows(s, i, s.ns[i], t.ns[i])
    requires RunNarrows(s, t, r)
    ensures forall i | Doomed(s, i) :: Doomed(t, i)
  {
    forall i | Doomed(s, i) ensures Doomed(t, i) {
      assert NsNarrows(s, i, s.ns[i], t.ns[i]);
      assert PastOk(s.ns[i], s.clock) && PassedOk(s, s.ns[i]);
      if q :| q in s.ns[i].children && !MayUnlink(s, q, i) {
        assert q in t.ns[i].children && q in s.ns[i].acquired;
        assert q == Acquisition(q.run, q.level);
        assert !MayUnlink(t, q, i);
      }
    }
  }

  lemma FinishDoom(s: State, r: RunId)
    requires NamespacesOk(s) && RunsOk(s) && CanFinishOwn(s, r)
    ensures forall i | Doomed(s, i) :: Doomed(DoFinishOwn(s, r), i)
  {
    assert RunOk(s, r);
    DoomKept(s, DoFinishOwn(s, r), r);
  }

  lemma OwnerDoom(s: State, a: RunAction)
    requires NamespacesOk(s) && RunCan(s, a) && (a.MarkOwn? || a.CloseOwn?)
    ensures forall i | Doomed(s, i) :: Doomed(RunStep(s, a), i)
  {
    DoomKept(s, RunStep(s, a), a.run);
  }

  lemma ReleaseDoom(s: State, a: RunAction)
    requires NamespacesOk(s) && RunCan(s, a) && (a.Touch? || a.Unlink? || a.CloseHeld?)
    ensures forall i | Doomed(s, i) :: Doomed(RunStep(s, a), i)
  {
    DoomKept(s, RunStep(s, a), a.run);
  }

  lemma AcquireDoom(s: State, a: RunAction)
    requires NamespacesOk(s) && RunCan(s, a) && (a.Open? || a.LockShared? || a.Verify? || a.MarkChild?)
    ensures forall i | Doomed(s, i) :: Doomed(RunStep(s, a), i)
  {
    DoomKept(s, RunStep(s, a), a.run);
  }

  lemma StartDoom(s: State, r: RunId, path: seq<nat>)
    requires NamespacesOk(s) && CanStart(s, r, path)
    ensures forall i | Doomed(s, i) :: Doomed(DoStart(s, r, path), i)
  {
    DoomKept(s, DoStart(s, r, path), r);
  }

  lemma MakeOwnDoom(s: State, r: RunId, made: NsId, name: nat)
    requires NamespacesOk(s) && CanMakeOwn(s, r, made, name)
    ensures forall i | Doomed(s, i) :: Doomed(DoMakeOwn(s, r, made, name), i)
  {
    DoomKept(s, DoMakeOwn(s, r, made, name), r);
  }

  lemma DieDoom(s: State, r: RunId)
    requires NamespacesOk(s) && CanDie(s, r)
    ensures forall i | Doomed(s, i) :: Doomed(DoDie(s, r), i)
  {
    DoomKept(s, DoDie(s, r), r);
  }

  lemma RunDoom(s: State, a: RunAction)
    requires NamespacesOk(s) && RunsOk(s) && RunCan(s, a)
    ensures forall i | Doomed(s, i) :: Doomed(RunStep(s, a), i)
  {
    if a.MarkOwn? || a.CloseOwn? {
      OwnerDoom(s, a);
    } else if a.Touch? || a.Unlink? || a.CloseHeld? {
      ReleaseDoom(s, a);
    } else if a.Open? || a.LockShared? || a.Verify? || a.MarkChild? {
      AcquireDoom(s, a);
    } else if a.Start? {
      StartDoom(s, a.run, a.path);
    } else if a.MakeOwn? {
      MakeOwnDoom(s, a.run, a.made, a.name);
    } else if a.FinishOwn? {
      FinishDoom(s, a.run);
    } else {
      DieDoom(s, a.run);
    }
  }

  lemma CleanerDoom(s: State, a: CleanerAction)
    requires CleanerCan(s, a)
    ensures forall i | Doomed(s, i) :: Doomed(CleanerStep(s, a), i)
  {
    var t := CleanerStep(s, a);
    forall i | Doomed(s, i) ensures Doomed(t, i) {
      if q :| q in s.ns[i].children && !MayUnlink(s, q, i) {
        assert q in t.ns[i].children && !MayUnlink(t, q, i);
      }
    }
  }

  lemma TickDoom(s: State, elapsed: nat)
    ensures forall i | Doomed(s, i) :: Doomed(s.(clock := s.clock + elapsed), i)
  {
    var t := s.(clock := s.clock + elapsed);
    forall i | Doomed(s, i) ensures Doomed(t, i) {
      if q :| q in s.ns[i].children && !MayUnlink(s, q, i) {
        assert q in t.ns[i].children && !MayUnlink(t, q, i);
      }
    }
  }

  lemma StepDoom(s: State, a: Action)
    requires NamespacesOk(s) && RunsOk(s) && Can(s, a)
    ensures forall i | Doomed(s, i) :: Doomed(Step(s, a), i)
  {
    match a {
      case Tick(elapsed) => TickDoom(s, elapsed);
      case ByRun(b) => RunDoom(s, b);
      case ByCleaner(b) => CleanerDoom(s, b);
    }
  }

  lemma {:induction false} DoomedStays(s: State, actions: seq<Action>, t: State, i: NsId)
    requires Inv(s) && Doomed(s, i) && Runs(s, actions, t)
    ensures Doomed(t, i)
    decreases actions
  {
    if actions != [] {
      InvStep(s, actions[0]);
      StepDoom(s, actions[0]);
      DoomedStays(Step(s, actions[0]), actions[1..], t, i);
    }
  }

  lemma DoomedNotMoved(t: State, i: NsId)
    requires MovesOk(t) && Doomed(t, i)
    ensures !WasMoved(t, i)
  {
    forall m | m in t.moves ensures m.ns != i {
      var j :| 0 <= j < |t.moves| && t.moves[j] == m;
      assert MoveOk(t, t.moves[j]);
    }
  }

  // ---------- retention ----------

  /** The namespace and everything that encloses it is doomed. */
  ghost predicate Retained(s: State, i: NsId) {
    i in s.ns && forall a | Within(s, i, a) :: Doomed(s, a)
  }

  /** What is retained is never taken away, in any continuation. */
  lemma {:induction false} RetainedForever(s: State, actions: seq<Action>, t: State, i: NsId)
    requires Inv(s) && ParentsOk(s) && Retained(s, i) && Runs(s, actions, t)
    ensures !Taken(t, i) && Retained(t, i)
  {
    InvRuns(s, actions, t);
    RunsKeepKeys(s, actions, t);
    forall a | Within(t, i, a) ensures Doomed(t, a) && !WasMoved(t, a) {
      WithinKept(s, t, i, a);
      DoomedStays(s, actions, t, a);
      DoomedNotMoved(t, a);
    }
  }

  /** Over every interleaving, a namespace is taken away only with an enclosing one, or itself, that was moved
      after its owner wrote the terminal marker and every run that ever acquired it finished cleanly, all of it
      at or before the cleaner's cutoff. */
  lemma TakenOnlyWhenSettled(actions: seq<Action>, t: State, i: NsId) returns (m: Move)
    requires Runs(Init, actions, t) && Taken(t, i)
    ensures m in t.moves && Within(t, i, m.ns) && m.ns in t.ns
    ensures var n := t.ns[m.ns];
      && n.finished.Some? && n.finished.value <= m.cutoff && n.created <= m.cutoff && !Live(t, n.owner)
      && (forall q | q in n.acquired ::
            q in n.clean && n.clean[q].touched <= m.cutoff && n.clean[q].unlinked <= m.cutoff)
  {
    var a :| Within(t, i, a) && WasMoved(t, a);
    m :| m in t.moves && m.ns == a;
    var j :| 0 <= j < |t.moves| && t.moves[j] == m;
    MovedOnlyWhenSettled(actions, t, j);
  }

  /** Crashed owners or nested runs retain a namespace, in every continuation, if each of those that enclose it
      has one too. */
  lemma {:induction false} CrashRetains(before: seq<Action>, s: State, after: seq<Action>, t: State, i: NsId)
    requires Runs(Init, before, s) && Runs(s, after, t)
    requires Orphaned(s, i) && forall a | Within(s, i, a) :: Orphaned(s, a)
    ensures !Taken(t, i)
  {
    GoodRuns(Init, before, s);
    GoodParents(s);
    forall a | Within(s, i, a) ensures Doomed(s, a) { OrphanedIsDoomed(s, a); }
    RetainedForever(s, after, t, i);
  }

  /** So a single crash retains a top-level namespace for ever. */
  lemma {:induction false} CrashRetainsTop(before: seq<Action>, s: State, after: seq<Action>, t: State, i: NsId)
    requires Runs(Init, before, s) && Runs(s, after, t) && Orphaned(s, i) && s.ns[i].key.dir == Top
    ensures !Taken(t, i)
  {
    forall a | Within(s, i, a) ensures Orphaned(s, a) { WithinTop(s, i, a); }
    CrashRetains(before, s, after, t, i);
  }

  // ---------- further facts about every state ----------

  ghost predicate NsShape(s: State, i: NsId)
    requires i in s.ns
  {
    var n := s.ns[i];
    && n.created <= s.clock
    && (n.finished.Some? ==> n.marked)
    && (n.key.dir.In? ==> n.key.dir.ns in s.ns)
    && n.owner in s.runs && !s.runs[n.owner].own.Unmade?
    && (forall q | q in n.acquired :: q.run != n.owner)
    && (forall h | h in n.shared :: Live(s, h.run))
  }

  ghost predicate RunShape(s: State, r: RunId)
    requires r in s.runs
  {
    var p := s.runs[r];
    && (p.level == 0 ==> p.stage.Idle?)
    && (p.own.Marked? ==> p.own.ns in s.ns && s.ns[p.own.ns].marked)
  }

  ghost predicate Shape(s: State) {
    (forall i | i in s.ns :: NsShape(s, i)) && (forall r | r in s.runs :: RunShape(s, r))
  }

  /** Only run `r`, which is not the owner, acquired. */
  ghost predicate AcquiredBy(n: Namespace, n': Namespace, r: RunId) {
    n.owner != r && forall q | q in n'.acquired :: q in n.acquired || q.run == r
  }

  /** What a namespace relies on in the rest of the state. */
  lemma NsShapeKept(s: State, t: State, x: NsId, r: RunId)
    requires x in s.ns && x in t.ns && NsShape(s, x) && s.ns.Keys <= t.ns.Keys && s.clock <= t.clock
    requires t.ns[x].key == s.ns[x].key && t.ns[x].owner == s.ns[x].owner && t.ns[x].created <= t.clock
    requires t.ns[x].finished.Some? ==> t.ns[x].marked
    requires t.ns[x].acquired == s.ns[x].acquired || AcquiredBy(s.ns[x], t.ns[x], r)
    requires forall h | h in t.ns[x].shared ::
      (h in s.ns[x].shared && (h.run == r ==> Live(t, r))) || (h.run == r && Live(t, r))
    requires forall y | y in s.runs && y != r :: y in t.runs && t.runs[y] == s.runs[y]
    requires r in s.runs ==> r in t.runs && (t.runs[r].own.Unmade? ==> s.runs[r].own.Unmade?)
    ensures NsShape(t, x)
  {
  }

  lemma RunShapesKept(s: State, t: State, r: RunId)
    requires forall x | x in s.runs :: RunShape(s, x)
    requires forall y | y in t.runs && y != r :: y in s.runs && t.runs[y] == s.runs[y]
    requires forall i | i in s.ns :: i in t.ns && (s.ns[i].marked ==> t.ns[i].marked)
    requires r in t.runs ==> RunShape(t, r)
    ensures forall x | x in t.runs :: RunShape(t, x)
  {
    forall x | x in t.runs ensures RunShape(t, x) { if x != r { assert RunShape(s, x); } }
  }

  /** A step by live run `r` on at most one namespace. */
  lemma ShapeFrame(s: State, t: State, r: RunId, i: NsId)
    requires Shape(s) && i in s.ns && i in t.ns && Live(t, r) && r in s.runs
    requires t.ns == s.ns[i := t.ns[i]] && t.runs == s.runs[r := t.runs[r]] && t.clock == s.clock
    requires s.runs[r].own.Unmade? <==> t.runs[r].own.Unmade?
    requires t.ns[i].key == s.ns[i].key && t.ns[i].owner == s.ns[i].owner && (s.ns[i].marked ==> t.ns[i].marked)
    requires t.ns[i].created <= t.clock && (t.ns[i].finished.Some? ==> t.ns[i].marked)
    requires t.ns[i].acquired == s.ns[i].acquired || AcquiredBy(s.ns[i], t.ns[i], r)
    requires forall h | h in t.ns[i].shared :: h in s.ns[i].shared || h.run == r
    requires RunShape(t, r)
    ensures Shape(t)
  {
    forall x | x in t.ns ensures NsShape(t, x) {
      assert NsShape(s, x);
      NsShapeKept(s, t, x, r);
    }
    RunShapesKept(s, t, r);
  }

  lemma ShapeLock(s: State, r: RunId)
    requires Shape(s) && CanLockShared(s, r)
    ensures Shape(DoLockShared(s, r))
  {
    var i := s.runs[r].stage.ns;
    assert NsShape(s, i) && RunShape(s, r);
    ShapeFrame(s, DoLockShared(s, r), r, i);
  }

  lemma ShapeMark(s: State, r: RunId)
    requires Shape(s) && CanMarkChild(s, r) && RunOk(s, r)
    ensures Shape(DoMarkChild(s, r))
  {
    var i := s.runs[r].stage.ns;
    assert NsShape(s, i) && RunShape(s, r);
    ShapeFrame(s, DoMarkChild(s, r), r, i);
  }

  lemma ShapeOwner(s: State, a: RunAction)
    requires Shape(s) && RunCan(s, a) && (a.MarkOwn? || a.FinishOwn? || a.CloseOwn?)
    ensures Shape(RunStep(s, a))
  {
    var i := s.runs[a.run].own.ns;
    assert NsShape(s, i) && RunShape(s, a.run);
    ShapeFrame(s, RunStep(s, a), a.run, i);
  }

  lemma ShapeRelease(s: State, a: RunAction)
    requires Shape(s) && RunCan(s, a) && (a.Touch? || a.Unlink? || a.CloseHeld?)
    ensures Shape(RunStep(s, a))
  {
    var i := s.runs[a.run].held[a.held];
    assert NsShape(s, i) && RunShape(s, a.run);
    ShapeUnlinkFacts(s, a);
    ShapeFrame(s, RunStep(s, a), a.run, i);
  }

  lemma ShapeUnlinkFacts(s: State, a: RunAction)
    requires RunCan(s, a) && (a.Touch? || a.Unlink? || a.CloseHeld?)
    ensures var i, t := s.runs[a.run].held[a.held], RunStep(s, a);
      t.ns[i].acquired == s.ns[i].acquired && t.ns[i].finished == s.ns[i].finished && t.ns[i].marked == s.ns[i].marked
  {
  }

  lemma ShapeBegin(s: State, a: RunAction)
    requires Shape(s) && RunCan(s, a) && (a.Start? || a.Open? || a.Verify?)
    ensures Shape(RunStep(s, a))
  {
    var t := RunStep(s, a);
    if !a.Start? { assert RunShape(s, a.run); }
    forall x | x in t.ns ensures NsShape(t, x) {
      assert NsShape(s, x);
      NsShapeKept(s, t, x, a.run);
    }
    RunShapesKept(s, t, a.run);
  }

  lemma {:induction false} ResolvedExists(s: State, path: seq<nat>)
    requires PlacesOk(s)
    ensures var d := Resolve(s.entries, path); d.Some? && d.value.In? ==> d.value.ns in s.ns
  {
  }

  lemma MadeShape(s: State, r: RunId, made: NsId, name: nat)
    requires PlacesOk(s) && CanMakeOwn(s, r, made, name)
    ensures NsShape(DoMakeOwn(s, r, made, name), made)
  {
    ResolvedExists(s, s.runs[r].path);
  }

  lemma OldShape(s: State, r: RunId, made: NsId, name: nat, x: NsId)
    requires CanMakeOwn(s, r, made, name) && x in s.ns && NsShape(s, x)
    ensures NsShape(DoMakeOwn(s, r, made, name), x)
  {
    NsShapeKept(s, DoMakeOwn(s, r, made, name), x, r);
  }

  lemma MadeRunShapes(s: State, r: RunId, made: NsId, name: nat)
    requires Shape(s) && CanMakeOwn(s, r, made, name)
    ensures forall x | x in DoMakeOwn(s, r, made, name).runs :: RunShape(DoMakeOwn(s, r, made, name), x)
  {
    assert RunShape(s, r);
    RunShapesKept(s, DoMakeOwn(s, r, made, name), r);
  }

  lemma ShapeMakeOwn(s: State, r: RunId, made: NsId, name: nat)
    requires Shape(s) && PlacesOk(s) && CanMakeOwn(s, r, made, name)
    ensures Shape(DoMakeOwn(s, r, made, name))
  {
    var t := DoMakeOwn(s, r, made, name);
    MadeShape(s, r, made, name);
    forall x | x in t.ns && x != made ensures NsShape(t, x) { OldShape(s, r, made, name, x); }
    MadeRunShapes(s, r, made, name);
  }

  lemma ShapeDie(s: State, r: RunId)
    requires Shape(s) && CanDie(s, r)
    ensures Shape(DoDie(s, r))
  {
    var t := DoDie(s, r);
    forall x | x in t.ns ensures NsShape(t, x) {
      assert NsShape(s, x);
      NsShapeKept(s, t, x, r);
    }
    assert RunShape(s, r);
    RunShapesKept(s, t, r);
  }

  lemma ShapeByRun(s: State, a: RunAction)
    requires Shape(s) && PlacesOk(s) && RunsOk(s) && RunCan(s, a)
    ensures Shape(RunStep(s, a))
  {
    if a.LockShared? {
      ShapeLock(s, a.run);
    } else if a.MarkChild? {
      ShapeMark(s, a.run);
    } else if a.MarkOwn? || a.FinishOwn? || a.CloseOwn? {
      ShapeOwner(s, a);
    } else if a.Touch? || a.Unlink? || a.CloseHeld? {
      ShapeRelease(s, a);
    } else if a.MakeOwn? {
      ShapeMakeOwn(s, a.run, a.made, a.name);
    } else if a.Die? {
      ShapeDie(s, a.run);
    } else {
      ShapeBegin(s, a);
    }
  }

  /** Cleaners change nothing that the shape is about. */
  lemma CleanerChangesLocks(s: State, a: CleanerAction, x: NsId)
    requires CleanerCan(s, a) && x in s.ns
    ensures var t := CleanerStep(s, a);
      x in t.ns && t.ns[x] == s.ns[x].(exclusive := t.ns[x].exclusive) && t.runs == s.runs && t.clock == s.clock
  {
  }

  lemma ShapeByCleaner(s: State, a: CleanerAction)
    requires Shape(s) && CleanerCan(s, a)
    ensures Shape(CleanerStep(s, a))
  {
    var t := CleanerStep(s, a);
    CleanerKeepsKeys(s, a);
    forall x | x in t.ns ensures NsShape(t, x) {
      assert NsShape(s, x);
      CleanerChangesLocks(s, a, x);
    }
    forall x | x in t.runs ensures RunShape(t, x) {
      CleanerSameRuns(s, a);
      assert RunShape(s, x);
      if s.runs[x].own.Marked? { CleanerChangesLocks(s, a, s.runs[x].own.ns); }
    }
  }

  lemma CleanerSameRuns(s: State, a: CleanerAction)
    requires CleanerCan(s, a)
    ensures CleanerStep(s, a).runs == s.runs
  {
  }

  lemma ShapeTick(s: State, elapsed: nat)
    requires Shape(s)
    ensures Shape(s.(clock := s.clock + elapsed))
  {
    var t := s.(clock := s.clock + elapsed);
    forall x | x in t.ns ensures NsShape(t, x) { assert NsShape(s, x); }
    forall x | x in t.runs ensures RunShape(t, x) { assert RunShape(s, x); }
  }

  lemma ShapeStep(s: State, a: Action)
    requires Shape(s) && PlacesOk(s) && RunsOk(s) && Can(s, a)
    ensures Shape(Step(s, a))
  {
    match a {
      case Tick(elapsed) => ShapeTick(s, elapsed);
      case ByRun(b) => ShapeByRun(s, b);
      case ByCleaner(b) => ShapeByCleaner(s, b);
    }
  }

  /** A namespace stays where it was made until it is moved. */
  ghost predicate Placed(s: State) { forall i | i in s.ns :: InPlace(s, i) || WasMoved(s, i) }

  lemma PlacedSame(s: State, t: State)
    requires Placed(s) && t.entries == s.entries && t.moves == s.moves && KeepsKeys(s, t) && t.ns.Keys == s.ns.Keys
    ensures Placed(t)
  {
    forall i | i in t.ns ensures InPlace(t, i) || WasMoved(t, i) {
      if InPlace(s, i) { assert InPlace(t, i); } else { assert WasMoved(s, i); }
    }
  }

  lemma PlacedMakeOwn(s: State, r: RunId, made: NsId, name: nat)
    requires Placed(s) && CanMakeOwn(s, r, made, name)
    ensures Placed(DoMakeOwn(s, r, made, name))
  {
    var t := DoMakeOwn(s, r, made, name);
    forall i | i in t.ns ensures InPlace(t, i) || WasMoved(t, i) {
      if i == made || InPlace(s, i) { assert InPlace(t, i); } else { assert WasMoved(s, i); }
    }
  }

  lemma PlacedRename(s: State, c: CleanerId)
    requires Placed(s) && CanRename(s, c) && CleanerOk(s, c)
    ensures Placed(DoRename(s, c))
  {
    var t, i := DoRename(s, c), s.cleaners[c].ns;
    var last := Move(c, i, s.cleaners[c].cutoff);
    assert t.moves == s.moves + [last] && last in t.moves;
    forall x | x in t.ns ensures InPlace(t, x) || WasMoved(t, x) {
      if WasMoved(s, x) {
        var m :| m in s.moves && m.ns == x;
        assert m in t.moves;
      } else if x != i {
        assert InPlace(t, x);
      }
    }
  }

  lemma RunSamePlaces(s: State, a: RunAction)
    requires RunCan(s, a) && !a.MakeOwn?
    ensures RunStep(s, a).entries == s.entries && RunStep(s, a).moves == s.moves
  {
  }

  lemma PlacedByRun(s: State, a: RunAction)
    requires Placed(s) && RunCan(s, a) && !a.MakeOwn?
    ensures Placed(RunStep(s, a))
  {
    RunKeepsKeys(s, a);
    RunSamePlaces(s, a);
    PlacedSame(s, RunStep(s, a));
  }

  lemma PlacedByCleaner(s: State, a: CleanerAction)
    requires Placed(s) && CleanerCan(s, a) && !a.Rename?
    ensures Placed(CleanerStep(s, a))
  {
    CleanerKeepsKeys(s, a);
    PlacedSame(s, CleanerStep(s, a));
  }

  lemma PlacedStep(s: State, a: Action)
    requires Placed(s) && CleanersOk(s) && Can(s, a)
    ensures Placed(Step(s, a))
  {
    match a
    case Tick(_) => PlacedSame(s, Step(s, a));
    case ByRun(b) => if b.MakeOwn? { PlacedMakeOwn(s, b.run, b.made, b.name); } else { PlacedByRun(s, b); }
    case ByCleaner(b) => if b.Rename? { PlacedRename(s, b.cleaner); } else { PlacedByCleaner(s, b); }
  }

  /** All that is known of a reachable state. */
  ghost predicate Good(s: State) { Inv(s) && Shape(s) && Placed(s) }

  lemma GoodStep(s: State, a: Action)
    requires Good(s) && Can(s, a)
    ensures Good(Step(s, a))
  {
    InvStep(s, a);
    ShapeStep(s, a);
    PlacedStep(s, a);
  }

  lemma {:induction false} GoodRuns(s: State, actions: seq<Action>, t: State)
    requires Good(s) && Runs(s, actions, t)
    ensures Good(t)
    decreases actions
  {
    if actions != [] {
      GoodStep(s, actions[0]);
      GoodRuns(Step(s, actions[0]), actions[1..], t);
    }
  }

  lemma GoodParents(s: State)
    requires Shape(s)
    ensures ParentsOk(s)
  {
    forall i | i in s.ns && s.ns[i].key.dir.In? ensures s.ns[i].key.dir.ns in s.ns { assert NsShape(s, i); }
  }
}
