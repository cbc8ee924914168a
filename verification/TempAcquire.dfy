/** Steps of one run towards its own namespace: a run that still acquires the namespaces on its path, and can go
    on, acquires them all. */
module TempAcquire {
  import opened TempLease
  import opened TempRetention
  import opened TempChain
  import opened Wrappers

  /** All that is known of a reachable state, its chains included. */
  ghost predicate Known(s: State) { Good(s) && ChainInv(s) }

  lemma {:induction false} KnownRuns(s: State, actions: seq<Action>, t: State)
    requires Known(s) && Runs(s, actions, t)
    ensures Known(t)
  {
    ChainRuns(s, actions, t);
  }

  /** A run leads from state `s`, of which the invariants hold, to state `t`. */
  ghost predicate Leads(s: State, t: State) { exists actions :: Known(s) && Runs(s, actions, t) }

  lemma LeadsGood(s: State, t: State)
    requires Leads(s, t)
    ensures Known(t)
  {
    var actions :| Known(s) && Runs(s, actions, t);
    KnownRuns(s, actions, t);
  }

  lemma LeadsStep(s: State, u: State, a: Action)
    requires Leads(s, u) && Can(u, a)
    ensures Leads(s, Step(u, a))
  {
    var actions :| Known(s) && Runs(s, actions, u);
    RunsThen(s, actions, u, a);
  }

  lemma LeadsSelf(s: State)
    requires Known(s)
    ensures Leads(s, s)
  {
    assert Runs(s, [], s);
  }

  lemma {:induction false} LeadsOn(s: State, u: State, actions: seq<Action>, t: State)
    requires Leads(s, u) && Runs(u, actions, t)
    ensures Leads(s, t)
    decreases actions
  {
    if actions != [] {
      LeadsStep(s, u, actions[0]);
      LeadsOn(s, Step(u, actions[0]), actions[1..], t);
    }
  }

  lemma RunSteps(o: State, s: State, a: RunAction)
    requires Leads(o, s) && RunCan(s, a)
    ensures Leads(o, RunStep(s, a))
  {
    LeadsStep(o, s, ByRun(a));
  }

  // ---------- what the construction leaves alone ----------

  /** Only the given runs act; names and marks are only added. */
  ghost predicate Spares(s: State, t: State, rs: set<RunId>) {
    && t.runs.Keys == s.runs.Keys && (forall r | r in s.runs && r !in rs :: t.runs[r] == s.runs[r])
    && t.moves == s.moves && KeepsKeys(s, t) && KeepsMarks(s, t)
    && (forall k | k in s.entries :: k in t.entries && t.entries[k] == s.entries[k])
  }

  ghost predicate KeepsMarks(s: State, t: State) {
    forall i | i in s.ns && s.ns[i].marked :: i in t.ns && t.ns[i].marked
  }

  lemma SparesThen(s: State, t: State, u: State, rs: set<RunId>)
    requires Spares(s, t, rs) && Spares(t, u, rs)
    ensures Spares(s, u, rs)
  {
  }

  // ---------- what is ahead of a run ----------

  /** The path of the run leads to a marked namespace at level `j`. */
  predicate OnPath(s: State, r: RunId, j: nat)
    requires r in s.runs && j <= |s.runs[r].path|
  {
    var d := Resolve(s.entries, s.runs[r].path[..j]);
    d.Some? && d.value.In? && d.value.ns in s.ns && s.ns[d.value.ns].marked
  }

  /** The run can go on: its path is there, what it has still to acquire is marked, and what it has opened is
      still at its place. */
  predicate Onward(s: State, r: RunId)
    requires r in s.runs
  {
    var p := s.runs[r];
    && p.level <= |p.path| && Resolve(s.entries, p.path).Some? && (forall j | 0 < j <= p.level :: OnPath(s, r, j))
    && (p.stage.Opened? || p.stage.Locked? ==> Named(s, r, p.stage.ns))
    && (p.level == 0 ==> p.stage.Idle?)
  }

  /** The run has made its own namespace, or can go on to make it. */
  predicate CanRelease(s: State, r: RunId) {
    Live(s, r) && (s.runs[r].own.Unmade? ==> Onward(s, r))
  }

  /** The run has made its own namespace, or can make it now. */
  predicate AtOwn(s: State, r: RunId) {
    && Live(s, r)
    && (s.runs[r].own.Unmade? ==>
          s.runs[r].level == 0 && s.runs[r].stage.Idle? && Resolve(s.entries, s.runs[r].path).Some?)
  }

  lemma OnwardKept(s: State, t: State, r: RunId)
    requires r in s.runs && r in t.runs && t.runs[r] == s.runs[r] && KeepsMarks(s, t) && Onward(s, r)
    requires forall k | k in s.entries :: k in t.entries && t.entries[k] == s.entries[k]
    ensures Onward(t, r)
  {
    var p := s.runs[r];
    ResolveGrows(s.entries, t.entries, p.path);
    forall j | 0 < j <= p.level ensures OnPath(t, r, j) {
      assert OnPath(s, r, j);
      ResolveGrows(s.entries, t.entries, p.path[..j]);
    }
    if p.stage.Opened? || p.stage.Locked? { ResolveGrows(s.entries, t.entries, p.path[..p.level]); }
  }

  lemma CanReleaseKept(s: State, t: State, rs: set<RunId>, r: RunId)
    requires Spares(s, t, rs) && r !in rs && CanRelease(s, r)
    ensures CanRelease(t, r)
  {
    if s.runs[r].own.Unmade? { OnwardKept(s, t, r); }
  }

  // ---------- one level ----------

  /** Run `r` went on with namespace `i`: nothing else changed, and what it held it holds. */
  ghost predicate Along(s: State, t: State, r: RunId, i: NsId) {
    && r in s.runs && r in t.runs && t.runs == s.runs[r := t.runs[r]] && Further(s.runs[r], t.runs[r])
    && t.entries == s.entries && t.moves == s.moves && t.ns.Keys == s.ns.Keys && i in s.ns
    && (forall x | x in s.ns && x != i :: t.ns[x] == s.ns[x])
    && t.ns[i].key == s.ns[i].key && (s.ns[i].marked ==> t.ns[i].marked)
  }

  ghost predicate Further(p: Run, p': Run) {
    && p' == p.(level := p'.level, stage := p'.stage, held := p'.held) && p'.level <= p.level
    && (forall k | k in p.held && k > p.level :: k in p'.held && p'.held[k] == p.held[k])
  }

  lemma AlongThen(s: State, u: State, t: State, r: RunId, i: NsId)
    requires Along(s, u, r, i) && Along(u, t, r, i)
    ensures Along(s, t, r, i)
  {
  }

  /** Namespace `i` is the marked one that the path of run `r` leads to at its level. */
  ghost predicate Onto(s: State, r: RunId, i: NsId) {
    Live(s, r) && s.runs[r].own.Unmade? && Named(s, r, i) && i in s.ns && s.ns[i].marked
  }

  lemma Opens(o: State, s: State, r: RunId, i: NsId) returns (t: State)
    requires Leads(o, s) && Onto(s, r, i) && s.runs[r].stage.Idle?
    ensures Leads(o, t) && Along(s, t, r, i) && Onto(t, r, i) && t.runs[r].level == s.runs[r].level
    ensures t.runs[r].stage == Opened(i)
  {
    t := DoOpen(s, r);
    RunSteps(o, s, RunAction.Open(r));
  }

  /** A cleaner that has the namespace locked lets it go. */
  lemma CleanerLeaves(o: State, s: State, r: RunId, i: NsId) returns (t: State)
    requires Leads(o, s) && Onto(s, r, i) && s.runs[r].stage == Opened(i)
    ensures Leads(o, t) && Along(s, t, r, i) && Onto(t, r, i) && t.runs == s.runs && t.ns[i].exclusive.None?
  {
    t := s;
    if s.ns[i].exclusive.Some? {
      var c := s.ns[i].exclusive.value;
      LeadsGood(o, s);
      LeavesAlong(s, c, r, i);
      t := DoLeave(s, c);
      LeadsStep(o, s, ByCleaner(Leave(c)));
    }
  }

  lemma LeavesAlong(s: State, c: CleanerId, r: RunId, i: NsId)
    requires i in s.ns && LockOk(s, i) && s.ns[i].exclusive == Some(c) && Onto(s, r, i)
    ensures CanLeave(s, c) && Along(s, DoLeave(s, c), r, i) && Onto(DoLeave(s, c), r, i)
    ensures DoLeave(s, c).runs == s.runs && DoLeave(s, c).ns[i].exclusive.None?
  {
  }

  lemma Locks(o: State, s: State, r: RunId, i: NsId) returns (t: State)
    requires Leads(o, s) && Onto(s, r, i) && s.runs[r].stage == Opened(i)
    ensures Leads(o, t) && Along(s, t, r, i) && Onto(t, r, i) && t.runs[r].level == s.runs[r].level
    ensures t.runs[r].stage == Locked(i)
  {
    var u := CleanerLeaves(o, s, r, i);
    t := DoLockShared(u, r);
    RunSteps(o, u, RunAction.LockShared(r));
    AlongThen(s, u, t, r, i);
  }

  lemma Verifies(o: State, s: State, r: RunId, i: NsId) returns (t: State)
    requires Leads(o, s) && Onto(s, r, i) && s.runs[r].stage == Locked(i)
    ensures Leads(o, t) && Along(s, t, r, i) && t.runs[r].level == s.runs[r].level && t.runs[r].stage == Verified(i)
  {
    t := DoVerify(s, r);
    RunSteps(o, s, RunAction.Verify(r));
  }

  lemma Takes(o: State, s: State, r: RunId, i: NsId) returns (t: State)
    requires Leads(o, s) && Live(s, r) && 0 < s.runs[r].level && s.runs[r].stage == Verified(i) && i in s.ns
    ensures Leads(o, t) && Along(s, t, r, i) && t.runs[r].level == s.runs[r].level - 1 && t.runs[r].stage.Idle?
  {
    t := DoMarkChild(s, r);
    RunSteps(o, s, RunAction.MarkChild(r));
  }

  /** From whatever stage, the run verifies the namespace at its level. */
  lemma ToVerified(o: State, s: State, r: RunId, i: NsId) returns (t: State)
    requires Leads(o, s) && Onto(s, r, i) && s.runs[r].stage in {Idle, Opened(i), Locked(i)}
    ensures Leads(o, t) && Along(s, t, r, i) && t.runs[r].level == s.runs[r].level && t.runs[r].stage == Verified(i)
  {
    var u, v := s, s;
    if s.runs[r].stage.Idle? { u := Opens(o, s, r, i); }
    v := u;
    if u.runs[r].stage.Opened? {
      v := Locks(o, u, r, i);
      AlongThen(s, u, v, r, i);
    }
    t := Verifies(o, v, r, i);
    AlongThen(s, v, t, r, i);
  }

  /** The run acquires the namespace at its level, which its path spells. */
  lemma TakesNext(o: State, s: State, r: RunId) returns (t: State, i: NsId)
    requires Leads(o, s) && Live(s, r) && s.runs[r].own.Unmade? && Onward(s, r) && s.runs[r].level > 0
    ensures Leads(o, t) && Along(s, t, r, i) && Spells(s, i, s.runs[r].path[..s.runs[r].level])
    ensures t.runs[r].level == s.runs[r].level - 1 && t.runs[r].stage.Idle?
  {
    LeadsGood(o, s);
    var p, u := s.runs[r], s;
    assert OnPath(s, r, p.level);
    i := if p.stage.Verified? then p.stage.ns else Resolve(s.entries, p.path[..p.level]).value.ns;
    if p.stage.Verified? {
      assert ChainOk(s, p);
    } else {
      ResolveSpells(s, p.path[..p.level], i);
      u := ToVerified(o, s, r, i);
    }
    t := Takes(o, u, r, i);
    if !p.stage.Verified? { AlongThen(s, u, t, r, i); }
  }

  lemma OnwardNext(s: State, t: State, r: RunId, i: NsId)
    requires Along(s, t, r, i) && Onward(s, r) && t.runs[r].stage.Idle?
    ensures Onward(t, r)
  {
    forall j | 0 < j <= t.runs[r].level ensures OnPath(t, r, j) { assert OnPath(s, r, j); }
  }

  // ---------- the rest of the path ----------

  /** Namespace `x` is one that the run has still to acquire. */
  ghost predicate OnWay(s: State, r: RunId, x: NsId)
    requires r in s.runs
  {
    exists j :: 0 < j <= s.runs[r].level <= |s.runs[r].path| && Spells(s, x, s.runs[r].path[..j])
  }

  /** Run `r` went on with what it has still to acquire: nothing else changed, and what it held it holds. */
  ghost predicate AlongAll(s: State, t: State, r: RunId) {
    && r in s.runs && r in t.runs && t.runs == s.runs[r := t.runs[r]] && Further(s.runs[r], t.runs[r])
    && t.entries == s.entries && t.moves == s.moves && t.ns.Keys == s.ns.Keys
    && KeepsKeys(s, t) && KeepsMarks(s, t)
    && (forall x | x in s.ns && !OnWay(s, r, x) :: t.ns[x] == s.ns[x])
  }

  lemma AlongAllThen(s: State, u: State, t: State, r: RunId, i: NsId)
    requires Along(s, u, r, i) && AlongAll(u, t, r) && OnWay(s, r, i) && u.runs[r].level < s.runs[r].level
    requires s.runs[r].level <= |s.runs[r].path|
    ensures AlongAll(s, t, r)
  {
    forall x | x in s.ns && !OnWay(s, r, x) ensures t.ns[x] == s.ns[x] {
      OnWayBefore(s, u, r, x);
    }
  }

  lemma OnWayBefore(s: State, u: State, r: RunId, x: NsId)
    requires r in s.runs && r in u.runs && u.runs[r].path == s.runs[r].path && KeepsKeys(u, s)
    requires u.runs[r].level <= s.runs[r].level <= |s.runs[r].path|
    ensures OnWay(u, r, x) ==> OnWay(s, r, x)
  {
    if OnWay(u, r, x) {
      var j :| 0 < j <= u.runs[r].level <= |u.runs[r].path| && Spells(u, x, u.runs[r].path[..j]);
      SpellsKept(u, s, x, u.runs[r].path[..j]);
    }
  }

  /** A run that can go on acquires all that is ahead of it. */
  lemma {:induction false} AcquiresAll(o: State, s: State, r: RunId) returns (t: State)
    requires Leads(o, s) && Live(s, r) && s.runs[r].own.Unmade? && Onward(s, r)
    ensures Leads(o, t) && AlongAll(s, t, r) && AtOwn(t, r) && Onward(t, r)
    decreases s.runs[r].level
  {
    if s.runs[r].level == 0 {
      t := s;
    } else {
      var u, i := TakesNext(o, s, r);
      OnwardNext(s, u, r, i);
      t := AcquiresAll(o, u, r);
      assert OnWay(s, r, i);
      AlongAllThen(s, u, t, r, i);
    }
  }

  // ---------- what a run holds is not ahead of it ----------

  lemma {:induction false} OneLength(s: State, i: NsId, p: seq<nat>, q: seq<nat>)
    requires Spells(s, i, p) && Spells(s, i, q)
    ensures |p| == |q|
    decreases |p|
  {
    if |p| > 1 && |q| > 1 { OneLength(s, s.ns[i].key.dir.ns, p[..|p| - 1], q[..|q| - 1]); }
  }

  lemma HeldNotAhead(s: State, r: RunId, l: nat)
    requires Known(s) && Live(s, r) && l in s.runs[r].held
    ensures !OnWay(s, r, s.runs[r].held[l])
  {
    var p := s.runs[r];
    assert RunOk(s, r) && ChainOk(s, p) && LevelOk(s, p, l);
    forall j | 0 < j <= p.level <= |p.path| ensures !Spells(s, p.held[l], p.path[..j]) {
      if Spells(s, p.held[l], p.path[..j]) { OneLength(s, p.held[l], p.path[..j], p.path[..l]); }
    }
  }

  lemma SparesAlong(s: State, t: State, r: RunId)
    requires AlongAll(s, t, r)
    ensures Spares(s, t, {r})
  {
  }

  /** A run that can go on acquires the rest of its path, and leaves alone what it holds. */
  lemma AcquiresRest(o: State, s: State, r: RunId, l: nat) returns (t: State)
    requires Leads(o, s) && Live(s, r) && s.runs[r].own.Unmade? && Onward(s, r) && l in s.runs[r].held
    ensures Leads(o, t) && Spares(s, t, {r}) && AtOwn(t, r) && Onward(t, r) && Further(s.runs[r], t.runs[r])
    ensures s.runs[r].held[l] in s.ns && t.ns[s.runs[r].held[l]] == s.ns[s.runs[r].held[l]]
    ensures forall k | k in s.runs[r].held :: s.runs[r].level < k
  {
    LeadsGood(o, s);
    assert RunOk(s, r);
    HeldNotAhead(s, r, l);
    t := AcquiresAll(o, s, r);
    SparesAlong(s, t, r);
  }

  // ---------- when a run can go on ----------

  /** The path of the run is there, and what it has still to acquire is marked. */
  predicate PathThere(s: State, r: RunId)
    requires r in s.runs
  {
    var p := s.runs[r];
    Resolve(s.entries, p.path).Some? && forall j | 0 < j <= p.level <= |p.path| :: OnPath(s, r, j)
  }

  /** Of what a run holds, the outer levels are not taken away if an inner one is not. */
  lemma {:induction false} NotTakenDown(s: State, p: Run, l: nat, k: nat)
    requires (forall j: nat :: LevelOk(s, p, j)) && 0 < k <= l && (forall j | k <= j <= l :: j in p.held)
    requires !Taken(s, p.held[l])
    ensures !Taken(s, p.held[k])
    decreases l
  {
    if k < l {
      assert LevelOk(s, p, l);
      if Taken(s, p.held[l - 1]) { TakenBelow(s, p.held[l]); }
      NotTakenDown(s, p, l - 1, k);
    }
  }

  /** What the run has opened is still at its place while nothing that it holds was taken away. */
  lemma StageNamed(s: State, r: RunId, l: nat)
    requires Known(s) && Live(s, r) && l in s.runs[r].held && !Taken(s, s.runs[r].held[l])
    requires !s.runs[r].stage.Idle?
    ensures Named(s, r, s.runs[r].stage.ns)
  {
    var p := s.runs[r];
    assert RunOk(s, r) && ChainOk(s, p);
    NotTakenDown(s, p, l, p.level + 1);
    assert LevelOk(s, p, p.level + 1);
    if Taken(s, p.stage.ns) { TakenBelow(s, p.held[p.level + 1]); }
    SpellsResolve(s, p.stage.ns, p.path[..p.level]);
  }

  /** A run that holds something not taken away can go on exactly if its path is there and marked. */
  lemma OnwardIff(s: State, r: RunId, l: nat)
    requires Known(s) && Live(s, r) && l in s.runs[r].held && !Taken(s, s.runs[r].held[l])
    ensures Onward(s, r) <==> PathThere(s, r)
  {
    assert RunOk(s, r) && ChainOk(s, s.runs[r]);
    if !s.runs[r].stage.Idle? { StageNamed(s, r, l); }
  }
}
