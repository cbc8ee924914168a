/** The chain of enclosing namespaces that a nested run of `conftest.py` acquires, innermost first. */
module TempChain {
  import opened TempLease
  import opened TempRetention
  import opened Wrappers

  // ---------- the path a namespace was made at ----------

  /** The names on the way to the namespace, as fixed when the namespaces on it were made. */
  ghost predicate Spells(s: State, i: NsId, path: seq<nat>)
    decreases |path|
  {
    && path != [] && i in s.ns && s.ns[i].key.name == path[|path| - 1]
    && (if |path| == 1 then s.ns[i].key.dir == Top
        else s.ns[i].key.dir.In? && Spells(s, s.ns[i].key.dir.ns, path[..|path| - 1]))
  }

  lemma {:induction false} ResolveSpells(s: State, path: seq<nat>, i: NsId)
    requires PlacesOk(s) && Resolve(s.entries, path) == Some(In(i))
    ensures Spells(s, i, path)
    decreases |path|
  {
    var above := path[..|path| - 1];
    var dir := Resolve(s.entries, above).value;
    assert s.ns[i].key == Key(dir, path[|path| - 1]);
    if above != [] { ResolveSpells(s, above, dir.ns); }
  }

  lemma {:induction false} SpellsKept(s: State, t: State, i: NsId, path: seq<nat>)
    requires KeepsKeys(s, t) && Spells(s, i, path)
    ensures Spells(t, i, path)
    decreases |path|
  {
    if |path| > 1 { SpellsKept(s, t, s.ns[i].key.dir.ns, path[..|path| - 1]); }
  }

  /** A namespace that was not taken away is still found under its path. */
  lemma {:induction false} SpellsResolve(s: State, i: NsId, path: seq<nat>)
    requires Placed(s) && Spells(s, i, path) && !Taken(s, i)
    ensures Resolve(s.entries, path) == Some(In(i))
    decreases |path|
  {
    WithinSelf(s, i);
    assert InPlace(s, i);
    if |path| > 1 {
      if Taken(s, s.ns[i].key.dir.ns) { TakenBelow(s, i); }
      SpellsResolve(s, s.ns[i].key.dir.ns, path[..|path| - 1]);
    } else {
      assert path[..0] == [];
    }
  }

  lemma TakenBelow(s: State, i: NsId)
    requires i in s.ns && s.ns[i].key.dir.In? && Taken(s, s.ns[i].key.dir.ns)
    ensures Taken(s, i)
  {
    var a :| Within(s, s.ns[i].key.dir.ns, a) && WasMoved(s, a);
    WithinUp(s, i, s.ns[i].key.dir.ns, a);
  }

  /** What is found under a path was not taken away. */
  lemma {:induction false} ResolvedNotTaken(s: State, path: seq<nat>, i: NsId)
    requires PlacesOk(s) && MovesOk(s) && Resolve(s.entries, path) == Some(In(i))
    ensures !Taken(s, i)
    decreases |path|
  {
    var above := path[..|path| - 1];
    var dir := Resolve(s.entries, above).value;
    assert s.ns[i].key == Key(dir, path[|path| - 1]) && InPlace(s, i);
    if dir.In? { ResolvedNotTaken(s, above, dir.ns); }
    forall a | Within(s, i, a) ensures !WasMoved(s, a) {
      if a == i {
        InPlaceNotMoved(s, i);
      } else {
        WithinDown(s, i, a);
      }
    }
  }

  // ---------- what is known of the chain ----------

  /** The namespace held at level `l` lies in `d`, or was taken away. */
  ghost predicate LinkOk(s: State, p: Run, l: nat, d: Dir) {
    l in p.held ==> p.held[l] in s.ns && (s.ns[p.held[l]].key.dir == d || Taken(s, p.held[l]))
  }

  ghost predicate LevelOk(s: State, p: Run, l: nat) {
    l in p.held ==>
      && 0 < l <= |p.path| && Spells(s, p.held[l], p.path[..l])
      && (l > 1 && l - 1 in p.held ==> LinkOk(s, p, l, In(p.held[l - 1])))
  }

  ghost predicate StageOk(s: State, p: Run) {
    !p.stage.Idle? ==>
      && 0 < p.level <= |p.path| && Spells(s, p.stage.ns, p.path[..p.level])
      && LinkOk(s, p, p.level + 1, In(p.stage.ns))
  }

  /** Levels are acquired and released innermost first: outside a held level, every one that was reached is held,
      and only the innermost held one may have lost its marker. */
  ghost predicate Ladder(p: Run) {
    && (forall k, l | l in p.held && p.level < k <= l :: k in p.held)
    && (forall k, l | l in p.held && l in p.unlinked && k in p.held :: k <= l)
    && (!p.own.Closed? ==> p.unlinked == {})
  }

  ghost predicate ChainOk(s: State, p: Run) {
    StageOk(s, p) && (forall l: nat :: LevelOk(s, p, l)) && Ladder(p)
  }

  ghost predicate ChainInv(s: State) {
    forall r | r in s.runs && s.runs[r].alive :: ChainOk(s, s.runs[r])
  }

  /** Places are kept and moves are only added. */
  ghost predicate Later(s: State, t: State) {
    KeepsKeys(s, t) && forall m | m in s.moves :: m in t.moves
  }

  lemma TakenStays(s: State, t: State, i: NsId)
    requires Later(s, t) && Taken(s, i)
    ensures Taken(t, i)
  {
    var a :| Within(s, i, a) && WasMoved(s, a);
    var c :| IsChain(s, c) && c[0] == i && c[|c| - 1] == a;
    assert IsChain(t, c);
    var m :| m in s.moves && m.ns == a;
    assert m in t.moves;
    assert Within(t, i, a) && WasMoved(t, a);
  }

  lemma LinkKept(s: State, t: State, p: Run, l: nat, d: Dir)
    requires Later(s, t) && LinkOk(s, p, l, d)
    ensures LinkOk(t, p, l, d)
  {
    if l in p.held && Taken(s, p.held[l]) { TakenStays(s, t, p.held[l]); }
  }

  lemma LevelKept(s: State, t: State, p: Run, l: nat)
    requires Later(s, t) && LevelOk(s, p, l)
    ensures LevelOk(t, p, l)
  {
    if l in p.held {
      SpellsKept(s, t, p.held[l], p.path[..l]);
      if l > 1 && l - 1 in p.held { LinkKept(s, t, p, l, In(p.held[l - 1])); }
    }
  }

  lemma ChainKeptOk(s: State, t: State, p: Run)
    requires Later(s, t) && ChainOk(s, p)
    ensures ChainOk(t, p)
  {
    if !p.stage.Idle? {
      SpellsKept(s, t, p.stage.ns, p.path[..p.level]);
      LinkKept(s, t, p, p.level + 1, In(p.stage.ns));
    }
    forall l: nat ensures LevelOk(t, p, l) { LevelKept(s, t, p, l); }
  }

  lemma ChainNext(s: State, t: State, r: RunId)
    requires ChainInv(s) && Later(s, t)
    requires forall x | x in t.runs && x != r :: x in s.runs && t.runs[x] == s.runs[x]
    requires r in t.runs && t.runs[r].alive ==> ChainOk(t, t.runs[r])
    ensures ChainInv(t)
  {
    forall x | x in t.runs && t.runs[x].alive ensures ChainOk(t, t.runs[x]) {
      if x != r { ChainKeptOk(s, t, s.runs[x]); }
    }
  }

  /** A step that leaves the run's chain as it is. */
  lemma ChainSame(s: State, t: State, p: Run, p': Run)
    requires Later(s, t) && ChainOk(s, p)
    requires p'.path == p.path && p'.held == p.held && p'.level == p.level
    requires !p'.stage.Idle? ==> !p.stage.Idle? && p'.stage.ns == p.stage.ns
    requires Ladder(p')
    ensures ChainOk(t, p')
  {
    ChainKeptOk(s, t, p);
    forall l: nat ensures LevelOk(t, p', l) { assert LevelOk(t, p, l); }
  }

  // ---------- the steps that change it ----------

  /** What is opened is the directory of the level below, if that was not taken away. */
  lemma OpenLinks(s: State, r: RunId)
    requires Good(s) && ChainInv(s) && CanOpen(s, r)
    ensures ChainOk(DoOpen(s, r), DoOpen(s, r).runs[r])
  {
    var t, p := DoOpen(s, r), s.runs[r];
    var i := t.runs[r].stage.ns;
    assert ChainOk(s, p);
    ResolveSpells(s, p.path[..p.level], i);
    SpellsKept(s, t, i, p.path[..p.level]);
    OpenedLink(s, p, i);
    LinkKept(s, t, p, p.level + 1, In(i));
    forall l: nat ensures LevelOk(t, t.runs[r], l) {
      assert LevelOk(s, p, l);
      LevelKept(s, t, p, l);
    }
  }

  lemma OpenedLink(s: State, p: Run, i: NsId)
    requires Placed(s) && 0 < p.level <= |p.path| && LevelOk(s, p, p.level + 1)
    requires Resolve(s.entries, p.path[..p.level]) == Some(In(i))
    ensures LinkOk(s, p, p.level + 1, In(i))
  {
    var l := p.level + 1;
    if l in p.held && !Taken(s, p.held[l]) {
      var here := p.path[..l];
      assert here[..|here| - 1] == p.path[..p.level];
      SpellsResolve(s, p.held[l], here);
      TakenParent(s, p.held[l], here);
    }
  }

  /** The directory of a namespace still found under its path is what the shorter path leads to. */
  lemma {:induction false} TakenParent(s: State, i: NsId, path: seq<nat>)
    requires Placed(s) && Spells(s, i, path) && !Taken(s, i) && |path| > 1
    ensures Resolve(s.entries, path[..|path| - 1]) == Some(s.ns[i].key.dir)
  {
    var j := s.ns[i].key.dir.ns;
    if Taken(s, j) { TakenBelow(s, i); }
    SpellsResolve(s, j, path[..|path| - 1]);
  }

  lemma MarkLinks(s: State, r: RunId)
    requires ChainInv(s) && CanMarkChild(s, r) && RunOk(s, r) && Later(s, DoMarkChild(s, r))
    ensures ChainOk(DoMarkChild(s, r), DoMarkChild(s, r).runs[r])
  {
    var t, p := DoMarkChild(s, r), s.runs[r];
    var p' := t.runs[r];
    assert ChainOk(s, p);
    ChainKeptOk(s, t, p);
    forall l: nat ensures LevelOk(t, p', l) {
      assert LevelOk(t, p, l);
      if l == p.level + 1 && l in p.held { assert LinkOk(t, p, l, In(p.stage.ns)); }
    }
  }

  lemma CloseLinks(s: State, r: RunId, l: nat)
    requires ChainInv(s) && CanCloseHeld(s, r, l) && Later(s, DoCloseHeld(s, r, l))
    ensures ChainOk(DoCloseHeld(s, r, l), DoCloseHeld(s, r, l).runs[r])
  {
    var t, p := DoCloseHeld(s, r, l), s.runs[r];
    assert ChainOk(s, p);
    ChainKeptOk(s, t, p);
    forall k: nat ensures LevelOk(t, t.runs[r], k) { assert LevelOk(t, p, k); }
  }

  lemma RunLater(s: State, a: RunAction)
    requires RunCan(s, a)
    ensures Later(s, RunStep(s, a))
    ensures forall x | x in RunStep(s, a).runs && x != a.run :: x in s.runs && RunStep(s, a).runs[x] == s.runs[x]
  {
    RunKeepsKeys(s, a);
    if !a.MakeOwn? { RunSamePlaces(s, a); }
  }

  lemma QuietLinks(s: State, a: RunAction)
    requires ChainInv(s) && RunCan(s, a) && Later(s, RunStep(s, a))
    requires !a.Start? && !a.Open? && !a.MarkChild? && !a.CloseHeld? && !a.Die?
    ensures ChainOk(RunStep(s, a), RunStep(s, a).runs[a.run])
  {
    var t := RunStep(s, a);
    assert ChainOk(s, s.runs[a.run]);
    LadderKept(s, a);
    ChainSame(s, t, s.runs[a.run], t.runs[a.run]);
  }

  lemma LadderKept(s: State, a: RunAction)
    requires RunCan(s, a) && a.run in s.runs && Ladder(s.runs[a.run])
    requires !a.Start? && !a.Open? && !a.MarkChild? && !a.CloseHeld? && !a.Die?
    ensures Ladder(RunStep(s, a).runs[a.run])
  {
  }

  lemma ChainByRun(s: State, a: RunAction)
    requires Good(s) && ChainInv(s) && RunCan(s, a)
    ensures ChainInv(RunStep(s, a))
  {
    RunLater(s, a);
    if a.Open? {
      OpenLinks(s, a.run);
    } else if a.MarkChild? {
      assert RunOk(s, a.run);
      MarkLinks(s, a.run);
    } else if a.CloseHeld? {
      CloseLinks(s, a.run, a.held);
    } else if !a.Start? && !a.Die? {
      QuietLinks(s, a);
    }
    ChainNext(s, RunStep(s, a), a.run);
  }

  lemma CleanerLater(s: State, a: CleanerAction)
    requires CleanerCan(s, a)
    ensures Later(s, CleanerStep(s, a)) && CleanerStep(s, a).runs == s.runs
  {
    CleanerKeepsKeys(s, a);
    CleanerSameRuns(s, a);
  }

  lemma ChainStep(s: State, a: Action)
    requires Good(s) && ChainInv(s) && Can(s, a)
    ensures ChainInv(Step(s, a))
  {
    match a
    case Tick(_) => ChainAll(s, Step(s, a));
    case ByRun(b) => ChainByRun(s, b);
    case ByCleaner(b) =>
      CleanerLater(s, b);
      ChainAll(s, CleanerStep(s, b));
  }

  lemma ChainAll(s: State, t: State)
    requires ChainInv(s) && Later(s, t) && t.runs == s.runs
    ensures ChainInv(t)
  {
    forall x | x in t.runs && t.runs[x].alive ensures ChainOk(t, t.runs[x]) { ChainKeptOk(s, t, s.runs[x]); }
  }

  lemma {:induction false} ChainRuns(s: State, actions: seq<Action>, t: State)
    requires Good(s) && ChainInv(s) && Runs(s, actions, t)
    ensures Good(t) && ChainInv(t)
    decreases actions
  {
    if actions != [] {
      GoodStep(s, actions[0]);
      ChainStep(s, actions[0]);
      ChainRuns(Step(s, actions[0]), actions[1..], t);
    }
  }

  // ---------- main results ----------

  /** Exactly when what a live run holds is taken away: when its path no longer leads there. It is never moved
      itself, but an enclosing namespace may be, as long as the run has not acquired that one. */
  lemma {:induction false} HeldTakenIff(actions: seq<Action>, t: State, r: RunId, l: nat)
    requires Runs(Init, actions, t) && Live(t, r) && l in t.runs[r].held
    ensures !WasMoved(t, t.runs[r].held[l])
    ensures 0 < l <= |t.runs[r].path|
    ensures Taken(t, t.runs[r].held[l]) <==> Resolve(t.entries, t.runs[r].path[..l]) != Some(In(t.runs[r].held[l]))
  {
    var p := t.runs[r];
    ChainRuns(Init, actions, t);
    HeldInPlace(t, r, l);
    InPlaceNotMoved(t, p.held[l]);
    assert ChainOk(t, p) && LevelOk(t, p, l);
    if Taken(t, p.held[l]) {
      if Resolve(t.entries, p.path[..l]) == Some(In(p.held[l])) { ResolvedNotTaken(t, p.path[..l], p.held[l]); }
    } else {
      SpellsResolve(t, p.held[l], p.path[..l]);
    }
  }

  /** The directory of level `k`: the top, or the namespace held there. */
  function DirAt(p: Run, k: nat): Dir
    requires k == 0 || k in p.held
  {
    if k == 0 then Top else In(p.held[k])
  }

  /** Every level up to `l` was made in the one above it, under the name on the path. */
  ghost predicate Linked(s: State, p: Run, l: nat) {
    && l <= |p.path| && (forall k | 0 < k <= l :: k in p.held && p.held[k] in s.ns)
    && (forall k | 0 < k <= l :: s.ns[p.held[k]].key == Key(DirAt(p, k - 1), p.path[k - 1]))
  }

  /** The path leads, level by level, through what the run holds. */
  ghost predicate LeadsThrough(s: State, p: Run, l: nat) {
    l <= |p.path| && forall k | 0 < k <= l :: k in p.held && Resolve(s.entries, p.path[..k]) == Some(In(p.held[k]))
  }

  lemma OneLevelIff(t: State, p: Run, l: nat)
    requires PlacesOk(t) && 0 < l <= |p.path| && l in p.held && InPlace(t, p.held[l]) && (l == 1 || l - 1 in p.held)
    requires Resolve(t.entries, p.path[..l - 1]) == Some(DirAt(p, l - 1))
    ensures Resolve(t.entries, p.path[..l]) == Some(In(p.held[l])) <==>
      t.ns[p.held[l]].key == Key(DirAt(p, l - 1), p.path[l - 1])
  {
    var here := p.path[..l];
    assert here[..|here| - 1] == p.path[..l - 1] && here[|here| - 1] == p.path[l - 1];
  }

  lemma LinkedSplit(t: State, p: Run, l: nat)
    requires 0 < l <= |p.path|
    ensures Linked(t, p, l) <==>
      && Linked(t, p, l - 1) && l in p.held && p.held[l] in t.ns
      && t.ns[p.held[l]].key == Key(DirAt(p, l - 1), p.path[l - 1])
  {
  }

  lemma LeadsSplit(t: State, p: Run, l: nat)
    requires 0 < l <= |p.path|
    ensures LeadsThrough(t, p, l) <==>
      LeadsThrough(t, p, l - 1) && l in p.held && Resolve(t.entries, p.path[..l]) == Some(In(p.held[l]))
  {
  }

  lemma LeadsAbove(t: State, p: Run, l: nat)
    requires LeadsThrough(t, p, l)
    ensures l == 0 || l in p.held
    ensures Resolve(t.entries, p.path[..l]) == Some(DirAt(p, l))
  {
  }

  lemma {:induction false} LeadsIffLinked(t: State, p: Run, l: nat)
    requires PlacesOk(t) && l <= |p.path| && forall k | k in p.held :: InPlace(t, p.held[k])
    ensures LeadsThrough(t, p, l) <==> Linked(t, p, l)
    decreases l
  {
    if l > 0 {
      LeadsIffLinked(t, p, l - 1);
      LinkedSplit(t, p, l);
      LeadsSplit(t, p, l);
      if l in p.held && LeadsThrough(t, p, l - 1) {
        LeadsAbove(t, p, l - 1);
        OneLevelIff(t, p, l);
      }
    }
  }

  /** The exact condition, on the namespaces alone, for the path of a live run to lead through what it holds. */
  lemma {:induction false} LeadsThroughIff(actions: seq<Action>, t: State, r: RunId, l: nat)
    requires Runs(Init, actions, t) && Live(t, r) && l <= |t.runs[r].path|
    ensures LeadsThrough(t, t.runs[r], l) <==> Linked(t, t.runs[r], l)
  {
    InvRuns(Init, actions, t);
    forall k | k in t.runs[r].held ensures InPlace(t, t.runs[r].held[k]) { HeldInPlace(t, r, k); }
    LeadsIffLinked(t, t.runs[r], l);
  }

  lemma {:induction false} NotTakenLeads(t: State, p: Run, l: nat)
    requires Placed(t) && l <= |p.path| && (forall k: nat :: LevelOk(t, p, k)) && (forall k | 0 < k <= l :: k in p.held)
    requires l > 0 ==> !Taken(t, p.held[l])
    ensures LeadsThrough(t, p, l)
    decreases l
  {
    if l > 0 {
      assert LevelOk(t, p, l);
      SpellsResolve(t, p.held[l], p.path[..l]);
      if l > 1 && Taken(t, p.held[l - 1]) { TakenBelow(t, p.held[l]); }
      NotTakenLeads(t, p, l - 1);
      LeadsSplit(t, p, l);
    }
  }

  /** Once a run has acquired the whole chain, and as long as it holds level `l`, that is taken away exactly if the
      path does not lead through what the run holds up to there. */
  lemma {:induction false} ChainTakenIff(actions: seq<Action>, t: State, r: RunId, l: nat)
    requires Runs(Init, actions, t) && Live(t, r) && t.runs[r].level == 0 && l in t.runs[r].held
    ensures !Taken(t, t.runs[r].held[l]) <==> LeadsThrough(t, t.runs[r], l)
  {
    var p := t.runs[r];
    ChainRuns(Init, actions, t);
    assert ChainOk(t, p);
    HeldTakenIff(actions, t, r, l);
    if !Taken(t, p.held[l]) { NotTakenLeads(t, p, l); }
  }

  /** What encloses a linked level is one of the levels below it. */
  lemma {:induction false} EnclosingIsHeld(t: State, p: Run, l: nat, a: NsId)
    requires Linked(t, p, l) && 0 < l && Within(t, p.held[l], a)
    ensures exists k :: 0 < k <= l && k in p.held && p.held[k] == a
    decreases l
  {
    if a != p.held[l] {
      WithinDown(t, p.held[l], a);
      assert l > 1;
      EnclosingIsHeld(t, p, l - 1, a);
    }
  }

  // ---------- without reused names ----------

  /** Unless a name was used again, no two namespaces were made under one name of one directory. */
  ghost predicate Unique(s: State) {
    forall i | i in s.ns :: s.ns[i].key in s.lastHeld && (!s.reused ==> s.lastHeld[s.ns[i].key] == i)
  }

  lemma UniqueMakeOwn(s: State, r: RunId, made: NsId, name: nat)
    requires Unique(s) && CanMakeOwn(s, r, made, name)
    ensures Unique(DoMakeOwn(s, r, made, name))
  {
  }

  lemma UniqueSame(s: State, t: State)
    requires Unique(s) && t.lastHeld == s.lastHeld && t.reused == s.reused && KeepsKeys(s, t) && t.ns.Keys == s.ns.Keys
    ensures Unique(t)
  {
  }

  lemma RunSameNames(s: State, a: RunAction)
    requires RunCan(s, a) && !a.MakeOwn?
    ensures RunStep(s, a).lastHeld == s.lastHeld && RunStep(s, a).reused == s.reused
  {
  }

  lemma UniqueByRun(s: State, a: RunAction)
    requires Unique(s) && RunCan(s, a)
    ensures Unique(RunStep(s, a))
  {
    if a.MakeOwn? {
      UniqueMakeOwn(s, a.run, a.made, a.name);
    } else {
      RunKeepsKeys(s, a);
      RunSameNames(s, a);
      UniqueSame(s, RunStep(s, a));
    }
  }

  lemma UniqueByCleaner(s: State, a: CleanerAction)
    requires Unique(s) && CleanerCan(s, a)
    ensures Unique(CleanerStep(s, a))
  {
    CleanerKeepsKeys(s, a);
    UniqueSame(s, CleanerStep(s, a));
  }

  lemma {:induction false} UniqueRuns(s: State, actions: seq<Action>, t: State)
    requires Unique(s) && Runs(s, actions, t)
    ensures Unique(t)
    decreases actions
  {
    if actions != [] {
      var a := actions[0];
      if a.ByRun? { UniqueByRun(s, a.run); }
      if a.ByCleaner? { UniqueByCleaner(s, a.cleaner); }
      UniqueRuns(Step(s, a), actions[1..], t);
    }
  }

  lemma {:induction false} OneSpelling(s: State, i: NsId, j: NsId, path: seq<nat>)
    requires Unique(s) && !s.reused && Spells(s, i, path) && Spells(s, j, path)
    ensures i == j
    decreases |path|
  {
    if |path| > 1 { OneSpelling(s, s.ns[i].key.dir.ns, s.ns[j].key.dir.ns, path[..|path| - 1]); }
    assert s.ns[i].key == s.ns[j].key;
  }

  lemma {:induction false} UniqueLinks(t: State, p: Run, l: nat)
    requires Unique(t) && !t.reused && l <= |p.path|
    requires (forall k: nat :: LevelOk(t, p, k)) && (forall k | 0 < k <= l :: k in p.held)
    ensures Linked(t, p, l)
    decreases l
  {
    if l > 0 {
      UniqueLinks(t, p, l - 1);
      assert LevelOk(t, p, l);
      var here := p.path[..l];
      assert here[..|here| - 1] == p.path[..l - 1];
      if l > 1 {
        assert LevelOk(t, p, l - 1);
        OneSpelling(t, t.ns[p.held[l]].key.dir.ns, p.held[l - 1], p.path[..l - 1]);
      }
      LinkedSplit(t, p, l);
    }
  }

  /** Unless a directory name was used again, a run that has acquired the whole chain keeps what it holds of it, also
      while it releases: its path leads through exactly the namespaces it holds, and none of them is taken away. */
  lemma {:induction false} EnclosingChainStays(actions: seq<Action>, t: State, r: RunId, l: nat)
    requires Runs(Init, actions, t) && !t.reused && Live(t, r) && t.runs[r].level == 0 && l in t.runs[r].held
    ensures LeadsThrough(t, t.runs[r], l) && !Taken(t, t.runs[r].held[l])
  {
    ChainRuns(Init, actions, t);
    UniqueRuns(Init, actions, t);
    assert ChainOk(t, t.runs[r]) && LevelOk(t, t.runs[r], l);
    UniqueLinks(t, t.runs[r], l);
    LeadsThroughIff(actions, t, r, l);
    ChainTakenIff(actions, t, r, l);
  }

  // ---------- a crash with the whole chain acquired ----------

  /** The levels up to `l` are held, the path leads through them, and their markers are still there. */
  ghost predicate Anchored(s: State, r: RunId, l: nat) {
    && r in s.runs && LeadsThrough(s, s.runs[r], l)
    && (l > 0 ==> l !in s.runs[r].unlinked)
  }

  /** One of the held levels, or a namespace orphaned by the death that lies directly in the innermost of them. */
  ghost predicate InChain(s: State, r: RunId, l: nat, i: NsId)
    requires CanDie(s, r) && Anchored(s, r, l)
  {
    || (l > 0 && i == s.runs[r].held[l])
    || (Orphaned(DoDie(s, r), i) && i in s.ns && s.ns[i].key.dir == DirAt(s.runs[r], l))
  }

  /** When a run dies holding a chain that its path leads through, while its tests run or at any point of the release,
      nothing of what still has its marker is ever taken away, nor any orphan directly in it, such as the run's own
      unfinished namespace. */
  lemma {:induction false} CrashRetainsChain(before: seq<Action>, s: State, r: RunId, l: nat, after: seq<Action>,
                                             t: State, i: NsId)
    requires Runs(Init, before, s) && Live(s, r) && Anchored(s, r, l) && InChain(s, r, l, i)
    requires Runs(DoDie(s, r), after, t)
    ensures !Taken(t, i)
  {
    var u := DoDie(s, r);
    AllOrphansInChain(before, s, r, l, i);
    RunsThen(Init, before, s, ByRun(Die(r)));
    CrashRetains(before + [ByRun(Die(r))], u, after, t, i);
  }

  lemma {:induction false} AllOrphansInChain(before: seq<Action>, s: State, r: RunId, l: nat, i: NsId)
    requires Runs(Init, before, s) && Live(s, r) && Anchored(s, r, l) && InChain(s, r, l, i)
    ensures Orphaned(DoDie(s, r), i) && forall a | Within(DoDie(s, r), i, a) :: Orphaned(DoDie(s, r), a)
  {
    ChainRuns(Init, before, s);
    LeadsThroughIff(before, s, r, l);
    forall a | Within(DoDie(s, r), i, a) ensures Orphaned(DoDie(s, r), a) { OrphansInChain(s, r, l, i, a); }
    if l > 0 && i == s.runs[r].held[l] { LevelOrphaned(s, r, l, l); }
  }

  lemma MarkerOrphaned(s: State, r: RunId, k: nat)
    requires Live(s, r) && RunOk(s, r) && k in s.runs[r].held && k !in s.runs[r].unlinked
    requires s.runs[r].held[k] in s.ns && s.ns[s.runs[r].held[k]].owner in s.runs
    ensures Orphaned(DoDie(s, r), s.runs[r].held[k])
  {
    var u := DoDie(s, r);
    assert Acquisition(r, k) in u.ns[s.runs[r].held[k]].children && !u.runs[r].alive;
  }

  lemma LevelOrphaned(s: State, r: RunId, l: nat, k: nat)
    requires RunsOk(s) && ChainInv(s) && NamespacesOk(s) && Live(s, r) && Anchored(s, r, l) && 0 < k <= l
    ensures k in s.runs[r].held && Orphaned(DoDie(s, r), s.runs[r].held[k])
  {
    assert ChainOk(s, s.runs[r]);
    assert k in s.runs[r].held && k !in s.runs[r].unlinked;
    HeldInPlace(s, r, k);
    MarkerOrphaned(s, r, k);
  }

  lemma OrphansInChain(s: State, r: RunId, l: nat, i: NsId, a: NsId)
    requires RunsOk(s) && ChainInv(s) && NamespacesOk(s) && Live(s, r) && Anchored(s, r, l) && InChain(s, r, l, i)
    requires Linked(s, s.runs[r], l) && Within(DoDie(s, r), i, a)
    ensures Orphaned(DoDie(s, r), a)
  {
    var u, p := DoDie(s, r), s.runs[r];
    assert Linked(u, p, l);
    if a != i || (l > 0 && i == p.held[l]) {
      if !(l > 0 && i == p.held[l]) { WithinDown(u, i, a); }
      assert l > 0;
      EnclosingIsHeld(u, p, l, a);
      var k :| 0 < k <= l && k in p.held && p.held[k] == a;
      LevelOrphaned(s, r, l, k);
    }
  }
}
