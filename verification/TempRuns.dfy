/** Runs of the protocol of `conftest.py` that show where retention stops: a namespace is carried off inside an
    enclosing one although its own owner crashed, or although a live run holds it. */
module TempRuns {
  import opened TempLease
  import opened TempRetention
  import opened TempAcquire
  import opened TempPruning
  import opened TempChain
  import opened Wrappers

  const A: NsId := 10
  const B: NsId := 20
  const KeyA := Key(Top, 0)
  const KeyB := Key(In(A), 0)

  /** Namespace A of run 1, at the top. */
  const FreshA := Namespace(KeyA, 1, true, 0, 0, 0, None, {}, {Owner(1)}, None, {}, map[])
  const Run1 := Run([], 0, Idle, map[], Marked(A), map[], {}, true)
  const OneRun := State(0, map[A := FreshA], map[KeyA := A], map[KeyA := A], map[1 := Run1], map[], [], false)

  /** Run 2, nested in A, has acquired it and made B there. */
  const HeldA := FreshA.(children := {Acquisition(2, 1)}, acquired := {Acquisition(2, 1)},
                         shared := {Owner(1), Nested(2, 1)})
  const FreshB := Namespace(KeyB, 2, true, 0, 0, 0, None, {}, {Owner(2)}, None, {}, map[])
  const Run2 := Run([0], 0, Idle, map[1 := A], Unmade, map[], {}, true)
  const Acquired2 := OneRun.(ns := map[A := HeldA], runs := map[1 := Run1, 2 := Run2])
  const Names := map[KeyA := A, KeyB := B]
  const TwoRuns := State(0, map[A := HeldA, B := FreshB], Names, Names,
                         map[1 := Run1, 2 := Run2.(own := Marked(B))], map[], [], false)

  lemma SameState(s: State, t: State)
    requires s.clock == t.clock && s.ns == t.ns && s.entries == t.entries && s.lastHeld == t.lastHeld
    requires s.runs == t.runs && s.cleaners == t.cleaners && s.moves == t.moves && s.reused == t.reused
    ensures s == t
  {
  }

  const MadeA := OneRun.(ns := map[A := FreshA.(marked := false, shared := {})],
                         runs := map[1 := Run1.(own := Made(A))])

  lemma ToMadeA()
    ensures Leads(Init, MadeA)
  {
    LeadsSelf(Init);
    RunSteps(Init, Init, RunAction.Start(1, []));
    var s := DoStart(Init, 1, []);
    RunSteps(Init, s, RunAction.MakeOwn(1, A, 0));
    s := DoMakeOwn(s, 1, A, 0);
    assert s.ns == MadeA.ns && s.runs == MadeA.runs;
    SameState(s, MadeA);
  }

  lemma ToOneRun()
    ensures Leads(Init, OneRun)
  {
    ToMadeA();
    RunSteps(Init, MadeA, RunAction.MarkOwn(1));
    var s := DoMarkOwn(MadeA, 1);
    assert s.ns[A].shared == {Owner(1)};
    assert s.ns == OneRun.ns && s.runs == OneRun.runs;
    SameState(s, OneRun);
  }

  lemma {:induction false} ResolveOne(entries: map<Key, NsId>, path: seq<nat>)
    requires |path| == 1
    ensures var k := Key(Top, path[0]);
      Resolve(entries, path) == if k in entries then Some(In(entries[k])) else None
  {
    assert path[..0] == [];
  }

  ghost predicate Ahead(s: State, r: RunId, l: nat, i: NsId) {
    && Live(s, r) && s.runs[r].level == l && s.runs[r].stage.Idle? && 0 < l <= |s.runs[r].path|
    && Resolve(s.entries, s.runs[r].path[..l]) == Some(In(i)) && i in s.ns && s.ns[i].marked
    && s.ns[i].exclusive.None?
  }

  /** A run opens the namespace `i` that its path leads to at its level, and locks it. */
  lemma LocksAhead(o: State, s: State, r: RunId, l: nat, i: NsId) returns (t: State)
    requires Leads(o, s) && Ahead(s, r, l, i)
    ensures Leads(o, t) && CanVerify(t, r) && t.runs == s.runs[r := s.runs[r].(stage := t.runs[r].stage)]
    ensures t.runs[r].stage == Locked(i)
    ensures t == s.(runs := t.runs, ns := s.ns[i := LockedBy(s.ns[i], Nested(r, l))])
  {
    RunSteps(o, s, RunAction.Open(r));
    t := DoOpen(s, r);
    RunSteps(o, t, RunAction.LockShared(r));
    t := DoLockShared(t, r);
  }

  /** ... and acquires it. */
  lemma AcquiresAhead(o: State, s: State, r: RunId, l: nat, i: NsId) returns (t: State)
    requires Leads(o, s) && Ahead(s, r, l, i)
    ensures Leads(o, t) && t.runs == s.runs[r := s.runs[r].(level := l - 1, held := s.runs[r].held[l := i])]
    ensures t == s.(runs := t.runs,
                    ns := s.ns[i := WithChild(LockedBy(s.ns[i], Nested(r, l)), Acquisition(r, l), s.clock)])
  {
    t := LocksAhead(o, s, r, l, i);
    RunSteps(o, t, RunAction.Verify(r));
    t := DoVerify(t, r);
    RunSteps(o, t, RunAction.MarkChild(r));
    t := DoMarkChild(t, r);
    assert t.ns == s.ns[i := WithChild(LockedBy(s.ns[i], Nested(r, l)), Acquisition(r, l), s.clock)];
    assert t.runs == s.runs[r := s.runs[r].(level := l - 1, held := s.runs[r].held[l := i])];
  }

  lemma ToAcquired2()
    ensures Leads(Init, Acquired2)
  {
    ToOneRun();
    RunSteps(Init, OneRun, RunAction.Start(2, [0]));
    var s := DoStart(OneRun, 2, [0]);
    assert [0][..1] == [0];
    ResolveOne(s.entries, [0]);
    s := AcquiresAhead(Init, s, 2, 1, A);
    assert s.ns[A].shared == {Owner(1), Nested(2, 1)};
    assert s.ns[A].children == {Acquisition(2, 1)} && s.ns[A].acquired == {Acquisition(2, 1)};
    assert s.ns == Acquired2.ns && s.runs == Acquired2.runs;
    SameState(s, Acquired2);
  }

  const MadeB := TwoRuns.(ns := map[A := HeldA, B := FreshB.(marked := false, shared := {})],
                          runs := map[1 := Run1, 2 := Run2.(own := Made(B))])

  lemma ToMadeB()
    ensures Leads(Init, MadeB)
  {
    ToAcquired2();
    ResolveOne(Acquired2.entries, [0]);
    RunSteps(Init, Acquired2, RunAction.MakeOwn(2, B, 0));
    var s := DoMakeOwn(Acquired2, 2, B, 0);
    assert s.ns == MadeB.ns && s.runs == MadeB.runs && s.entries == Names && s.lastHeld == Names;
    SameState(s, MadeB);
  }

  lemma ToTwoRuns()
    ensures Leads(Init, TwoRuns)
  {
    ToMadeB();
    RunSteps(Init, MadeB, RunAction.MarkOwn(2));
    var s := DoMarkOwn(MadeB, 2);
    assert s.ns[B].shared == {Owner(2)};
    assert s.ns == TwoRuns.ns && s.runs == TwoRuns.runs;
    SameState(s, TwoRuns);
  }

  // ---------- an orphan is carried off ----------

  /** Run 2 closed B without a terminal marker and released A cleanly; then it is gone. */
  const ReleasedA := FreshA.(acquired := {Acquisition(2, 1)}, clean := map[Acquisition(2, 1) := Finish(0, 0)])
  const Released2 := Run([0], 0, Idle, map[], Closed, map[1 := 0], {1}, true)
  const ReleasedB := State(0, map[A := ReleasedA, B := FreshB.(shared := {})], Names, Names,
                           map[1 := Run1, 2 := Released2], map[], [], false)
  const OrphanB := ReleasedB.(runs := map[1 := Run1, 2 := Released2.(alive := false)])

  const ClosedB := TwoRuns.(ns := map[A := HeldA, B := FreshB.(shared := {})],
                            runs := map[1 := Run1, 2 := Run2.(own := Closed)])
  const UnmarkedA := ReleasedA.(shared := {Owner(1), Nested(2, 1)})
  const UnmarkedB := ReleasedB.(ns := map[A := UnmarkedA, B := FreshB.(shared := {})],
                                runs := map[1 := Run1, 2 := Released2.(held := map[1 := A])])

  lemma ToClosedB()
    ensures Leads(Init, ClosedB)
  {
    ToTwoRuns();
    RunSteps(Init, TwoRuns, RunAction.CloseOwn(2));
    var s := DoCloseOwn(TwoRuns, 2);
    assert s.ns[B].shared == {};
    assert s.ns == ClosedB.ns && s.runs == ClosedB.runs;
    SameState(s, ClosedB);
  }

  const TouchedB := ClosedB.(runs := map[1 := Run1, 2 := Run2.(own := Closed, touched := map[1 := 0])])

  lemma ToTouchedB()
    ensures Leads(Init, TouchedB)
  {
    ToClosedB();
    RunSteps(Init, ClosedB, RunAction.Touch(2, 1));
    var s := DoTouch(ClosedB, 2, 1);
    assert s.runs == TouchedB.runs;
    SameState(s, TouchedB);
  }

  lemma ToUnmarkedB()
    ensures Leads(Init, UnmarkedB)
  {
    ToTouchedB();
    UnlinkedB();
    RunSteps(Init, TouchedB, RunAction.Unlink(2, 1));
  }

  lemma UnlinkedB()
    ensures CanUnlink(TouchedB, 2, 1) && DoUnlink(TouchedB, 2, 1) == UnmarkedB
  {
    var s := DoUnlink(TouchedB, 2, 1);
    assert s.ns[A].children == {} && s.runs[2].unlinked == {1};
    assert s.ns == UnmarkedB.ns && s.runs == UnmarkedB.runs;
  }

  lemma ToReleasedB()
    ensures Leads(Init, ReleasedB)
  {
    ToUnmarkedB();
    RunSteps(Init, UnmarkedB, RunAction.CloseHeld(2, 1));
    var s := DoCloseHeld(UnmarkedB, 2, 1);
    assert s.ns[A].shared == {Owner(1)} && s.runs[2].held == map[];
    assert s.ns == ReleasedB.ns && s.runs == ReleasedB.runs;
    SameState(s, ReleasedB);
  }

  lemma ToOrphanB()
    ensures Leads(Init, OrphanB)
  {
    ToReleasedB();
    RunSteps(Init, ReleasedB, RunAction.Die(2));
    var s := DoDie(ReleasedB, 2);
    assert s.ns[A].shared == {Owner(1)} && s.ns[B].shared == {};
    assert s.ns == OrphanB.ns && s.runs == OrphanB.runs;
    SameState(s, OrphanB);
  }

  /** B is orphaned and stays in its place, and yet is carried off with A. */
  lemma OrphanCanBeTaken() returns (before: seq<Action>, s: State, after: seq<Action>, t: State)
    ensures Runs(Init, before, s) && Orphaned(s, B) && Runs(s, after, t)
    ensures Taken(t, B) && InPlace(t, B) && !WasMoved(t, B)
  {
    ToOrphanB();
    s := OrphanB;
    before :| Known(Init) && Runs(Init, before, s);
    assert Helpable(s, A, {1});
    after, t := CarryOff(s, {1});
  }

  lemma CarryOff(s: State, rs: set<RunId>) returns (after: seq<Action>, t: State)
    requires Leads(Init, s) && Helpable(s, A, rs) && s.ns[A].key == KeyA && B in s.ns && s.ns[B].key == KeyB
    requires KeyB in s.entries && s.entries[KeyB] == B
    ensures Runs(s, after, t) && Taken(t, B) && InPlace(t, B) && !WasMoved(t, B)
  {
    LeadsGood(Init, s);
    LeadsSelf(s);
    t := CanBeMoved(s, s, A, rs);
    after :| Known(s) && Runs(s, after, t);
    CarriedOff(s, t);
    NotMovedItself(s, t);
  }

  lemma NotMovedItself(s: State, t: State)
    requires Leads(s, t) && InPlace(t, B)
    ensures !WasMoved(t, B)
  {
    LeadsGood(s, t);
    InPlaceNotMoved(t, B);
  }

  lemma CarriedOff(s: State, t: State)
    requires A in s.ns && B in s.ns && s.ns[B].key == KeyB && KeepsKeys(s, t) && WasMoved(t, A)
    requires KeyB in t.entries && t.entries[KeyB] == B
    ensures Taken(t, B) && InPlace(t, B)
  {
    assert IsChain(t, [B, A]);
    assert Within(t, B, A);
  }

  // ---------- a held namespace is carried off ----------

  /** Run 3, nested in B, has acquired B and not yet A. */
  const HeldB := FreshB.(children := {Acquisition(3, 2)}, acquired := {Acquisition(3, 2)},
                         shared := {Owner(2), Nested(3, 2)})
  const Run3 := Run([0, 0], 1, Idle, map[2 := B], Unmade, map[], {}, true)
  const ThreeRuns := State(0, map[A := HeldA, B := HeldB], Names, Names,
                           map[1 := Run1, 2 := Run2.(own := Marked(B)), 3 := Run3], map[], [], false)

  lemma {:induction false} ResolveB(entries: map<Key, NsId>)
    requires KeyA in entries && entries[KeyA] == A && KeyB in entries
    ensures Resolve(entries, [0, 0]) == Some(In(entries[KeyB]))
  {
    assert [0, 0][..1] == [0];
    ResolveOne(entries, [0]);
  }

  lemma ToThreeRuns()
    ensures Leads(Init, ThreeRuns)
  {
    ToTwoRuns();
    RunSteps(Init, TwoRuns, RunAction.Start(3, [0, 0]));
    var s := DoStart(TwoRuns, 3, [0, 0]);
    assert [0, 0][..2] == [0, 0];
    ResolveB(s.entries);
    s := AcquiresAhead(Init, s, 3, 2, B);
    assert s.ns[B].shared == {Owner(2), Nested(3, 2)};
    assert s.ns[B].children == {Acquisition(3, 2)} && s.ns[B].acquired == {Acquisition(3, 2)};
    assert s.ns == ThreeRuns.ns && s.runs == ThreeRuns.runs;
    SameState(s, ThreeRuns);
  }

  /** Run 3 is alive and holds B, which is carried off with A. */
  lemma HeldTakenState() returns (t: State)
    ensures Leads(Init, t) && t.runs.Keys == {1, 2, 3} && t.runs[3] == Run3 && Taken(t, B) && KeyA !in t.entries
  {
    ToThreeRuns();
    var s := ThreeRuns;
    assert Helpable(s, A, {1, 2});
    t := CanBeMoved(Init, s, A, {1, 2});
    assert t.runs[3] == s.runs[3];
    CarriedOff(s, t);
  }

  lemma HeldCanBeTaken() returns (actions: seq<Action>, t: State)
    ensures Runs(Init, actions, t) && Live(t, 3) && 2 in t.runs[3].held && t.runs[3].held[2] == B
    ensures |t.runs[3].path| == 2 && Taken(t, B) && Resolve(t.entries, t.runs[3].path[..2]) != Some(In(B))
  {
    t := HeldTakenState();
    actions :| Known(Init) && Runs(Init, actions, t);
    HeldTakenIff(actions, t, 3, 2);
  }

  // ---------- a name is used again ----------

  /** Another run makes a namespace at the top under A's name; run 3 acquires that one in A's place, and its
      path does not lead to what it holds. */
  lemma ReusedNameBreaksChain() returns (actions: seq<Action>, t: State)
    ensures Runs(Init, actions, t) && Live(t, 3) && t.runs[3].level == 0 && !t.runs[3].own.Closed?
    ensures |t.runs[3].path| == 2
    ensures t.reused && !LeadsThrough(t, t.runs[3], 2) && 1 in t.runs[3].held && InPlace(t, t.runs[3].held[1])
  {
    t := Remade();
    actions :| Known(Init) && Runs(Init, actions, t);
    ChainTakenIff(actions, t, 3, 2);
    HeldInPlaceOf(actions, t, 3, 1);
    if !t.reused { EnclosingChainStays(actions, t, 3, 2); }
  }

  lemma Remade() returns (t: State)
    ensures Leads(Init, t) && 3 in t.runs && t.runs[3] == Run3.(level := 0, held := t.runs[3].held)
    ensures 1 in t.runs[3].held && 2 in t.runs[3].held && t.runs[3].held[2] == B && Taken(t, B)
  {
    var s := HeldTakenState();
    var c := FreshNat(s.ns.Keys);
    var u := RemakesA(s, c);
    ResolveOne(u.entries, [0]);
    assert [0, 0][..1] == [0];
    t := AcquiresAhead(Init, u, 3, 1, c);
    assert KeepsKeys(s, t) && t.moves == s.moves;
    TakenStays(s, t, B);
  }

  lemma RemakesA(s: State, c: NsId) returns (t: State)
    requires Leads(Init, s) && 4 !in s.runs && c !in s.ns && KeyA !in s.entries
    ensures Leads(Init, t) && t.runs.Keys == s.runs.Keys + {4} && (forall r | r in s.runs :: t.runs[r] == s.runs[r])
    ensures t.moves == s.moves && t.ns.Keys == s.ns.Keys + {c} && (forall i | i in s.ns :: t.ns[i] == s.ns[i])
    ensures KeyA in t.entries && t.entries[KeyA] == c && t.ns[c].marked && t.ns[c].exclusive.None?
  {
    RunSteps(Init, s, RunAction.Start(4, []));
    var u := DoStart(s, 4, []);
    RunSteps(Init, u, RunAction.MakeOwn(4, c, 0));
    u := DoMakeOwn(u, 4, c, 0);
    RunSteps(Init, u, RunAction.MarkOwn(4));
    t := DoMarkOwn(u, 4);
    RemadeA(s, c);
  }

  lemma RemadeA(s: State, c: NsId)
    requires 4 !in s.runs && c !in s.ns && KeyA !in s.entries
    ensures var t := DoMarkOwn(DoMakeOwn(DoStart(s, 4, []), 4, c, 0), 4);
      && t.runs.Keys == s.runs.Keys + {4} && (forall r | r in s.runs :: t.runs[r] == s.runs[r])
      && t.moves == s.moves && t.ns.Keys == s.ns.Keys + {c} && (forall i | i in s.ns :: t.ns[i] == s.ns[i])
      && KeyA in t.entries && t.entries[KeyA] == c && t.ns[c].marked && t.ns[c].exclusive.None?
  {
  }

  lemma {:induction false} HeldInPlaceOf(actions: seq<Action>, t: State, r: RunId, l: nat)
    requires Runs(Init, actions, t) && Live(t, r) && l in t.runs[r].held
    ensures InPlace(t, t.runs[r].held[l])
  {
    InvRuns(Init, actions, t);
    HeldInPlace(t, r, l);
  }
}
