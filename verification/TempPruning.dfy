/** The converse of retention: what is not doomed can be taken away. From any state in which the runs that left
    child markers are past acquisition, the remaining steps of those runs and of a cleaner are constructed. */
module TempPruning {
  import opened TempLease
  import opened TempRetention
  import opened TempAcquire
  import opened Wrappers

  lemma {:induction false} FreshNat(xs: set<nat>) returns (n: nat)
    ensures forall x | x in xs :: x < n
    decreases xs
  {
    if xs == {} { return 0; }
    var x :| x in xs;
    var m := FreshNat(xs - {x});
    n := if m <= x then x + 1 else m;
    assert xs == (xs - {x}) + {x};
  }

  // ---------- a run closes its own namespace ----------

  /** `t` differs from `s` in run `r`'s own namespace, and in the progress of `r` with it. */
  ghost predicate OnlyOwn(s: State, t: State, r: RunId, own: OwnStage) {
    && Spares(s, t, {r}) && r in s.runs && t.runs[r] == s.runs[r].(own := own)
    && (forall i | i in s.ns :: t.ns[i] == s.ns[i] || s.ns[i].owner == r)
  }

  lemma MakesOnlyOwn(s: State, r: RunId, made: NsId, name: nat)
    requires CanMakeOwn(s, r, made, name)
    ensures OnlyOwn(s, DoMakeOwn(s, r, made, name), r, Made(made))
  {
  }

  lemma FreshPlace(s: State, r: RunId) returns (made: NsId, name: nat)
    requires AtOwn(s, r) && s.runs[r].own.Unmade?
    ensures CanMakeOwn(s, r, made, name)
  {
    made := FreshNat(s.ns.Keys);
    var names := set k | k in s.entries :: k.name;
    name := FreshNat(names);
    assert forall k | k in s.entries :: k.name in names;
  }

  lemma Makes(o: State, s: State, r: RunId) returns (t: State, made: NsId)
    requires Leads(o, s) && AtOwn(s, r) && s.runs[r].own.Unmade?
    ensures Leads(o, t) && OnlyOwn(s, t, r, Made(made))
  {
    var name;
    made, name := FreshPlace(s, r);
    t := DoMakeOwn(s, r, made, name);
    MakesOnlyOwn(s, r, made, name);
    RunSteps(o, s, RunAction.MakeOwn(r, made, name));
  }

  lemma MayMark(o: State, s: State, r: RunId, i: NsId)
    requires Leads(o, s) && Live(s, r) && s.runs[r].own == Made(i)
    ensures CanMarkOwn(s, r) && s.ns[i].owner == r
  {
    LeadsGood(o, s);
    assert RunOk(s, r);
    LockedIsMarked(s, i);
  }

  lemma LockedIsMarked(s: State, i: NsId)
    requires NamespacesOk(s) && CleanersOk(s) && i in s.ns
    ensures s.ns[i].exclusive.Some? ==> s.ns[i].marked
  {
    assert LockOk(s, i);
    if s.ns[i].exclusive.Some? { assert CleanerOk(s, s.ns[i].exclusive.value); }
  }

  lemma MarksOnlyOwn(s: State, r: RunId, i: NsId)
    requires CanMarkOwn(s, r) && s.runs[r].own == Made(i) && s.ns[i].owner == r
    ensures var t := DoMarkOwn(s, r);
      && OnlyOwn(s, t, r, Marked(i)) && t.ns[i].finished == s.ns[i].finished
      && t.ns[i].children == s.ns[i].children && t.ns[i].shared == s.ns[i].shared + {Owner(r)}
  {
  }

  lemma Marks(o: State, s: State, r: RunId, i: NsId) returns (t: State)
    requires Leads(o, s) && Live(s, r) && s.runs[r].own == Made(i)
    ensures Leads(o, t) && CanMarkOwn(s, r) && s.ns[i].owner == r && t == DoMarkOwn(s, r)
  {
    MayMark(o, s, r, i);
    t := DoMarkOwn(s, r);
    RunSteps(o, s, RunAction.MarkOwn(r));
  }

  lemma MayClose(o: State, s: State, r: RunId, i: NsId)
    requires Leads(o, s) && Live(s, r) && s.runs[r].own == Marked(i)
    ensures CanCloseOwn(s, r) && s.ns[i].owner == r
  {
    LeadsGood(o, s);
    assert RunOk(s, r);
  }

  lemma ClosesOnlyOwn(s: State, r: RunId, i: NsId)
    requires CanCloseOwn(s, r) && s.runs[r].own == Marked(i) && s.ns[i].owner == r
    ensures OnlyOwn(s, DoCloseOwn(s, r), r, Closed)
  {
  }

  lemma Closes(o: State, s: State, r: RunId, i: NsId) returns (t: State)
    requires Leads(o, s) && Live(s, r) && s.runs[r].own == Marked(i)
    ensures Leads(o, t) && OnlyOwn(s, t, r, Closed)
  {
    MayClose(o, s, r, i);
    ClosesOnlyOwn(s, r, i);
    t := DoCloseOwn(s, r);
    RunSteps(o, s, RunAction.CloseOwn(r));
  }

  lemma OnlyOwnThen(s: State, t: State, u: State, r: RunId, a: OwnStage, b: OwnStage)
    requires OnlyOwn(s, t, r, a) && OnlyOwn(t, u, r, b)
    ensures OnlyOwn(s, u, r, b)
  {
    forall i | i in s.ns && s.ns[i].owner != r ensures u.ns[i] == s.ns[i] {
      assert t.ns[i] == s.ns[i];
    }
  }

  lemma EndsOwn(o: State, s: State, r: RunId) returns (t: State)
    requires Leads(o, s) && AtOwn(s, r)
    ensures Leads(o, t) && OnlyOwn(s, t, r, Closed)
  {
    t := s;
    if s.runs[r].own.Unmade? {
      var i;
      t, i := Makes(o, s, r);
      t := MadeEnds(o, s, t, r, i);
    } else if s.runs[r].own.Made? {
      t := MadeEnds(o, s, s, r, s.runs[r].own.ns);
    } else if s.runs[r].own.Marked? {
      t := Closes(o, s, r, s.runs[r].own.ns);
    }
  }

  lemma MadeEnds(o: State, s: State, u: State, r: RunId, i: NsId) returns (t: State)
    requires Leads(o, u) && Live(u, r) && OnlyOwn(s, u, r, Made(i))
    ensures Leads(o, t) && OnlyOwn(s, t, r, Closed)
  {
    t := Marks(o, u, r, i);
    MarksOnlyOwn(u, r, i);
    OnlyOwnThen(s, u, t, r, Made(i), Marked(i));
    var v := t;
    t := Closes(o, v, r, i);
    OnlyOwnThen(s, v, t, r, Marked(i), Closed);
  }

  // ---------- a run takes its child marker away ----------

  /** The remaining work before `a` can be pruned is that of the runs in `rs`, and they can do it. */
  ghost predicate Helpable(s: State, a: NsId, rs: set<RunId>) {
    && InPlace(s, a) && s.ns[a].owner in rs && (forall h | h in s.ns[a].shared :: h.run in rs)
    && (s.ns[a].finished.Some? || MayFinish(s, s.ns[a].owner, a))
    && (forall q | q in s.ns[a].children :: q.run in rs && MayUnlink(s, q, a) && CanRelease(s, q.run))
  }

  /** `t` is `s` after run `r` unlinked its marker of level `l` in `a`. */
  ghost predicate Unlinked(s: State, t: State, r: RunId, l: nat, a: NsId) {
    && r in s.runs && r in t.runs && a in s.ns && a in t.ns
    && t.entries == s.entries && t.moves == s.moves && t.ns == s.ns[a := t.ns[a]] && t.runs == s.runs[r := t.runs[r]]
    && t.runs[r] == s.runs[r].(touched := t.runs[r].touched, unlinked := s.runs[r].unlinked + {l})
    && t.ns[a].key == s.ns[a].key && t.ns[a].owner == s.ns[a].owner && t.ns[a].shared == s.ns[a].shared
    && t.ns[a].finished == s.ns[a].finished && t.ns[a].marked == s.ns[a].marked
    && t.ns[a].children == s.ns[a].children - {Acquisition(r, l)}
  }

  lemma TouchFrame(s: State, r: RunId, l: nat, a: NsId)
    requires CanTouch(s, r, l) && s.runs[r].held[l] == a && MayUnlink(s, Acquisition(r, l), a)
    ensures var t := DoTouch(s, r, l); CanUnlink(t, r, l) && Unlinked(s, DoUnlink(t, r, l), r, l, a)
  {
  }

  /** The marker of the innermost held level goes. */
  lemma UnlinksTop(o: State, s: State, r: RunId, l: nat, a: NsId) returns (t: State)
    requires Leads(o, s) && MayUnlink(s, Acquisition(r, l), a) && a in s.ns && Releasing(s, r, l)
    ensures Leads(o, t) && Unlinked(s, t, r, l, a)
  {
    var u := s;
    if l !in s.runs[r].touched {
      TouchFrame(s, r, l, a);
      u := DoTouch(s, r, l);
      RunSteps(o, s, RunAction.Touch(r, l));
    }
    t := DoUnlink(u, r, l);
    RunSteps(o, u, RunAction.Unlink(r, l));
  }

  /** The namespace lost at most what run `r` had in it for levels above `l`. */
  ghost predicate NsFreed(n: Namespace, n': Namespace, r: RunId, l: nat) {
    && n'.key == n.key && n'.owner == n.owner && n'.finished == n.finished && n'.marked == n.marked
    && n'.shared <= n.shared && n'.children <= n.children
    && (forall q | q in n.children :: q in n'.children || (q.run == r && q.level > l))
  }

  /** Between `s` and `t`, run `r` released levels above `l`, and took away the markers that it had left there. */
  ghost predicate Freed(s: State, t: State, r: RunId, l: nat) {
    && r in s.runs && r in t.runs && t.runs == s.runs[r := t.runs[r]] && t.entries == s.entries && t.moves == s.moves
    && t.ns.Keys == s.ns.Keys && (forall i | i in s.ns :: NsFreed(s.ns[i], t.ns[i], r, l))
    && RunFreed(s.runs[r], t.runs[r], l)
    && (forall k | k in s.runs[r].held && k > l && k !in s.runs[r].unlinked && s.runs[r].held[k] in s.ns ::
          Acquisition(r, k) !in t.ns[s.runs[r].held[k]].children)
  }

  ghost predicate RunFreed(p: Run, p': Run, l: nat) {
    && p' == p.(touched := p'.touched, unlinked := p'.unlinked, held := p'.held)
    && (forall k | k in p'.held :: k in p.held)
    && (forall k | k in p.held && k <= l ::
          k in p'.held && p'.held[k] == p.held[k] && (k in p'.unlinked ==> k in p.unlinked))
  }

  lemma FreedThen(s: State, u: State, t: State, r: RunId, m: nat, l: nat)
    requires Freed(s, u, r, m) && Freed(u, t, r, l) && l <= m
    ensures Freed(s, t, r, l)
  {
    forall i | i in s.ns ensures NsFreed(s.ns[i], t.ns[i], r, l) {
      assert NsFreed(s.ns[i], u.ns[i], r, m) && NsFreed(u.ns[i], t.ns[i], r, l);
    }
    forall k | k in s.runs[r].held && k > l && k !in s.runs[r].unlinked && s.runs[r].held[k] in s.ns
      ensures Acquisition(r, k) !in t.ns[s.runs[r].held[k]].children
    {
      assert NsFreed(u.ns[s.runs[r].held[k]], t.ns[s.runs[r].held[k]], r, l);
    }
  }

  lemma UnlinkedFreed(s: State, t: State, r: RunId, l: nat, a: NsId)
    requires Unlinked(s, t, r, l, a) && l > 0 && MayUnlink(s, Acquisition(r, l), a) && Releasing(s, r, l)
    ensures Freed(s, t, r, l - 1)
  {
  }

  lemma ClosedFreed(s: State, r: RunId, l: nat)
    requires CanCloseHeld(s, r, l) && l > 0
    requires l in s.runs[r].unlinked
    ensures Freed(s, DoCloseHeld(s, r, l), r, l - 1)
  {
  }

  lemma FreedClosed(s: State, u: State, r: RunId, l: nat)
    requires l > 0 && Freed(s, u, r, l - 1) && Releasing(s, r, l)
    requires l in u.runs[r].unlinked && u.runs[r].held == s.runs[r].held
    ensures CanCloseHeld(u, r, l) && Freed(s, DoCloseHeld(u, r, l), r, l - 1)
  {
    ClosedFreed(u, r, l);
    FreedThen(s, u, DoCloseHeld(u, r, l), r, l - 1, l - 1);
  }

  /** The marker of the innermost held level goes, unless it has gone already. */
  lemma Unmarks(o: State, s: State, r: RunId, l: nat) returns (t: State)
    requires Leads(o, s) && Releasing(s, r, l) && l > 0
    ensures Leads(o, t) && Freed(s, t, r, l - 1) && t.runs[r].held == s.runs[r].held && l in t.runs[r].unlinked
  {
    if l in s.runs[r].unlinked {
      t := s;
      FreedSelf(s, r, l);
    } else {
      t := UnlinksTop(o, s, r, l, s.runs[r].held[l]);
      UnlinkedFreed(s, t, r, l, s.runs[r].held[l]);
    }
  }

  /** The innermost held level is released. */
  lemma FreesTop(o: State, s: State, r: RunId, l: nat) returns (t: State)
    requires Leads(o, s) && Releasing(s, r, l) && l > 0
    ensures Leads(o, t) && Freed(s, t, r, l - 1) && t.runs[r].held == s.runs[r].held - {l}
  {
    var u := Unmarks(o, s, r, l);
    FreedClosed(s, u, r, l);
    t := DoCloseHeld(u, r, l);
    RunSteps(o, u, RunAction.CloseHeld(r, l));
  }

  lemma FreedSelf(s: State, r: RunId, l: nat)
    requires Releasing(s, r, l) && l > 0 && l in s.runs[r].unlinked
    ensures Freed(s, s, r, l - 1)
  {
  }

  lemma Innermost(levels: set<nat>) returns (m: nat)
    requires levels != {}
    ensures m in levels && forall k | k in levels :: k <= m
    decreases levels
  {
    m :| m in levels;
    if levels != {m} {
      var k := Innermost(levels - {m});
      assert levels == (levels - {m}) + {m};
      m := if k < m then m else k;
    }
  }

  /** A run past its own namespace releases what it holds inside level `l`, innermost first. */
  lemma {:induction false} FreesInner(o: State, s: State, r: RunId, l: nat) returns (t: State)
    requires Leads(o, s) && Live(s, r) && s.runs[r].own.Closed? && l in s.runs[r].held
    ensures Leads(o, t) && Freed(s, t, r, l) && Releasing(t, r, l)
    decreases s.runs[r].held.Keys
  {
    var m := Innermost(s.runs[r].held.Keys);
    HeldPlaces(o, s, r, m);
    if m == l {
      t := s;
    } else {
      var u := FreesTop(o, s, r, m);
      t := FreesInner(o, u, r, l);
      FreedThen(s, u, t, r, m - 1, l);
    }
  }

  lemma HeldPlaces(o: State, s: State, r: RunId, l: nat)
    requires Leads(o, s) && Live(s, r) && l in s.runs[r].held
    ensures l > 0 && s.runs[r].held[l] in s.ns
  {
    LeadsGood(o, s);
    assert RunOk(s, r);
    HeldInPlace(s, r, l);
  }

  /** A run with a marker in `a` first acquires the rest of its path, which leaves `a` alone. */
  lemma Acquires(o: State, s: State, a: NsId, rs: set<RunId>, q: Acquisition) returns (t: State)
    requires Leads(o, s) && Helpable(s, a, rs) && q in s.ns[a].children
    ensures Leads(o, t) && Helpable(t, a, rs) && Spares(s, t, rs) && AtOwn(t, q.run)
    ensures t.ns[a] == s.ns[a]
  {
    assert MayUnlink(s, q, a) && CanRelease(s, q.run);
    t := s;
    if s.runs[q.run].own.Unmade? {
      t := AcquiresRest(o, s, q.run, q.level);
      HelpableAlong(s, t, a, rs, q.run);
    }
  }

  lemma HelpableAlong(s: State, t: State, a: NsId, rs: set<RunId>, r: RunId)
    requires Helpable(s, a, rs) && r in rs && Spares(s, t, {r}) && t.ns[a] == s.ns[a] && CanRelease(t, r)
    requires r in s.runs && Further(s.runs[r], t.runs[r]) && forall l | l in s.runs[r].held :: s.runs[r].level < l
    ensures Helpable(t, a, rs) && Spares(s, t, rs)
  {
    forall q | q in t.ns[a].children ensures q.run in rs && MayUnlink(t, q, a) && CanRelease(t, q.run) {
      assert MayUnlink(s, q, a) && CanRelease(s, q.run);
      if q.run != r { CanReleaseKept(s, t, {r}, q.run); }
    }
  }

  lemma ReleaseOne(o: State, s: State, a: NsId, rs: set<RunId>, q: Acquisition) returns (t: State)
    requires Leads(o, s) && Helpable(s, a, rs) && q in s.ns[a].children
    ensures Leads(o, t) && Helpable(t, a, rs) && Spares(s, t, rs) && t.ns[a].children < s.ns[a].children
  {
    var w := Acquires(o, s, a, rs, q);
    var u := EndsOwn(o, w, q.run);
    NotOwner(o, w, a, q);
    var v := FreesInner(o, u, q.run, q.level);
    t := UnlinksTop(o, v, q.run, q.level, a);
    OneReleased(w, u, v, t, a, rs, q);
    SparesThen(s, w, t, rs);
  }

  lemma NotOwner(o: State, s: State, a: NsId, q: Acquisition)
    requires Leads(o, s) && a in s.ns && q in s.ns[a].children
    ensures s.ns[a].owner != q.run
  {
    LeadsGood(o, s);
    assert NsShape(s, a) && PastOk(s.ns[a], s.clock);
  }

  lemma OneReleased(s: State, u: State, v: State, t: State, a: NsId, rs: set<RunId>, q: Acquisition)
    requires Helpable(s, a, rs) && q in s.ns[a].children && s.ns[a].owner != q.run
    requires OnlyOwn(s, u, q.run, Closed) && Freed(u, v, q.run, q.level) && Unlinked(v, t, q.run, q.level, a)
    ensures Helpable(t, a, rs) && Spares(s, t, rs) && t.ns[a].children < s.ns[a].children
  {
    assert u.ns[a] == s.ns[a] && NsFreed(u.ns[a], v.ns[a], q.run, q.level) && q == Acquisition(q.run, q.level);
    ReleaseSpares(s, u, v, t, a, q);
    MarkersHelpable(s, u, v, t, a, rs, q);
  }

  lemma MarkersHelpable(s: State, u: State, v: State, t: State, a: NsId, rs: set<RunId>, q: Acquisition)
    requires Helpable(s, a, rs) && q in s.ns[a].children && Spares(s, t, {q.run}) && a in u.ns && u.ns[a] == s.ns[a]
    requires OnlyOwn(s, u, q.run, Closed) && Freed(u, v, q.run, q.level) && Unlinked(v, t, q.run, q.level, a)
    requires t.ns[a].children <= s.ns[a].children
    ensures forall x | x in t.ns[a].children :: x.run in rs && MayUnlink(t, x, a) && CanRelease(t, x.run)
  {
    forall x | x in t.ns[a].children ensures x.run in rs && MayUnlink(t, x, a) && CanRelease(t, x.run) {
      assert MayUnlink(s, x, a) && CanRelease(s, x.run) && CanRelease(s, q.run);
      if x.run == q.run {
        OwnMarkerKept(u, v, t, a, q, x);
      } else {
        CanReleaseKept(s, t, {q.run}, x.run);
      }
    }
  }

  /** A marker that the releasing run still has is one of an outer level, which it still holds. */
  lemma OwnMarkerKept(u: State, v: State, t: State, a: NsId, q: Acquisition, x: Acquisition)
    requires Freed(u, v, q.run, q.level) && Unlinked(v, t, q.run, q.level, a)
    requires x.run == q.run && a in u.ns && MayUnlink(u, x, a) && x in t.ns[a].children
    requires Live(u, q.run) && u.runs[q.run].own.Closed?
    ensures MayUnlink(t, x, a) && CanRelease(t, x.run)
  {
    assert x == Acquisition(q.run, x.level) && q == Acquisition(q.run, q.level);
    assert NsFreed(u.ns[a], v.ns[a], q.run, q.level);
  }

  lemma ReleaseSpares(s: State, u: State, v: State, t: State, a: NsId, q: Acquisition)
    requires OnlyOwn(s, u, q.run, Closed) && Freed(u, v, q.run, q.level) && Unlinked(v, t, q.run, q.level, a)
    ensures Spares(s, t, {q.run})
  {
    forall i | i in s.ns ensures i in t.ns && t.ns[i].key == s.ns[i].key {
      assert NsFreed(u.ns[i], v.ns[i], q.run, q.level);
    }
  }

  lemma {:induction false} ReleaseAll(o: State, s: State, a: NsId, rs: set<RunId>) returns (t: State)
    requires Leads(o, s) && Helpable(s, a, rs)
    ensures Leads(o, t) && Helpable(t, a, rs) && Spares(s, t, rs) && t.ns[a].children == {}
    decreases s.ns[a].children
  {
    if s.ns[a].children == {} {
      t := s;
    } else {
      var q :| q in s.ns[a].children;
      var u := ReleaseOne(o, s, a, rs, q);
      t := ReleaseAll(o, u, a, rs);
      SparesThen(s, u, t, rs);
    }
  }

  // ---------- the owner finishes, and every holder exits ----------

  /** No child marker is left, and the remaining holders are in `rs`. */
  ghost predicate Childless(s: State, a: NsId, rs: set<RunId>) {
    && InPlace(s, a) && s.ns[a].children == {} && s.ns[a].owner in rs && (forall h | h in s.ns[a].shared :: h.run in rs)
  }

  lemma Finishes(o: State, s: State, a: NsId, rs: set<RunId>) returns (t: State)
    requires Leads(o, s) && Childless(s, a, rs) && s.ns[a].finished.None? && Live(s, s.ns[a].owner)
    requires s.runs[s.ns[a].owner].own == Marked(a)
    ensures Leads(o, t) && Childless(t, a, rs) && Spares(s, t, rs) && t.ns[a].finished.Some?
  {
    FinishFrame(s, a, rs);
    t := DoFinishOwn(s, s.ns[a].owner);
    RunSteps(o, s, RunAction.FinishOwn(s.ns[a].owner));
  }

  lemma FinishFrame(s: State, a: NsId, rs: set<RunId>)
    requires Childless(s, a, rs) && s.ns[a].finished.None? && Live(s, s.ns[a].owner)
    requires s.runs[s.ns[a].owner].own == Marked(a)
    ensures var t := DoFinishOwn(s, s.ns[a].owner); Childless(t, a, rs) && Spares(s, t, rs) && t.ns[a].finished.Some?
  {
  }

  lemma MarksThenFinishes(o: State, s: State, a: NsId, rs: set<RunId>) returns (t: State)
    requires Leads(o, s) && Childless(s, a, rs) && s.ns[a].finished.None? && Live(s, s.ns[a].owner)
    requires s.runs[s.ns[a].owner].own == Made(a)
    ensures Leads(o, t) && Childless(t, a, rs) && Spares(s, t, rs) && t.ns[a].finished.Some?
  {
    var r := s.ns[a].owner;
    var u := Marks(o, s, r, a);
    MarksOnlyOwn(s, r, a);
    MarkedChildless(s, u, a, rs);
    t := Finishes(o, u, a, rs);
    SparesThen(s, u, t, rs);
  }

  lemma MarkedChildless(s: State, u: State, a: NsId, rs: set<RunId>)
    requires Childless(s, a, rs) && CanMarkOwn(s, s.ns[a].owner) && s.runs[s.ns[a].owner].own == Made(a)
    requires u == DoMarkOwn(s, s.ns[a].owner)
    ensures Childless(u, a, rs) && Spares(s, u, rs) && u.ns[a].finished == s.ns[a].finished
    ensures u.ns[a].owner == s.ns[a].owner
    ensures Live(u, s.ns[a].owner) && u.runs[s.ns[a].owner].own == Marked(a)
  {
  }

  lemma OwnerFinishes(o: State, s: State, a: NsId, rs: set<RunId>) returns (t: State)
    requires Leads(o, s) && Childless(s, a, rs)
    requires s.ns[a].finished.Some? || MayFinish(s, s.ns[a].owner, a)
    ensures Leads(o, t) && Childless(t, a, rs) && Spares(s, t, rs) && t.ns[a].finished.Some?
  {
    if s.ns[a].finished.Some? {
      t := s;
    } else if s.runs[s.ns[a].owner].own == Made(a) {
      t := MarksThenFinishes(o, s, a, rs);
    } else {
      t := Finishes(o, s, a, rs);
    }
  }

  lemma DieFrame(s: State, a: NsId, rs: set<RunId>, r: RunId)
    requires Childless(s, a, rs) && s.ns[a].finished.Some? && Live(s, r) && r in rs
    ensures var t := DoDie(s, r);
      && Childless(t, a, rs) && Spares(s, t, rs) && t.ns[a].finished.Some? && !Live(t, r)
      && t.ns[a].shared == WithoutRun(s.ns[a].shared, r) && t.ns[a].owner == s.ns[a].owner
  {
  }

  lemma Dies(o: State, s: State, a: NsId, rs: set<RunId>, r: RunId) returns (t: State)
    requires Leads(o, s) && Childless(s, a, rs) && s.ns[a].finished.Some? && Live(s, r) && r in rs
    ensures Leads(o, t) && t == DoDie(s, r) && Childless(t, a, rs) && Spares(s, t, rs) && t.ns[a].finished.Some?
  {
    DieFrame(s, a, rs, r);
    t := DoDie(s, r);
    RunSteps(o, s, RunAction.Die(r));
  }

  lemma {:induction false} AllDie(o: State, s: State, a: NsId, rs: set<RunId>) returns (t: State)
    requires Leads(o, s) && Childless(s, a, rs) && s.ns[a].finished.Some? && !Live(s, s.ns[a].owner)
    ensures Leads(o, t) && Childless(t, a, rs) && Spares(s, t, rs) && t.ns[a].finished.Some?
    ensures !Live(t, t.ns[a].owner) && t.ns[a].shared == {}
    decreases s.ns[a].shared
  {
    if s.ns[a].shared == {} {
      t := s;
    } else {
      var h :| h in s.ns[a].shared;
      HolderLives(o, s, a, h);
      var u := Dies(o, s, a, rs, h.run);
      DieFrame(s, a, rs, h.run);
      assert h !in u.ns[a].shared && u.ns[a].shared <= s.ns[a].shared;
      t := AllDie(o, u, a, rs);
      SparesThen(s, u, t, rs);
    }
  }

  lemma HolderLives(o: State, s: State, a: NsId, h: Holder)
    requires Leads(o, s) && a in s.ns && h in s.ns[a].shared
    ensures Live(s, h.run)
  {
    LeadsGood(o, s);
    assert NsShape(s, a);
  }

  lemma OwnerExits(o: State, s: State, a: NsId, rs: set<RunId>) returns (t: State)
    requires Leads(o, s) && Childless(s, a, rs) && s.ns[a].finished.Some?
    ensures Leads(o, t) && Childless(t, a, rs) && Spares(s, t, rs) && t.ns[a].finished.Some?
    ensures !Live(t, t.ns[a].owner) && t.ns[a].shared == {}
  {
    var u := s;
    if Live(s, s.ns[a].owner) {
      u := Dies(o, s, a, rs, s.ns[a].owner);
      DieFrame(s, a, rs, s.ns[a].owner);
    }
    t := AllDie(o, u, a, rs);
    SparesThen(s, u, t, rs);
  }

  // ---------- a cleaner moves it ----------

  lemma MayLeave(o: State, s: State, a: NsId, c: CleanerId)
    requires Leads(o, s) && a in s.ns && s.ns[a].exclusive == Some(c)
    ensures CanLeave(s, c) && s.cleaners[c].ns == a && Holding(s.cleaners[c].progress)
  {
    LeadsGood(o, s);
    assert LockOk(s, a);
  }

  /** The holder of an exclusive lock may leave. */
  lemma Unlocks(o: State, s: State, a: NsId) returns (t: State)
    requires Leads(o, s) && a in s.ns
    ensures Leads(o, t) && t.runs == s.runs && t.entries == s.entries && t.moves == s.moves
    ensures t.ns == s.ns[a := s.ns[a].(exclusive := None)] && t.clock == s.clock
  {
    if s.ns[a].exclusive.None? {
      t := s;
    } else {
      var c := s.ns[a].exclusive.value;
      MayLeave(o, s, a, c);
      LeadsStep(o, s, ByCleaner(CleanerAction.Leave(c)));
      t := DoLeave(s, c);
    }
  }

  lemma BecomesPrunable(o: State, s: State, a: NsId)
    requires Leads(o, s) && InPlace(s, a) && s.ns[a].children == {} && s.ns[a].finished.Some?
    requires !Live(s, s.ns[a].owner) && s.ns[a].shared == {} && s.ns[a].exclusive.None?
    ensures Prunable(s, a, s.clock)
  {
    LeadsGood(o, s);
    assert NsShape(s, a) && PastOk(s.ns[a], s.clock);
  }

  lemma IsMoved(o: State, s: State, a: NsId, rs: set<RunId>) returns (t: State)
    requires Leads(o, s) && Childless(s, a, rs) && s.ns[a].finished.Some?
    requires !Live(s, s.ns[a].owner) && s.ns[a].shared == {}
    ensures Leads(o, t) && WasMoved(t, a) && t.runs == s.runs && t.entries == s.entries - {s.ns[a].key}
    ensures KeepsKeys(s, t)
  {
    var u := Unlocks(o, s, a);
    BecomesPrunable(o, u, a);
    var c := FreshNat(u.cleaners.Keys);
    var actions;
    actions, t := PrunableCanBeMoved(u, c, a, u.clock);
    LeadsOn(o, u, actions, t);
    RunsKeepKeys(u, actions, t);
    assert t.moves[|u.moves|] in t.moves;
  }

  // ---------- main results ----------

  /** Every namespace that is not doomed can be taken away, if the runs with a marker in it can release; runs
      that do not hold it need not act. */
  lemma CanBeMoved(o: State, s: State, a: NsId, rs: set<RunId>) returns (t: State)
    requires Leads(o, s) && Helpable(s, a, rs)
    ensures Leads(o, t) && WasMoved(t, a) && KeepsKeys(s, t) && SparesBut(s, t, rs, s.ns[a].key)
  {
    var u := Settles(o, s, a, rs);
    t := IsMoved(o, u, a, rs);
    SparedBut(s, u, t, a, rs);
  }

  /** Only the given runs act, and only the given name goes. */
  ghost predicate SparesBut(s: State, t: State, rs: set<RunId>, key: Key) {
    && t.runs.Keys == s.runs.Keys && (forall r | r in s.runs && r !in rs :: t.runs[r] == s.runs[r])
    && key !in t.entries && (forall k | k in s.entries && k != key :: k in t.entries && t.entries[k] == s.entries[k])
  }

  lemma SparedBut(s: State, u: State, t: State, a: NsId, rs: set<RunId>)
    requires Spares(s, u, rs) && a in s.ns && t.runs == u.runs && t.entries == u.entries - {u.ns[a].key}
    requires KeepsKeys(u, t)
    ensures SparesBut(s, t, rs, s.ns[a].key) && KeepsKeys(s, t)
  {
  }

  lemma Settles(o: State, s: State, a: NsId, rs: set<RunId>) returns (t: State)
    requires Leads(o, s) && Helpable(s, a, rs)
    ensures Leads(o, t) && Childless(t, a, rs) && Spares(s, t, rs) && t.ns[a].finished.Some?
    ensures !Live(t, t.ns[a].owner) && t.ns[a].shared == {}
  {
    var u := ReleaseAll(o, s, a, rs);
    var v := OwnerFinishes(o, u, a, rs);
    SparesThen(s, u, v, rs);
    t := OwnerExits(o, v, a, rs);
    SparesThen(s, v, t, rs);
  }

  /** The runs that a namespace waits for. */
  function Waited(n: Namespace): set<RunId> {
    {n.owner} + (set h | h in n.shared :: h.run) + (set q | q in n.children :: q.run)
  }

  /** The path of every live run with a marker in an enclosing namespace, and its own one still to make, is there
      and marked. */
  ghost predicate Unobstructed(s: State, i: NsId) {
    forall a | Within(s, i, a) :: Released(s, a)
  }

  ghost predicate Released(s: State, a: NsId) {
    a in s.ns ==>
      forall q | q in s.ns[a].children && Live(s, q.run) && s.runs[q.run].own.Unmade? :: PathThere(s, q.run)
  }

  /** No continuation takes the namespace away. */
  ghost predicate Safe(s: State, i: NsId) { forall actions, t | Runs(s, actions, t) :: !Taken(t, i) }

  lemma NotDoomedIsHelpable(s: State, a: NsId)
    requires InPlace(s, a) && !Doomed(s, a) && forall q | q in s.ns[a].children :: CanRelease(s, q.run)
    ensures Helpable(s, a, Waited(s.ns[a]))
  {
  }

  /** A namespace below one that is not doomed can be taken away. */
  lemma CanBeTaken(s: State, i: NsId, a: NsId) returns (actions: seq<Action>, t: State)
    requires Known(s) && Within(s, i, a) && a in s.ns && !Doomed(s, a)
    requires forall q | q in s.ns[a].children :: CanRelease(s, q.run)
    ensures Runs(s, actions, t) && Taken(t, i)
  {
    LeadsSelf(s);
    if WasMoved(s, a) {
      actions, t := [], s;
    } else {
      assert InPlace(s, a);
      NotDoomedIsHelpable(s, a);
      t := CanBeMoved(s, s, a, Waited(s.ns[a]));
      actions :| Known(s) && Runs(s, actions, t);
      WithinStays(s, t, i, a);
    }
  }

  lemma WithinStays(s: State, t: State, i: NsId, a: NsId)
    requires KeepsKeys(s, t) && Within(s, i, a)
    ensures Within(t, i, a)
  {
    var c :| IsChain(s, c) && c[0] == i && c[|c| - 1] == a;
    assert IsChain(t, c);
  }

  lemma RetainedIsSafe(s: State, i: NsId)
    requires Good(s) && Retained(s, i)
    ensures Safe(s, i)
  {
    GoodParents(s);
    forall actions, t | Runs(s, actions, t) ensures !Taken(t, i) { RetainedForever(s, actions, t, i); }
  }

  lemma NotDoomedIsUnsafe(s: State, i: NsId, a: NsId)
    requires Known(s) && Within(s, i, a) && !Doomed(s, a) && Released(s, a)
    ensures !Safe(s, i)
  {
    EnclosingExists(s, i, a);
    if Taken(s, a) {
      TakenAround(s, i, a);
      assert Runs(s, [], s);
    } else {
      forall q | q in s.ns[a].children ensures CanRelease(s, q.run) {
        assert MayUnlink(s, q, a);
        OnwardIff(s, q.run, q.level);
      }
      var actions, t := CanBeTaken(s, i, a);
      assert Runs(s, actions, t) && Taken(t, i);
    }
  }

  lemma TakenAround(s: State, i: NsId, a: NsId)
    requires Within(s, i, a) && Taken(s, a)
    ensures Taken(s, i)
  {
    var b :| Within(s, a, b) && WasMoved(s, b);
    var c :| IsChain(s, c) && c[0] == i && c[|c| - 1] == a;
    var d :| IsChain(s, d) && d[0] == a && d[|d| - 1] == b;
    var e := c + d[1..];
    assert forall k | |c| <= k < |e| :: e[k] == d[k - |c| + 1];
    assert IsChain(s, e) && e[0] == i && e[|e| - 1] == b;
  }

  lemma EnclosingExists(s: State, i: NsId, a: NsId)
    requires Within(s, i, a)
    ensures a in s.ns
  {
  }

  /** Exactly what is retained: in every reachable state, a namespace is safe in all continuations if and only
      if it and everything that encloses it is doomed; the runs that have a marker there and still acquire must find
      their paths there and marked. */
  lemma {:induction false} RetainedIff(before: seq<Action>, s: State, i: NsId)
    requires Runs(Init, before, s) && i in s.ns && Unobstructed(s, i)
    ensures Safe(s, i) <==> Retained(s, i)
  {
    KnownRuns(Init, before, s);
    if Retained(s, i) {
      RetainedIsSafe(s, i);
    } else {
      var a :| Within(s, i, a) && !Doomed(s, a);
      NotDoomedIsUnsafe(s, i, a);
    }
  }
}
