/** The bounded branch history of a reused worktree path refines the unbounded one. */
module WorktreeHistory {
  import opened WorktreeRecord
  import opened Wrappers

  // ---------- the unbounded history ----------

  function Without(s: seq<string>, b: string): seq<string> {
    if s == [] then [] else if s[0] == b then Without(s[1..], b) else [s[0]] + Without(s[1..], b)
  }

  /** The distinct branches of a sequence of registrations, most recent first. */
  function Recent(registrations: seq<string>): seq<string> {
    if registrations == [] then []
    else
      var n := |registrations| - 1;
      [registrations[n]] + Without(Recent(registrations[..n]), registrations[n])
  }

  ghost predicate Distinct(s: seq<string>) {
    forall i, j | 0 <= i < j < |s| :: s[i] != s[j]
  }

  /** `b` was registered, last at position `k`. */
  ghost predicate LastAt(registrations: seq<string>, b: string, k: nat) {
    && k < |registrations| && registrations[k] == b
    && forall j | k < j < |registrations| :: registrations[j] != b
  }

  lemma {:induction false} WithoutMembers(s: seq<string>, b: string)
    ensures forall x :: x in Without(s, b) <==> x in s && x != b
    ensures Distinct(s) ==> Distinct(Without(s, b))
    ensures b !in s ==> Without(s, b) == s
  {
    if s != [] {
      WithoutMembers(s[1..], b);
      assert s == [s[0]] + s[1..];
      if Distinct(s) {
        assert Distinct(s[1..]);
        assert s[0] !in s[1..];
        DistinctCons(s[0], Without(s[1..], b));
      }
    }
  }

  lemma DistinctCons(x: string, s: seq<string>)
    ensures Distinct(s) && x !in s ==> Distinct([x] + s)
  {
  }

  /** The history has every registered branch exactly once. */
  lemma {:induction false} RecentMembers(rs: seq<string>)
    ensures Distinct(Recent(rs))
    ensures forall x :: x in Recent(rs) <==> x in rs
  {
    if rs != [] {
      var n := |rs| - 1;
      RecentMembers(rs[..n]);
      WithoutMembers(Recent(rs[..n]), rs[n]);
      DistinctCons(rs[n], Without(Recent(rs[..n]), rs[n]));
      assert rs == rs[..n] + [rs[n]];
    }
  }

  /** `s` lists branches by their last registration, latest first. */
  ghost predicate ByRecency(rs: seq<string>, s: seq<string>) {
    forall i, j, k, l | 0 <= i < j < |s| && LastAt(rs, s[i], k) && LastAt(rs, s[j], l) :: k > l
  }

  lemma LastAtEarlier(rs: seq<string>, n: nat, b: string, k: nat)
    requires n == |rs| - 1 && b != rs[n]
    ensures LastAt(rs, b, k) <==> LastAt(rs[..n], b, k)
  {
    if LastAt(rs[..n], b, k) {
      forall j | k < j < |rs| ensures rs[j] != b { if j < n { assert rs[..n][j] == rs[j]; } }
    }
    if LastAt(rs, b, k) {
      forall j | k < j < n ensures rs[..n][j] != b { assert rs[j] != b; }
    }
  }

  lemma {:induction false} WithoutByRecency(rs: seq<string>, s: seq<string>, b: string)
    requires ByRecency(rs, s)
    ensures ByRecency(rs, Without(s, b))
  {
    if s != [] {
      assert ByRecency(rs, s[1..]) by {
        forall i, j, k, l | 0 <= i < j < |s[1..]| && LastAt(rs, s[1..][i], k) && LastAt(rs, s[1..][j], l)
          ensures k > l
        {
          assert s[1..][i] == s[i + 1] && s[1..][j] == s[j + 1];
        }
      }
      WithoutByRecency(rs, s[1..], b);
      if s[0] != b {
        var w := Without(s[1..], b);
        WithoutMembers(s[1..], b);
        forall i, j, k, l
          | 0 <= i < j < |[s[0]] + w| && LastAt(rs, ([s[0]] + w)[i], k) && LastAt(rs, ([s[0]] + w)[j], l)
          ensures k > l
        {
          if i == 0 {
            assert w[j - 1] in s[1..];
            var m :| 0 <= m < |s[1..]| && s[1..][m] == w[j - 1];
            assert s[m + 1] == w[j - 1];
          } else {
            assert ([s[0]] + w)[i] == w[i - 1] && ([s[0]] + w)[j] == w[j - 1];
          }
        }
      }
    }
  }

  /** The history is ordered by recency: what `Recent` lists earlier was registered later. */
  lemma {:induction false} RecentByRecency(rs: seq<string>)
    ensures ByRecency(rs, Recent(rs))
  {
    if rs != [] {
      var n := |rs| - 1;
      var before := Recent(rs[..n]);
      var w := Without(before, rs[n]);
      RecentByRecency(rs[..n]);
      WithoutByRecency(rs[..n], before, rs[n]);
      WithoutMembers(before, rs[n]);
      var s := [rs[n]] + w;
      forall i, j, k, l | 0 <= i < j < |s| && LastAt(rs, s[i], k) && LastAt(rs, s[j], l) ensures k > l {
        assert s[j] == w[j - 1] && w[j - 1] in w;
        LastAtEarlier(rs, n, s[j], l);
        if i > 0 {
          assert s[i] == w[i - 1] && w[i - 1] in w;
          LastAtEarlier(rs, n, s[i], k);
          assert LastAt(rs[..n], w[i - 1], k) && LastAt(rs[..n], w[j - 1], l);
        }
      }
    }
  }

  // ---------- the bounded history refines it ----------

  function Branches(bs: seq<Binding>): seq<string> {
    if bs == [] then [] else [bs[0].branch] + Branches(bs[1..])
  }

  /** The branches a record remembers, its own first. */
  function Remembered(r: Record): seq<string> { [r.branch] + Branches(r.prior) }

  lemma {:induction false} BranchesAt(bs: seq<Binding>)
    ensures |Branches(bs)| == |bs|
    ensures forall i | 0 <= i < |bs| :: Branches(bs)[i] == bs[i].branch
  {
    if bs != [] { BranchesAt(bs[1..]); }
  }

  lemma {:induction false} BranchesTaken(bs: seq<Binding>, n: nat)
    ensures Branches(Taken(bs, n)) == Taken(Branches(bs), n)
  {
    BranchesAt(bs);
    BranchesAt(Taken(bs, n));
  }

  /** On distinct branches, keeping the first ones outside `skip` removes exactly the new branch. */
  lemma {:induction false} FirstOfIsWithout(bs: seq<Binding>, b: string, skip: set<string>)
    requires b in skip && Distinct(Branches(bs))
    requires forall x | x in Branches(bs) :: x in skip ==> x == b
    ensures Branches(FirstOf(bs, skip)) == Without(Branches(bs), b)
  {
    if bs != [] {
      var rest := Branches(bs[1..]);
      assert Branches(bs) == [bs[0].branch] + rest;
      assert forall x | x in rest :: x in Branches(bs);
      assert Distinct(rest) && bs[0].branch !in rest by { DistinctTail(bs[0].branch, rest); }
      if bs[0].branch in skip {
        FirstOfIsWithout(bs[1..], b, skip);
      } else {
        FirstOfIsWithout(bs[1..], b, skip + {bs[0].branch});
        var f := FirstOf(bs[1..], skip + {bs[0].branch});
        assert ([bs[0]] + f)[1..] == f;
      }
    }
  }

  lemma DistinctTail(x: string, s: seq<string>)
    requires Distinct([x] + s)
    ensures Distinct(s) && x !in s
  {
    var t := [x] + s;
    forall i, j | 0 <= i < j < |s| ensures s[i] != s[j] { assert t[i + 1] == s[i] && t[j + 1] == s[j]; }
    forall i | 0 <= i < |s| ensures s[i] != x { assert t[0] != t[i + 1]; }
  }

  /** Dropping one branch from the first `n + 1` leaves the first `n` of the whole without it. */
  lemma {:induction false} TakenWithout(s: seq<string>, n: nat, b: string)
    requires Distinct(s)
    ensures Taken(Without(Taken(s, n + 1), b), n) == Taken(Without(s, b), n)
    decreases |s|
  {
    if |s| > n + 1 {
      var t := s[..n + 1];
      DistinctTail(s[0], s[1..]) by { assert [s[0]] + s[1..] == s; }
      if s[0] == b {
        WithoutMembers(s[1..], b);
        WithoutMembers(t[1..], b);
        assert t[1..] == s[1..][..n];
      } else if n > 0 {
        TakenWithout(s[1..], n - 1, b);
        assert t[1..] == Taken(s[1..], n);
        TakenCons(s[0], Without(t[1..], b), n);
        TakenCons(s[0], Without(s[1..], b), n);
      }
    }
  }

  lemma TakenCons<T>(x: T, s: seq<T>, n: nat)
    requires n > 0
    ensures Taken([x] + s, n) == [x] + Taken(s, n - 1)
  {
  }

  /** One registration: the record's bounded history stays the front of the unbounded one. */
  lemma {:induction false} RegisterRefines(r: Record, rs: seq<string>, path: Path, branch: string,
                                           generation: Generation, owner: string, now: real, ttl: real)
    requires r.branch != "" && PriorValid(r.branch, r.prior)
    requires branch != "" && Remembered(r) == Taken(Recent(rs), MAX_PRIOR_BINDINGS + 1)
    ensures Remembered(Registered(Some(r), path, branch, generation, owner, now, ttl))
         == Taken(Recent(rs + [branch]), MAX_PRIOR_BINDINGS + 1)
  {
    var bs := [Displaced(r, now)] + r.prior;
    var full := Recent(rs);
    assert Branches(bs) == Remembered(r) by { assert bs[1..] == r.prior; }
    RecentMembers(rs);
    RememberedDistinct(r);
    FirstOfIsWithout(bs, branch, {"", branch});
    BranchesTaken(FirstOf(bs, {"", branch}), MAX_PRIOR_BINDINGS);
    TakenWithout(full, MAX_PRIOR_BINDINGS, branch);
    assert (rs + [branch])[..|rs|] == rs;
    TakenCons(branch, Without(full, branch), MAX_PRIOR_BINDINGS + 1);
  }

  lemma RememberedDistinct(r: Record)
    requires r.branch != "" && PriorValid(r.branch, r.prior)
    ensures Distinct(Remembered(r)) && "" !in Remembered(r)
  {
    BranchesAt(r.prior);
    var s := Remembered(r);
    forall i | 0 <= i < |s| ensures s[i] != "" && (i > 0 ==> s[i] == r.prior[i - 1].branch) { }
    forall i, j | 0 <= i < j < |s| ensures s[i] != s[j] { }
  }

  /** The first registration of a path. */
  lemma FirstRegisterRefines(path: Path, branch: string, generation: Generation, owner: string, now: real, ttl: real)
    ensures Remembered(Registered(None, path, branch, generation, owner, now, ttl))
         == Taken(Recent([branch]), MAX_PRIOR_BINDINGS + 1)
  {
    assert [branch][..0] == [];
  }
}
