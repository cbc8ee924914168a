/** The remote retirement saga of `scripts/git_archive_retirement.py`: refs are deleted in batches behind a
    write-ahead receipt, with compare-and-swap pushes and compensation from a verified bundle.

    Other parties may change the remote between any two accesses, a push may take effect although it reports
    failure, and the process may die between any two steps; what survives is the object's real fields. */
module Retirement {
  import opened Wrappers

  type Ref = string
  type Sha = string
  type Refs = map<Ref, Sha>

  datatype Phase = Prepared | DeletePending | BatchVerified | Completed | RecoveryRequired | Compensated

  datatype Receipt = Receipt(
    phase: Phase, targets: Refs, deleted: Refs, retained: set<Ref>, batches: seq<Refs>, pending: Option<Refs>)

  /** How a call ends: with a receipt; with an exception that it handled or that comes before any push; with one
      that it does not handle, after a push; or not at all. */
  datatype Result = Returned(receipt: Receipt) | Raised | Escaped | Died

  const MAX_TARGETS := 1000
  const MAX_BATCH := 25

  ghost predicate Within(a: Refs, b: Refs) {
    forall k | k in a :: k in b && a[k] == b[k]
  }

  function Restrict(m: Refs, keys: set<Ref>): Refs {
    map k | k in m && k in keys :: m[k]
  }

  /** The refs that a compensation has to restore. */
  function Absent(pending: Refs, remote: Refs): Refs {
    map k | k in pending && k !in remote :: pending[k]
  }

  /** Restoring the absent refs leaves none absent, so a second compensation has nothing to create; refs that
      exist keep their objects. */
  lemma RestoringIsIdempotent(pending: Refs, remote: Refs)
    ensures Absent(pending, remote + Absent(pending, remote)) == map[]
    ensures Within(remote, remote + Absent(pending, remote))
    ensures Restrict(remote + Absent(pending, remote), pending.Keys) == pending
      <==> Within(Restrict(remote, pending.Keys), pending)
  {
    var restored := remote + Absent(pending, remote);
    if Within(Restrict(remote, pending.Keys), pending) {
      forall k | k in pending ensures k in restored && restored[k] == pending[k] {
        if k in remote { assert Restrict(remote, pending.Keys)[k] == remote[k]; }
      }
    }
    if Restrict(restored, pending.Keys) == pending {
      forall k | k in remote && k in pending ensures remote[k] == pending[k] {
        assert Restrict(restored, pending.Keys)[k] == remote[k];
      }
    }
  }

  ghost predicate ReceiptOk(r: Receipt) {
    && Within(r.deleted, r.targets)
    && (r.pending.Some? ==> Within(r.pending.value, r.targets))
  }

  /** The refs, with their objects, that a receipt owns up to. */
  ghost function Accounted(r: Receipt): set<(Ref, Sha)> {
    r.deleted.Items + (if r.pending.Some? then r.pending.value.Items else {})
  }

  // ---------- the account of a run ----------

  function Union(batches: seq<Refs>): Refs {
    if batches == [] then map[] else Union(batches[..|batches| - 1]) + batches[|batches| - 1]
  }

  /** The batches are disjoint and together are the deleted refs. */
  ghost predicate Partition(batches: seq<Refs>, deleted: Refs) {
    && Union(batches) == deleted
    && (forall i, j | 0 <= i < j < |batches| :: batches[i].Keys !! batches[j].Keys)
  }

  lemma {:induction false} UnionKeys(batches: seq<Refs>, i: nat)
    requires i < |batches|
    ensures batches[i].Keys <= Union(batches).Keys
  {
    var n := |batches| - 1;
    if i < n {
      UnionKeys(batches[..n], i);
      assert batches[..n][i] == batches[i];
    }
  }

  lemma PartitionAppend(batches: seq<Refs>, deleted: Refs, batch: Refs)
    requires Partition(batches, deleted) && batch.Keys !! deleted.Keys
    ensures Partition(batches + [batch], deleted + batch)
  {
    var n := |batches|;
    assert (batches + [batch])[..n] == batches;
    forall i, j | 0 <= i < j < n + 1 ensures (batches + [batch])[i].Keys !! (batches + [batch])[j].Keys {
      if j == n { UnionKeys(batches, i); }
    }
  }

  /** The items of a dictionary, in some order. */
  ghost predicate Lists(items: seq<Ref>, m: Refs) {
    && (forall i | 0 <= i < |items| :: items[i] in m)
    && (forall i, j | 0 <= i < j < |items| :: items[i] != items[j])
    && (forall k | k in m :: k in items)
  }

  function ItemSet(items: seq<Ref>, n: nat, m: nat): set<Ref>
    requires n <= m <= |items|
  {
    set i | n <= i < m :: items[i]
  }

  lemma ItemSetSplit(items: seq<Ref>, m: Refs, n: nat, k: nat)
    requires n <= k <= |items| && Lists(items, m)
    ensures ItemSet(items, 0, k) == ItemSet(items, 0, n) + ItemSet(items, n, k)
    ensures ItemSet(items, 0, n) !! ItemSet(items, n, k)
  {
  }

  lemma ItemSetAll(items: seq<Ref>, m: Refs)
    requires Lists(items, m)
    ensures ItemSet(items, 0, |items|) == m.Keys
  {
  }

  /** The receipt accounts for exactly the first `n` items: deleted in disjoint batches, or retained. */
  ghost predicate Processed(r: Receipt, items: seq<Ref>, n: nat)
    requires n <= |items|
  {
    && Within(r.deleted, r.targets) && r.deleted.Keys !! r.retained
    && r.deleted.Keys + r.retained == ItemSet(items, 0, n)
    && Partition(r.batches, r.deleted)
  }

  /** The receipt after a verified batch. */
  function Verified(r: Receipt, batch: Refs): Receipt {
    r.(deleted := r.deleted + batch, batches := r.batches + [batch], pending := None, phase := BatchVerified)
  }

  lemma VerifiedAccounts(r: Receipt, batch: Refs)
    requires ReceiptOk(r) && r.pending == Some(batch)
    ensures ReceiptOk(Verified(r, batch)) && Accounted(r) <= Accounted(Verified(r, batch))
  {
    forall x | x in Accounted(r) ensures x in (r.deleted + batch).Items { }
  }

  lemma SumItems(a: Refs, b: Refs)
    ensures (a + b).Items <= a.Items + b.Items
  {
    forall x | x in (a + b).Items ensures x in a.Items + b.Items { }
  }

  /** Splitting the next items into a batch and retained refs keeps the account. */
  lemma ProcessedNext(r: Receipt, items: seq<Ref>, n: nat, m: nat, batch: Refs, kept: set<Ref>)
    requires n <= m <= |items| && Lists(items, r.targets) && Processed(r, items, n)
    requires Within(batch, r.targets) && batch.Keys !! kept && batch.Keys + kept == ItemSet(items, n, m)
    ensures Processed(Verified(r.(retained := r.retained + kept), batch), items, m)
  {
    ItemSetSplit(items, r.targets, n, m);
    SplitAccount(r.deleted.Keys, r.retained, batch.Keys, kept, ItemSet(items, 0, n), ItemSet(items, n, m));
    PartitionAppend(r.batches, r.deleted, batch);
  }

  lemma SplitAccount(deleted: set<Ref>, retained: set<Ref>, batch: set<Ref>, kept: set<Ref>, before: set<Ref>,
                     next: set<Ref>)
    requires deleted !! retained && deleted + retained == before && batch !! kept && batch + kept == next
    requires before !! next
    ensures batch !! deleted && deleted + batch !! retained + kept
    ensures (deleted + batch) + (retained + kept) == before + next
  {
    assert batch <= next && kept <= next && deleted <= before && retained <= before;
  }

  lemma ProcessedKept(r: Receipt, items: seq<Ref>, n: nat, m: nat, kept: set<Ref>)
    requires n <= m <= |items| && Lists(items, r.targets) && Processed(r, items, n) && kept == ItemSet(items, n, m)
    ensures Processed(r.(retained := r.retained + kept), items, m)
  {
    ItemSetSplit(items, r.targets, n, m);
  }

  method ListItems(m: Refs) returns (items: seq<Ref>)
    ensures Lists(items, m)
  {
    items := [];
    var left := m.Keys;
    while left != {}
      invariant left <= m.Keys
      invariant forall i | 0 <= i < |items| :: items[i] in m && items[i] !in left
      invariant forall i, j | 0 <= i < j < |items| :: items[i] != items[j]
      invariant forall k | k in m :: k in items || k in left
      decreases left
    {
      var k :| k in left;
      items := items + [k];
      left := left - {k};
    }
  }

  /** Splits the next items: protected or resumable refs are retained, the rest form the batch. */
  method Select(targets: Refs, items: seq<Ref>, offset: nat, end: nat) returns (batch: Refs, kept: set<Ref>)
    requires Lists(items, targets) && offset <= end <= |items|
    ensures Within(batch, targets) && batch.Keys !! kept
    ensures batch.Keys + kept == ItemSet(items, offset, end)
  {
    batch, kept := map[], {};
    for i := offset to end
      invariant Within(batch, targets) && batch.Keys !! kept
      invariant batch.Keys + kept == ItemSet(items, offset, i)
    {
      var active: bool := *;
      assert ItemSet(items, offset, i + 1) == ItemSet(items, offset, i) + {items[i]};
      if active {
        kept := kept + {items[i]};
      } else {
        batch := batch[items[i] := targets[items[i]]];
      }
    }
  }

  /** What a completed receipt says about its targets. */
  ghost predicate Settled(r: Receipt, targets: Refs) {
    && r.phase == Completed && r.pending.None? && r.targets == targets
    && Within(r.deleted, targets) && r.deleted.Keys !! r.retained
    && r.deleted.Keys + r.retained == targets.Keys
    && Partition(r.batches, r.deleted)
  }

  // ---------- the log of the remote ----------

  /** A change of the remote, by one of our pushes or by somebody else. */
  datatype Change = Change(ours: bool, before: Refs, after: Refs)

  /** Every state the remote has been in, and is in, is what the changes made of it. */
  ghost predicate Chronicle(log: seq<Change>, first: Refs, remote: Refs) {
    && (log == [] ==> remote == first)
    && (log != [] ==> log[0].before == first && log[|log| - 1].after == remote)
    && (forall i | 0 < i < |log| :: log[i].before == log[i - 1].after)
  }

  /** Our pushes among the changes. */
  ghost function Ours(log: seq<Change>): seq<Change> {
    if log == [] then [] else Ours(log[..|log| - 1]) + (if log[|log| - 1].ours then [log[|log| - 1]] else [])
  }

  /** What our pushes took away or changed. */
  ghost function Lost(log: seq<Change>): set<(Ref, Sha)> {
    if log == [] then {}
    else
      var c := log[|log| - 1];
      Lost(log[..|log| - 1]) + (if c.ours then c.before.Items - c.after.Items else {})
  }

  /** Nobody else changed the remote while `log` grew from `past`. */
  ghost predicate Undisturbed(past: seq<Change>, log: seq<Change>) {
    past <= log && forall i | |past| <= i < |log| :: log[i].ours
  }

  /** A push of ours that adds `created` to what it meets, and overwrites nothing. */
  ghost predicate Adds(c: Change, created: Refs) {
    c.ours && created.Keys !! c.before.Keys && c.after == c.before + created
  }

  lemma {:induction false} LogAppend(log: seq<Change>, c: Change)
    ensures Ours(log + [c]) == Ours(log) + (if c.ours then [c] else [])
    ensures Lost(log + [c]) == Lost(log) + (if c.ours then c.before.Items - c.after.Items else {})
  {
    assert (log + [c])[..|log|] == log;
  }

  lemma ChronicleAppend(log: seq<Change>, first: Refs, c: Change)
    requires Chronicle(log, first, c.before)
    ensures Chronicle(log + [c], first, c.after)
  {
  }

  lemma AddsLosesNothing(c: Change, created: Refs)
    requires Adds(c, created)
    ensures c.before.Items - c.after.Items == {}
  {
    forall x | x in c.before.Items ensures x in c.after.Items {
      assert x.0 in c.after && c.after[x.0] == x.1;
    }
  }

  lemma DeletesItems(before: Refs, batch: Refs)
    requires Within(batch, before)
    ensures before.Items - (before - batch.Keys).Items == batch.Items
  {
    var after := before - batch.Keys;
    forall x ensures x in before.Items - after.Items <==> x in batch.Items {
      if x in batch.Items { assert x.0 in before && before[x.0] == x.1; }
      if x in before.Items && x.0 !in batch { assert x.0 in after && after[x.0] == x.1; }
    }
  }

  /** Undisturbed, the last of our pushes met the remote as it was. */
  lemma {:induction false} UndisturbedOurs(past: seq<Change>, log: seq<Change>)
    requires Undisturbed(past, log)
    ensures Ours(log) == Ours(past) + log[|past|..]
    decreases |log|
  {
    if log == past {
      assert log[|past|..] == [];
    } else {
      var n := |log| - 1;
      UndisturbedOurs(past, log[..n]);
      assert log[|past|..] == log[..n][|past|..] + [log[n]];
    }
  }

  class Saga {
    var remote: Refs
    var directory: bool
    var disk: Option<Receipt>
    var bundle: set<Sha>
    ghost const first: Refs      // the remote at the start
    ghost var log: seq<Change>   // all that happened to it

    /** What our pushes have deleted. */
    ghost function Removed(): set<(Ref, Sha)>
      reads this`log
    {
      Lost(log)
    }

    /** Holds at every step of every run, and so at every point where the process can die: each ref that a
        push of ours removed is on disk as deleted or pending, with its exact object, and every target's
        object is in the verified bundle. */
    ghost predicate Valid()
      reads this
    {
      && Chronicle(log, first, remote)
      && (disk.None? ==> Removed() == {})
      && (disk.Some? ==> directory && ReceiptOk(disk.value) && Removed() <= Accounted(disk.value)
                         && disk.value.targets.Values <= bundle)
    }

    /** What we removed can be restored: its object is the target's, and the bundle has it. */
    lemma RemovedIsRecoverable()
      requires Valid()
      ensures forall x | x in Removed() ::
        disk.Some? && x.0 in disk.value.targets && disk.value.targets[x.0] == x.1 && x.1 in bundle
    {
      if disk.Some? {
        var targets := disk.value.targets;
        forall x | x in Removed() ensures x.0 in targets && targets[x.0] == x.1 && x.1 in bundle {
          assert x in Accounted(disk.value);
          assert targets[x.0] in targets.Values;
        }
      }
    }

    // ---------- atomic effects ----------

    /** Every change of the remote goes into the log. */
    method Apply(ours: bool, next: Refs)
      requires Chronicle(log, first, remote)
      modifies this`remote, this`log
      ensures remote == next && log == old(log) + [Change(ours, old(remote), next)] && Chronicle(log, first, remote)
      ensures Ours(log) == Ours(old(log)) + (if ours then [Change(true, old(remote), next)] else [])
      ensures Removed() == old(Removed()) + (if ours then old(remote).Items - next.Items else {})
    {
      ghost var c := Change(ours, remote, next);
      LogAppend(log, c);
      ChronicleAppend(log, first, c);
      remote, log := next, log + [c];
    }

    /** Anything that others do to the remote. */
    method Interfere()
      requires Valid()
      modifies this`remote, this`log
      ensures Valid() && old(log) <= log && Ours(log) == Ours(old(log)) && Removed() == old(Removed())
      ensures (log == old(log) && remote == old(remote)) || (|log| > |old(log)| && !log[|old(log)|].ours)
    {
      var next: Refs := *;
      if next != remote {
        Apply(false, next);
      }
    }

    /** `aw._write_registry`: replaces the receipt on disk. */
    method Persist(r: Receipt)
      requires Valid() && directory && ReceiptOk(r) && Removed() <= Accounted(r) && r.targets.Values <= bundle
      modifies this`disk
      ensures Valid() && disk == Some(r)
    {
      disk := Some(r);
    }

    /** An atomic push that deletes `batch` only where the remote still holds the recorded objects. The receipt
        on disk must already name the batch. */
    method PushDelete(batch: Refs) returns (ok: bool)
      requires Valid() && disk.Some? && disk.value.pending == Some(batch)
      modifies this`remote, this`log
      ensures Valid() && old(log) <= log
      ensures Removed() == old(Removed()) || Removed() == old(Removed()) + batch.Items
      ensures ok ==> Removed() == old(Removed()) + batch.Items && remote.Keys !! batch.Keys
      ensures Undisturbed(old(log), log) ==> remote == old(remote) || remote == old(remote) - batch.Keys
    {
      Interfere();
      ok := *;
      var applied: bool := *;
      if applied && forall k | k in batch :: k in remote && remote[k] == batch[k] {
        DeletesItems(remote, batch);
        Apply(true, remote - batch.Keys);
      } else {
        ok := false;
      }
    }

    /** An atomic push that creates refs only where the remote has none; logged when it takes effect. */
    method PushCreate(absent: Refs) returns (ok: bool, ghost applied: bool)
      requires Valid()
      modifies this`remote, this`log
      ensures Valid() && old(log) <= log && Removed() == old(Removed())
      ensures ok ==> applied
      ensures !applied ==> Ours(log) == Ours(old(log))
      ensures !applied && Undisturbed(old(log), log) ==> log == old(log) && remote == old(remote)
      ensures applied ==> log != [] && Adds(log[|log| - 1], absent) && Ours(log) == Ours(old(log)) + [log[|log| - 1]]
      ensures applied && Undisturbed(old(log), log) ==> log == old(log) + [Change(true, old(remote), remote)]
    {
      Interfere();
      ok := *;
      var takesEffect: bool := *;
      applied := takesEffect && absent.Keys !! remote.Keys;
      if takesEffect && absent.Keys !! remote.Keys {
        AddsLosesNothing(Change(true, remote, remote + absent), absent);
        Apply(true, remote + absent);
      } else {
        ok := false;
      }
    }

    /** `_remote`: what the remote holds of the given refs, or an error. */
    method ReadRemote(refs: Refs) returns (found: Option<Refs>)
      requires Valid()
      modifies this`remote, this`log
      ensures Valid() && old(log) <= log && Ours(log) == Ours(old(log)) && Removed() == old(Removed())
      ensures found.Some? ==> found.value == Restrict(remote, refs.Keys)
      ensures (log == old(log) && remote == old(remote)) || (|log| > |old(log)| && !log[|old(log)|].ours)
    {
      Interfere();
      var failed: bool := *;
      if failed {
        return None;
      }
      return Some(Restrict(remote, refs.Keys));
    }

    // ---------- compensation ----------

    /** `_compensate`. However others change the remote meanwhile, it pushes at most once, and that push adds
        pending refs with their recorded objects where the remote it meets has none. Undisturbed, it adds exactly
        the absent ones, and nothing when none is absent. It ends `Compensated` only when the remote holds every
        pending ref exactly. */
    method Compensate(start: Receipt) returns (result: Result, ghost created: Refs)
      requires Valid() && disk.Some? && disk.value.targets == start.targets
      requires start.pending.Some? && ReceiptOk(start) && Removed() <= Accounted(start)
      modifies this`disk, this`remote, this`log
      ensures Valid() && old(log) <= log && Removed() == old(Removed()) && Within(created, start.pending.value)
      ensures created == map[] ==> Ours(log) == Ours(old(log))
      ensures created != map[] ==> OnePush(Ours(old(log)), Ours(log), created)
      ensures Undisturbed(old(log), log) ==>
        remote == old(remote) + created && created in {map[], Absent(start.pending.value, old(remote))}
      ensures disk in {old(disk), Some(start.(phase := RecoveryRequired)), Some(start.(phase := Compensated))}
      ensures !result.Escaped?
      ensures result.Raised? ==> disk == Some(start.(phase := RecoveryRequired))
      ensures result.Returned? ==>
        && result.receipt == start.(phase := Compensated) && disk == Some(result.receipt)
        && Restrict(remote, start.pending.value.Keys) == start.pending.value
    {
      created := map[];
      var receipt := start.(phase := RecoveryRequired);
      assert Accounted(receipt) == Accounted(start);
      var dies: bool := *;
      if dies { return Died, created; }
      Persist(receipt);
      var bundleBroken: bool := *;
      if bundleBroken { return Raised, created; }
      // Dying inside leaves what a failed recovery may leave.
      var recovered;
      recovered, created := Recover(receipt.pending.value);
      dies := *;
      if dies { return Died, created; }
      if !recovered { return Raised, created; }
      receipt := receipt.(phase := Compensated);
      assert Accounted(receipt) == Accounted(start);
      Persist(receipt);
      return Returned(receipt), created;
    }

    /** Reads the pending refs, restores the absent ones, and reads them back. */
    method Recover(pending: Refs) returns (ok: bool, ghost created: Refs)
      requires Valid()
      modifies this`remote, this`log
      ensures Valid() && old(log) <= log && Removed() == old(Removed()) && Within(created, pending)
      ensures created == map[] ==> Ours(log) == Ours(old(log))
      ensures created != map[] ==> OnePush(Ours(old(log)), Ours(log), created)
      ensures Undisturbed(old(log), log) ==>
        remote == old(remote) + created && created in {map[], Absent(pending, old(remote))}
      ensures ok ==> Restrict(remote, pending.Keys) == pending
    {
      created := map[];
      var current := ReadRemote(pending);
      if current.None? { return false, created; }
      var recreated := exists k | k in current.value :: k in pending && current.value[k] != pending[k];
      ok, created := Restore(pending, current.value);
      if !ok || recreated { return false, created; }
      var readback := ReadRemote(pending);
      ok := readback == Some(pending);
    }

    /** Pushes the pending refs that `current`, just read from the remote, does not hold. */
    method Restore(pending: Refs, current: Refs) returns (ok: bool, ghost created: Refs)
      requires Valid() && current == Restrict(remote, pending.Keys)
      modifies this`remote, this`log
      ensures Valid() && old(log) <= log && Removed() == old(Removed()) && Within(created, pending)
      ensures created == map[] ==> Ours(log) == Ours(old(log))
      ensures created != map[] ==> OnePush(Ours(old(log)), Ours(log), created)
      ensures Undisturbed(old(log), log) ==>
        remote == old(remote) + created && created in {map[], Absent(pending, old(remote))}
    {
      created := map[];
      var absent := Absent(pending, current);
      assert absent == Absent(pending, remote);
      ok := true;
      if absent != map[] {
        ghost var applied;
        ok, applied := PushCreate(absent);
        if applied { created := absent; }
      }
    }

    /** Two compensations of one batch, as two calls on a snapshot with a pending batch make: when nobody else
        changes the remote during the second, it creates nothing and leaves the remote as it was. */
    method CompensateTwice(start: Receipt) returns (one: Result, two: Result, ghost before: seq<Change>)
      requires Valid() && disk.Some? && disk.value.targets == start.targets
      requires start.pending.Some? && ReceiptOk(start) && Removed() <= Accounted(start)
      modifies this`disk, this`remote, this`log
      ensures Valid() && old(log) <= before <= log
      ensures one.Returned? && Undisturbed(before, log) ==>
        log == before && Restrict(remote, start.pending.value.Keys) == start.pending.value
    {
      ghost var created;
      one, created := Compensate(start);
      before := log;
      two := one;
      if one.Returned? {
        label again:
        ghost var pending := start.pending.value;
        assert Absent(pending, remote) == map[] by { HeldIsNotAbsent(pending, remote); }
        assert Accounted(one.receipt) == Accounted(start);
        two, created := Compensate(one.receipt);
        if Undisturbed(before, log) {
          UndisturbedOurs(before, log);
          assert Ours(log) == Ours(before);
        }
      }
    }

    // ---------- the run ----------

    /** `_retire_remote_copies`. A call that finds the snapshot directory removes nothing; a first call deletes
        behind the receipt. However it ends, `Valid` holds; if it completes, the targets are split into
        deleted and retained refs, the batches are a partition of the deleted ones, and our pushes removed
        exactly those, with the recorded objects. */
    method RetireRemoteCopies(targets: Refs, batchSize: nat) returns (result: Result)
      requires Valid()
      modifies this
      ensures Valid() && old(log) <= log
      ensures old(directory) ==> Removed() == old(Removed())
      ensures !old(directory) && result.Returned? ==>
        disk == Some(result.receipt) && Settled(result.receipt, targets) && Removed() == result.receipt.deleted.Items
    {
      if targets == map[] || |targets| > MAX_TARGETS || !(1 <= batchSize <= MAX_BATCH) {
        return Raised;
      }
      if directory {
        result := Retry(targets);
        return;
      }
      var prepared := Prepare(targets);
      if !prepared {
        return Raised;
      }
      result := DeleteBatches(targets, batchSize);
    }

    /** The retry path: it compensates a pending batch and never resumes a deletion. */
    method Retry(targets: Refs) returns (result: Result)
      requires Valid() && directory
      modifies this`disk, this`remote, this`log
      ensures Valid() && old(log) <= log && Removed() == old(Removed())
      ensures old(disk).Some? && old(disk).value.pending.None? ==> disk == old(disk) && log == old(log)
      ensures old(disk).Some? && old(disk).value.pending.Some? && result.Returned? ==>
        var pending := old(disk).value.pending.value;
        result.receipt.phase == Compensated && Restrict(remote, pending.Keys) == pending
    {
      if disk.None? || disk.value.targets != targets {
        return Raised;
      }
      var receipt := disk.value;
      if receipt.pending.Some? {
        var pending := receipt.pending.value;
        if pending == map[] || |pending| > MAX_BATCH {
          return Raised;
        }
        ghost var created;
        result, created := Compensate(receipt);
        return;
      }
      return Returned(receipt);
    }

    /** Reads the remote, fetches and bundles the targets, and writes the first receipt. */
    method Prepare(targets: Refs) returns (ok: bool)
      requires Valid() && !directory
      modifies this`remote, this`log, this`directory, this`bundle, this`disk
      ensures Valid() && old(log) <= log && Removed() == old(Removed())
      ensures ok ==> disk == Some(Receipt(Prepared, targets, map[], {}, [], None))
    {
      var found := ReadRemote(targets);
      if found != Some(targets) {
        return false;
      }
      var failed: bool := *;
      if failed { return false; }
      directory := true;
      var verified: set<Sha> := *;
      bundle := verified;
      failed := *;
      if failed || !(targets.Values <= verified) { return false; }
      Persist(Receipt(Prepared, targets, map[], {}, [], None));
      ok := true;
    }

    method DeleteBatches(targets: Refs, batchSize: nat) returns (result: Result)
      requires Valid() && disk == Some(Receipt(Prepared, targets, map[], {}, [], None)) && batchSize >= 1
      modifies this`disk, this`remote, this`log
      ensures Valid() && old(log) <= log
      ensures result.Returned? ==>
        disk == Some(result.receipt) && Settled(result.receipt, targets) && Removed() == result.receipt.deleted.Items
    {
      var items := ListItems(targets);
      var receipt := disk.value;
      var offset := 0;
      while offset < |items|
        invariant 0 <= offset <= |items|
        invariant Valid() && disk == Some(receipt) && receipt.targets == targets && receipt.pending.None?
        invariant Processed(receipt, items, offset) && old(log) <= log && Removed() == receipt.deleted.Items
        decreases |items| - offset
      {
        var end := if offset + batchSize <= |items| then offset + batchSize else |items|;
        var step;
        step, receipt := OneBatch(receipt, items, offset, end);
        if !step.Returned? { return step; }
        offset := end;
      }
      ItemSetAll(items, targets);
      receipt := receipt.(phase := Completed);
      var dies: bool := *;
      if dies { return Died; }
      assert Accounted(receipt) == Accounted(disk.value);
      Persist(receipt);
      result := Returned(receipt);
    }

    /** One turn of the batch loop. */
    method OneBatch(start: Receipt, items: seq<Ref>, offset: nat, end: nat) returns (step: Result, receipt: Receipt)
      requires Valid() && disk == Some(start) && start.pending.None? && Removed() == start.deleted.Items
      requires Lists(items, start.targets) && offset < end <= |items| && Processed(start, items, offset)
      modifies this`disk, this`remote, this`log
      ensures Valid() && old(log) <= log
      ensures step.Returned? ==>
        && disk == Some(receipt) && receipt.pending.None? && receipt.targets == start.targets
        && Processed(receipt, items, end) && Removed() == receipt.deleted.Items
    {
      var batch, kept := Select(start.targets, items, offset, end);
      receipt := start.(retained := start.retained + kept);
      assert Accounted(receipt) == Accounted(start);
      if batch == map[] {
        ProcessedKept(start, items, offset, end, kept);
        Persist(receipt);
        return Returned(receipt), receipt;
      }
      ghost var pushed;
      step, receipt, pushed := DeleteBatch(receipt, batch);
      if step.Returned? {
        ProcessedNext(start, items, offset, end, batch, kept);
        SumItems(start.deleted, batch);
      }
    }

    /** The push and the checks after it. */
    method DeleteAndCheck(batch: Refs) returns (ok: bool)
      requires Valid() && disk.Some? && disk.value.pending == Some(batch)
      modifies this`remote, this`log
      ensures Valid() && old(log) <= log
      ensures ok ==> Removed() == old(Removed()) + batch.Items
    {
      ok := PushDelete(batch);
      var readback := ReadRemote(batch);
      var drift: bool := *;
      ok := ok && readback == Some(map[]) && !drift;
    }

    /** Deletes one batch behind the receipt. Once the push was tried, a failure that is caught is compensated
        before it raises: the receipt then says that recovery is required, or that the remote was seen to hold
        the whole batch again. One that is not caught escapes uncompensated, and so does a failure to write the
        receipt of a verified deletion: the receipt on disk still names the whole batch as pending. */
    method DeleteBatch(start: Receipt, batch: Refs) returns (step: Result, receipt: Receipt, ghost pushed: bool)
      requires Valid() && disk.Some? && disk.value.targets == start.targets && start.pending.None?
      requires ReceiptOk(start) && Removed() <= Accounted(start) && Within(batch, start.targets)
      modifies this`disk, this`remote, this`log
      ensures Valid() && old(log) <= log
      ensures step.Returned? ==> pushed && disk == Some(receipt) && receipt == Verified(start, batch)
      ensures step.Returned? ==> Removed() == old(Removed()) + batch.Items
      ensures !pushed ==> Removed() == old(Removed())
      ensures pushed && step.Raised? ==>
        || disk == Some(start.(pending := Some(batch), phase := RecoveryRequired))
        || (disk == Some(start.(pending := Some(batch), phase := Compensated)) && Restrict(remote, batch.Keys) == batch)
      ensures step.Escaped? ==> pushed && disk == Some(start.(pending := Some(batch), phase := DeletePending))
    {
      receipt, pushed := start, false;
      var drift: bool := *;
      if drift { return Raised, receipt, pushed; }
      var found := ReadRemote(batch);
      if found != Some(batch) { return Raised, receipt, pushed; }
      receipt := receipt.(pending := Some(batch), phase := DeletePending);
      assert Accounted(start) <= Accounted(receipt);
      Persist(receipt);
      var dies: bool := *;
      if dies { return Died, receipt, pushed; }
      pushed := true;
      var deleted := DeleteAndCheck(batch);
      dies := *;
      if dies { return Died, receipt, pushed; }
      var escapes: bool := *;
      if escapes { return Escaped, receipt, pushed; }
      if !deleted {
        ghost var created;
        step, created := Compensate(receipt);
        return (if step.Died? then Died else Raised), receipt, pushed;
      }
      step, receipt := Confirm(receipt, batch);
    }

    /** The write that turns a pending batch into a verified one. */
    method Confirm(start: Receipt, batch: Refs) returns (step: Result, receipt: Receipt)
      requires Valid() && disk == Some(start) && start.pending == Some(batch)
      modifies this`disk
      ensures Valid() && (step.Returned? || step.Escaped? || step.Died?)
      ensures step.Returned? ==> disk == Some(receipt) && receipt == Verified(start, batch)
      ensures step.Escaped? || step.Died? ==> disk == Some(start)
    {
      receipt := start;
      var dies: bool := *;
      if dies { return Died, receipt; }
      var escapes: bool := *;
      if escapes { return Escaped, receipt; }
      VerifiedAccounts(receipt, batch);
      receipt := Verified(receipt, batch);
      Persist(receipt);
      step := Returned(receipt);
    }
  }

  /** Our pushes grew by one, which adds `created` and overwrites nothing. */
  ghost predicate OnePush(past: seq<Change>, ours: seq<Change>, created: Refs) {
    |ours| == |past| + 1 && past <= ours && Adds(ours[|past|], created)
  }

  lemma HeldIsNotAbsent(pending: Refs, remote: Refs)
    requires Restrict(remote, pending.Keys) == pending
    ensures Absent(pending, remote) == map[]
  {
    forall k | k in pending ensures k in remote { assert k in Restrict(remote, pending.Keys); }
  }
}
