/** The registry file of `scripts/agent_worktree.py`, updated in place under its lock: each critical section is
    the step of the state machine. */
module WorktreeStore {
  import opened Text
  import opened WorktreeRecord
  import opened WorktreeRegistry
  import opened Wrappers

  /** How the git command inside the removal ends; the process may die while it runs. */
  datatype Command = Succeeded | Failed | Crashed
  datatype Outcome = Refused | Ran(command: Command)

  /** How preserving ends: refused, done, or failed after the record was written. */
  datatype Preserved = NotPreserved | PreservedNow | RaisedAfterWrite

  predicate Permitted(records: Records, live: map<Path, Checkout>, refused: set<Path>, targets: seq<Path>) {
    (forall p | p in targets :: p !in refused && Authorized(records, live, p)) && NoRepeats(targets)
  }

  class Registry {
    var worktrees: Records

    constructor ()
      ensures worktrees == map[]
    {
      worktrees := map[];
    }

    /** The registry with one operation in flight, as the state machine sees it. */
    ghost function View(q: Request, snapshot: Option<Record>): System
      reads this
    {
      System(Core(worktrees, map[], None, map[]), map[0 := InFlight(q, snapshot)])
    }

    /** The commit section of `register_worktree`. */
    method CommitRegister(q: Request, snapshot: Option<Record>, ids: Path -> set<string>,
                          branch: string, generation: Generation) returns (ok: bool)
      requires q.Register? && branch != ""
      modifies this
      ensures ok <==> Can(old(View(q, snapshot)), ids, Commit(0, Identity(branch, generation)))
      ensures worktrees ==
        if ok then Next(old(View(q, snapshot)), ids, Commit(0, Identity(branch, generation))).core.records
        else old(worktrees)
    {
      if !NoPreservedAlias(worktrees, ids, q.path) {
        return false;
      }
      var current := Lookup(worktrees, q.path);
      if !Available(current, q.owner, q.now) || current != snapshot {
        return false;
      }
      var prior := CarriedPriorBindings(current, branch, q.now);
      var record := Record(q.path, branch, Some(generation), q.owner, Active, q.now, q.now, q.now + q.ttl,
                           None, None, None, None, None, None, prior);
      worktrees := worktrees[q.path := record];
      ok := true;
    }

    /** The commit section of `heartbeat_worktree` and `_finish_worktree`: the record's fields change one by one. */
    method CommitUpdate(q: Request, snapshot: Option<Record>, ids: Path -> set<string>,
                        branch: string, generation: Generation) returns (ok: bool)
      requires q.Heartbeat? || (q.Finish? && (q.status == Released || q.status == Complete))
      modifies this
      ensures ok <==> Can(old(View(q, snapshot)), ids, Commit(0, Identity(branch, generation)))
      ensures worktrees ==
        if ok then Next(old(View(q, snapshot)), ids, Commit(0, Identity(branch, generation))).core.records
        else old(worktrees)
    {
      if q.path !in worktrees || Some(worktrees[q.path]) != snapshot {
        return false;
      }
      var record := worktrees[q.path];
      if !Updatable(q, record) || record.branch != branch {
        return false;
      }
      if snapshot.value.generation.Some? && snapshot.value.generation.value != generation {
        return false;
      }
      record := record.(generation := Some(generation));
      if q.Heartbeat? {
        record := record.(heartbeatAt := q.now);
        record := record.(expiresAt := q.now + q.ttl);
      } else {
        record := record.(status := q.status);
        if q.status == Released {
          record := record.(releasedAt := Some(q.now));
        } else {
          record := record.(completeAt := Some(q.now));
        }
        record := record.(expiresAt := q.now);
      }
      worktrees := worktrees[q.path := record];
      ok := true;
    }

    /** The commit section of `preserve_missing_worktree`. The branch head is read again after the write: when
        it moved, the operation raises although the record is preserved. */
    method CommitPreserve(q: Request, snapshot: Option<Record>, ids: Path -> set<string>, now: real, head: string,
                          headBefore: string, headAfter: string) returns (r: Preserved)
      requires q.Preserve?
      modifies this
      ensures r != NotPreserved <==> headBefore == head && Can(old(View(q, snapshot)), ids, Commit(0, Head(now, head)))
      ensures r == PreservedNow <==> r != NotPreserved && headAfter == head
      ensures worktrees ==
        if r == NotPreserved then old(worktrees)
        else Next(old(View(q, snapshot)), ids, Commit(0, Head(now, head))).core.records
    {
      if q.path !in worktrees || !Valid(q.path, worktrees[q.path]) || Some(worktrees[q.path]) != snapshot {
        return NotPreserved;
      }
      var record := worktrees[q.path];
      if record.status != Active || record.owner != q.owner || record.branch != q.branch {
        return NotPreserved;
      }
      if record.generation != Some(q.generation) || record.expiresAt > now || !IsHead(head) {
        return NotPreserved;
      }
      if headBefore != head {
        return NotPreserved;
      }
      record := record.(status := MissingPreserved);
      record := record.(preserved := Some(Preservation(now, record.owner, RETAIN_BRANCH, head)));
      worktrees := worktrees[q.path := record];
      return if headAfter == head then PreservedNow else RaisedAfterWrite;
    }

    /** `_locked_lifecycle_authority` around one git command; `refused` are the targets that fail a check
        outside the registry. */
    method RemoveTargets(targets: seq<Path>, live: map<Path, Checkout>, refused: set<Path>,
                         pendingAt: real, command: Command, removedAt: real) returns (outcome: Outcome)
      modifies this
      ensures outcome == if Permitted(old(worktrees), live, refused, targets) then Ran(command) else Refused
      ensures outcome == Refused ==> worktrees == old(worktrees)
      ensures outcome == Ran(Crashed) ==> worktrees == PendingAll(old(worktrees), Members(targets), pendingAt)
      ensures outcome == Ran(Failed) || outcome == Ran(Succeeded) ==>
        && Endable(PendingAll(old(worktrees), Members(targets), pendingAt), Members(targets))
        && worktrees == EndAll(PendingAll(old(worktrees), Members(targets), pendingAt),
                               Removal(Members(targets), command == Succeeded), removedAt)
    {
      ghost var before := worktrees;
      for i := 0 to |targets|
        invariant forall j | 0 <= j < i :: targets[j] !in refused && Authorized(worktrees, live, targets[j])
      {
        if targets[i] in refused || !Authorized(worktrees, live, targets[i]) {
          return Refused;
        }
      }
      var repeated, payload := MarkTargets(targets, worktrees, pendingAt);
      if repeated {
        return Refused;
      }
      worktrees := payload;
      if command == Crashed {
        return Ran(Crashed);
      }
      payload := Settle(targets, payload, command == Succeeded, removedAt);
      worktrees := payload;
      return Ran(command);
    }

    /** `_reconcile_removed_generations`: one pass over the registry, written back exactly if it changes. */
    method ReconcileRemovedGenerations(live: map<Path, Checkout>, removedAt: real) returns (changed: bool)
      modifies this
      ensures worktrees == ReconcileAll(old(worktrees), live, removedAt)
      ensures changed <==> worktrees != old(worktrees)
    {
      ghost var before := worktrees;
      var payload := worktrees;
      var left := worktrees.Keys;
      changed := false;
      while left != {}
        invariant left <= before.Keys && worktrees == before
        invariant payload == map p | p in before ::
          if p in left then before[p] else Reconciled(before[p], live, p, removedAt)
        invariant changed <==> exists p :: p in before && p in payload && payload[p].status != before[p].status
        invariant !changed ==> payload == before
        decreases left
      {
        var key :| key in left;
        var value := payload[key];
        left := left - {key};
        if value.status != RemovalPending || value.generation.None? {
          continue;
        }
        if value.pendingFrom.None? || !Removable(value.pendingFrom.value) {
          continue;
        }
        if key in live && live[key].Unreadable? {
          continue;
        }
        var settled := if key in live && live[key].generation == value.generation.value then Restored(value)
                       else MadeRemoved(value, removedAt);
        payload := payload[key := settled];
        assert payload[key].status != before[key].status;
        changed := true;
      }
      if changed {
        worktrees := payload;
      }
    }
  }

  function Members(s: seq<Path>): set<Path> { set p | p in s }

  predicate NoRepeats(s: seq<Path>) {
    forall i, j | 0 <= i < j < |s| :: s[i] != s[j]
  }

  /** The pending transition: written only when every target still has the status it was authorized with,
      which fails exactly when a target is listed twice. */
  method MarkTargets(targets: seq<Path>, records: Records, pendingAt: real) returns (repeated: bool, payload: Records)
    requires forall p | p in targets :: p in records && Removable(records[p].status)
    ensures repeated <==> !NoRepeats(targets)
    ensures !repeated ==> payload == PendingAll(records, Members(targets), pendingAt)
  {
    payload := records;
    for i := 0 to |targets|
      invariant NoRepeats(targets[..i])
      invariant payload == PendingAll(records, Members(targets[..i]), pendingAt)
    {
      var p := targets[i];
      assert targets[..i + 1] == targets[..i] + [p];
      if payload[p].status != records[p].status {
        assert p in targets[..i];
        return true, payload;
      }
      assert p !in targets[..i];
      payload := payload[p := MadePending(payload[p], pendingAt)];
    }
    assert targets[..|targets|] == targets;
    repeated := false;
  }

  /** The closing pass of the removal: every target is retired, or every target is restored. */
  method Settle(targets: seq<Path>, pending: Records, succeeded: bool, removedAt: real) returns (payload: Records)
    requires NoRepeats(targets) && Endable(pending, Members(targets))
    ensures payload == EndAll(pending, Removal(Members(targets), succeeded), removedAt)
  {
    payload := pending;
    for i := 0 to |targets|
      invariant payload == map p | p in pending ::
        if p in targets[..i] && p in Members(targets) then Ended(pending[p], succeeded, removedAt) else pending[p]
    {
      var p := targets[i];
      assert targets[..i + 1] == targets[..i] + [p];
      assert p !in targets[..i] && p in Members(targets);
      if succeeded {
        payload := payload[p := MadeRemoved(payload[p], removedAt)];
      } else {
        payload := payload[p := Restored(payload[p])];
      }
    }
    assert targets[..|targets|] == targets;
  }
}
