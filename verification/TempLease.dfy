/** The lease and pruning protocol of the pytest temporary namespaces in `conftest.py`.

    Every system call that another process can observe is one step of a state machine:
    test runs (owners and nested runs), cleaners, crashes and the clock interleave freely. */
module TempLease {
  import opened Wrappers

  type RunId = nat
  type NsId = nat       // the device/inode identity of a namespace directory
  type CleanerId = nat  // one cleaner looking at one candidate

  datatype Dir = Top | In(ns: NsId)
  datatype Key = Key(dir: Dir, name: nat)

  /** One descriptor with a shared lock on an owner marker: the owner's, or a nested run's. */
  datatype Holder = Owner(run: RunId) | Nested(run: RunId, level: nat)
  datatype Acquisition = Acquisition(run: RunId, level: nat)
  datatype Finish = Finish(touched: int, unlinked: int)

  /** A namespace directory: its marker, its locks, and the child markers in it.
      `acquired` and `clean` record its past; no step reads them. */
  datatype Namespace = Namespace(
    key: Key, owner: RunId, marked: bool,
    created: int, markerTime: int, rootTime: int, finished: Option<int>,
    children: set<Acquisition>, shared: set<Holder>, exclusive: Option<CleanerId>,
    acquired: set<Acquisition>, clean: map<Acquisition, Finish>)

  datatype Stage = Idle | Opened(ns: NsId) | Locked(ns: NsId) | Verified(ns: NsId)
  datatype OwnStage = Unmade | Made(ns: NsId) | Marked(ns: NsId) | Closed

  /** `path` is the chain of enclosing namespaces, outermost first; `level` counts those still to acquire. */
  datatype Run = Run(
    path: seq<nat>, level: nat, stage: Stage, held: map<nat, NsId>,
    own: OwnStage, touched: map<nat, int>, unlinked: set<nat>, alive: bool)

  datatype Progress = Looking | Exclusive | Aged | Settled | Cleared | Final | Moved | Done
  datatype Cleaner = Cleaner(key: Key, ns: NsId, cutoff: int, progress: Progress)
  datatype Move = Move(cleaner: CleanerId, ns: NsId, cutoff: int)

  /** `entries` is what the directories hold now; `lastHeld` what each name held last. */
  datatype State = State(
    clock: int, ns: map<NsId, Namespace>, entries: map<Key, NsId>, lastHeld: map<Key, NsId>,
    runs: map<RunId, Run>, cleaners: map<CleanerId, Cleaner>, moves: seq<Move>, reused: bool)

  datatype RunAction =
    | Start(run: RunId, path: seq<nat>)
    | Open(run: RunId)
    | LockShared(run: RunId)
    | Verify(run: RunId)
    | MarkChild(run: RunId)
    | MakeOwn(run: RunId, made: NsId, name: nat)
    | MarkOwn(run: RunId)
    | FinishOwn(run: RunId)
    | CloseOwn(run: RunId)
    | Touch(run: RunId, held: nat)
    | Unlink(run: RunId, held: nat)
    | CloseHeld(run: RunId, held: nat)
    | Die(run: RunId)

  datatype CleanerAction =
    | Look(cleaner: CleanerId, key: Key, candidate: NsId, cutoff: int)
    | LockExclusive(cleaner: CleanerId)
    | CheckAges(cleaner: CleanerId)
    | CheckFinished(cleaner: CleanerId)
    | CheckOwnerDead(cleaner: CleanerId)
    | CheckFinal(cleaner: CleanerId)
    | Rename(cleaner: CleanerId)
    | Leave(cleaner: CleanerId)

  datatype Action = Tick(elapsed: nat) | ByRun(run: RunAction) | ByCleaner(cleaner: CleanerAction)

  const Init := State(0, map[], map[], map[], map[], map[], [], false)

  /** Walks `path` from the top directory. */
  function Resolve(entries: map<Key, NsId>, path: seq<nat>): Option<Dir> {
    if path == [] then Some(Top)
    else match Resolve(entries, path[..|path| - 1])
      case None => None
      case Some(dir) =>
        var key := Key(dir, path[|path| - 1]);
        if key in entries then Some(In(entries[key])) else None
  }

  predicate InPlace(s: State, i: NsId) {
    i in s.ns && s.ns[i].key in s.entries && s.entries[s.ns[i].key] == i
  }

  // ---------- steps of a run ----------

  predicate Live(s: State, r: RunId) { r in s.runs && s.runs[r].alive }

  /** The namespace that the run's next identity check must find at its path. */
  predicate Named(s: State, r: RunId, i: NsId)
    requires r in s.runs
  {
    var p := s.runs[r];
    0 < p.level <= |p.path| && Resolve(s.entries, p.path[..p.level]) == Some(In(i))
  }

  /** The levels are released in the order in which they were acquired, innermost first. */
  predicate Releasing(s: State, r: RunId, l: nat) {
    && Live(s, r) && s.runs[r].own.Closed? && l in s.runs[r].held && s.runs[r].held[l] in s.ns
    && (forall k | k in s.runs[r].held :: k <= l)
  }

  function SetNs(s: State, i: NsId, n: Namespace): State { s.(ns := s.ns[i := n]) }
  function SetRun(s: State, r: RunId, p: Run): State { s.(runs := s.runs[r := p]) }
  function SetCleaner(s: State, c: CleanerId, q: Cleaner): State { s.(cleaners := s.cleaners[c := q]) }

  function WithoutRun(shared: set<Holder>, r: RunId): set<Holder> {
    set h | h in shared && h.run != r
  }

  // The records that the steps of a run write.

  function LockedBy(n: Namespace, h: Holder): Namespace { n.(shared := n.shared + {h}) }
  function UnlockedBy(n: Namespace, h: Holder): Namespace { n.(shared := n.shared - {h}) }

  function WithChild(n: Namespace, q: Acquisition, now: int): Namespace {
    n.(children := n.children + {q}, acquired := n.acquired + {q}, rootTime := now)
  }

  function WithoutChild(n: Namespace, q: Acquisition, f: Finish): Namespace {
    n.(children := n.children - {q}, clean := n.clean[q := f], rootTime := f.unlinked)
  }

  function WithMarker(n: Namespace, r: RunId, now: int): Namespace {
    LockedBy(n.(marked := true, created := now, markerTime := now, rootTime := now), Owner(r))
  }

  function Acquired(p: Run, i: NsId): Run
    requires 0 < p.level
  {
    p.(stage := Idle, level := p.level - 1, held := p.held[p.level := i])
  }

  predicate CanStart(s: State, r: RunId, path: seq<nat>) {
    r !in s.runs
  }

  function DoStart(s: State, r: RunId, path: seq<nat>): State
    requires CanStart(s, r, path)
  {
    SetRun(s, r, Run(path, |path|, Idle, map[], Unmade, map[], {}, true))
  }

  predicate CanOpen(s: State, r: RunId) {
    Live(s, r) && s.runs[r].stage.Idle? && 0 < s.runs[r].level <= |s.runs[r].path| &&
    var d := Resolve(s.entries, s.runs[r].path[..s.runs[r].level]);
    d.Some? && d.value.In? && d.value.ns in s.ns && s.ns[d.value.ns].marked
  }

  function DoOpen(s: State, r: RunId): State
    requires CanOpen(s, r)
  {
    var p := s.runs[r];
    SetRun(s, r, p.(stage := Opened(Resolve(s.entries, p.path[..p.level]).value.ns)))
  }

  predicate CanLockShared(s: State, r: RunId) {
    Live(s, r) && s.runs[r].stage.Opened? && s.runs[r].stage.ns in s.ns &&
    s.ns[s.runs[r].stage.ns].exclusive.None?
  }

  function DoLockShared(s: State, r: RunId): State
    requires CanLockShared(s, r)
  {
    var i := s.runs[r].stage.ns;
    SetNs(SetRun(s, r, s.runs[r].(stage := Locked(i))), i, LockedBy(s.ns[i], Nested(r, s.runs[r].level)))
  }

  predicate CanVerify(s: State, r: RunId) {
    Live(s, r) && s.runs[r].stage.Locked? && Named(s, r, s.runs[r].stage.ns)
  }

  function DoVerify(s: State, r: RunId): State
    requires CanVerify(s, r)
  {
    SetRun(s, r, s.runs[r].(stage := Verified(s.runs[r].stage.ns)))
  }

  predicate CanMarkChild(s: State, r: RunId) {
    Live(s, r) && s.runs[r].stage.Verified? && s.runs[r].stage.ns in s.ns && 0 < s.runs[r].level
  }

  function DoMarkChild(s: State, r: RunId): State
    requires CanMarkChild(s, r)
  {
    var i := s.runs[r].stage.ns;
    SetNs(SetRun(s, r, Acquired(s.runs[r], i)), i,
          WithChild(s.ns[i], Acquisition(r, s.runs[r].level), s.clock))
  }

  predicate CanMakeOwn(s: State, r: RunId, made: NsId, name: nat) {
    Live(s, r) && s.runs[r].level == 0 && s.runs[r].stage.Idle? && s.runs[r].own.Unmade? &&
    made !in s.ns &&
    var d := Resolve(s.entries, s.runs[r].path);
    d.Some? && Key(d.value, name) !in s.entries
  }

  function DoMakeOwn(s: State, r: RunId, made: NsId, name: nat): State
    requires CanMakeOwn(s, r, made, name)
  {
    var key := Key(Resolve(s.entries, s.runs[r].path).value, name);
    var n := Namespace(key, r, false, s.clock, s.clock, s.clock, None, {}, {}, None, {}, map[]);
    SetRun(s, r, s.runs[r].(own := Made(made)))
      .(ns := s.ns[made := n], entries := s.entries[key := made],
        lastHeld := s.lastHeld[key := made], reused := s.reused || key in s.lastHeld)
  }

  predicate CanMarkOwn(s: State, r: RunId) {
    Live(s, r) && s.runs[r].own.Made? && s.runs[r].own.ns in s.ns && s.ns[s.runs[r].own.ns].exclusive.None?
  }

  function DoMarkOwn(s: State, r: RunId): State
    requires CanMarkOwn(s, r)
  {
    var i := s.runs[r].own.ns;
    SetNs(SetRun(s, r, s.runs[r].(own := Marked(i))), i, WithMarker(s.ns[i], r, s.clock))
  }

  predicate CanFinishOwn(s: State, r: RunId) {
    Live(s, r) && s.runs[r].own.Marked? && s.runs[r].own.ns in s.ns && s.ns[s.runs[r].own.ns].finished.None?
  }

  function DoFinishOwn(s: State, r: RunId): State
    requires CanFinishOwn(s, r)
  {
    var i := s.runs[r].own.ns;
    SetNs(SetRun(s, r, s.runs[r]), i, s.ns[i].(finished := Some(s.clock), rootTime := s.clock))
  }

  predicate CanCloseOwn(s: State, r: RunId) {
    Live(s, r) && s.runs[r].own.Marked? && s.runs[r].own.ns in s.ns
  }

  function DoCloseOwn(s: State, r: RunId): State
    requires CanCloseOwn(s, r)
  {
    var i := s.runs[r].own.ns;
    SetNs(SetRun(s, r, s.runs[r].(own := Closed)), i, UnlockedBy(s.ns[i], Owner(r)))
  }

  predicate CanTouch(s: State, r: RunId, l: nat) {
    Releasing(s, r, l) && l !in s.runs[r].touched
  }

  function DoTouch(s: State, r: RunId, l: nat): State
    requires CanTouch(s, r, l)
  {
    var p, i := s.runs[r], s.runs[r].held[l];
    SetNs(SetRun(s, r, p.(touched := p.touched[l := s.clock])), i, s.ns[i].(markerTime := s.clock))
  }

  predicate CanUnlink(s: State, r: RunId, l: nat) {
    Releasing(s, r, l) && l in s.runs[r].touched && l !in s.runs[r].unlinked
  }

  function DoUnlink(s: State, r: RunId, l: nat): State
    requires CanUnlink(s, r, l)
  {
    var p, i := s.runs[r], s.runs[r].held[l];
    SetNs(SetRun(s, r, p.(unlinked := p.unlinked + {l})), i,
          WithoutChild(s.ns[i], Acquisition(r, l), Finish(p.touched[l], s.clock)))
  }

  predicate CanCloseHeld(s: State, r: RunId, l: nat) {
    Releasing(s, r, l)
  }

  function DoCloseHeld(s: State, r: RunId, l: nat): State
    requires CanCloseHeld(s, r, l)
  {
    var p, i := s.runs[r], s.runs[r].held[l];
    SetNs(SetRun(s, r, p.(held := p.held - {l})), i, UnlockedBy(s.ns[i], Nested(r, l)))
  }

  predicate CanDie(s: State, r: RunId) {
    Live(s, r)
  }

  function DoDie(s: State, r: RunId): State
    requires CanDie(s, r)
  {
    SetRun(s, r, s.runs[r].(alive := false))
      .(ns := map i | i in s.ns :: s.ns[i].(shared := WithoutRun(s.ns[i].shared, r)))
  }

  // ---------- steps of a cleaner ----------

  predicate Holding(p: Progress) { !p.Looking? && !p.Done? }

  predicate At(s: State, c: CleanerId, p: Progress) {
    c in s.cleaners && s.cleaners[c].progress == p && s.cleaners[c].ns in s.ns
  }

  predicate OldEnough(n: Namespace, cutoff: int) {
    n.created <= cutoff && n.markerTime <= cutoff && n.rootTime <= cutoff
  }

  predicate FinishedBy(n: Namespace, cutoff: int) {
    n.children == {} && n.finished.Some? && n.finished.value <= cutoff
  }

  predicate CanLook(s: State, c: CleanerId, key: Key, i: NsId, cutoff: int) {
    c !in s.cleaners && i in s.ns && s.ns[i].marked
  }

  function DoLook(s: State, c: CleanerId, key: Key, i: NsId, cutoff: int): State
    requires CanLook(s, c, key, i, cutoff)
  {
    SetCleaner(s, c, Cleaner(key, i, cutoff, Looking))
  }

  predicate CanLockExclusive(s: State, c: CleanerId) {
    At(s, c, Looking) && s.ns[s.cleaners[c].ns].exclusive.None? && s.ns[s.cleaners[c].ns].shared == {}
  }

  function DoLockExclusive(s: State, c: CleanerId): State
    requires CanLockExclusive(s, c)
  {
    var i := s.cleaners[c].ns;
    SetNs(SetCleaner(s, c, s.cleaners[c].(progress := Exclusive)), i, s.ns[i].(exclusive := Some(c)))
  }

  predicate CanCheckAges(s: State, c: CleanerId) {
    At(s, c, Exclusive) && s.cleaners[c].key in s.entries &&
    s.entries[s.cleaners[c].key] == s.cleaners[c].ns &&
    OldEnough(s.ns[s.cleaners[c].ns], s.cleaners[c].cutoff)
  }

  function DoCheckAges(s: State, c: CleanerId): State
    requires CanCheckAges(s, c)
  {
    SetCleaner(s, c, s.cleaners[c].(progress := Aged))
  }

  predicate CanCheckFinished(s: State, c: CleanerId) {
    At(s, c, Aged) && FinishedBy(s.ns[s.cleaners[c].ns], s.cleaners[c].cutoff)
  }

  function DoCheckFinished(s: State, c: CleanerId): State
    requires CanCheckFinished(s, c)
  {
    SetCleaner(s, c, s.cleaners[c].(progress := Settled))
  }

  predicate CanCheckOwnerDead(s: State, c: CleanerId) {
    At(s, c, Settled) && !Live(s, s.ns[s.cleaners[c].ns].owner)
  }

  function DoCheckOwnerDead(s: State, c: CleanerId): State
    requires CanCheckOwnerDead(s, c)
  {
    SetCleaner(s, c, s.cleaners[c].(progress := Cleared))
  }

  predicate CanCheckFinal(s: State, c: CleanerId) {
    At(s, c, Cleared) && s.cleaners[c].key in s.entries && s.entries[s.cleaners[c].key] == s.cleaners[c].ns
  }

  function DoCheckFinal(s: State, c: CleanerId): State
    requires CanCheckFinal(s, c)
  {
    SetCleaner(s, c, s.cleaners[c].(progress := Final))
  }

  predicate CanRename(s: State, c: CleanerId) {
    At(s, c, Final) && s.cleaners[c].key in s.entries
  }

  function DoRename(s: State, c: CleanerId): State
    requires CanRename(s, c)
  {
    // The rename acts on the name: it takes away whatever the name holds at that moment.
    SetCleaner(s, c, s.cleaners[c].(progress := Moved))
      .(entries := s.entries - {s.cleaners[c].key},
        moves := s.moves + [Move(c, s.entries[s.cleaners[c].key], s.cleaners[c].cutoff)])
  }

  predicate CanLeave(s: State, c: CleanerId) {
    c in s.cleaners && s.cleaners[c].ns in s.ns && !s.cleaners[c].progress.Done?
  }

  function DoLeave(s: State, c: CleanerId): State
    requires CanLeave(s, c)
  {
    var i := s.cleaners[c].ns;
    var freed := if Holding(s.cleaners[c].progress) then s.ns[i].(exclusive := None) else s.ns[i];
    SetNs(SetCleaner(s, c, s.cleaners[c].(progress := Done)), i, freed)
  }

  predicate RunCan(s: State, a: RunAction) {
    match a
    case Start(r, path) => CanStart(s, r, path)
    case Open(r) => CanOpen(s, r)
    case LockShared(r) => CanLockShared(s, r)
    case Verify(r) => CanVerify(s, r)
    case MarkChild(r) => CanMarkChild(s, r)
    case MakeOwn(r, made, name) => CanMakeOwn(s, r, made, name)
    case MarkOwn(r) => CanMarkOwn(s, r)
    case FinishOwn(r) => CanFinishOwn(s, r)
    case CloseOwn(r) => CanCloseOwn(s, r)
    case Touch(r, l) => CanTouch(s, r, l)
    case Unlink(r, l) => CanUnlink(s, r, l)
    case CloseHeld(r, l) => CanCloseHeld(s, r, l)
    case Die(r) => CanDie(s, r)
  }

  function RunStep(s: State, a: RunAction): State
    requires RunCan(s, a)
  {
    match a
    case Start(r, path) => DoStart(s, r, path)
    case Open(r) => DoOpen(s, r)
    case LockShared(r) => DoLockShared(s, r)
    case Verify(r) => DoVerify(s, r)
    case MarkChild(r) => DoMarkChild(s, r)
    case MakeOwn(r, made, name) => DoMakeOwn(s, r, made, name)
    case MarkOwn(r) => DoMarkOwn(s, r)
    case FinishOwn(r) => DoFinishOwn(s, r)
    case CloseOwn(r) => DoCloseOwn(s, r)
    case Touch(r, l) => DoTouch(s, r, l)
    case Unlink(r, l) => DoUnlink(s, r, l)
    case CloseHeld(r, l) => DoCloseHeld(s, r, l)
    case Die(r) => DoDie(s, r)
  }

  predicate CleanerCan(s: State, a: CleanerAction) {
    match a
    case Look(c, key, i, cutoff) => CanLook(s, c, key, i, cutoff)
    case LockExclusive(c) => CanLockExclusive(s, c)
    case CheckAges(c) => CanCheckAges(s, c)
    case CheckFinished(c) => CanCheckFinished(s, c)
    case CheckOwnerDead(c) => CanCheckOwnerDead(s, c)
    case CheckFinal(c) => CanCheckFinal(s, c)
    case Rename(c) => CanRename(s, c)
    case Leave(c) => CanLeave(s, c)
  }

  function CleanerStep(s: State, a: CleanerAction): State
    requires CleanerCan(s, a)
  {
    match a
    case Look(c, key, i, cutoff) => DoLook(s, c, key, i, cutoff)
    case LockExclusive(c) => DoLockExclusive(s, c)
    case CheckAges(c) => DoCheckAges(s, c)
    case CheckFinished(c) => DoCheckFinished(s, c)
    case CheckOwnerDead(c) => DoCheckOwnerDead(s, c)
    case CheckFinal(c) => DoCheckFinal(s, c)
    case Rename(c) => DoRename(s, c)
    case Leave(c) => DoLeave(s, c)
  }

  predicate Can(s: State, a: Action) {
    match a
    case Tick(_) => true
    case ByRun(b) => RunCan(s, b)
    case ByCleaner(b) => CleanerCan(s, b)
  }

  function Step(s: State, a: Action): State
    requires Can(s, a)
  {
    match a
    case Tick(elapsed) => s.(clock := s.clock + elapsed)
    case ByRun(b) => RunStep(s, b)
    case ByCleaner(b) => CleanerStep(s, b)
  }

  /** `t` is reached from `s` by the given steps, in order. */
  ghost predicate Runs(s: State, actions: seq<Action>, t: State)
    decreases actions
  {
    if actions == [] then s == t
    else Can(s, actions[0]) && Runs(Step(s, actions[0]), actions[1..], t)
  }

  // ---------- the invariant ----------

  ghost predicate PlacesOk(s: State) {
    && (forall k | k in s.entries :: k in s.lastHeld && s.entries[k] == s.lastHeld[k])
    && (forall k | k in s.lastHeld :: s.lastHeld[k] in s.ns && s.ns[s.lastHeld[k]].key == k)
  }

  /** Every acquisition either still has its child marker or finished no later than the directory's time. */
  ghost predicate PastOk(n: Namespace, clock: int) {
    && n.acquired == n.children + n.clean.Keys
    && n.children !! n.clean.Keys
    && n.markerTime <= clock && n.rootTime <= clock
    && (n.finished.Some? ==> n.finished.value <= n.rootTime)
    && (forall q | q in n.clean :: n.clean[q].touched <= n.markerTime && n.clean[q].unlinked <= n.rootTime)
  }

  /** Acquisitions belong to levels their run has passed. */
  ghost predicate PassedOk(s: State, n: Namespace) {
    forall q | q in n.acquired :: q.run in s.runs && s.runs[q.run].level < q.level
  }

  ghost predicate LockOk(s: State, i: NsId)
    requires i in s.ns
  {
    var n := s.ns[i];
    n.exclusive.Some? ==>
      && n.shared == {}
      && n.exclusive.value in s.cleaners
      && s.cleaners[n.exclusive.value].ns == i
      && Holding(s.cleaners[n.exclusive.value].progress)
  }

  ghost predicate HeldOk(s: State, r: RunId, l: nat, i: NsId) {
    InPlace(s, i) && Nested(r, l) in s.ns[i].shared
  }

  ghost predicate RunOk(s: State, r: RunId)
    requires r in s.runs
  {
    var p := s.runs[r];
    p.alive ==>
      && p.level <= |p.path|
      && (if p.own.Unmade? then p.touched == map[] else p.level == 0 && p.stage.Idle?)
      && (p.stage.Locked? ==> p.stage.ns in s.ns && Nested(r, p.level) in s.ns[p.stage.ns].shared)
      && (p.stage.Verified? ==> HeldOk(s, r, p.level, p.stage.ns))
      && (forall l | l in p.held :: p.level < l && HeldOk(s, r, l, p.held[l]))
      && (forall l | l in p.held && l !in p.unlinked :: Acquisition(r, l) in s.ns[p.held[l]].children)
      && (forall l | l in p.touched && l in p.held :: p.touched[l] <= s.ns[p.held[l]].markerTime)
      && (p.own.Made? ==> p.own.ns in s.ns && s.ns[p.own.ns].owner == r && !s.ns[p.own.ns].marked)
      && (p.own.Marked? ==> p.own.ns in s.ns && s.ns[p.own.ns].owner == r && Owner(r) in s.ns[p.own.ns].shared)
  }

  ghost predicate CleanerOk(s: State, c: CleanerId)
    requires c in s.cleaners
  {
    var q := s.cleaners[c];
    && q.ns in s.ns && s.ns[q.ns].marked
    && (Holding(q.progress) ==> s.ns[q.ns].exclusive == Some(c))
    && (q.progress in {Aged, Settled, Cleared, Final} ==> OldEnough(s.ns[q.ns], q.cutoff))
    && (q.progress in {Settled, Cleared, Final} ==> FinishedBy(s.ns[q.ns], q.cutoff))
    && (q.progress in {Cleared, Final} ==> !Live(s, s.ns[q.ns].owner))
    && (q.progress == Final ==> InPlace(s, q.ns) && s.ns[q.ns].key == q.key)
  }

  ghost predicate MoveOk(s: State, m: Move) {
    && m.ns in s.ns && !InPlace(s, m.ns)
    && s.ns[m.ns].marked
    && OldEnough(s.ns[m.ns], m.cutoff) && FinishedBy(s.ns[m.ns], m.cutoff)
    && s.ns[m.ns].owner in s.runs && !s.runs[s.ns[m.ns].owner].alive
  }

  ghost predicate MovesOk(s: State) {
    && (forall j | 0 <= j < |s.moves| :: MoveOk(s, s.moves[j]))
    && (forall j, k | 0 <= j < k < |s.moves| :: s.moves[j].ns != s.moves[k].ns)
  }

  ghost predicate NamespacesOk(s: State) {
    forall i | i in s.ns :: PastOk(s.ns[i], s.clock) && PassedOk(s, s.ns[i]) && LockOk(s, i) && s.ns[i].owner in s.runs
  }

  ghost predicate RunsOk(s: State) { forall r | r in s.runs :: RunOk(s, r) }

  ghost predicate CleanersOk(s: State) { forall c | c in s.cleaners :: CleanerOk(s, c) }

  ghost predicate Inv(s: State) {
    PlacesOk(s) && NamespacesOk(s) && RunsOk(s) && CleanersOk(s) && MovesOk(s)
  }

  // ---------- what a step leaves alone ----------

  /** Everything a cleaner or a past move relies on in a namespace. */
  ghost predicate SameEvidence(n: Namespace, n': Namespace) {
    && n'.key == n.key && n'.owner == n.owner && n'.marked == n.marked && n'.created == n.created
    && n'.markerTime == n.markerTime && n'.rootTime == n.rootTime && n'.finished == n.finished
    && n'.children == n.children
  }

  /** Everything a run relies on in a namespace. */
  ghost predicate KeepsFor(n: Namespace, n': Namespace, r: RunId) {
    && n'.key == n.key && n'.owner == n.owner && n.markerTime <= n'.markerTime
    && (n.owner == r ==> n'.marked == n.marked)
    && (forall h | h in n.shared && h.run == r :: h in n'.shared)
    && (forall q | q in n.children && q.run == r :: q in n'.children)
  }

  /** A step that leaves the past of every namespace as it is. */
  ghost predicate SamePast(n: Namespace, n': Namespace) {
    && n'.acquired == n.acquired && n'.children == n.children && n'.clean == n.clean && n'.owner == n.owner
    && n'.markerTime == n.markerTime && n'.rootTime == n.rootTime && n'.finished == n.finished
  }

  lemma PastFrame(s: State, t: State, i: NsId)
    requires i in s.ns && i in t.ns && SamePast(s.ns[i], t.ns[i]) && s.clock <= t.clock
    requires PastOk(s.ns[i], s.clock) && PassedOk(s, s.ns[i]) && s.ns[i].owner in s.runs
    requires forall r | r in s.runs :: r in t.runs && t.runs[r].level == s.runs[r].level
    ensures PastOk(t.ns[i], t.clock) && PassedOk(t, t.ns[i]) && t.ns[i].owner in t.runs
  {
  }

  lemma PlacesFrame(s: State, t: State)
    requires PlacesOk(s) && t.entries == s.entries && t.lastHeld == s.lastHeld
    requires forall i | i in s.ns :: i in t.ns && t.ns[i].key == s.ns[i].key
    ensures PlacesOk(t)
  {
  }

  lemma RunFrame(s: State, t: State, r: RunId)
    requires r in s.runs && r in t.runs && t.runs[r] == s.runs[r] && RunOk(s, r)
    requires forall i | i in s.ns :: i in t.ns && KeepsFor(s.ns[i], t.ns[i], r)
    requires forall i | InPlace(s, i) && s.ns[i].shared != {} :: InPlace(t, i)
    ensures RunOk(t, r)
  {
    var p := s.runs[r];
    if p.alive {
      forall l | l in p.held ensures p.level < l && HeldOk(t, r, l, p.held[l])
      {
        assert HeldOk(s, r, l, p.held[l]);
      }
    }
  }

  lemma CleanerFrame(s: State, t: State, c: CleanerId)
    requires c in s.cleaners && c in t.cleaners && t.cleaners[c] == s.cleaners[c] && CleanerOk(s, c)
    requires s.cleaners[c].ns in t.ns && t.ns[s.cleaners[c].ns].marked
    requires Holding(s.cleaners[c].progress) ==>
      && SameEvidence(s.ns[s.cleaners[c].ns], t.ns[s.cleaners[c].ns])
      && t.ns[s.cleaners[c].ns].exclusive == s.ns[s.cleaners[c].ns].exclusive
      && (Live(t, s.ns[s.cleaners[c].ns].owner) ==> Live(s, s.ns[s.cleaners[c].ns].owner))
    requires s.cleaners[c].progress == Final ==> InPlace(t, s.cleaners[c].ns)
    ensures CleanerOk(t, c)
  {
  }

  lemma MovesFrame(s: State, t: State)
    requires MovesOk(s) && t.moves == s.moves
    requires forall j | 0 <= j < |s.moves| ::
      && s.moves[j].ns in t.ns
      && SameEvidence(s.ns[s.moves[j].ns], t.ns[s.moves[j].ns]) && !InPlace(t, s.moves[j].ns)
    requires forall r | r in s.runs && !s.runs[r].alive :: r in t.runs && !t.runs[r].alive
    ensures MovesOk(t)
  {
    forall j | 0 <= j < |t.moves| ensures MoveOk(t, t.moves[j]) {
      assert MoveOk(s, s.moves[j]);
    }
  }

  // ---------- a step of one run that touches at most one namespace ----------

  /** `p` replaces run `r`. */
  ghost predicate RunChange(s: State, r: RunId, p: Run) {
    r in s.runs ==> s.runs[r].alive == p.alive && p.level <= s.runs[r].level
  }

  /** `n` replaces namespace `i`, changed by run `r` under no exclusive lock. */
  ghost predicate NsChange(s: State, r: RunId, i: NsId, n: Namespace) {
    && i in s.ns && s.ns[i].exclusive.None? && n.exclusive.None?
    && n.key == s.ns[i].key && n.owner == s.ns[i].owner
    && (s.ns[i].marked ==> n.marked) && (n.marked && !s.ns[i].marked ==> s.ns[i].owner == r)
    && s.ns[i].markerTime <= n.markerTime
    && (forall h | h in s.ns[i].shared && h.run != r :: h in n.shared)
    && (forall q | q in s.ns[i].children && q.run != r :: q in n.children)
    && (InPlace(s, i) || Live(s, s.ns[i].owner) || SameEvidence(s.ns[i], n))
  }

  lemma RunStepRuns(s: State, r: RunId, p: Run, i: NsId, n: Namespace)
    requires RunsOk(s) && RunChange(s, r, p) && NsChange(s, r, i, n)
    requires RunOk(SetNs(SetRun(s, r, p), i, n), r)
    ensures RunsOk(SetNs(SetRun(s, r, p), i, n))
  {
    var t := SetNs(SetRun(s, r, p), i, n);
    forall x | x in t.runs ensures RunOk(t, x) {
      if x != r { RunFrame(s, t, x); }
    }
  }

  lemma RunStepNamespaces(s: State, r: RunId, p: Run, i: NsId, n: Namespace)
    requires NamespacesOk(s) && RunChange(s, r, p) && NsChange(s, r, i, n)
    requires PastOk(n, s.clock) && PassedOk(SetRun(s, r, p), n)
    ensures NamespacesOk(SetNs(SetRun(s, r, p), i, n))
  {
    var t := SetNs(SetRun(s, r, p), i, n);
    forall x | x in t.ns
      ensures PastOk(t.ns[x], t.clock) && PassedOk(t, t.ns[x]) && LockOk(t, x) && t.ns[x].owner in t.runs
    {
      if x != i {
        assert PassedOk(s, s.ns[x]) && LockOk(s, x);
      }
    }
  }

  lemma RunStepCleaners(s: State, r: RunId, p: Run, i: NsId, n: Namespace)
    requires CleanersOk(s) && RunChange(s, r, p) && NsChange(s, r, i, n)
    requires r in s.runs
    ensures CleanersOk(SetNs(SetRun(s, r, p), i, n))
  {
    var t := SetNs(SetRun(s, r, p), i, n);
    forall c | c in t.cleaners ensures CleanerOk(t, c) {
      assert CleanerOk(s, c);
      CleanerFrame(s, t, c);
    }
  }

  lemma RunStepMoves(s: State, r: RunId, p: Run, i: NsId, n: Namespace)
    requires MovesOk(s) && RunChange(s, r, p) && NsChange(s, r, i, n)
    requires r in s.runs
    ensures MovesOk(SetNs(SetRun(s, r, p), i, n))
  {
    var t := SetNs(SetRun(s, r, p), i, n);
    forall j | 0 <= j < |s.moves|
      ensures s.moves[j].ns in t.ns && SameEvidence(s.ns[s.moves[j].ns], t.ns[s.moves[j].ns])
      ensures !InPlace(t, s.moves[j].ns)
    {
      assert MoveOk(s, s.moves[j]);
    }
    MovesFrame(s, t);
  }

  /** The part of the invariant that a step of run `r` on namespace `i` needs. */
  ghost predicate Local(s: State, r: RunId, i: NsId) {
    && r in s.runs && i in s.ns
    && RunOk(s, r) && LockOk(s, i) && PastOk(s.ns[i], s.clock) && PassedOk(s, s.ns[i])
  }

  /** The part of the invariant that such a step has to establish. */
  ghost predicate Allowed(s: State, r: RunId, p: Run, i: NsId, n: Namespace) {
    && r in s.runs && RunChange(s, r, p) && NsChange(s, r, i, n)
    && RunOk(SetNs(SetRun(s, r, p), i, n), r)
    && PastOk(n, s.clock) && PassedOk(SetRun(s, r, p), n)
  }

  lemma RunStepInv(s: State, r: RunId, p: Run, i: NsId, n: Namespace)
    requires Inv(s) && Allowed(s, r, p, i, n)
    ensures Inv(SetNs(SetRun(s, r, p), i, n))
  {
    PlacesFrame(s, SetNs(SetRun(s, r, p), i, n));
    RunStepRuns(s, r, p, i, n);
    RunStepNamespaces(s, r, p, i, n);
    RunStepCleaners(s, r, p, i, n);
    RunStepMoves(s, r, p, i, n);
  }

  lemma RunOnlyNamespaces(s: State, r: RunId, p: Run)
    requires NamespacesOk(s) && RunChange(s, r, p)
    ensures NamespacesOk(SetRun(s, r, p))
  {
    var t := SetRun(s, r, p);
    forall x | x in t.ns
      ensures PastOk(t.ns[x], t.clock) && PassedOk(t, t.ns[x]) && LockOk(t, x) && t.ns[x].owner in t.runs
    {
      assert PassedOk(s, s.ns[x]) && LockOk(s, x);
    }
  }

  lemma RunOnlyRest(s: State, r: RunId, p: Run)
    requires NamespacesOk(s) && CleanersOk(s) && MovesOk(s) && RunChange(s, r, p)
    ensures CleanersOk(SetRun(s, r, p)) && MovesOk(SetRun(s, r, p))
  {
    var t := SetRun(s, r, p);
    forall c | c in t.cleaners ensures CleanerOk(t, c) {
      assert CleanerOk(s, c);
      CleanerFrame(s, t, c);
    }
    forall j | 0 <= j < |s.moves| ensures s.moves[j].ns in t.ns && !InPlace(t, s.moves[j].ns) {
      assert MoveOk(s, s.moves[j]);
    }
    MovesFrame(s, t);
  }

  /** A step that only changes the record of one run. */
  lemma RunOnlyInv(s: State, r: RunId, p: Run)
    requires Inv(s) && RunChange(s, r, p) && RunOk(SetRun(s, r, p), r)
    ensures Inv(SetRun(s, r, p))
  {
    var t := SetRun(s, r, p);
    PlacesFrame(s, t);
    forall x | x in t.runs ensures RunOk(t, x) {
      if x != r { RunFrame(s, t, x); }
    }
    RunOnlyNamespaces(s, r, p);
    RunOnlyRest(s, r, p);
  }

  lemma InvStart(s: State, r: RunId, path: seq<nat>)
    requires Inv(s) && CanStart(s, r, path)
    ensures Inv(DoStart(s, r, path))
  {
    RunOnlyInv(s, r, Run(path, |path|, Idle, map[], Unmade, map[], {}, true));
  }

  lemma InvOpen(s: State, r: RunId)
    requires Inv(s) && CanOpen(s, r)
    ensures Inv(DoOpen(s, r))
  {
    var p := s.runs[r];
    assert RunOk(s, r);
    RunOnlyInv(s, r, p.(stage := Opened(Resolve(s.entries, p.path[..p.level]).value.ns)));
  }

  lemma AllowedLockShared(s: State, r: RunId)
    requires CanLockShared(s, r) && Local(s, r, s.runs[r].stage.ns)
    ensures Allowed(s, r, s.runs[r].(stage := Locked(s.runs[r].stage.ns)), s.runs[r].stage.ns,
                    LockedBy(s.ns[s.runs[r].stage.ns], Nested(r, s.runs[r].level)))
  {
    var t := SetNs(SetRun(s, r, s.runs[r].(stage := Locked(s.runs[r].stage.ns))), s.runs[r].stage.ns,
                   LockedBy(s.ns[s.runs[r].stage.ns], Nested(r, s.runs[r].level)));
    forall x | x in t.runs[r].held ensures t.runs[r].level < x && HeldOk(t, r, x, t.runs[r].held[x]) {
      assert HeldOk(s, r, x, s.runs[r].held[x]);
    }
  }

  lemma InvLockShared(s: State, r: RunId)
    requires Inv(s) && CanLockShared(s, r)
    ensures Inv(DoLockShared(s, r))
  {
    assert Local(s, r, s.runs[r].stage.ns);
    AllowedLockShared(s, r);
    RunStepInv(s, r, s.runs[r].(stage := Locked(s.runs[r].stage.ns)), s.runs[r].stage.ns,
               LockedBy(s.ns[s.runs[r].stage.ns], Nested(r, s.runs[r].level)));
  }

  /** What a path names is in place. */
  lemma {:induction false} NamedInPlace(s: State, path: seq<nat>, i: NsId)
    requires PlacesOk(s) && Resolve(s.entries, path) == Some(In(i))
    ensures InPlace(s, i)
  {
  }

  lemma VerifiedOk(s: State, r: RunId, p: Run)
    requires PlacesOk(s) && RunsOk(s) && CanVerify(s, r) && p == s.runs[r].(stage := Verified(s.runs[r].stage.ns))
    ensures RunChange(s, r, p) && RunOk(SetRun(s, r, p), r)
  {
    assert RunOk(s, r);
    NamedInPlace(s, p.path[..p.level], p.stage.ns);
  }

  lemma InvVerify(s: State, r: RunId)
    requires Inv(s) && CanVerify(s, r)
    ensures Inv(DoVerify(s, r))
  {
    var p := s.runs[r].(stage := Verified(s.runs[r].stage.ns));
    VerifiedOk(s, r, p);
    RunOnlyInv(s, r, p);
  }

  lemma AllowedMarkChild(s: State, r: RunId)
    requires CanMarkChild(s, r) && Local(s, r, s.runs[r].stage.ns)
    ensures Allowed(s, r, Acquired(s.runs[r], s.runs[r].stage.ns), s.runs[r].stage.ns,
                    WithChild(s.ns[s.runs[r].stage.ns], Acquisition(r, s.runs[r].level), s.clock))
  {
    var p, i, q := s.runs[r], s.runs[r].stage.ns, Acquisition(r, s.runs[r].level);
    assert q !in s.ns[i].acquired;
    var t := SetNs(SetRun(s, r, Acquired(p, i)), i, WithChild(s.ns[i], q, s.clock));
    forall x | x in t.runs[r].held ensures t.runs[r].level < x && HeldOk(t, r, x, t.runs[r].held[x]) {
      assert x in p.held ==> HeldOk(s, r, x, p.held[x]);
    }
  }

  lemma InvMarkChild(s: State, r: RunId)
    requires Inv(s) && CanMarkChild(s, r)
    ensures Inv(DoMarkChild(s, r))
  {
    assert Local(s, r, s.runs[r].stage.ns);
    AllowedMarkChild(s, r);
    RunStepInv(s, r, Acquired(s.runs[r], s.runs[r].stage.ns), s.runs[r].stage.ns,
               WithChild(s.ns[s.runs[r].stage.ns], Acquisition(r, s.runs[r].level), s.clock));
  }

  lemma MarkOwnRun(s: State, r: RunId)
    requires CanMarkOwn(s, r) && RunOk(s, r) && PastOk(s.ns[s.runs[r].own.ns], s.clock)
    ensures RunOk(DoMarkOwn(s, r), r)
  {
    var t := DoMarkOwn(s, r);
    forall x | x in t.runs[r].held ensures t.runs[r].level < x && HeldOk(t, r, x, t.runs[r].held[x]) {
      assert HeldOk(s, r, x, s.runs[r].held[x]);
    }
  }

  lemma AllowedMarkOwn(s: State, r: RunId)
    requires CanMarkOwn(s, r) && Local(s, r, s.runs[r].own.ns)
    ensures Allowed(s, r, s.runs[r].(own := Marked(s.runs[r].own.ns)), s.runs[r].own.ns,
                    WithMarker(s.ns[s.runs[r].own.ns], r, s.clock))
  {
    MarkOwnRun(s, r);
  }

  lemma InvMarkOwn(s: State, r: RunId)
    requires Inv(s) && CanMarkOwn(s, r)
    ensures Inv(DoMarkOwn(s, r))
  {
    assert Local(s, r, s.runs[r].own.ns);
    AllowedMarkOwn(s, r);
    RunStepInv(s, r, s.runs[r].(own := Marked(s.runs[r].own.ns)), s.runs[r].own.ns,
               WithMarker(s.ns[s.runs[r].own.ns], r, s.clock));
  }

  lemma FinishOwnRun(s: State, r: RunId)
    requires CanFinishOwn(s, r) && RunOk(s, r)
    ensures RunOk(SetNs(SetRun(s, r, s.runs[r]), s.runs[r].own.ns,
                        s.ns[s.runs[r].own.ns].(finished := Some(s.clock), rootTime := s.clock)), r)
  {
    var t := DoFinishOwn(s, r);
    forall x | x in t.runs[r].held ensures t.runs[r].level < x && HeldOk(t, r, x, t.runs[r].held[x]) {
      assert HeldOk(s, r, x, s.runs[r].held[x]);
    }
  }

  lemma AllowedFinishOwn(s: State, r: RunId)
    requires CanFinishOwn(s, r) && Local(s, r, s.runs[r].own.ns)
    ensures Allowed(s, r, s.runs[r], s.runs[r].own.ns,
                    s.ns[s.runs[r].own.ns].(finished := Some(s.clock), rootTime := s.clock))
  {
    FinishOwnRun(s, r);
  }

  lemma InvFinishOwn(s: State, r: RunId)
    requires Inv(s) && CanFinishOwn(s, r)
    ensures Inv(DoFinishOwn(s, r))
  {
    assert Local(s, r, s.runs[r].own.ns);
    AllowedFinishOwn(s, r);
    RunStepInv(s, r, s.runs[r], s.runs[r].own.ns,
               s.ns[s.runs[r].own.ns].(finished := Some(s.clock), rootTime := s.clock));
  }

  lemma AllowedCloseOwn(s: State, r: RunId)
    requires CanCloseOwn(s, r) && Local(s, r, s.runs[r].own.ns)
    ensures Allowed(s, r, s.runs[r].(own := Closed), s.runs[r].own.ns, UnlockedBy(s.ns[s.runs[r].own.ns], Owner(r)))
  {
    var t := SetNs(SetRun(s, r, s.runs[r].(own := Closed)), s.runs[r].own.ns,
                   UnlockedBy(s.ns[s.runs[r].own.ns], Owner(r)));
    forall x | x in t.runs[r].held ensures t.runs[r].level < x && HeldOk(t, r, x, t.runs[r].held[x]) {
      assert HeldOk(s, r, x, s.runs[r].held[x]);
    }
  }

  lemma InvCloseOwn(s: State, r: RunId)
    requires Inv(s) && CanCloseOwn(s, r)
    ensures Inv(DoCloseOwn(s, r))
  {
    assert Local(s, r, s.runs[r].own.ns);
    AllowedCloseOwn(s, r);
    RunStepInv(s, r, s.runs[r].(own := Closed), s.runs[r].own.ns, UnlockedBy(s.ns[s.runs[r].own.ns], Owner(r)));
  }

  lemma AllowedTouch(s: State, r: RunId, l: nat)
    requires CanTouch(s, r, l) && Local(s, r, s.runs[r].held[l])
    ensures Allowed(s, r, s.runs[r].(touched := s.runs[r].touched[l := s.clock]), s.runs[r].held[l],
                    s.ns[s.runs[r].held[l]].(markerTime := s.clock))
  {
    var t := SetNs(SetRun(s, r, s.runs[r].(touched := s.runs[r].touched[l := s.clock])), s.runs[r].held[l],
                   s.ns[s.runs[r].held[l]].(markerTime := s.clock));
    forall x | x in t.runs[r].held ensures t.runs[r].level < x && HeldOk(t, r, x, t.runs[r].held[x]) {
      assert HeldOk(s, r, x, s.runs[r].held[x]);
    }
  }

  lemma InvTouch(s: State, r: RunId, l: nat)
    requires Inv(s) && CanTouch(s, r, l)
    ensures Inv(DoTouch(s, r, l))
  {
    assert Local(s, r, s.runs[r].held[l]);
    AllowedTouch(s, r, l);
    RunStepInv(s, r, s.runs[r].(touched := s.runs[r].touched[l := s.clock]), s.runs[r].held[l],
               s.ns[s.runs[r].held[l]].(markerTime := s.clock));
  }

  lemma UnlinkPast(n: Namespace, q: Acquisition, touched: int, clock: int)
    requires PastOk(n, clock) && q in n.children && touched <= n.markerTime
    ensures PastOk(WithoutChild(n, q, Finish(touched, clock)), clock)
  {
  }

  lemma UnlinkRun(s: State, r: RunId, l: nat)
    requires CanUnlink(s, r, l) && RunOk(s, r)
    ensures RunOk(DoUnlink(s, r, l), r)
  {
    var t := DoUnlink(s, r, l);
    forall x | x in t.runs[r].held ensures t.runs[r].level < x && HeldOk(t, r, x, t.runs[r].held[x]) {
      assert HeldOk(s, r, x, s.runs[r].held[x]);
    }
  }

  lemma AllowedUnlink(s: State, r: RunId, l: nat)
    requires CanUnlink(s, r, l) && Local(s, r, s.runs[r].held[l])
    ensures Allowed(s, r, s.runs[r].(unlinked := s.runs[r].unlinked + {l}), s.runs[r].held[l],
                    WithoutChild(s.ns[s.runs[r].held[l]], Acquisition(r, l), Finish(s.runs[r].touched[l], s.clock)))
  {
    UnlinkRun(s, r, l);
    UnlinkPast(s.ns[s.runs[r].held[l]], Acquisition(r, l), s.runs[r].touched[l], s.clock);
  }

  lemma InvUnlink(s: State, r: RunId, l: nat)
    requires Inv(s) && CanUnlink(s, r, l)
    ensures Inv(DoUnlink(s, r, l))
  {
    assert Local(s, r, s.runs[r].held[l]);
    AllowedUnlink(s, r, l);
    RunStepInv(s, r, s.runs[r].(unlinked := s.runs[r].unlinked + {l}), s.runs[r].held[l],
               WithoutChild(s.ns[s.runs[r].held[l]], Acquisition(r, l), Finish(s.runs[r].touched[l], s.clock)));
  }

  lemma AllowedCloseHeld(s: State, r: RunId, l: nat)
    requires CanCloseHeld(s, r, l) && Local(s, r, s.runs[r].held[l])
    ensures Allowed(s, r, s.runs[r].(held := s.runs[r].held - {l}), s.runs[r].held[l],
                    UnlockedBy(s.ns[s.runs[r].held[l]], Nested(r, l)))
  {
    var t := SetNs(SetRun(s, r, s.runs[r].(held := s.runs[r].held - {l})), s.runs[r].held[l],
                   UnlockedBy(s.ns[s.runs[r].held[l]], Nested(r, l)));
    forall x | x in t.runs[r].held ensures t.runs[r].level < x && HeldOk(t, r, x, t.runs[r].held[x]) {
      assert HeldOk(s, r, x, s.runs[r].held[x]);
    }
  }

  lemma InvCloseHeld(s: State, r: RunId, l: nat)
    requires Inv(s) && CanCloseHeld(s, r, l)
    ensures Inv(DoCloseHeld(s, r, l))
  {
    assert Local(s, r, s.runs[r].held[l]);
    AllowedCloseHeld(s, r, l);
    RunStepInv(s, r, s.runs[r].(held := s.runs[r].held - {l}), s.runs[r].held[l],
               UnlockedBy(s.ns[s.runs[r].held[l]], Nested(r, l)));
  }

  lemma MakeOwnPlaces(s: State, r: RunId, made: NsId, name: nat)
    requires PlacesOk(s) && CanMakeOwn(s, r, made, name)
    ensures PlacesOk(DoMakeOwn(s, r, made, name))
    ensures forall i | InPlace(s, i) :: InPlace(DoMakeOwn(s, r, made, name), i)
  {
  }

  lemma InvMakeOwn(s: State, r: RunId, made: NsId, name: nat)
    requires Inv(s) && CanMakeOwn(s, r, made, name)
    ensures Inv(DoMakeOwn(s, r, made, name))
  {
    MakeOwnPlaces(s, r, made, name);
    MakeOwnRuns(s, r, made, name);
    MakeOwnNamespaces(s, r, made, name);
    MakeOwnCleaners(s, r, made, name);
    MakeOwnMoves(s, r, made, name);
  }

  lemma MakeOwnRuns(s: State, r: RunId, made: NsId, name: nat)
    requires RunsOk(s) && CanMakeOwn(s, r, made, name)
    requires forall i | InPlace(s, i) :: InPlace(DoMakeOwn(s, r, made, name), i)
    ensures RunsOk(DoMakeOwn(s, r, made, name))
  {
    var t := DoMakeOwn(s, r, made, name);
    forall x | x in t.runs ensures RunOk(t, x) {
      assert RunOk(s, x);
      if x != r {
        RunFrame(s, t, x);
      } else {
        forall l | l in t.runs[r].held ensures HeldOk(t, r, l, t.runs[r].held[l]) {
          assert HeldOk(s, r, l, s.runs[r].held[l]);
        }
      }
    }
  }

  lemma DieNamespaces(s: State, r: RunId)
    requires NamespacesOk(s) && CanDie(s, r)
    ensures NamespacesOk(DoDie(s, r))
  {
    var t := DoDie(s, r);
    forall x | x in t.ns
      ensures PastOk(t.ns[x], t.clock) && PassedOk(t, t.ns[x]) && LockOk(t, x) && t.ns[x].owner in t.runs
    {
      assert LockOk(s, x);
      PastFrame(s, t, x);
    }
  }

  lemma DieCleaners(s: State, r: RunId)
    requires CleanersOk(s) && CanDie(s, r)
    ensures CleanersOk(DoDie(s, r))
  {
    var t := DoDie(s, r);
    forall c | c in t.cleaners ensures CleanerOk(t, c) {
      assert CleanerOk(s, c);
      CleanerFrame(s, t, c);
    }
  }

  lemma DieMoves(s: State, r: RunId)
    requires MovesOk(s) && CanDie(s, r)
    ensures MovesOk(DoDie(s, r))
  {
    var t := DoDie(s, r);
    forall j | 0 <= j < |s.moves| ensures s.moves[j].ns in t.ns && !InPlace(t, s.moves[j].ns) {
      assert MoveOk(s, s.moves[j]);
    }
    MovesFrame(s, t);
  }

  lemma InvDie(s: State, r: RunId)
    requires Inv(s) && CanDie(s, r)
    ensures Inv(DoDie(s, r))
  {
    var t := DoDie(s, r);
    PlacesFrame(s, t);
    forall x | x in t.runs ensures RunOk(t, x) {
      if x != r { RunFrame(s, t, x); }
    }
    DieNamespaces(s, r);
    DieCleaners(s, r);
    DieMoves(s, r);
  }

  lemma MakeOwnNamespaces(s: State, r: RunId, made: NsId, name: nat)
    requires NamespacesOk(s) && CanMakeOwn(s, r, made, name)
    ensures NamespacesOk(DoMakeOwn(s, r, made, name))
  {
    var t := DoMakeOwn(s, r, made, name);
    forall x | x in t.ns
      ensures PastOk(t.ns[x], t.clock) && PassedOk(t, t.ns[x]) && LockOk(t, x) && t.ns[x].owner in t.runs
    {
      if x != made {
        assert LockOk(s, x);
        PastFrame(s, t, x);
      }
    }
  }

  lemma MakeOwnCleaners(s: State, r: RunId, made: NsId, name: nat)
    requires CleanersOk(s) && CanMakeOwn(s, r, made, name)
    ensures CleanersOk(DoMakeOwn(s, r, made, name))
  {
    var t := DoMakeOwn(s, r, made, name);
    forall c | c in t.cleaners ensures CleanerOk(t, c) {
      assert CleanerOk(s, c);
      CleanerFrame(s, t, c);
    }
  }

  lemma MakeOwnMoves(s: State, r: RunId, made: NsId, name: nat)
    requires MovesOk(s) && CanMakeOwn(s, r, made, name)
    ensures MovesOk(DoMakeOwn(s, r, made, name))
  {
    var t := DoMakeOwn(s, r, made, name);
    forall j | 0 <= j < |s.moves| ensures s.moves[j].ns in t.ns && !InPlace(t, s.moves[j].ns) {
      assert MoveOk(s, s.moves[j]);
    }
    MovesFrame(s, t);
  }

  // ---------- steps of a cleaner ----------

  function WithCleaner(s: State, c: CleanerId, q: Cleaner, lock: Option<CleanerId>): State
    requires q.ns in s.ns
  {
    SetNs(SetCleaner(s, c, q), q.ns, s.ns[q.ns].(exclusive := lock))
  }

  /** `q` replaces cleaner `c`, which holds its namespace's lock exactly while its progress says so. */
  ghost predicate CleanerChange(s: State, c: CleanerId, q: Cleaner, lock: Option<CleanerId>) {
    && q.ns in s.ns
    && (c in s.cleaners ==> s.cleaners[c].ns == q.ns)
    && lock == (if Holding(q.progress) then Some(c)
                else if s.ns[q.ns].exclusive == Some(c) then None else s.ns[q.ns].exclusive)
    && (Holding(q.progress) ==>
          s.ns[q.ns].exclusive == Some(c) || (s.ns[q.ns].exclusive.None? && s.ns[q.ns].shared == {}))
  }

  lemma CleanerStepNamespaces(s: State, c: CleanerId, q: Cleaner, lock: Option<CleanerId>)
    requires NamespacesOk(s) && CleanerChange(s, c, q, lock)
    ensures NamespacesOk(WithCleaner(s, c, q, lock))
  {
    var t := WithCleaner(s, c, q, lock);
    forall x | x in t.ns
      ensures PastOk(t.ns[x], t.clock) && PassedOk(t, t.ns[x]) && LockOk(t, x) && t.ns[x].owner in t.runs
    {
      assert LockOk(s, x);
      PastFrame(s, t, x);
    }
  }

  lemma CleanerStepCleaners(s: State, c: CleanerId, q: Cleaner, lock: Option<CleanerId>)
    requires CleanersOk(s) && CleanerChange(s, c, q, lock) && CleanerOk(WithCleaner(s, c, q, lock), c)
    ensures CleanersOk(WithCleaner(s, c, q, lock))
  {
    var t := WithCleaner(s, c, q, lock);
    forall d | d in t.cleaners ensures CleanerOk(t, d) {
      if d != c {
        assert CleanerOk(s, d);
        CleanerFrame(s, t, d);
      }
    }
  }

  lemma CleanerStepMoves(s: State, c: CleanerId, q: Cleaner, lock: Option<CleanerId>)
    requires MovesOk(s) && CleanerChange(s, c, q, lock)
    ensures MovesOk(WithCleaner(s, c, q, lock))
  {
    var t := WithCleaner(s, c, q, lock);
    forall j | 0 <= j < |s.moves| ensures s.moves[j].ns in t.ns && !InPlace(t, s.moves[j].ns) {
      assert MoveOk(s, s.moves[j]);
    }
    MovesFrame(s, t);
  }

  lemma CleanerStepRuns(s: State, c: CleanerId, q: Cleaner, lock: Option<CleanerId>)
    requires RunsOk(s) && q.ns in s.ns
    ensures RunsOk(WithCleaner(s, c, q, lock))
  {
    var t := WithCleaner(s, c, q, lock);
    forall x | x in t.runs ensures RunOk(t, x) { RunFrame(s, t, x); }
  }

  /** A step that changes one cleaner and at most the exclusive lock of its namespace. */
  lemma CleanerStepInv(s: State, c: CleanerId, q: Cleaner, lock: Option<CleanerId>)
    requires Inv(s) && CleanerChange(s, c, q, lock) && CleanerOk(WithCleaner(s, c, q, lock), c)
    ensures Inv(WithCleaner(s, c, q, lock))
  {
    var t := WithCleaner(s, c, q, lock);
    PlacesFrame(s, t);
    CleanerStepRuns(s, c, q, lock);
    CleanerStepNamespaces(s, c, q, lock);
    CleanerStepCleaners(s, c, q, lock);
    CleanerStepMoves(s, c, q, lock);
  }

  /** A check that passes: the cleaner gets further, the lock stays. */
  lemma CheckPassed(s: State, c: CleanerId, p: Progress)
    requires Inv(s) && c in s.cleaners && Holding(s.cleaners[c].progress) && Holding(p)
    requires CleanerOk(SetCleaner(s, c, s.cleaners[c].(progress := p)), c)
    ensures Inv(SetCleaner(s, c, s.cleaners[c].(progress := p)))
  {
    var q := s.cleaners[c].(progress := p);
    assert CleanerOk(s, c);
    assert s.ns[q.ns := s.ns[q.ns].(exclusive := Some(c))] == s.ns;
    CleanerStepInv(s, c, q, Some(c));
  }

  lemma InvLook(s: State, c: CleanerId, key: Key, i: NsId, cutoff: int)
    requires Inv(s) && CanLook(s, c, key, i, cutoff)
    ensures Inv(DoLook(s, c, key, i, cutoff))
  {
    var q := Cleaner(key, i, cutoff, Looking);
    assert LockOk(s, i);
    assert s.ns[i := s.ns[i].(exclusive := s.ns[i].exclusive)] == s.ns;
    CleanerStepInv(s, c, q, s.ns[i].exclusive);
  }

  lemma InvLockExclusive(s: State, c: CleanerId)
    requires Inv(s) && CanLockExclusive(s, c)
    ensures Inv(DoLockExclusive(s, c))
  {
    assert CleanerOk(s, c);
    CleanerStepInv(s, c, s.cleaners[c].(progress := Exclusive), Some(c));
  }

  lemma InvCheckAges(s: State, c: CleanerId)
    requires Inv(s) && CanCheckAges(s, c)
    ensures Inv(DoCheckAges(s, c))
  {
    assert CleanerOk(s, c);
    CheckPassed(s, c, Aged);
  }

  lemma InvCheckFinished(s: State, c: CleanerId)
    requires Inv(s) && CanCheckFinished(s, c)
    ensures Inv(DoCheckFinished(s, c))
  {
    assert CleanerOk(s, c);
    CheckPassed(s, c, Settled);
  }

  lemma InvCheckOwnerDead(s: State, c: CleanerId)
    requires Inv(s) && CanCheckOwnerDead(s, c)
    ensures Inv(DoCheckOwnerDead(s, c))
  {
    assert CleanerOk(s, c);
    CheckPassed(s, c, Cleared);
  }

  lemma InvCheckFinal(s: State, c: CleanerId)
    requires Inv(s) && CanCheckFinal(s, c)
    ensures Inv(DoCheckFinal(s, c))
  {
    assert CleanerOk(s, c);
    CheckPassed(s, c, Final);
  }

  lemma InvLeave(s: State, c: CleanerId)
    requires Inv(s) && CanLeave(s, c)
    ensures Inv(DoLeave(s, c))
  {
    var q := s.cleaners[c];
    assert CleanerOk(s, c) && LockOk(s, q.ns);
    var lock := if s.ns[q.ns].exclusive == Some(c) then None else s.ns[q.ns].exclusive;
    assert s.ns[q.ns].exclusive == Some(c) <==> Holding(q.progress);
    CleanerStepInv(s, c, q.(progress := Done), lock);
  }

  lemma RenameRuns(s: State, c: CleanerId)
    requires PlacesOk(s) && RunsOk(s) && NamespacesOk(s) && CanRename(s, c) && CleanerOk(s, c)
    ensures RunsOk(DoRename(s, c))
  {
    var t := DoRename(s, c);
    assert LockOk(s, s.cleaners[c].ns);
    forall x | x in t.runs ensures RunOk(t, x) { RunFrame(s, t, x); }
  }

  lemma RenameNamespaces(s: State, c: CleanerId)
    requires NamespacesOk(s) && CanRename(s, c)
    ensures NamespacesOk(DoRename(s, c))
  {
    var t := DoRename(s, c);
    forall x | x in t.ns
      ensures PastOk(t.ns[x], t.clock) && PassedOk(t, t.ns[x]) && LockOk(t, x) && t.ns[x].owner in t.runs
    {
      assert LockOk(s, x);
      PastFrame(s, t, x);
    }
  }

  lemma RenameCleaners(s: State, c: CleanerId)
    requires PlacesOk(s) && CleanersOk(s) && CanRename(s, c)
    ensures CleanersOk(DoRename(s, c))
  {
    var t := DoRename(s, c);
    assert CleanerOk(s, c);
    forall d | d in t.cleaners ensures CleanerOk(t, d) {
      assert CleanerOk(s, d);
      if d != c { CleanerFrame(s, t, d); }
    }
  }

  /** The rename takes away exactly the namespace that was checked, although it acts on the name. */
  lemma InvRename(s: State, c: CleanerId)
    requires Inv(s) && CanRename(s, c)
    ensures Inv(DoRename(s, c))
    ensures DoRename(s, c).moves == s.moves + [Move(c, s.cleaners[c].ns, s.cleaners[c].cutoff)]
  {
    assert CleanerOk(s, c);
    RenameRuns(s, c);
    RenameNamespaces(s, c);
    RenameCleaners(s, c);
    RenameMoves(s, c);
  }

  lemma RenameKeepsMove(s: State, c: CleanerId, m: Move)
    requires PlacesOk(s) && CanRename(s, c) && CleanerOk(s, c) && MoveOk(s, m)
    ensures MoveOk(DoRename(s, c), m) && m.ns != s.cleaners[c].ns
  {
  }

  lemma RenameMoves(s: State, c: CleanerId)
    requires PlacesOk(s) && NamespacesOk(s) && MovesOk(s) && CanRename(s, c) && CleanerOk(s, c)
    ensures MovesOk(DoRename(s, c))
  {
    var t := DoRename(s, c);
    forall j | 0 <= j < |s.moves| ensures MoveOk(t, s.moves[j]) && s.moves[j].ns != s.cleaners[c].ns {
      RenameKeepsMove(s, c, s.moves[j]);
    }
    assert MoveOk(t, t.moves[|s.moves|]);
  }

  // ---------- whole runs ----------

  lemma InvTick(s: State, elapsed: nat)
    requires Inv(s)
    ensures Inv(s.(clock := s.clock + elapsed))
  {
    var t := s.(clock := s.clock + elapsed);
    PlacesFrame(s, t);
    forall x | x in t.runs ensures RunOk(t, x) { RunFrame(s, t, x); }
    forall c | c in t.cleaners ensures CleanerOk(t, c) { assert CleanerOk(s, c); CleanerFrame(s, t, c); }
    forall j | 0 <= j < |s.moves| ensures s.moves[j].ns in t.ns && !InPlace(t, s.moves[j].ns) {
      assert MoveOk(s, s.moves[j]);
    }
    MovesFrame(s, t);
    forall x | x in t.ns
      ensures PastOk(t.ns[x], t.clock) && PassedOk(t, t.ns[x]) && LockOk(t, x) && t.ns[x].owner in t.runs
    {
      assert LockOk(s, x);
      PastFrame(s, t, x);
    }
  }

  lemma InvByRun(s: State, a: RunAction)
    requires Inv(s) && RunCan(s, a)
    ensures Inv(RunStep(s, a))
  {
    if a.Touch? || a.Unlink? || a.CloseHeld? || a.Die? {
      InvByRelease(s, a);
    } else if a.MakeOwn? || a.MarkOwn? || a.FinishOwn? || a.CloseOwn? {
      InvByOwner(s, a);
    } else {
      InvByAcquire(s, a);
    }
  }

  lemma InvByAcquire(s: State, a: RunAction)
    requires Inv(s) && RunCan(s, a) && (a.Start? || a.Open? || a.LockShared? || a.Verify? || a.MarkChild?)
    ensures Inv(RunStep(s, a))
  {
    match a {
      case Start(r, path) => InvStart(s, r, path);
      case Open(r) => InvOpen(s, r);
      case LockShared(r) => InvLockShared(s, r);
      case Verify(r) => InvVerify(s, r);
      case MarkChild(r) => InvMarkChild(s, r);
    }
  }

  lemma InvByOwner(s: State, a: RunAction)
    requires Inv(s) && RunCan(s, a) && (a.MakeOwn? || a.MarkOwn? || a.FinishOwn? || a.CloseOwn?)
    ensures Inv(RunStep(s, a))
  {
    match a {
      case MakeOwn(r, made, name) => InvMakeOwn(s, r, made, name);
      case MarkOwn(r) => InvMarkOwn(s, r);
      case FinishOwn(r) => InvFinishOwn(s, r);
      case CloseOwn(r) => InvCloseOwn(s, r);
    }
  }

  lemma InvByRelease(s: State, a: RunAction)
    requires Inv(s) && RunCan(s, a) && (a.Touch? || a.Unlink? || a.CloseHeld? || a.Die?)
    ensures Inv(RunStep(s, a))
  {
    match a {
      case Touch(r, l) => InvTouch(s, r, l);
      case Unlink(r, l) => InvUnlink(s, r, l);
      case CloseHeld(r, l) => InvCloseHeld(s, r, l);
      case Die(r) => InvDie(s, r);
    }
  }

  lemma InvByCleaner(s: State, a: CleanerAction)
    requires Inv(s) && CleanerCan(s, a)
    ensures Inv(CleanerStep(s, a))
  {
    match a {
      case Look(c, key, i, cutoff) => InvLook(s, c, key, i, cutoff);
      case LockExclusive(c) => InvLockExclusive(s, c);
      case CheckAges(c) => InvCheckAges(s, c);
      case CheckFinished(c) => InvCheckFinished(s, c);
      case CheckOwnerDead(c) => InvCheckOwnerDead(s, c);
      case CheckFinal(c) => InvCheckFinal(s, c);
      case Rename(c) => InvRename(s, c);
      case Leave(c) => InvLeave(s, c);
    }
  }

  lemma InvStepTick(s: State, a: Action)
    requires Inv(s) && a.Tick?
    ensures Inv(Step(s, a))
  {
    InvTick(s, a.elapsed);
  }

  lemma InvStepByRun(s: State, a: Action)
    requires Inv(s) && a.ByRun?
    ensures Can(s, a) ==> Inv(Step(s, a))
  {
    if Can(s, a) { InvByRun(s, a.run); }
  }

  lemma InvStepByCleaner(s: State, a: Action)
    requires Inv(s) && a.ByCleaner?
    ensures Can(s, a) ==> Inv(Step(s, a))
  {
    if Can(s, a) { InvByCleaner(s, a.cleaner); }
  }

  lemma InvStep(s: State, a: Action)
    requires Inv(s) && Can(s, a)
    ensures Inv(Step(s, a))
  {
    if a.ByRun? {
      InvStepByRun(s, a);
    } else if a.ByCleaner? {
      InvStepByCleaner(s, a);
    } else {
      InvStepTick(s, a);
    }
  }

  lemma {:induction false} InvRuns(s: State, actions: seq<Action>, t: State)
    requires Inv(s) && Runs(s, actions, t)
    ensures Inv(t)
    decreases actions
  {
    if actions != [] {
      InvStep(s, actions[0]);
      InvRuns(Step(s, actions[0]), actions[1..], t);
    }
  }

  /** Over every interleaving, a namespace is moved away only after its owner wrote the terminal marker and
      every run that ever acquired it finished cleanly, all of it at or before the cleaner's cutoff. */
  lemma {:induction false} MovedOnlyWhenSettled(actions: seq<Action>, t: State, j: nat)
    requires Runs(Init, actions, t) && j < |t.moves|
    ensures t.moves[j].ns in t.ns
    ensures var n, cutoff := t.ns[t.moves[j].ns], t.moves[j].cutoff;
      && n.finished.Some? && n.finished.value <= cutoff && n.created <= cutoff
      && !Live(t, n.owner)
      && (forall q | q in n.acquired :: q in n.clean && n.clean[q].touched <= cutoff && n.clean[q].unlinked <= cutoff)
  {
    InvRuns(Init, actions, t);
    assert MoveOk(t, t.moves[j]);
    var n := t.ns[t.moves[j].ns];
    assert PastOk(n, t.clock);
  }

  /** At most one cleaner ever moves a namespace, whatever descriptors were opened before. */
  lemma {:induction false} MovedAtMostOnce(actions: seq<Action>, t: State, j: nat, k: nat)
    requires Runs(Init, actions, t) && j < |t.moves| && k < |t.moves| && t.moves[j].ns == t.moves[k].ns
    ensures j == k
  {
    InvRuns(Init, actions, t);
  }

  lemma HeldInPlace(t: State, r: RunId, l: nat)
    requires RunsOk(t) && Live(t, r) && l in t.runs[r].held
    ensures InPlace(t, t.runs[r].held[l])
  {
    assert RunOk(t, r) && HeldOk(t, r, l, t.runs[r].held[l]);
  }

  lemma InPlaceNotMoved(t: State, i: NsId)
    requires MovesOk(t) && InPlace(t, i)
    ensures forall m | m in t.moves :: m.ns != i
  {
    forall m | m in t.moves ensures m.ns != i {
      var j :| 0 <= j < |t.moves| && t.moves[j] == m;
      assert MoveOk(t, t.moves[j]);
    }
  }

  // ---------- what may be moved can be moved ----------

  lemma {:induction false} RunsThen(s: State, actions: seq<Action>, t: State, a: Action)
    requires Runs(s, actions, t) && Can(t, a)
    ensures Runs(s, actions + [a], Step(t, a))
    decreases actions
  {
    if actions == [] {
      assert ([a])[1..] == [] && Runs(Step(s, a), [], Step(t, a));
      assert actions + [a] == [a];
    } else {
      RunsThen(Step(s, actions[0]), actions[1..], t, a);
      assert (actions + [a])[1..] == actions[1..] + [a];
    }
  }

  /** A namespace in place that passes every check of a cleaner. */
  predicate Prunable(s: State, i: NsId, cutoff: int) {
    && InPlace(s, i) && s.ns[i].marked && s.ns[i].exclusive.None? && s.ns[i].shared == {}
    && OldEnough(s.ns[i], cutoff) && FinishedBy(s.ns[i], cutoff) && !Live(s, s.ns[i].owner)
  }

  /** Every prunable namespace can be moved, by any new cleaner: the checks do not retain what is settled. */
  lemma PrunableCanBeMoved(s: State, c: CleanerId, i: NsId, cutoff: int) returns (actions: seq<Action>, t: State)
    requires c !in s.cleaners && Prunable(s, i, cutoff)
    ensures Runs(s, actions, t) && t.moves == s.moves + [Move(c, i, cutoff)] && !InPlace(t, i)
    ensures t.runs == s.runs && t.entries == s.entries - {s.ns[i].key}
  {
    actions, t := LocksPrunable(s, c, i, cutoff);
    actions, t := ThenMoves(s, actions, t, c, i);
  }

  lemma LocksPrunable(s: State, c: CleanerId, i: NsId, cutoff: int) returns (actions: seq<Action>, t: State)
    requires c !in s.cleaners && Prunable(s, i, cutoff)
    ensures Runs(s, actions, t) && t.moves == s.moves && t.entries == s.entries && InPlace(t, i)
    ensures t.ns[i].key == s.ns[i].key
    ensures At(t, c, Exclusive) && t.cleaners[c] == Cleaner(t.ns[i].key, i, cutoff, Exclusive) && t.runs == s.runs
    ensures OldEnough(t.ns[i], cutoff) && FinishedBy(t.ns[i], cutoff) && !Live(t, t.ns[i].owner)
  {
    var look, lock := ByCleaner(Look(c, s.ns[i].key, i, cutoff)), ByCleaner(LockExclusive(c));
    assert Runs(s, [], s);
    RunsThen(s, [], s, look);
    t := Step(s, look);
    RunsThen(s, [look], t, lock);
    actions, t := [look, lock], Step(t, lock);
    assert [look] + [lock] == actions && [] + [look] == [look];
  }

  lemma ThenMoves(s: State, before: seq<Action>, u: State, c: CleanerId, i: NsId)
    returns (actions: seq<Action>, t: State)
    requires Runs(s, before, u) && At(u, c, Exclusive) && InPlace(u, i)
    requires u.cleaners[c].ns == i && u.cleaners[c].key == u.ns[i].key && !Live(u, u.ns[i].owner)
    requires OldEnough(u.ns[i], u.cleaners[c].cutoff) && FinishedBy(u.ns[i], u.cleaners[c].cutoff)
    ensures Runs(s, actions, t) && t.moves == u.moves + [Move(c, i, u.cleaners[c].cutoff)] && !InPlace(t, i)
    ensures t.runs == u.runs && t.entries == u.entries - {u.ns[i].key}
  {
    actions, t := ThenChecks(s, before, u, c, i);
    actions, t := ThenDoes(s, actions, t, ByCleaner(CheckFinal(c)));
    actions, t := ThenDoes(s, actions, t, ByCleaner(Rename(c)));
  }

  lemma ThenChecks(s: State, before: seq<Action>, u: State, c: CleanerId, i: NsId)
    returns (actions: seq<Action>, t: State)
    requires Runs(s, before, u) && At(u, c, Exclusive) && InPlace(u, i)
    requires u.cleaners[c].ns == i && u.cleaners[c].key == u.ns[i].key && !Live(u, u.ns[i].owner)
    requires OldEnough(u.ns[i], u.cleaners[c].cutoff) && FinishedBy(u.ns[i], u.cleaners[c].cutoff)
    ensures Runs(s, actions, t) && t == SetCleaner(u, c, u.cleaners[c].(progress := Cleared))
  {
    actions, t := ThenSettled(s, before, u, c);
    actions, t := ThenOwnerDead(s, actions, t, c);
    assert t.cleaners == u.cleaners[c := u.cleaners[c].(progress := Cleared)];
  }

  lemma ThenSettled(s: State, before: seq<Action>, u: State, c: CleanerId) returns (actions: seq<Action>, t: State)
    requires Runs(s, before, u) && CanCheckAges(u, c) && FinishedBy(u.ns[u.cleaners[c].ns], u.cleaners[c].cutoff)
    ensures Runs(s, actions, t) && t == SetCleaner(u, c, u.cleaners[c].(progress := Settled))
  {
    actions, t := ThenAges(s, before, u, c);
    actions, t := ThenFinished(s, actions, t, c);
    assert t.cleaners == u.cleaners[c := u.cleaners[c].(progress := Settled)];
  }

  lemma ThenAges(s: State, before: seq<Action>, u: State, c: CleanerId) returns (actions: seq<Action>, t: State)
    requires Runs(s, before, u) && CanCheckAges(u, c)
    ensures Runs(s, actions, t) && t == DoCheckAges(u, c)
  {
    actions, t := ThenDoes(s, before, u, ByCleaner(CheckAges(c)));
  }

  lemma ThenFinished(s: State, before: seq<Action>, u: State, c: CleanerId) returns (actions: seq<Action>, t: State)
    requires Runs(s, before, u) && CanCheckFinished(u, c)
    ensures Runs(s, actions, t) && t == DoCheckFinished(u, c)
  {
    actions, t := ThenDoes(s, before, u, ByCleaner(CheckFinished(c)));
  }

  lemma ThenOwnerDead(s: State, before: seq<Action>, u: State, c: CleanerId) returns (actions: seq<Action>, t: State)
    requires Runs(s, before, u) && CanCheckOwnerDead(u, c)
    ensures Runs(s, actions, t) && t == DoCheckOwnerDead(u, c)
  {
    actions, t := ThenDoes(s, before, u, ByCleaner(CheckOwnerDead(c)));
  }

  lemma ThenDoes(s: State, before: seq<Action>, u: State, a: Action) returns (actions: seq<Action>, t: State)
    requires Runs(s, before, u) && Can(u, a)
    ensures Runs(s, actions, t) && t == Step(u, a)
  {
    RunsThen(s, before, u, a);
    actions, t := before + [a], Step(u, a);
  }

  // ---------- paths ----------

  lemma {:induction false} ResolveGrows(m: map<Key, NsId>, m': map<Key, NsId>, path: seq<nat>)
    requires forall k | k in m :: k in m' && m'[k] == m[k]
    requires Resolve(m, path).Some?
    ensures Resolve(m', path) == Resolve(m, path)
  {
    if path != [] { ResolveGrows(m, m', path[..|path| - 1]); }
  }
}
