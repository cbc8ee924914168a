/** The race-tolerant Linux process census of `scripts/instance_state_writer_inventory.py`. The process table
    is a function of time that the census samples at moments it does not choose. */
module Census {
  import opened Sorted
  import opened Wrappers

  const READ_ATTEMPTS := 3
  const CENSUS_ATTEMPTS := 3
  const NUL: char := '\0'

  /** A process as procfs shows it; `incarnation` is the identity that no file of procfs reveals. */
  datatype Process = Process(incarnation: nat, ticks: nat, inert: bool, ppid: nat, pgid: nat, cmdline: string,
                             exe: string)

  /** The processes by pid, at each moment. */
  type World = nat -> map<nat, Process>

  datatype Stat = Stat(ticks: nat, inert: bool, ppid: nat, pgid: nat)

  /** The token is a digest, taken as injective. */
  datatype Token = Token(boot: string, pid: nat, ticks: nat)

  datatype Record = Record(pid: nat, ppid: nat, pgid: nat, token: Token, argv: seq<string>, hint: Option<string>)

  function StatOf(p: Process): Stat { Stat(p.ticks, p.inert, p.ppid, p.pgid) }

  // ---------- one incarnation ----------

  /** Pids are reused with increasing start ticks, and a process that ended does not come back. */
  ghost predicate PidReuse(world: World) {
    && (forall pid, s, t | s <= t && pid in world(s) && pid in world(t) :: Follows(world(s)[pid], world(t)[pid]))
    && (forall pid, s, t, u | s <= t <= u && pid in world(s) && pid in world(u) ::
          world(s)[pid].incarnation == world(u)[pid].incarnation ==> pid in world(t))
  }

  predicate Follows(p: Process, q: Process) {
    if p.incarnation == q.incarnation then p.ticks == q.ticks else p.ticks < q.ticks
  }

  /** Equal start ticks at two moments: one incarnation then and at every moment between. */
  lemma OneIncarnation(world: World, pid: nat, s: nat, t: nat, u: nat)
    requires PidReuse(world) && s <= t <= u && pid in world(s) && pid in world(u)
    requires world(s)[pid].ticks == world(u)[pid].ticks
    ensures pid in world(t) && world(t)[pid].incarnation == world(s)[pid].incarnation == world(u)[pid].incarnation
  {
    assert Follows(world(s)[pid], world(u)[pid]);
    assert Follows(world(s)[pid], world(t)[pid]);
    assert Follows(world(t)[pid], world(u)[pid]);
  }

  // ---------- argv ----------

  /** `bytes.split` at NUL. */
  function Split(s: string): (args: seq<string>)
    ensures args != []
  {
    if s == "" then [""]
    else if s[0] == NUL then [""] + Split(s[1..])
    else
      var rest := Split(s[1..]);
      [[s[0]] + rest[0]] + rest[1..]
  }

  /** The procfs form: every argument followed by a NUL. */
  function Terminated(args: seq<string>): string {
    if args == [] then "" else args[0] + [NUL] + Terminated(args[1..])
  }

  lemma {:induction false} TerminatedPrepend(c: char, args: seq<string>)
    requires args != []
    ensures Terminated([[c] + args[0]] + args[1..]) == [c] + Terminated(args)
  {
    var longer := [[c] + args[0]] + args[1..];
    assert longer[1..] == args[1..];
    assert ([c] + args[0]) + [NUL] + Terminated(args[1..]) == [c] + (args[0] + [NUL] + Terminated(args[1..]));
  }

  /** No argument is lost, merged or moved, empty ones included. */
  lemma {:induction false} SplitKeepsAll(s: string)
    ensures Terminated(Split(s)) == s + [NUL]
  {
    if s != "" {
      SplitKeepsAll(s[1..]);
      var rest := Split(s[1..]);
      assert s == [s[0]] + s[1..];
      if s[0] == NUL {
        assert Split(s)[0] == "" && Split(s)[1..] == rest;
      } else {
        TerminatedPrepend(s[0], rest);
      }
    }
  }

  lemma {:induction false} SplitHasNoNul(s: string)
    ensures forall a | a in Split(s) :: NUL !in a
  {
    if s != "" {
      SplitHasNoNul(s[1..]);
      assert Split(s[1..])[0] in Split(s[1..]);
    }
  }

  /** A part without NUL goes in front of the first argument. */
  lemma {:induction false} SplitPlain(a: string, tail: string)
    requires NUL !in a
    ensures Split(a + tail) == [a + Split(tail)[0]] + Split(tail)[1..]
  {
    if a == "" {
      assert a + tail == tail && a + Split(tail)[0] == Split(tail)[0];
    } else {
      assert (a + tail)[0] == a[0] && (a + tail)[1..] == a[1..] + tail;
      SplitPlain(a[1..], tail);
      assert [a[0]] + (a[1..] + Split(tail)[0]) == a + Split(tail)[0];
    }
  }

  /** What a process was started with is what its record shows. */
  lemma {:induction false} SplitOfTerminated(args: seq<string>)
    requires args != [] && forall a | a in args :: NUL !in a
    ensures Terminated(args) != "" && Split(Terminated(args)[..|Terminated(args)| - 1]) == args
  {
    var t, rest := Terminated(args), Terminated(args[1..]);
    if |args| == 1 {
      assert t[..|t| - 1] == args[0] + "";
      SplitPlain(args[0], "");
      assert args[0] + "" == args[0];
    } else {
      SplitOfTerminated(args[1..]);
      var tail := [NUL] + rest[..|rest| - 1];
      assert t[..|t| - 1] == args[0] + tail;
      SplitPlain(args[0], tail);
      assert tail[1..] == rest[..|rest| - 1];
      assert args[0] + "" == args[0];
    }
  }

  // ---------- evidence ----------

  /** The moments of the two stat reads, and of the cmdline and executable reads between them. */
  datatype Moments = Moments(before: nat, cmdline: nat, exe: nat, after: nat)

  /** The same start ticks before and after, with the reads in order between them. */
  ghost predicate Bracketed(world: World, pid: nat, m: Moments) {
    && m.before <= m.cmdline <= m.exe <= m.after
    && pid in world(m.before) && pid in world(m.after)
    && world(m.before)[pid].ticks == world(m.after)[pid].ticks
  }

  ghost predicate SeenInert(world: World, pid: nat, m: Moments) {
    Bracketed(world, pid, m) && world(m.after)[pid].inert
  }

  /** The record's argv is the command line at a moment between two stats that agree with its token. */
  ghost predicate RecordOf(world: World, boot: string, pid: nat, m: Moments, r: Record) {
    && Bracketed(world, pid, m) && !world(m.after)[pid].inert && pid in world(m.cmdline)
    && r.pid == pid && r.token == Token(boot, pid, world(m.after)[pid].ticks)
    && r.ppid == world(m.after)[pid].ppid && r.pgid == world(m.after)[pid].pgid
    && r.argv != [] && Terminated(r.argv) == world(m.cmdline)[pid].cmdline && (forall a | a in r.argv :: NUL !in a)
    && (r.hint.Some? <==> r.argv[0] == "")
    && (r.hint.Some? ==> pid in world(m.exe) && r.hint == NormalExe(world(m.exe)[pid].exe))
  }

  /** The deletion suffix is dropped; what is then not an absolute path with a base name is refused. */
  function NormalExe(exe: string): Option<string> {
    var suffix := " (deleted)";
    var path := if |exe| >= |suffix| && exe[|exe| - |suffix|..] == suffix then exe[..|exe| - |suffix|] else exe;
    if path == "" || path[0] != '/' || NUL in path || path[|path| - 1] == '/' then None else Some(path)
  }

  ghost predicate Witnessed(world: World, boot: string, pid: nat, m: Moments, o: Option<Record>) {
    match o
    case Some(r) => RecordOf(world, boot, pid, m, r)
    case None => SeenInert(world, pid, m)
  }

  // ---------- disturbances ----------

  /** The moments at which procfs fails reads that it should serve. */
  type Faults = nat -> bool

  /** From `s` to `t` the process stays as it is, procfs serves every read, and what it serves can be used. */
  ghost predicate Steady(world: World, fails: Faults, pid: nat, s: nat, t: nat) {
    forall u | s <= u <= t :: !fails(u) && pid in world(u) && pid in world(s) && world(u)[pid] == world(s)[pid]
                              && Readable(world(u)[pid])
  }

  predicate Readable(p: Process) {
    (p.inert || EndsWithNul(p.cmdline)) && (EmptyFirst(p.cmdline) ==> NormalExe(p.exe).Some?)
  }

  /** From `s` to `t` the whole process table stays as it is, and every process in it can be read. */
  ghost predicate Calm(world: World, fails: Faults, s: nat, t: nat) {
    forall u | s <= u <= t ::
      !fails(u) && world(u) == world(s) && forall pid | pid in world(u) :: Readable(world(u)[pid])
  }

  /** Between `s` and `t` procfs fails a read, or shows a process whose command line or executable is malformed. */
  ghost predicate Faulty(world: World, fails: Faults, s: nat, t: nat) {
    || (exists u :: s <= u <= t && fails(u))
    || (exists pid, u, v :: s <= u <= v <= t && Malformed(world, pid, u, v))
  }

  ghost predicate Malformed(world: World, pid: nat, u: nat, v: nat) {
    && pid in world(u) && pid in world(v)
    && (|| (EmptyFirst(world(u)[pid].cmdline) && NormalExe(world(v)[pid].exe).None?)
        || (!EndsWithNul(world(u)[pid].cmdline) && !world(v)[pid].inert))
  }

  lemma FaultyWithin(world: World, fails: Faults, s: nat, t: nat, s': nat, t': nat)
    requires s' <= s <= t <= t'
    ensures Faulty(world, fails, s, t) ==> Faulty(world, fails, s', t')
  {
  }

  lemma SteadyWithin(world: World, fails: Faults, pid: nat, s: nat, t: nat, s': nat, t': nat)
    requires s' <= s <= t <= t' && Steady(world, fails, pid, s', t')
    ensures Steady(world, fails, pid, s, t)
  {
  }

  /** A later reading keeps the disturbances of the earlier ones, and adds its own. */
  lemma Widen(world: World, fails: Faults, pid: nat, start: nat, mid: nat, end: nat)
    requires start <= mid <= end
    ensures Faulty(world, fails, start, mid) || Faulty(world, fails, mid, end) ==> Faulty(world, fails, start, end)
    ensures Steady(world, fails, pid, start, end) ==>
      Steady(world, fails, pid, start, mid) && Steady(world, fails, pid, mid, end)
  {
    FaultyWithin(world, fails, start, mid, start, end);
    FaultyWithin(world, fails, mid, end, start, end);
    if Steady(world, fails, pid, start, end) {
      SteadyWithin(world, fails, pid, start, mid, start, end);
      SteadyWithin(world, fails, pid, mid, end, start, end);
    }
  }

  lemma CalmWithin(world: World, fails: Faults, s: nat, t: nat, s': nat, t': nat)
    requires s' <= s <= t <= t' && Calm(world, fails, s', t')
    ensures Calm(world, fails, s, t) && !Faulty(world, fails, s, t)
    ensures forall pid | pid in world(s) :: Steady(world, fails, pid, s, t)
  {
    assert world(s) == world(s');
  }

  lemma CalmSteady(world: World, fails: Faults, s: nat, listed: nat, from: nat, t: nat, pid: nat)
    requires s <= listed <= from <= t && Calm(world, fails, s, t) && pid in world(listed)
    ensures Steady(world, fails, pid, from, t)
  {
    CalmWithin(world, fails, from, t, s, t);
    assert world(listed) == world(s) == world(from);
  }

  // ---------- reading one pid ----------

  /** A procfs read: a value, a missing file, or a refusal or malformed content. */
  datatype Read<T> = Got(value: T) | Missing | Refused

  /** How one attempt of the retry loop ends. */
  datatype Attempt = Recorded(record: Record) | Inert | Vanished | Changed | Broken

  datatype Outcome = Done(record: Option<Record>) | Incomplete | Failed

  datatype CensusResult = Census(records: seq<Record>) | NoCensus

  class Procfs {
    const world: World
    const fails: Faults
    const boot: string
    var now: nat

    constructor (world: World, fails: Faults, boot: string, now: nat)
      ensures this.world == world && this.fails == fails && this.boot == boot && this.now == now
    {
      this.world, this.fails, this.boot, this.now := world, fails, boot, now;
    }

    /** Other processes run for an unknown while. */
    method Pass()
      modifies this
      ensures now >= old(now)
    {
      var later: int := *;
      if later > now { now := later; }
    }

    method ReadProcess(pid: nat) returns (r: Read<Process>)
      modifies this
      ensures now >= old(now)
      ensures r.Got? ==> pid in world(now) && r.value == world(now)[pid]
      ensures !fails(now) ==> r == if pid in world(now) then Got(world(now)[pid]) else Missing
    {
      Pass();
      var served, missing: bool := *, *;
      if served || !fails(now) {
        return if pid in world(now) then Got(world(now)[pid]) else Missing;
      }
      return if missing then Missing else Refused;
    }

    method ReadStat(pid: nat) returns (r: Read<Stat>)
      modifies this
      ensures now >= old(now)
      ensures r.Got? ==> pid in world(now) && r.value == StatOf(world(now)[pid])
      ensures !fails(now) ==> if pid in world(now) then r.Got? else r.Missing?
    {
      var p := ReadProcess(pid);
      return match p { case Got(q) => Got(StatOf(q)) case Missing => Missing case Refused => Refused };
    }

    method ReadCmdline(pid: nat) returns (r: Read<string>)
      modifies this
      ensures now >= old(now)
      ensures r.Got? ==> pid in world(now) && r.value == world(now)[pid].cmdline
      ensures !fails(now) ==> if pid in world(now) then r.Got? else r.Missing?
    {
      var p := ReadProcess(pid);
      return match p { case Got(q) => Got(q.cmdline) case Missing => Missing case Refused => Refused };
    }

    method ReadExe(pid: nat) returns (r: Read<string>)
      modifies this
      ensures now >= old(now)
      ensures r.Got? ==> pid in world(now) && NormalExe(world(now)[pid].exe) == Some(r.value)
      ensures r.Refused? ==> fails(now) || (pid in world(now) && NormalExe(world(now)[pid].exe).None?)
      ensures !fails(now) && r.Missing? ==> pid !in world(now)
    {
      var p := ReadProcess(pid);
      if p.Got? {
        var e := NormalExe(p.value.exe);
        return if e.Some? then Got(e.value) else Refused;
      }
      return if p.Missing? then Missing else Refused;
    }

    /** `_linux_pid_is_gone`: true only of a pid that is not there. */
    method PidIsGone(pid: nat) returns (gone: bool)
      modifies this
      ensures now >= old(now)
      ensures gone ==> pid !in world(now)
    {
      Pass();
      gone := pid !in world(now) && !fails(now);
    }

    /** The executable of a process whose first argument is empty, read twice around a second command line; the
        first command line was read at `since`. */
    method ReadHint(pid: nat, cmdline: string, ghost since: nat)
      returns (r: Read<string>, changed: bool, ghost when: nat)
      requires since <= now && pid in world(since) && world(since)[pid].cmdline == cmdline && EmptyFirst(cmdline)
      modifies this
      ensures old(now) <= when <= now
      ensures r.Got? ==> pid in world(when) && NormalExe(world(when)[pid].exe) == Some(r.value)
      ensures r.Refused? ==> Faulty(world, fails, since, now)
      ensures Steady(world, fails, pid, since, now) ==> r.Got? && !changed
    {
      r := ReadExe(pid);
      when, changed := now, false;
      if !r.Got? {
        assert r.Refused? && !fails(now) ==> Malformed(world, pid, since, now);
        return;
      }
      var again := ReadCmdline(pid);
      if !again.Got? { return if again.Missing? then Missing else Refused, false, when; }
      var confirmed := ReadExe(pid);
      if !confirmed.Got? {
        assert confirmed.Refused? && !fails(now) ==> Malformed(world, pid, since, now);
        return confirmed, false, when;
      }
      changed := cmdline != again.value || r != confirmed;
    }

    /** The body of the retry loop of `_linux_record`. */
    method ReadOnce(pid: nat) returns (o: Attempt, ghost m: Moments)
      modifies this
      ensures old(now) <= m.before && m.after <= now && old(now) <= now
      ensures o.Recorded? ==> RecordOf(world, boot, pid, m, o.record)
      ensures o.Inert? ==> SeenInert(world, pid, m)
      ensures o.Broken? ==> Faulty(world, fails, old(now), now)
      ensures Steady(world, fails, pid, old(now), now) ==> Settles(o)
    {
      m := Moments(now, now, now, now);
      var before := ReadStat(pid);
      if !before.Got? { return if before.Missing? then Vanished else Broken, m; }
      m := m.(before := now, after := now);
      var cmdline := ReadCmdline(pid);
      if !cmdline.Got? { return if cmdline.Missing? then Vanished else Broken, m; }
      m := m.(cmdline := now, exe := now, after := now);
      var hint, changed := None, false;
      if EmptyFirst(cmdline.value) {
        var exe, c;
        ghost var when;
        exe, c, when := ReadHint(pid, cmdline.value, m.cmdline);
        if !exe.Got? { return if exe.Missing? then Vanished else Broken, m; }
        hint, changed, m := Some(exe.value), c, m.(exe := when, after := now);
      }
      var after := ReadStat(pid);
      if !after.Got? { return if after.Missing? then Vanished else Broken, m; }
      m := m.(after := now);
      if before.value.ticks != after.value.ticks { return Changed, m; }
      if changed { return Changed, m; }
      if after.value.inert { return Inert, m; }
      if !EndsWithNul(cmdline.value) {
        assert Malformed(world, pid, m.cmdline, m.after);
        return Broken, m;
      }
      var s := cmdline.value;
      var argv := Split(s[..|s| - 1]);
      ArgvFacts(s);
      var token := Token(boot, pid, after.value.ticks);
      return Recorded(Record(pid, after.value.ppid, after.value.pgid, token, argv, hint)), m;
    }

    /** `_linux_record`. The trace holds the attempts made; all but the last left the loop running. */
    method LinuxRecord(pid: nat, strict: bool, failClosed: bool)
      returns (r: Outcome, ghost m: Moments, ghost trace: seq<Attempt>)
      modifies this
      ensures old(now) <= m.before && m.after <= now && old(now) <= now
      ensures Retried(trace)
      ensures r.Done? && r.record.Some? ==>
        RecordOf(world, boot, pid, m, r.record.value) && trace[|trace| - 1] == Recorded(r.record.value)
      ensures r == Done(None) ==> !strict
      ensures r == Done(None) && trace[|trace| - 1] == Inert ==> SeenInert(world, pid, m)
      ensures r == Done(None) && trace[|trace| - 1] != Inert ==> !failClosed && pid !in world(now)
      ensures !strict && Settles(trace[|trace| - 1]) ==> r.Done?
      ensures r == Incomplete ==> failClosed
      ensures failClosed && !strict && !Settles(trace[|trace| - 1]) ==>
        r == if Broken in trace then Failed else Incomplete
      ensures Broken in trace ==> Faulty(world, fails, old(now), now)
      ensures !strict && Steady(world, fails, pid, old(now), now) ==> r.Done?
    {
      trace, m := [], Moments(now, now, now, now);
      var terminal := false;
      for attempt := 0 to READ_ATTEMPTS
        invariant |trace| == attempt && (forall a | a in trace :: !Settles(a)) && (terminal <==> Broken in trace)
        invariant old(now) <= m.before && m.after <= now && old(now) <= now
        invariant Broken in trace ==> Faulty(world, fails, old(now), now)
        invariant attempt > 0 ==> !Steady(world, fails, pid, old(now), now)
      {
        var o;
        ghost var start := now;
        o, m := ReadOnce(pid);
        trace := trace + [o];
        Widen(world, fails, pid, old(now), start, now);
        match o {
          case Recorded(record) => return Done(Some(record)), m, trace;
          case Inert => return if strict then Failed else Done(None), m, trace;
          case Broken => terminal := true;
          case Changed =>
          case Vanished =>
            if attempt == READ_ATTEMPTS - 1 && !terminal {
              ghost var mid := now;
              var gone := PidIsGone(pid);
              Widen(world, fails, pid, old(now), mid, now);
              if gone { return GoneResult(strict, failClosed), m, trace; }
            }
        }
      }
      if terminal {
        if !failClosed {
          ghost var mid := now;
          var gone := PidIsGone(pid);
          Widen(world, fails, pid, old(now), mid, now);
          if gone { return GoneResult(strict, false), m, trace; }
        }
        return Failed, m, trace;
      }
      if failClosed {
        ghost var mid := now;
        var gone := PidIsGone(pid);
        Widen(world, fails, pid, old(now), mid, now);
        return if gone then GoneResult(strict, failClosed) else Incomplete, m, trace;
      }
      return Failed, m, trace;
    }

    /** The pids of procfs, in order; may fail. */
    method ListPids() returns (r: Option<seq<nat>>)
      modifies this
      ensures now >= old(now)
      ensures r.Some? ==> Ascending(r.value) && forall p :: p in r.value <==> p in world(now)
      ensures r.None? ==> fails(now)
    {
      Pass();
      var served: bool := *;
      if !served && fails(now) { return None; }
      var table := world(now);
      var sorted := SortedSet(table.Keys);
      return Some(sorted);
    }

    /** `_enumerate_linux`: the records of one attempt that accounted for every pid of its own listing. It refuses
        only if procfs failed or showed a malformed process, or if the table changed in each of three attempts. */
    method EnumerateLinux()
      returns (r: CensusResult, ghost listed: nat, ghost pids: seq<nat>, ghost outcomes: seq<Option<Record>>,
               ghost moments: seq<Moments>)
      modifies this
      ensures old(now) <= now
      ensures r.Census? ==> old(now) <= listed && Accounted(world, boot, listed, now, pids, outcomes, moments)
      ensures r.Census? ==> r.records == Present(outcomes)
      ensures r.NoCensus? ==> Faulty(world, fails, old(now), now) || ThriceDisturbed(world, fails, old(now), now)
      ensures Calm(world, fails, old(now), now) ==> r.Census?
    {
      listed, pids, outcomes, moments := now, [], [], [];
      ghost var ends := [now];
      for attempt := 0 to CENSUS_ATTEMPTS
        invariant old(now) <= now && |ends| == attempt + 1 && ends[0] == old(now) && ends[attempt] == now
        invariant AllDisturbed(world, fails, ends)
      {
        var complete;
        ghost var start := now;
        r, complete, listed, pids, outcomes, moments := EnumerateOnce();
        FaultyWithin(world, fails, start, now, old(now), now);
        if complete {
          if r.NoCensus? && Calm(world, fails, old(now), now) {
            CalmWithin(world, fails, old(now), now, old(now), now);
          }
          return;
        }
        ends := ends + [now];
      }
      r := NoCensus;
      assert ends[3] == now;
      DisturbedThrice(world, fails, ends);
    }

    /** One pid of a listing made at `listed`, in an attempt begun at `start`. */
    method CountPid(pid: nat, ghost start: nat, ghost listed: nat) returns (o: Outcome, ghost m: Moments)
      requires start <= listed <= now && pid in world(listed)
      modifies this
      ensures old(now) <= m.before && m.after <= now && old(now) <= now
      ensures o.Done? ==> Witnessed(world, boot, pid, m, o.record)
      ensures o.Failed? ==> Faulty(world, fails, start, now)
      ensures o.Incomplete? ==> !Calm(world, fails, start, now)
    {
      ghost var trace, from;
      from := now;
      o, m, trace := LinuxRecord(pid, false, true);
      if o.Failed? {
        FaultyWithin(world, fails, from, now, start, now);
      } else if o.Incomplete? && Calm(world, fails, start, now) {
        CalmSteady(world, fails, start, listed, from, now, pid);
      }
    }

    /** One attempt: with a census, with a refusal, or incomplete because the table changed. */
    method EnumerateOnce()
      returns (r: CensusResult, complete: bool, ghost listed: nat, ghost pids: seq<nat>,
               ghost outcomes: seq<Option<Record>>, ghost moments: seq<Moments>)
      modifies this
      ensures old(now) <= now
      ensures r.Census? ==>
        && complete && old(now) <= listed && Accounted(world, boot, listed, now, pids, outcomes, moments)
        && r.records == Present(outcomes)
      ensures complete && r.NoCensus? ==> Faulty(world, fails, old(now), now)
      ensures !complete ==> !Calm(world, fails, old(now), now)
    {
      ghost var start := now;
      r, complete, listed, pids, outcomes, moments := NoCensus, true, now, [], [], [];
      var list := ListPids();
      if list.None? { return; }
      listed, pids := now, list.value;
      var records: seq<Record> := [];
      for i := 0 to |list.value|
        invariant start <= listed <= now && pids == list.value && complete && r.NoCensus?
        invariant forall p | p in pids :: p in world(listed)
        invariant AllWitnessed(world, boot, listed, now, pids[..i], outcomes, moments) && records == Present(outcomes)
      {
        var o;
        ghost var m, from;
        from := now;
        o, m := CountPid(list.value[i], start, listed);
        if o.Failed? { return; }
        if o.Incomplete? {
          complete := false;
          return;
        }
        assert pids[..i + 1] == pids[..i] + [pids[i]];
        WitnessedNext(world, boot, listed, from, now, pids[..i], outcomes, moments, pids[i], o.record, m);
        PresentAppend(outcomes, o.record);
        outcomes, moments := outcomes + [o.record], moments + [m];
        if o.record.Some? { records := records + [o.record.value]; }
      }
      assert pids[..|pids|] == pids;
      r := Census(records);
    }
  }

  /** Three disturbances, one after the other. */
  ghost predicate ThriceDisturbed(world: World, fails: Faults, s: nat, t: nat) {
    exists u, v :: s <= u <= v <= t
                   && !Calm(world, fails, s, u) && !Calm(world, fails, u, v) && !Calm(world, fails, v, t)
  }

  /** The table is disturbed between any two neighbouring moments. */
  ghost predicate AllDisturbed(world: World, fails: Faults, ends: seq<nat>) {
    forall i | 0 < i < |ends| :: ends[i - 1] <= ends[i] && !Calm(world, fails, ends[i - 1], ends[i])
  }

  lemma DisturbedThrice(world: World, fails: Faults, ends: seq<nat>)
    requires |ends| == 4 && AllDisturbed(world, fails, ends)
    ensures ThriceDisturbed(world, fails, ends[0], ends[3]) && !Calm(world, fails, ends[0], ends[3])
  {
    assert !Calm(world, fails, ends[0], ends[1]) && !Calm(world, fails, ends[1], ends[2]);
    assert !Calm(world, fails, ends[2], ends[3]);
    if Calm(world, fails, ends[0], ends[3]) { CalmWithin(world, fails, ends[0], ends[1], ends[0], ends[3]); }
  }

  predicate EndsWithNul(s: string) { s != "" && s[|s| - 1] == NUL }

  /** A terminated command line whose first argument is empty. */
  predicate EmptyFirst(s: string) { EndsWithNul(s) && s[0] == NUL }

  lemma ArgvFacts(s: string)
    requires EndsWithNul(s)
    ensures var argv := Split(s[..|s| - 1]);
      Terminated(argv) == s && (forall a | a in argv :: NUL !in a) && (argv[0] == "" <==> EmptyFirst(s))
  {
    SplitKeepsAll(s[..|s| - 1]);
    SplitHasNoNul(s[..|s| - 1]);
    assert s == s[..|s| - 1] + [NUL];
  }

  function GoneResult(strict: bool, failClosed: bool): Outcome {
    if strict then Failed else if failClosed then Incomplete else Done(None)
  }

  predicate Settles(a: Attempt) { a.Recorded? || a.Inert? }

  /** At most three attempts; only the last may settle, and fewer than three only if it did. */
  predicate Retried(trace: seq<Attempt>) {
    && 0 < |trace| <= READ_ATTEMPTS
    && (forall i | 0 <= i < |trace| - 1 :: !Settles(trace[i]))
    && (|trace| < READ_ATTEMPTS ==> Settles(trace[|trace| - 1]))
  }

  // ---------- the census ----------

  function Present(outcomes: seq<Option<Record>>): seq<Record> {
    if outcomes == [] then []
    else
      var o := outcomes[|outcomes| - 1];
      Present(outcomes[..|outcomes| - 1]) + (if o.Some? then [o.value] else [])
  }

  lemma {:induction false} PresentAppend(outcomes: seq<Option<Record>>, o: Option<Record>)
    ensures Present(outcomes + [o]) == Present(outcomes) + (if o.Some? then [o.value] else [])
  {
    assert (outcomes + [o])[..|outcomes|] == outcomes;
  }

  lemma {:induction false} PresentMembers(outcomes: seq<Option<Record>>)
    ensures forall r :: r in Present(outcomes) <==> Some(r) in outcomes
  {
    if outcomes != [] {
      PresentMembers(outcomes[..|outcomes| - 1]);
      assert outcomes == outcomes[..|outcomes| - 1] + [outcomes[|outcomes| - 1]];
    }
  }

  ghost predicate AllWitnessed(world: World, boot: string, listed: nat, end: nat, pids: seq<nat>,
                               outcomes: seq<Option<Record>>, moments: seq<Moments>) {
    && |pids| == |outcomes| == |moments|
    && (forall i | 0 <= i < |pids| ::
          && listed <= moments[i].before && moments[i].after <= end
          && Witnessed(world, boot, pids[i], moments[i], outcomes[i]))
  }

  lemma WitnessedNext(world: World, boot: string, listed: nat, mid: nat, end: nat, pids: seq<nat>,
                      outcomes: seq<Option<Record>>, moments: seq<Moments>, pid: nat, o: Option<Record>, m: Moments)
    requires listed <= mid <= end && AllWitnessed(world, boot, listed, mid, pids, outcomes, moments)
    requires mid <= m.before && m.after <= end && Witnessed(world, boot, pid, m, o)
    ensures AllWitnessed(world, boot, listed, end, pids + [pid], outcomes + [o], moments + [m])
  {
  }

  /** Every pid of the listing is accounted for by reads made after that listing. */
  ghost predicate Accounted(world: World, boot: string, listed: nat, end: nat, pids: seq<nat>,
                            outcomes: seq<Option<Record>>, moments: seq<Moments>) {
    && Ascending(pids) && (forall p :: p in pids <==> p in world(listed))
    && AllWitnessed(world, boot, listed, end, pids, outcomes, moments)
  }

  /** A process that ran, not inert, from the listing to the end is in the census under its own token. */
  lemma {:induction false} CensusComplete(world: World, boot: string, listed: nat, end: nat, pids: seq<nat>,
                                          outcomes: seq<Option<Record>>, moments: seq<Moments>, pid: nat)
    requires PidReuse(world) && Accounted(world, boot, listed, end, pids, outcomes, moments)
    requires forall t | listed <= t <= end :: pid in world(t) && !world(t)[pid].inert
    requires listed <= end
    requires forall t | listed <= t <= end :: world(t)[pid].incarnation == world(listed)[pid].incarnation
    ensures exists r :: r in Present(outcomes) && r.pid == pid && r.token == Token(boot, pid, world(listed)[pid].ticks)
  {
    assert pid in world(listed);
    var i :| 0 <= i < |pids| && pids[i] == pid;
    var m := moments[i];
    assert Witnessed(world, boot, pid, m, outcomes[i]);
    assert listed <= m.after <= end;
    assert Follows(world(listed)[pid], world(m.after)[pid]);
    PresentMembers(outcomes);
    assert outcomes[i] == Some(outcomes[i].value);
    assert outcomes[i].value in Present(outcomes);
  }

  /** Every record describes one incarnation that was alive after the listing: its argv is the command line and
      its token the start of the same process. */
  lemma CensusSound(world: World, boot: string, listed: nat, end: nat, pids: seq<nat>, outcomes: seq<Option<Record>>,
                    moments: seq<Moments>, r: Record)
    returns (m: Moments)
    requires PidReuse(world) && Accounted(world, boot, listed, end, pids, outcomes, moments) && r in Present(outcomes)
    ensures listed <= m.before <= m.cmdline <= m.after <= end && r.pid in world(listed)
    ensures r.pid in world(m.cmdline) && r.pid in world(m.after)
    ensures world(m.cmdline)[r.pid].incarnation == world(m.after)[r.pid].incarnation && !world(m.after)[r.pid].inert
    ensures Terminated(r.argv) == world(m.cmdline)[r.pid].cmdline
    ensures r.token == Token(boot, r.pid, world(m.cmdline)[r.pid].ticks)
  {
    PresentMembers(outcomes);
    var i :| 0 <= i < |outcomes| && outcomes[i] == Some(r);
    m := moments[i];
    assert Witnessed(world, boot, pids[i], m, outcomes[i]);
    assert pids[i] in pids;
    OneIncarnation(world, r.pid, m.before, m.cmdline, m.after);
    assert Follows(world(m.cmdline)[r.pid], world(m.after)[r.pid]);
  }

  /** One record per pid, in the order of the listing. */
  lemma {:induction false} OneRecordPerPid(world: World, boot: string, listed: nat, end: nat, pids: seq<nat>,
                                           outcomes: seq<Option<Record>>, moments: seq<Moments>)
    requires Ascending(pids) && AllWitnessed(world, boot, listed, end, pids, outcomes, moments)
    ensures forall i, j | 0 <= i < j < |Present(outcomes)| :: Present(outcomes)[i].pid < Present(outcomes)[j].pid
    ensures forall r | r in Present(outcomes) :: r.pid in pids
  {
    if pids != [] {
      var n := |pids| - 1;
      OneRecordPerPid(world, boot, listed, end, pids[..n], outcomes[..n], moments[..n]);
      assert Witnessed(world, boot, pids[n], moments[n], outcomes[n]);
      assert pids == pids[..n] + [pids[n]];
      assert forall p | p in pids[..n] :: p < pids[n];
    }
  }
}
