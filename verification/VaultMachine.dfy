/** The part of the operating system that the vault worker supervisor touches:
    a clock, the run root and the directories in it, a process table, a signal
    handler table, and a history of what the supervisor did and saw.

    Everything outside the supervisor acts through `Machine.Drift`. What it may
    do between two statements of the supervisor is the relation `Rely`. */
module VaultMachine {
  import opened Prelude

  type Path = nat
  type Pid = nat

  const SIGHUP := 1
  const SIGINT := 2
  const SIGQUIT := 3
  const SIGKILL := 9
  const SIGTERM := 15

  datatype Kind = Regular | Socket | Directory | OtherKind
  datatype Node = Node(kind: Kind, mode: nat, uid: nat, gid: nat, content: seq<bv8>)
  datatype Dir = Dir(mode: nat, uid: nat, gid: nat, entries: map<string, Node>)

  // A child stays a zombie until a poll or wait of the supervisor observes its exit.
  datatype ProcState = Running | Zombie(code: int) | Observed(code: int)
  // `sent` collects the signals for which killpg was issued on the child's group.
  datatype Proc = Proc(uid: nat, state: ProcState, sent: set<int>)

  datatype Handler = Relay | Prior(id: int)
  datatype Purpose = Secrets | SocketHome
  datatype Role = Worker | Web

  // SupervisorError with its code, and any other exception.
  datatype Code =
    | RootRequired | WebCommandMissing | Rejected(reason: string)   // loading secrets, target and identities
    | RunRootInvalid | WorkerExitedBeforeSocket | StartupInterrupted | WorkerSocketInvalid | WorkerSocketTimeout
    | WorkerSecretCleanupFailed | ChildCommandInvalid
  datatype Error = Expected(code: Code) | Unexpected

  // The calls that raise an OSError when they fail.
  datatype Call = Mkdtemp | ChangeDirectory | OpenDirectory | CreateFile | ChangeFile | WriteFile | Fsync | Popen

  datatype Event =
    | MadeDirectory(path: Path, purpose: Purpose)
    | Spawned(pid: Pid, role: Role, dirs: map<Path, Dir>)
    | CallFailed(call: Call)
    | RootSeen(root: Option<Node>)      // lstat of the run root; None if it failed
    | LoadFailed(reason: Option<string>)   // loading and checking the inputs raised a SupervisorError with this code, or another exception
    | CommandRefused(role: Role)        // the command line for this child was empty
    | Polled(pid: Pid, code: Option<int>)
    | Signalled(pid: Pid, sig: int, at: int)
    | Told(at: int)                     // time.monotonic()
    | Slept(ticks: nat)                 // time.sleep()
    | Landed(sig: int)                  // the relay's handler ran for this signal
    | Probed(path: Path, seen: Result<Option<Node>, ()>)   // lstat of the socket path in this directory
    | UnlinkFailed(path: Path, name: string)
    | RmdirFailed(path: Path)
    | RmtreeFailed(path: Path)
    | Reported(error: Error)            // the line on standard error
    | Decided(received: Option<int>)    // the read of `received` that fixes the exit status

  datatype World = World(
    clock: int,                         // milliseconds
    runRoot: Option<Node>,
    dirs: map<Path, Dir>,               // the directories inside the run root
    procs: map<Pid, Proc>,              // the children of the supervisor
    handlers: map<int, Handler>,
    log: seq<Event>)
  {
    function Note(e: Event): World {
      this.(log := log + [e])
    }
  }

  // ----- who can still act -----

  /** A child that has exited, or whose group was sent SIGKILL, runs no more code. */
  predicate Runs(p: Proc) {
    p.state.Running? && SIGKILL !in p.sent
  }

  predicate LiveOwner(w: World, uid: nat) {
    exists p | p in w.procs :: Runs(w.procs[p]) && w.procs[p].uid == uid
  }

  predicate GroupOrOtherWritable(mode: nat) {
    (mode / 16) % 2 == 1 || (mode / 2) % 2 == 1
  }

  /** Only root can add or remove entries of the run root. */
  predicate SafeRoot(root: Option<Node>) {
    root.Some? && root.value.kind.Directory? && root.value.uid == 0 && !GroupOrOtherWritable(root.value.mode)
  }

  /** The signal got through: the exit was observed, or the group was signalled. */
  ghost predicate Reached(p: Proc, sig: int) {
    p.state.Observed? || sig in p.sent
  }

  /** Nothing of this child can run any more. */
  ghost predicate Stopped(p: Proc) {
    p.state.Observed? || SIGKILL in p.sent
  }

  // ----- what happens between two statements of the supervisor -----

  ghost predicate Ages(p: Proc, q: Proc) {
    && q.uid == p.uid
    && p.sent <= q.sent
    && (match p.state
        case Running => true
        case Zombie(c) => q.state == Zombie(c) || q.state == Observed(c)
        case Observed(c) => q.state == Observed(c))
  }

  ghost predicate ProcsAge(a: map<Pid, Proc>, b: map<Pid, Proc>) {
    a.Keys == b.Keys && forall p :: p in a ==> Ages(a[p], b[p])
  }

  ghost predicate Quiet(e: Event) {
    e.Polled? || e.Signalled? || e.Landed? || e.Told? || e.Slept?
  }

  ghost predicate Calm(e: Event) {
    !e.Spawned? && !e.MadeDirectory? && !e.LoadFailed? && !e.CommandRefused?
  }

  /** What teardown does. */
  ghost predicate Closing(e: Event) {
    Quiet(e) || e.UnlinkFailed? || e.RmdirFailed?
  }

  ghost predicate QuietlyExtends(a: seq<Event>, b: seq<Event>) {
    a <= b && forall i :: |a| <= i < |b| ==> Quiet(b[i])
  }

  ghost predicate Closes(a: seq<Event>, b: seq<Event>) {
    a <= b && forall i :: |a| <= i < |b| ==> Closing(b[i])
  }

  ghost predicate CalmlyExtends(a: seq<Event>, b: seq<Event>) {
    a <= b && forall i :: |a| <= i < |b| ==> Calm(b[i])
  }

  /** The directories not in `touched` keep their owner, and those that no live child owns are unchanged. */
  ghost predicate DirsHeld(w: World, w': World, touched: set<Path>) {
    && w'.dirs.Keys <= w.dirs.Keys
    && forall p :: p in w.dirs && p !in touched ==>
        && p in w'.dirs
        && w'.dirs[p].uid == w.dirs[p].uid
        && (!LiveOwner(w, w.dirs[p].uid) ==> w'.dirs[p] == w.dirs[p])
  }

  ghost predicate Common(w: World, w': World) {
    w.clock <= w'.clock && w'.runRoot == w.runRoot && w'.handlers == w.handlers && ProcsAge(w.procs, w'.procs)
  }

  /** What other processes, the clock and the relay's handler can do to the machine. */
  ghost predicate Rely(w: World, w': World) {
    Common(w, w') && QuietlyExtends(w.log, w'.log) && (SafeRoot(w.runRoot) ==> DirsHeld(w, w', {}))
  }

  /** What a statement of the supervisor does that starts no child and works only on the directories `touched`. */
  ghost predicate Step(w: World, w': World, touched: set<Path>) {
    Common(w, w') && CalmlyExtends(w.log, w'.log) && (SafeRoot(w.runRoot) ==> DirsHeld(w, w', touched))
  }

  lemma ProcsAgeTransitive(a: map<Pid, Proc>, b: map<Pid, Proc>, c: map<Pid, Proc>)
    requires ProcsAge(a, b) && ProcsAge(b, c)
    ensures ProcsAge(a, c)
  {
  }

  lemma StepTransitive(a: World, b: World, c: World, s: set<Path>, t: set<Path>)
    requires Step(a, b, s) && Step(b, c, t)
    ensures Step(a, c, s + t)
  {
  }

  lemma RelyTransitive(a: World, b: World, c: World)
    requires Rely(a, b) && Rely(b, c)
    ensures Rely(a, c)
  {
  }

  lemma RelyIsStep(a: World, b: World, touched: set<Path>)
    requires Rely(a, b)
    ensures Step(a, b, touched)
  {
  }

  // ----- how a child was stopped, read from the log -----

  ghost predicate ExitPoll(e: Event) {
    e.Polled? && e.code.Some?
  }

  ghost predicate ExitSeen(log: seq<Event>, pid: Pid) {
    exists i :: 0 <= i < |log| && ExitPoll(log[i]) && log[i].pid == pid
  }

  ghost predicate SignalledWith(e: Event, pid: Pid, sig: int) {
    e.Signalled? && e.pid == pid && e.sig == sig
  }

  /** The group was sent SIGTERM and, after the ten seconds that children have to exit, SIGKILL. */
  ghost predicate TermThenKill(log: seq<Event>, pid: Pid) {
    exists i, j :: 0 <= i < j < |log| && SignalledWith(log[i], pid, SIGTERM) && SignalledWith(log[j], pid, SIGKILL)
                   && log[j].at >= log[i].at + 10_000
  }

  ghost predicate StoppedBy(log: seq<Event>, pid: Pid) {
    ExitSeen(log, pid) || TermThenKill(log, pid)
  }

  lemma StaysStoppedBy(a: seq<Event>, b: seq<Event>, pid: Pid)
    requires StoppedBy(a, pid) && a <= b
    ensures StoppedBy(b, pid)
  {
  }

  /** The exit was observed, in the table and in the log. */
  ghost predicate Exited(w: World, pid: Pid) {
    pid in w.procs && w.procs[pid].state.Observed? && ExitSeen(w.log, pid)
  }

  lemma StaysExited(w: World, w': World, pid: Pid)
    requires Exited(w, pid) && ProcsAge(w.procs, w'.procs) && w.log <= w'.log
    ensures Exited(w', pid)
  {
  }

  // ----- the first signal that landed -----

  ghost function FirstLanded(log: seq<Event>): Option<int> {
    if log == [] then None
    else if log[0].Landed? then Some(log[0].sig)
    else FirstLanded(log[1..])
  }

  lemma {:induction false} FirstLandedAppend(log: seq<Event>, e: Event)
    ensures FirstLanded(log + [e]) ==
            if FirstLanded(log).Some? then FirstLanded(log) else if e.Landed? then Some(e.sig) else None
  {
    if log != [] {
      assert (log + [e])[1..] == log[1..] + [e];
      FirstLandedAppend(log[1..], e);
    } else {
      assert (log + [e])[1..] == [];
    }
  }

  /** The last event is this poll; without a recorded signal it is the only new one. */
  ghost predicate JustPolled(a: seq<Event>, b: seq<Event>, pid: Pid, code: Option<int>) {
    && QuietlyExtends(a, b) && |b| > |a| && b[|b| - 1] == Polled(pid, code)
    && (FirstLanded(b).None? ==> b == a + [Polled(pid, code)])
  }

  datatype Move =
    | Exits(pid: Pid, code: int)
    | Passes(ticks: nat)
    | Rewrites(path: Path, mode: nat, entries: map<string, Node>)
    | Rearranges(dirs: map<Path, Dir>)

  datatype Removal = Removed | NotThere | Refused

  class Machine {
    var w: World

    constructor (w: World)
      ensures this.w == w
    {
      this.w := w;
    }

    /** Any finite run of other processes: children exit, time passes, a live child
        rewrites a directory it owns, and anyone rearranges an unsafe run root. */
    method Drift()
      modifies this
      ensures Rely(old(w), w) && w.log == old(w.log)
    {
      var n: nat :| true;
      while n > 0
        invariant Rely(old(w), w) && w.log == old(w.log)
        decreases n
      {
        ghost var before := w;
        var move: Move :| true;
        match move {
        case Exits(pid, code) =>
          if pid in w.procs && w.procs[pid].state.Running? {
            w := w.(procs := w.procs[pid := w.procs[pid].(state := Zombie(code))]);
          }
        case Passes(ticks) =>
          w := w.(clock := w.clock + ticks);
        case Rewrites(path, mode, entries) =>
          if path in w.dirs && LiveOwner(w, w.dirs[path].uid) {
            w := w.(dirs := w.dirs[path := w.dirs[path].(mode := mode, entries := entries)]);
          }
        case Rearranges(dirs) =>
          if !SafeRoot(w.runRoot) {
            w := w.(dirs := dirs);
          }
        }
        RelyTransitive(old(w), before, w);
        n := n - 1;
      }
    }

    /** Popen.poll: observes the exit if there is one. */
    method Poll(pid: Pid) returns (code: Option<int>)
      requires pid in w.procs
      modifies this
      ensures Rely(old(w), w) && w.dirs == old(w.dirs) && w.clock == old(w.clock)
      ensures w.log == old(w.log) + [Polled(pid, code)]
      ensures code.None? <==> old(w.procs[pid].state).Running?
      ensures code.None? ==> w.procs == old(w.procs)
      ensures code.Some? ==> w.procs[pid].state == Observed(code.value)
    {
      var p := w.procs[pid];
      code := if p.state.Running? then None else Some(p.state.code);
      if code.Some? {
        w := w.(procs := w.procs[pid := p.(state := Observed(code.value))]);
      }
      w := w.Note(Polled(pid, code));
    }

    /** os.killpg. A group that is already gone raises ProcessLookupError, which every caller swallows. */
    method KillGroup(pid: Pid, sig: int)
      requires pid in w.procs
      modifies this
      ensures Rely(old(w), w) && w.dirs == old(w.dirs) && w.clock == old(w.clock)
      ensures w.log == old(w.log) + [Signalled(pid, sig, w.clock)]
      ensures sig in w.procs[pid].sent
    {
      var p := w.procs[pid];
      w := w.(procs := w.procs[pid := p.(sent := p.sent + {sig})]).Note(Signalled(pid, sig, w.clock));
    }

    /** time.monotonic() */
    method Now() returns (t: int)
      modifies this
      ensures t == w.clock && w == old(w).Note(Told(t))
    {
      t := w.clock;
      w := w.Note(Told(t));
    }

    /** The call that a method of this class stands for has raised. */
    method Fail(call: Call)
      modifies this
      ensures w == old(w).Note(CallFailed(call))
    {
      w := w.Note(CallFailed(call));
    }

    method Unlink(path: Path, name: string) returns (r: Removal)
      modifies this
      ensures Step(old(w), w, {path}) && w.procs == old(w.procs)
      ensures path in w.dirs <==> path in old(w.dirs)
      ensures path in w.dirs ==>
        && w.dirs[path].uid == old(w.dirs)[path].uid
        && w.dirs[path].entries == if r.Removed? then old(w.dirs)[path].entries - {name} else old(w.dirs)[path].entries
      ensures r.NotThere? ==> path !in w.dirs || name !in w.dirs[path].entries
      ensures w.log == if r.Refused? then old(w.log) + [UnlinkFailed(path, name)] else old(w.log)
    {
      var refuses: bool := *;
      if refuses {
        r := Refused;
        w := w.Note(UnlinkFailed(path, name));
      } else if path !in w.dirs || name !in w.dirs[path].entries {
        r := NotThere;
      } else if w.dirs[path].entries[name].kind.Directory? {
        r := Refused;
        w := w.Note(UnlinkFailed(path, name));
      } else {
        r := Removed;
        var d := w.dirs[path];
        w := w.(dirs := w.dirs[path := d.(entries := d.entries - {name})]);
      }
    }

    /** os.rmdir: only an empty directory goes away. */
    method Rmdir(path: Path) returns (r: Removal)
      modifies this
      ensures Step(old(w), w, {path}) && w.procs == old(w.procs)
      ensures r.Removed? ==> path in old(w.dirs) && old(w.dirs)[path].entries == map[] && path !in w.dirs
      ensures !r.Removed? ==> w.dirs == old(w.dirs)
      ensures r.NotThere? ==> path !in w.dirs
      ensures w.log == if r.Refused? then old(w.log) + [RmdirFailed(path)] else old(w.log)
    {
      var refuses: bool := *;
      if refuses {
        r := Refused;
        w := w.Note(RmdirFailed(path));
      } else if path !in w.dirs {
        r := NotThere;
      } else if w.dirs[path].entries != map[] {
        r := Refused;
        w := w.Note(RmdirFailed(path));
      } else {
        r := Removed;
        w := w.(dirs := w.dirs - {path});
      }
    }

    /** shutil.rmtree with its errors swallowed: on failure any part of the tree may remain. */
    method Rmtree(path: Path)
      modifies this
      ensures w.procs == old(w.procs) && w.clock == old(w.clock) && w.runRoot == old(w.runRoot) && w.handlers == old(w.handlers)
      ensures SameElsewhere(old(w.dirs), w.dirs, path)
      ensures (w.log == old(w.log) && path !in w.dirs) || w.log == old(w.log) + [RmtreeFailed(path)]
    {
      var fails: bool := *;
      if !fails || path !in w.dirs {
        w := w.(dirs := w.dirs - {path});
      } else {
        var kept: set<string> :| true;
        var d := w.dirs[path];
        w := w.(dirs := w.dirs[path := d.(entries := map n | n in d.entries && n in kept :: d.entries[n])])
              .Note(RmtreeFailed(path));
      }
    }

    /** tempfile.mkdtemp in the run root: a fresh, private, root-owned directory, or an error. */
    method Mkdtemp(purpose: Purpose) returns (r: Option<Path>)
      modifies this
      ensures r.None? ==> w == old(w).Note(CallFailed(Call.Mkdtemp))
      ensures r.Some? ==>
        && r.value !in old(w.dirs)
        && w == old(w).(dirs := old(w.dirs)[r.value := Dir(448, 0, 0, map[])]).Note(MadeDirectory(r.value, purpose))
    {
      var fails: bool := *;
      var path: Path :| true;
      if fails || path in w.dirs {
        Fail(Call.Mkdtemp);
        return None;
      }
      w := w.(dirs := w.dirs[path := Dir(448, 0, 0, map[])]).Note(MadeDirectory(path, purpose));
      r := Some(path);
    }

    /** os.chown and os.chmod of a directory, one call each; either may fail. */
    method ChangeDirectory(path: Path, d: Dir) returns (ok: bool)
      requires path in w.dirs && d.entries == w.dirs[path].entries
      modifies this
      ensures w == if ok then old(w).(dirs := old(w.dirs)[path := d]) else old(w).Note(CallFailed(Call.ChangeDirectory))
    {
      ok := *;
      if ok {
        w := w.(dirs := w.dirs[path := d]);
      } else {
        Fail(Call.ChangeDirectory);
      }
    }

    /** os.open of a directory, and os.fsync: they change nothing, and may fail. */
    method Try(call: Call) returns (ok: bool)
      modifies this
      ensures w == if ok then old(w) else old(w).Note(CallFailed(call))
    {
      ok := *;
      if !ok {
        Fail(call);
      }
    }

    /** os.open with O_CREAT | O_EXCL: never an existing entry. The mode that is granted depends on the umask. */
    method CreateExclusive(path: Path, name: string, mode: nat) returns (ok: bool, granted: nat)
      requires path in w.dirs
      modifies this
      ensures ok ==> name !in old(w.dirs)[path].entries
      ensures w == if ok then old(w).(dirs := PutNode(old(w.dirs), path, name, Node(Regular, granted, 0, 0, [])))
                   else old(w).Note(CallFailed(CreateFile))
    {
      ok, granted := *, *;
      if name in w.dirs[path].entries {
        ok := false;
      }
      if ok {
        w := w.(dirs := PutNode(w.dirs, path, name, Node(Regular, granted, 0, 0, [])));
      } else {
        Fail(CreateFile);
      }
    }

    /** fchown and fchmod of an open file; each may fail. */
    method ChangeFile(path: Path, name: string, node: Node) returns (ok: bool)
      requires path in w.dirs
      modifies this
      ensures w == if ok then old(w).(dirs := PutNode(old(w.dirs), path, name, node)) else old(w).Note(CallFailed(Call.ChangeFile))
    {
      ok := *;
      if ok {
        w := w.(dirs := PutNode(w.dirs, path, name, node));
      } else {
        Fail(Call.ChangeFile);
      }
    }

    /** os.write: writes some prefix of the data and returns its length, or raises (None). A write of nothing counts as failed. */
    method Write(path: Path, name: string, data: seq<bv8>) returns (count: Option<nat>)
      requires path in w.dirs && name in w.dirs[path].entries
      modifies this
      ensures count.Some? ==> count.value <= |data|
      ensures w == if count.Some? && count.value > 0
                   then old(w).(dirs := PutNode(old(w.dirs), path, name, Append(old(w.dirs)[path].entries[name], data[..count.value])))
                   else old(w).Note(CallFailed(WriteFile))
    {
      var c: nat :| c <= |data|;
      var fails: bool := *;
      if fails || c == 0 {
        Fail(WriteFile);
        return if fails then None else Some(0);
      }
      w := w.(dirs := PutNode(w.dirs, path, name, Append(w.dirs[path].entries[name], data[..c])));
      count := Some(c);
    }

    /** os.lstat of the run root. */
    method LstatRoot() returns (r: Option<Node>)
      modifies this
      ensures r.Some? ==> r == w.runRoot
      ensures w == old(w).Note(RootSeen(r))
    {
      var fails: bool := *;
      r := if fails then None else w.runRoot;
      w := w.Note(RootSeen(r));
    }

    /** os.lstat of an entry: FileNotFoundError is Ok(None), another OSError is Err. */
    method Lstat(path: Path, name: string) returns (r: Result<Option<Node>, ()>)
      modifies this
      ensures r.Ok? && r.value.Some? ==>
        path in w.dirs && name in w.dirs[path].entries && r.value.value == w.dirs[path].entries[name]
      ensures r.Ok? && r.value.None? ==> path !in w.dirs || name !in w.dirs[path].entries
      ensures w == old(w).Note(Probed(path, r))
    {
      var fails: bool := *;
      if fails {
        r := Err(());
      } else if path !in w.dirs || name !in w.dirs[path].entries {
        r := Ok(None);
      } else {
        r := Ok(Some(w.dirs[path].entries[name]));
      }
      w := w.Note(Probed(path, r));
    }

    /** subprocess.Popen: a new running child, or an exception and no child. */
    method Spawn(uid: nat, role: Role) returns (r: Option<Pid>)
      modifies this
      ensures r.None? ==> w == old(w).Note(CallFailed(Popen))
      ensures r.Some? ==>
        && r.value !in old(w.procs)
        && w == old(w).(procs := old(w.procs)[r.value := Proc(uid, Running, {})]).Note(Spawned(r.value, role, old(w.dirs)))
    {
      var fails: bool := *;
      var pid: Pid :| true;
      if fails || pid in w.procs {
        Fail(Popen);
        return None;
      }
      w := w.(procs := w.procs[pid := Proc(uid, Running, {})]).Note(Spawned(pid, role, w.dirs));
      r := Some(pid);
    }
  }

  function PutNode(dirs: map<Path, Dir>, path: Path, name: string, node: Node): map<Path, Dir>
    requires path in dirs
  {
    dirs[path := dirs[path].(entries := dirs[path].entries[name := node])]
  }

  ghost predicate SameElsewhere(a: map<Path, Dir>, b: map<Path, Dir>, path: Path) {
    forall p :: p != path ==> (p in a <==> p in b) && (p in a ==> b[p] == a[p])
  }

  lemma PutNodeTwice(dirs: map<Path, Dir>, path: Path, name: string, node: Node, node': Node)
    requires path in dirs
    ensures PutNode(PutNode(dirs, path, name, node), path, name, node') == PutNode(dirs, path, name, node')
  {
    var entries := dirs[path].entries;
    assert entries[name := node][name := node'] == entries[name := node'];
  }

  function Append(node: Node, data: seq<bv8>): Node {
    node.(content := node.content + data)
  }

  /** Under a safe run root nobody but the supervisor's live children can change a directory. */
  lemma NobodyElseWrites(w: World, w': World)
    requires Rely(w, w') && SafeRoot(w.runRoot) && w.procs == map[]
    ensures w'.dirs == w.dirs && w'.procs == map[]
  {
  }

  lemma {:induction false} FirstLandedPrefix(a: seq<Event>, b: seq<Event>)
    requires a <= b && FirstLanded(a).Some?
    ensures FirstLanded(b) == FirstLanded(a)
  {
    if !a[0].Landed? {
      FirstLandedPrefix(a[1..], b[1..]);
    }
  }
}
