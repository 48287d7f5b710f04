/** The vault worker supervisor's life cycle: materialise four secrets, start the worker,
    wait for its socket, remove the secrets strictly, start the web child, supervise, tear down. */
module VaultSupervisor {
  import opened Prelude
  import opened VaultMachine
  import opened VaultSignalRelay
  import opened VaultRuntime
  import opened VaultHistory
  import opened VaultRemoval
  import opened VaultWatch

  // ----- the try block of main -----

  ghost function PathFor(paths: RuntimePaths, purpose: Purpose): Path {
    if purpose.Secrets? then paths.secretDirectory else paths.socketDirectory
  }

  /** The directories made in this run are those in `paths`. */
  ghost predicate OwnDirectories(log: seq<Event>, paths: RuntimePaths) {
    forall i :: 0 <= i < |log| && log[i].MadeDirectory? ==> log[i].path == PathFor(paths, log[i].purpose)
  }

  ghost predicate LaunchEvent(e: Event) {
    !WebStart(e) && !e.UnlinkFailed? && !e.RmdirFailed? && !e.Decided? && !e.Reported? && !e.LoadFailed? && !e.CommandRefused?
  }

  /** What the log says while the web child has not been started. */
  ghost predicate Launching(log: seq<Event>, paths: RuntimePaths) {
    && MadeDirectory(paths.socketDirectory, SocketHome) in log && OwnDirectories(log, paths)
    && forall i :: 0 <= i < |log| ==> LaunchEvent(log[i])
  }

  lemma LaunchGoesOn(a: seq<Event>, b: seq<Event>, paths: RuntimePaths)
    requires Launching(a, paths) && Watches(a, b)
    ensures Launching(b, paths)
  {
  }

  lemma LaunchingStartsClean(log: seq<Event>, paths: RuntimePaths, ids: Identities)
    requires Launching(log, paths)
    ensures WebStartsClean(log, ids) && OwnDirectories(log, paths) && Unconcluded(log) && !WebStarts(log)
  {
  }

  lemma CalmKeepsDirectories(a: seq<Event>, b: seq<Event>, paths: RuntimePaths)
    requires OwnDirectories(a, paths) && CalmlyExtends(a, b)
    ensures OwnDirectories(b, paths)
  {
  }

  datatype Outcome = Exited(status: int) | Raised(error: Error) | StillSupervising

  /** The event of a child that could not be started. */
  ghost function SpawnFailure(role: Role, error: Error): Event {
    if error == Expected(ChildCommandInvalid) then CommandRefused(role) else CallFailed(Popen)
  }

  /** _spawn_child, children.append and relay.add. `at` is the world in which the child was started. */
  method SpawnAndAdd(relay: SignalRelay, uid: nat, role: Role, commandValid: bool)
    returns (r: Result<Pid, Error>, ghost at: World)
    requires relay.Valid() && relay.AllSettled()
    modifies relay`children, relay`received, relay.os
    ensures relay.Valid() && relay.AllSettled()
    ensures old(relay.received).Some? ==> relay.received == old(relay.received)
    ensures Rely(old(relay.os.w), at)
    ensures r.Err? ==> relay.os.w == at.Note(SpawnFailure(role, r.error)) && relay.children == old(relay.children)
                       && r.error == if commandValid then Unexpected else Expected(ChildCommandInvalid)
    ensures r.Ok? ==>
      && r.value !in at.procs
      && relay.children == old(relay.children) + [r.value]
      && Rely(at.(procs := at.procs[r.value := Proc(uid, Running, {})]).Note(Spawned(r.value, role, at.dirs)), relay.os.w)
      && (relay.received.None? ==> relay.os.w.log == at.log + [Spawned(r.value, role, at.dirs)])
  {
    relay.Interleave();
    at := relay.os.w;
    if !commandValid {
      FirstLandedAppend(at.log, CommandRefused(role));
      relay.os.w := relay.os.w.Note(CommandRefused(role));
      return Err(Expected(ChildCommandInvalid)), at;
    }
    var pid := relay.os.Spawn(uid, role);
    if pid.None? {
      FirstLandedAppend(at.log, CallFailed(Popen));
      return Err(Unexpected), at;
    }
    FirstLandedAppend(at.log, Spawned(pid.value, role, at.dirs));
    relay.Add(pid.value);
    r := Ok(pid.value);
  }

  /** The relay knows exactly the children that were started. */
  ghost predicate Registered(relay: SignalRelay, children: seq<Pid>)
    reads relay, relay.os
  {
    && relay.Valid() && relay.AllSettled() && relay.children == children
    && forall p :: p in relay.os.w.procs ==> p in children
  }

  /** What the try block has established when it is left, in whatever way, after preparation. */
  ghost predicate Launched(relay: SignalRelay, paths: RuntimePaths, ids: Identities, children: seq<Pid>, materialized: bool)
    reads relay, relay.os
  {
    && Registered(relay, children)
    && WebStartsClean(relay.os.w.log, ids) && OwnDirectories(relay.os.w.log, paths)
    && (!materialized ==> paths.secretDirectory !in relay.os.w.dirs)
  }

  /** SpawnAndAdd, seen by what the relay knows. */
  method SpawnRegistered(relay: SignalRelay, uid: nat, role: Role, commandValid: bool, ghost children: seq<Pid>)
    returns (r: Result<Pid, Error>, ghost at: World)
    requires Registered(relay, children)
    modifies relay`children, relay`received, relay.os
    ensures Registered(relay, if r.Ok? then children + [r.value] else children)
    ensures SameSurroundings(old(relay.os.w), relay.os.w)
    ensures Rely(old(relay.os.w), at) && SpawnedFrom(at, relay.os.w, uid, role, r)
    ensures r.Err? ==> r.error == if commandValid then Unexpected else Expected(ChildCommandInvalid)
  {
    r, at := SpawnAndAdd(relay, uid, role, commandValid);
  }

  /** What starting a child did after the world `at`. */
  ghost predicate SpawnedFrom(at: World, w: World, uid: nat, role: Role, r: Result<Pid, Error>) {
    match r
    case Err(error) => w == at.Note(SpawnFailure(role, error))
    case Ok(pid) =>
      && pid !in at.procs
      && Rely(at.(procs := at.procs[pid := Proc(uid, Running, {})]).Note(Spawned(pid, role, at.dirs)), w)
      && (FirstLanded(w.log).None? ==> w.log == at.log + [Spawned(pid, role, at.dirs)])
  }

  ghost predicate SameSurroundings(w: World, w': World) {
    w'.runRoot == w.runRoot && w'.handlers == w.handlers && w.log <= w'.log && w.clock <= w'.clock
  }

  /** An exception leaves a log without conclusion, and with the exception's cause. */
  ghost predicate RaisedCleanly(log: seq<Event>, error: Error, ids: Identities) {
    Unconcluded(log) && !WebStarts(log) && ErrorExplained(error, log, ids)
  }

  method AddWorker(relay: SignalRelay, paths: RuntimePaths, ids: Identities)
    returns (r: Result<Pid, Error>, children: seq<Pid>, ghost h: nat)
    requires Registered(relay, []) && relay.os.w.procs == map[] && Launching(relay.os.w.log, paths)
    modifies relay`children, relay`received, relay.os
    ensures Registered(relay, children) && Launching(relay.os.w.log, paths)
    ensures SameSurroundings(old(relay.os.w), relay.os.w)
    ensures r.Err? ==> r.error == Unexpected && SomeCallFailed(relay.os.w.log)
    ensures r.Ok? ==>
      && children == [r.value] && r.value in relay.os.w.procs && h < |relay.os.w.log|
      && WorkerStart(relay.os.w.log[h]) && relay.os.w.log[h].pid == r.value
  {
    ghost var w0 := relay.os.w;
    ghost var at: World;
    r, at := SpawnRegistered(relay, ids.workerUid, Worker, true, []);
    children, h := if r.Ok? then [r.value] else [], |at.log|;
    WorkerAdded(w0, at, relay.os.w, ids.workerUid, paths, r);
  }

  lemma WorkerAdded(w0: World, at: World, w: World, uid: nat, paths: RuntimePaths, r: Result<Pid, Error>)
    requires Launching(w0.log, paths) && Rely(w0, at) && SpawnedFrom(at, w, uid, Worker, r) && (r.Err? ==> r.error == Unexpected)
    ensures Launching(w.log, paths)
    ensures r.Err? ==> SomeCallFailed(w.log)
    ensures r.Ok? ==> r.value in w.procs && |at.log| < |w.log| && WorkerStart(w.log[|at.log|]) && w.log[|at.log|].pid == r.value
  {
    LaunchGoesOn(w0.log, at.log, paths);
    var next := at.log + [if r.Ok? then Spawned(r.value, Worker, at.dirs) else CallFailed(Popen)];
    StaysInLog(MadeDirectory(paths.socketDirectory, SocketHome), at.log, next);
    LaunchGoesOn(next, w.log, paths);
    assert w.log[|at.log|] == next[|at.log|];
  }

  lemma WaitFailureExplained(error: Error, from: nat, log: seq<Event>, h: nat, worker: Pid, path: Path, ids: Identities)
    requires WaitFailure(error, from, log, worker, path, ids) && MadeDirectory(path, SocketHome) in log
    requires h < from <= |log| && WorkerStart(log[h]) && log[h].pid == worker
    ensures ErrorExplained(error, log, ids)
  {
    if error == Expected(WorkerSocketTimeout) {
      var start: nat :| from <= start && WaitedOut(log, start, worker, path, ids);
      assert log[..|log|] == log;
      assert TimedOutAt(log, ids, h, start, |log|, path);
    }
  }

  lemma RefusalExplained(a: seq<Event>, b: seq<Event>, ids: Identities)
    requires Unconcluded(a) && !WebStarts(a) && WorkerStarted(a) && Closes(a, b) && RefusedSince(a, b)
    ensures RaisedCleanly(b, Expected(WorkerSecretCleanupFailed), ids)
  {
    var i :| |a| <= i < |b| && (b[i].UnlinkFailed? || b[i].RmdirFailed?);
    assert forall i :: 0 <= i < |a| ==> b[i] == a[i];
    WorkerStaysStarted(a, b);
  }

  /** A worker that was started at position h of `launch` showed its socket after that, and nothing has gone wrong. */
  ghost predicate WorkerReady(log: seq<Event>, launch: seq<Event>, worker: Pid, h: nat, paths: RuntimePaths, ids: Identities) {
    && Launching(log, paths) && launch <= log
    && h < |launch| && WorkerStart(launch[h]) && launch[h].pid == worker
    && SocketSeen(launch, log, worker, paths.socketDirectory, ids)
  }

  lemma ReadyGoesOn(a: seq<Event>, b: seq<Event>, launch: seq<Event>, worker: Pid, h: nat, paths: RuntimePaths, ids: Identities)
    requires WorkerReady(a, launch, worker, h, paths, ids) && Watches(a, b)
    ensures WorkerReady(b, launch, worker, h, paths, ids)
  {
    LaunchGoesOn(a, b, paths);
    SocketSeenInside(launch, launch, a, b, worker, paths.socketDirectory, ids);
  }

  /** _wait_for_socket, seen by what the log says of the launch. */
  method AwaitWorker(relay: SignalRelay, worker: Pid, paths: RuntimePaths, ids: Identities, ghost h: nat) returns (r: Result<(), Error>)
    requires Registered(relay, [worker]) && worker in relay.os.w.procs && Launching(relay.os.w.log, paths)
    requires h < |relay.os.w.log| && WorkerStart(relay.os.w.log[h]) && relay.os.w.log[h].pid == worker
    modifies relay`received, relay.os
    ensures Registered(relay, [worker]) && worker in relay.os.w.procs && Launching(relay.os.w.log, paths)
    ensures SameSurroundings(old(relay.os.w), relay.os.w)
    ensures r.Err? ==> RaisedCleanly(relay.os.w.log, r.error, ids)
    ensures r.Ok? ==> SocketSeen(old(relay.os.w.log), relay.os.w.log, worker, paths.socketDirectory, ids)
  {
    ghost var w0 := relay.os.w;
    r := WaitForSocket(relay, worker, paths.socketDirectory, ids);
    LaunchGoesOn(w0.log, relay.os.w.log, paths);
    if r.Err? {
      LaunchingStartsClean(relay.os.w.log, paths, ids);
      WaitFailureExplained(r.error, |w0.log|, relay.os.w.log, h, worker, paths.socketDirectory, ids);
    }
  }

  /** The strict removal while nothing but the worker was started. */
  method RemoveStrictly(relay: SignalRelay, worker: Pid, paths: RuntimePaths, ids: Identities, ghost h: nat) returns (r: Result<(), Error>)
    requires Registered(relay, [worker]) && worker in relay.os.w.procs && Launching(relay.os.w.log, paths)
    requires SafeRoot(relay.os.w.runRoot) && h < |relay.os.w.log| && WorkerStart(relay.os.w.log[h])
    modifies relay`received, relay.os
    ensures Launched(relay, paths, ids, [worker], r.Err?) && worker in relay.os.w.procs
    ensures SameSurroundings(old(relay.os.w), relay.os.w) && Truthful(relay.os.w.log, None, true)
    ensures if r.Ok? then Launching(relay.os.w.log, paths) else RaisedCleanly(relay.os.w.log, r.error, ids)
  {
    ghost var w1 := relay.os.w;
    LaunchingStartsClean(w1.log, paths, ids);
    r := RemoveSecretFiles(relay, paths, true);
    CalmKeepsWebStart(w1.log, relay.os.w.log, ids);
    CalmKeepsDirectories(w1.log, relay.os.w.log, paths);
    CalmStaysTruthful(w1.log, relay.os.w.log, None, true);
    if r.Ok? {
      LaunchGoesOn(w1.log, relay.os.w.log, paths);
    } else {
      RefusalExplained(w1.log, relay.os.w.log, ids);
    }
  }

  /** Waits for the worker's socket, then removes the secrets strictly. */
  method BringUp(relay: SignalRelay, worker: Pid, paths: RuntimePaths, ids: Identities, ghost h: nat) returns (r: Result<(), Error>)
    requires Registered(relay, [worker]) && worker in relay.os.w.procs && Launching(relay.os.w.log, paths)
    requires SafeRoot(relay.os.w.runRoot)
    requires h < |relay.os.w.log| && WorkerStart(relay.os.w.log[h]) && relay.os.w.log[h].pid == worker
    modifies relay`received, relay.os
    ensures Launched(relay, paths, ids, [worker], r.Err?) && SameSurroundings(old(relay.os.w), relay.os.w)
    ensures r.Err? ==> RaisedCleanly(relay.os.w.log, r.error, ids)
    ensures Truthful(relay.os.w.log, None, true)
    ensures r.Ok? ==>
      && worker in relay.os.w.procs && Launching(relay.os.w.log, paths)
      && SocketSeen(old(relay.os.w.log), relay.os.w.log, worker, paths.socketDirectory, ids)
  {
    ghost var w0 := relay.os.w;
    r := AwaitWorker(relay, worker, paths, ids, h);
    ghost var w1 := relay.os.w;
    if r.Err? {
      LaunchingStartsClean(w1.log, paths, ids);
      return;
    }
    r := RemoveStrictly(relay, worker, paths, ids, h);
    SocketSeenInside(w0.log, w0.log, w1.log, relay.os.w.log, worker, paths.socketDirectory, ids);
  }

  /** Everything in the try block between preparation and the web child. On success the worker's start
      is at position h of `launch`, and its socket was seen after that. */
  method StartWorker(relay: SignalRelay, paths: RuntimePaths, ids: Identities)
    returns (r: Result<Pid, Error>, children: seq<Pid>, ghost h: nat, ghost launch: seq<Event>)
    requires Registered(relay, []) && relay.os.w.procs == map[] && Launching(relay.os.w.log, paths)
    requires SafeRoot(relay.os.w.runRoot)
    modifies relay`children, relay`received, relay.os
    ensures Launched(relay, paths, ids, children, r.Err?) && SameSurroundings(old(relay.os.w), relay.os.w)
    ensures r.Err? ==> RaisedCleanly(relay.os.w.log, r.error, ids)
    ensures Truthful(relay.os.w.log, None, true)
    ensures r.Ok? ==> children == [r.value] && r.value in relay.os.w.procs && WorkerReady(relay.os.w.log, launch, r.value, h, paths, ids)
  {
    r, children, h := AddWorker(relay, paths, ids);
    launch := relay.os.w.log;
    if r.Err? {
      LaunchingStartsClean(relay.os.w.log, paths, ids);
      return;
    }
    var up := BringUp(relay, r.value, paths, ids, h);
    if up.Err? {
      r := Err(up.error);
    }
  }

  // ----- what the inputs were -----

  /** The log blames the inputs only for what they are: loading failed for this reason or not at all, and a command was refused
      only if it is not valid. */
  ghost predicate Truthful(log: seq<Event>, failure: Option<Option<string>>, commandValid: bool) {
    && (forall i :: 0 <= i < |log| && log[i].LoadFailed? ==> failure == Some(log[i].reason))
    && (forall i :: 0 <= i < |log| && log[i].CommandRefused? ==> !commandValid)
  }

  lemma CalmStaysTruthful(a: seq<Event>, b: seq<Event>, failure: Option<Option<string>>, commandValid: bool)
    requires Truthful(a, failure, commandValid) && CalmlyExtends(a, b)
    ensures Truthful(b, failure, commandValid)
  {
  }

  // ----- the web child -----

  /** The moment before the web child starts meets the contract. */
  lemma WebMayStart(launch: seq<Event>, log: seq<Event>, worker: Pid, h: nat, paths: RuntimePaths, ids: Identities, web: Event)
    requires WorkerReady(log, launch, worker, h, paths, ids) && web.Spawned? && paths.secretDirectory !in web.dirs
    ensures WebStartsClean(log + [web], ids)
  {
  }

  /** What the log says once the web child was started at s: beside a worker, cleanly, and with nothing after it but quiet. */
  ghost predicate WebLog(log: seq<Event>, worker: Pid, s: nat, paths: RuntimePaths, ids: Identities) {
    && s < |log| && WebStart(log[s]) && Launching(log[..s], paths)
    && (exists h :: 0 <= h < s && WorkerStart(log[h]) && log[h].pid == worker)
    && (forall i :: s < i < |log| ==> Quiet(log[i]))
  }

  ghost predicate WebStarted(w: World, worker: Pid, s: nat, paths: RuntimePaths, ids: Identities) {
    && WebLog(w.log, worker, s, paths, ids) && w.procs.Keys == {worker, w.log[s].pid}
    && (FirstLanded(w.log).None? ==> |w.log| == s + 1)
    && paths.secretDirectory !in w.dirs && SafeRoot(w.runRoot)
  }

  lemma WebLogGoesOn(a: seq<Event>, b: seq<Event>, worker: Pid, s: nat, paths: RuntimePaths, ids: Identities)
    requires WebLog(a, worker, s, paths, ids) && QuietlyExtends(a, b)
    ensures WebLog(b, worker, s, paths, ids)
  {
  }

  lemma WebLogBegins(launch: seq<Event>, log: seq<Event>, worker: Pid, h: nat, paths: RuntimePaths, ids: Identities, web: Event)
    requires WorkerReady(log, launch, worker, h, paths, ids) && WebStart(web)
    ensures WebLog(log + [web], worker, |log|, paths, ids)
  {
  }

  /** What a log with a started web child says event by event. */
  lemma WebLogEvents(log: seq<Event>, worker: Pid, s: nat, paths: RuntimePaths, ids: Identities)
    requires WebLog(log, worker, s, paths, ids)
    ensures Unconcluded(log) && OwnDirectories(log, paths)
    ensures forall i :: 0 <= i < |log| ==> !log[i].UnlinkFailed? && !log[i].RmdirFailed?
  {
  }

  lemma WebStartFacts(launch: seq<Event>, at: World, w: World, worker: Pid, h: nat, pid: Pid, uid: nat, paths: RuntimePaths, ids: Identities)
    requires WorkerReady(at.log, launch, worker, h, paths, ids) && SafeRoot(at.runRoot) && paths.secretDirectory !in at.dirs
    requires at.procs.Keys == {worker}
    requires SpawnedFrom(at, w, uid, Web, Ok(pid))
    ensures WebStarted(w, worker, |at.log|, paths, ids) && w.log[|at.log|].pid == pid
    ensures WebStartsClean(w.log, ids) && OwnDirectories(w.log, paths)
  {
    var web := Spawned(pid, Web, at.dirs);
    WebMayStart(launch, at.log, worker, h, paths, ids, web);
    CalmKeepsWebStart(at.log + [web], w.log, ids);
    WebLogBegins(launch, at.log, worker, h, paths, ids, web);
    WebLogGoesOn(at.log + [web], w.log, worker, |at.log|, paths, ids);
    WebLogEvents(w.log, worker, |at.log|, paths, ids);
    assert w.log[|at.log|] == (at.log + [web])[|at.log|];
  }

  lemma WebNotStarted(launch: seq<Event>, log: seq<Event>, worker: Pid, h: nat, paths: RuntimePaths, ids: Identities, error: Error)
    requires WorkerReady(log, launch, worker, h, paths, ids) && (error == Unexpected || error == Expected(ChildCommandInvalid))
    ensures var after := log + [SpawnFailure(Web, error)];
            WebStartsClean(after, ids) && OwnDirectories(after, paths) && RaisedCleanly(after, error, ids)
  {
    var after := log + [SpawnFailure(Web, error)];
    LaunchingStartsClean(log, paths, ids);
    assert forall i :: 0 <= i < |log| ==> after[i] == log[i];
    assert after[|log|] == SpawnFailure(Web, error) && WorkerStart(after[h]);
    assert forall i :: 0 <= i < |after| ==> !WebStart(after[i]);
  }

  /** Started or not, the attempt leaves what comes next needs. */
  lemma WebOutcome(launch: seq<Event>, w0: World, at: World, w: World, worker: Pid, h: nat, uid: nat, paths: RuntimePaths,
                   ids: Identities, r: Result<Pid, Error>)
    requires WorkerReady(w0.log, launch, worker, h, paths, ids) && SafeRoot(w0.runRoot) && paths.secretDirectory !in w0.dirs
    requires w0.procs.Keys == {worker} && Rely(w0, at) && SpawnedFrom(at, w, uid, Web, r)
    requires r.Err? ==> r.error == Unexpected || r.error == Expected(ChildCommandInvalid)
    ensures WebStartsClean(w.log, ids) && OwnDirectories(w.log, paths) && paths.secretDirectory !in w.dirs
    ensures r.Err? ==> RaisedCleanly(w.log, r.error, ids)
    ensures r.Ok? ==> WebStarted(w, worker, |at.log|, paths, ids) && w.log[|at.log|].pid == r.value
  {
    ReadyGoesOn(w0.log, at.log, launch, worker, h, paths, ids);
    if r.Ok? {
      WebStartFacts(launch, at, w, worker, h, r.value, uid, paths, ids);
    } else {
      WebNotStarted(launch, at.log, worker, h, paths, ids, r.error);
    }
  }

  lemma WebTruth(launch: seq<Event>, w0: World, at: World, w: World, worker: Pid, h: nat, uid: nat, paths: RuntimePaths,
                 ids: Identities, r: Result<Pid, Error>, commandValid: bool)
    requires WorkerReady(w0.log, launch, worker, h, paths, ids) && Rely(w0, at) && SpawnedFrom(at, w, uid, Web, r)
    requires r.Err? ==> r.error == if commandValid then Unexpected else Expected(ChildCommandInvalid)
    ensures Truthful(w.log, None, commandValid)
  {
    LaunchGoesOn(w0.log, at.log, paths);
    if r.Ok? {
      CalmStaysTruthful(at.log + [Spawned(r.value, Web, at.dirs)], w.log, None, commandValid);
    }
  }

  /** Starts the web child beside a worker that was started by StartWorker. */
  method StartWeb(relay: SignalRelay, worker: Pid, paths: RuntimePaths, ids: Identities, commandValid: bool, ghost h: nat, ghost launch: seq<Event>)
    returns (r: Result<Pid, Error>, ghost s: nat)
    requires Registered(relay, [worker]) && worker in relay.os.w.procs
    requires SafeRoot(relay.os.w.runRoot) && paths.secretDirectory !in relay.os.w.dirs
    requires WorkerReady(relay.os.w.log, launch, worker, h, paths, ids)
    modifies relay`children, relay`received, relay.os
    ensures Launched(relay, paths, ids, if r.Ok? then [worker] + [r.value] else [worker], false)
    ensures SameSurroundings(old(relay.os.w), relay.os.w)
    ensures r.Err? ==> RaisedCleanly(relay.os.w.log, r.error, ids)
    ensures r.Ok? ==> WebStarted(relay.os.w, worker, s, paths, ids) && relay.os.w.log[s].pid == r.value
    ensures Truthful(relay.os.w.log, None, commandValid)
  {
    ghost var w0 := relay.os.w;
    ghost var at: World;
    r, at := SpawnRegistered(relay, ids.webUid, Web, commandValid, [worker]);
    s := |at.log|;
    WebOutcome(launch, w0, at, relay.os.w, worker, h, ids.webUid, paths, ids, r);
    WebTruth(launch, w0, at, relay.os.w, worker, h, ids.webUid, paths, ids, r, commandValid);
  }

  ghost predicate Served(w: World, s: nat, r: nat, children: seq<Pid>, status: int) {
    && s < |w.log| && WebStart(w.log[s]) && (forall p :: p in children <==> p in w.procs)
    && ChildEnded(w.log, s + 1, children, r, status) && Unconcluded(w.log[..|w.log| - 1])
  }

  /** The run was watched until a child exited and the status was decided. */
  ghost predicate ServedUntilExit(w: World, status: int) {
    exists s: nat, r: nat, children: seq<Pid> :: Served(w, s, r, children, status)
  }

  lemma WatchedUntilExit(w1: World, w2: World, worker: Pid, s: nat, paths: RuntimePaths, ids: Identities, r: nat, status: int)
    requires WebStarted(w1, worker, s, paths, ids) && w1.procs.Keys == w2.procs.Keys && w1.log <= w2.log
    requires ChildEnded(w2.log, |w1.log|, [worker, w1.log[s].pid], r, status)
    ensures ServedUntilExit(w2, status)
  {
    var children := [worker, w1.log[s].pid];
    ChildEndedSince(w2.log, w1.log, s + 1, children, r, status);
    WebLogEvents(w1.log, worker, s, paths, ids);
    forall i | 0 <= i < |w2.log| - 1
      ensures !w2.log[i].Decided? && !w2.log[i].Reported?
    {
      if i < |w1.log| {
        assert w2.log[i] == w1.log[i];
      }
    }
    assert Served(w2, s, r, children, status);
  }

  lemma WatchedStill(w1: World, w2: World, worker: Pid, s: nat, paths: RuntimePaths, ids: Identities, rounds: nat)
    requires WebStarted(w1, worker, s, paths, ids) && Rely(w1, w2)
    requires Watched(w2.log, |w1.log|, [worker, w1.log[s].pid], rounds)
    ensures StillWatching(w2, rounds)
  {
    WebLogGoesOn(w1.log, w2.log, worker, s, paths, ids);
    WebLogEvents(w2.log, worker, s, paths, ids);
    assert w2.log[s] == w1.log[s];
    assert WatchingSince(w2, worker, s, |w1.log|, rounds);
  }

  /** How the try block ended: with an exception, with a decided status, or not yet. */
  ghost predicate Ended(outcome: Outcome, w: World, ids: Identities, rounds: nat) {
    match outcome
    case Raised(error) => RaisedCleanly(w.log, error, ids)
    case Exited(status) => ServedUntilExit(w, status)
    case StillSupervising => StillWatching(w, rounds)
  }

  /** What holds when the try block is left, in whatever way. */
  twostate predicate ServedSoFar(relay: SignalRelay, outcome: Outcome, ids: Identities, rounds: nat, failure: Option<Option<string>>, commandValid: bool)
    reads relay, relay.os
  {
    && SameSurroundings(old(relay.os.w), relay.os.w) && relay.prior == old(relay.prior)
    && WebStartsClean(relay.os.w.log, ids) && Ended(outcome, relay.os.w, ids, rounds)
    && Truthful(relay.os.w.log, failure, commandValid)
    && (outcome.StillSupervising? ==> relay.os.w.clock >= old(relay.os.w.clock) + 100 * rounds)
  }

  /** Supervises the worker and the web child. */
  method ServeChildren(relay: SignalRelay, worker: Pid, web: Pid, paths: RuntimePaths, ids: Identities, rounds: nat, ghost s: nat,
                       ghost commandValid: bool)
    returns (outcome: Outcome)
    requires Launched(relay, paths, ids, [worker, web], false) && Truthful(relay.os.w.log, None, commandValid)
    requires WebStarted(relay.os.w, worker, s, paths, ids) && relay.os.w.log[s].pid == web
    modifies relay`received, relay.os
    ensures Launched(relay, paths, ids, [worker, web], false) && !outcome.Raised?
    ensures ServedSoFar(relay, outcome, ids, rounds, None, commandValid)
  {
    ghost var w1 := relay.os.w;
    var status, r := Supervise(relay, [worker, web], rounds);
    CalmKeepsWebStart(w1.log, relay.os.w.log, ids);
    CalmKeepsDirectories(w1.log, relay.os.w.log, paths);
    CalmStaysTruthful(w1.log, relay.os.w.log, None, commandValid);
    if status.Some? {
      WatchedUntilExit(w1, relay.os.w, worker, s, paths, ids, r, status.value);
      outcome := Exited(status.value);
    } else {
      WatchedStill(w1, relay.os.w, worker, s, paths, ids, rounds);
      outcome := StillSupervising;
    }
  }

  // ----- the except blocks -----

  /** The error was reported at r, after nothing but signals, and then the status was decided. */
  ghost predicate FailureDecided(a: seq<Event>, log: seq<Event>, r: nat, error: Error) {
    && |a| <= r < |log| - 1 && QuietlyExtends(a, log[..r]) && log[r] == Reported(error) && JustDecided(log[..r + 1], log)
  }

  /** The print to standard error. */
  method Report(relay: SignalRelay, error: Error)
    requires relay.Valid()
    modifies relay`received, relay.os
    ensures relay.Advanced({}) && |relay.os.w.log| > |old(relay.os.w.log)|
    ensures QuietlyExtends(old(relay.os.w.log), relay.os.w.log[..|relay.os.w.log| - 1])
    ensures relay.os.w.log[|relay.os.w.log| - 1] == Reported(error)
  {
    ghost var w0 := relay.os.w;
    relay.Interleave();
    ghost var w1 := relay.os.w;
    RelyIsStep(w0, w1, {});
    FirstLandedAppend(w1.log, Reported(error));
    relay.os.w := relay.os.w.Note(Reported(error));
    StepTransitive(w0, w1, relay.os.w, {}, {});
    assert relay.os.w.log[..|w1.log|] == w1.log;
  }

  method ExceptBlock(relay: SignalRelay, error: Error) returns (status: int, ghost r: nat)
    requires relay.Valid()
    modifies relay`received, relay.os
    ensures relay.Advanced({}) && FailureDecided(old(relay.os.w.log), relay.os.w.log, r, error)
    ensures status == StatusFor(relay.os.w.log[|relay.os.w.log| - 1].received, Failure(error))
  {
    ghost var w0 := relay.os.w;
    Report(relay, error);
    ghost var w2 := relay.os.w;
    var received := Decide(relay);
    StepTransitive(w0, w2, relay.os.w, {}, {});
    r := |w2.log| - 1;
    assert w2.log <= relay.os.w.log[..|relay.os.w.log| - 1];
    assert relay.os.w.log[..r + 1] == w2.log && relay.os.w.log[..r] == w2.log[..r];
    status := if received.Some? then 128 + received.value else if error.Expected? then 78 else 70;
  }

  lemma ErrorStaysExplained(error: Error, a: seq<Event>, b: seq<Event>, ids: Identities)
    requires ErrorExplained(error, a, ids) && !WebStarts(a) && QuietlyExtends(a, b)
    ensures ErrorExplained(error, b, ids) && !WebStarts(b)
  {
    assert forall i :: 0 <= i < |a| ==> b[i] == a[i];
    assert forall e :: e in a ==> e in b;
    if error == Expected(StartupInterrupted) {
      FirstLandedPrefix(a, b);
    } else if error == Expected(WorkerExitedBeforeSocket) {
      var h :| 0 <= h < |a| && WorkerStart(a[h]) && ExitSeen(a, a[h].pid);
      StaysStoppedByExit(a, b, a[h].pid);
    } else if error == Expected(WorkerSocketTimeout) {
      var h: nat, from: nat, to: nat, path :| TimedOutAt(a, ids, h, from, to, path);
      assert b[..to] == a[..to];
      assert TimedOutAt(b, ids, h, from, to, path);
    }
  }

  lemma StaysStoppedByExit(a: seq<Event>, b: seq<Event>, pid: Pid)
    requires ExitSeen(a, pid) && a <= b
    ensures ExitSeen(b, pid)
  {
  }

  lemma FailureConcludes(a: seq<Event>, log: seq<Event>, pids: set<Pid>, ids: Identities, r: nat, error: Error)
    requires RaisedCleanly(a, error, ids) && FailureDecided(a, log, r, error)
    ensures Concluded(log, pids, ids, r, |log| - 1, Failure(error))
  {
    ErrorStaysExplained(error, a, log[..r], ids);
    forall i | r < i < |log| - 1
      ensures Closing(log[i])
    {
      assert log[..|log| - 1][i] == log[i];
    }
  }

  lemma ServedConcludes(w: World, ids: Identities, s: nat, r: nat, children: seq<Pid>, status: int)
    requires Served(w, s, r, children, status)
    ensures ExplainedBy(status, w.log, w.procs.Keys, ids, r, |w.log| - 1, ChildExit(w.log[r].code.value))
  {
    var d := |w.log| - 1;
    forall i | 0 <= i < r
      ensures !w.log[i].Decided? && !w.log[i].Reported?
    {
      assert w.log[..d][i] == w.log[i];
    }
    assert FirstExit(w.log, s, r, d);
  }

  lemma ExitConcludes(w: World, ids: Identities, status: int)
    requires ServedUntilExit(w, status)
    ensures StatusExplained(status, w, ids)
  {
    var s: nat, r: nat, children: seq<Pid> :| Served(w, s, r, children, status);
    ServedConcludes(w, ids, s, r, children, status);
  }

  lemma StatusStaysExplained(status: int, w: World, w': World, ids: Identities)
    requires StatusExplained(status, w, ids) && w.procs.Keys == w'.procs.Keys && Closes(w.log, w'.log)
    ensures StatusExplained(status, w', ids)
  {
    var r: nat, d: nat, reason :| ExplainedBy(status, w.log, w.procs.Keys, ids, r, d, reason);
    ConcludedLater(w.log, w'.log, w.procs.Keys, ids, r, d, reason);
    assert ExplainedBy(status, w'.log, w'.procs.Keys, ids, r, d, reason);
  }

  // ----- teardown -----

  /** Where the directories that were made may still be when the try block is left. */
  ghost predicate AccountedFor(w: World, paths: Option<RuntimePaths>, materialized: bool) {
    forall i :: 0 <= i < |w.log| && w.log[i].MadeDirectory? ==>
      SafeRoot(w.runRoot) && DirectoryAccounted(w, w.log[i].path, w.log[i].purpose, paths, materialized)
  }

  ghost predicate DirectoryAccounted(w: World, path: Path, purpose: Purpose, paths: Option<RuntimePaths>, materialized: bool) {
    || Discarded(w, path)
    || (paths.Some? && path == PathFor(paths.value, purpose) && paths.value.secretDirectory != paths.value.socketDirectory
        && (purpose.Secrets? ==> materialized))
  }

  lemma AccountedForLater(w: World, w': World, paths: Option<RuntimePaths>, materialized: bool)
    requires AccountedFor(w, paths, materialized) && Step(w, w', {})
    ensures AccountedFor(w', paths, materialized)
  {
  }

  /** A directory that is gone stays gone, as does its refusal. */
  lemma DirectoryStaysGone(w: World, w': World, path: Path, purpose: Purpose, since: nat)
    requires since <= |w.log| && w.log <= w'.log && Undisturbed(w) && OnlyShrinks(w, w', path)
    requires DirectoryGone(w, path, purpose, since)
    ensures DirectoryGone(w', path, purpose, since)
  {
  }

  lemma RuntimeStaysGone(w: World, w': World, since: nat)
    requires since <= |w.log| && RuntimeGone(w, since) && AllStopped(w) && Rely(w, w'.(handlers := w.handlers))
    requires forall i :: 0 <= i < |w.log| && w.log[i].MadeDirectory? ==> SafeRoot(w.runRoot)
    ensures RuntimeGone(w', since)
  {
    forall i | 0 <= i < |w'.log| && w'.log[i].MadeDirectory?
      ensures DirectoryGone(w', w'.log[i].path, w'.log[i].purpose, since)
    {
      assert i < |w.log| && w.log[i] == w'.log[i];
      StoppedMeansNoWriter(w, w'.(handlers := w.handlers), w.log[i].path);
      DirectoryStaysGone(w, w', w.log[i].path, w.log[i].purpose, since);
    }
  }

  /** The secret directory after its removal was tried, if it was still there. */
  ghost predicate SecretsDone(w0: World, w1: World, paths: RuntimePaths, materialized: bool) {
    if materialized then exists failed :: SecretsTried(w0, w1, paths.secretDirectory, failed) else w1 == w0
  }

  lemma SecretsDoneStep(w0: World, w1: World, paths: RuntimePaths, materialized: bool)
    requires SecretsDone(w0, w1, paths, materialized) && AllStopped(w0)
    ensures Step(w0, w1, {paths.secretDirectory}) && Closes(w0.log, w1.log)
    ensures SafeRoot(w0.runRoot) ==> Undisturbed(w1)
  {
  }

  lemma OneDirectoryGone(w0: World, w1: World, w2: World, paths: RuntimePaths, materialized: bool, path: Path, purpose: Purpose)
    requires AllStopped(w0) && SafeRoot(w0.runRoot) && DirectoryAccounted(w0, path, purpose, Some(paths), materialized)
    requires SecretsDone(w0, w1, paths, materialized)
    requires Step(w1, w2, {paths.socketDirectory})
    requires paths.socketDirectory !in w2.dirs || RmdirFailed(paths.socketDirectory) in w2.log[|w1.log|..]
    ensures w0.log <= w2.log && DirectoryGone(w2, path, purpose, |w0.log|)
  {
  }

  /** The removals in the finally block, once no child can write any more. */
  method RemoveRuntime(relay: SignalRelay, paths: Option<RuntimePaths>, materialized: bool)
    requires relay.Valid() && AllStopped(relay.os.w) && AccountedFor(relay.os.w, paths, materialized)
    modifies relay`received, relay.os
    ensures relay.Advanced(if paths.Some? then {paths.value.secretDirectory} + {paths.value.socketDirectory} else {})
    ensures Closes(old(relay.os.w.log), relay.os.w.log) && RuntimeGone(relay.os.w, |old(relay.os.w.log)|)
  {
    ghost var w0 := relay.os.w;
    if paths.None? {
      return;
    }
    if materialized {
      var removed := RemoveSecretFiles(relay, paths.value, false);
      assert removed.Ok?;
    }
    ghost var w1 := relay.os.w;
    SecretsDoneStep(w0, w1, paths.value, materialized);
    RemoveSocketDirectory(relay, paths.value);
    ghost var w2 := relay.os.w;
    StepTransitive(w0, w1, w2, {paths.value.secretDirectory}, {paths.value.socketDirectory});
    forall i | 0 <= i < |w2.log| && w2.log[i].MadeDirectory?
      ensures DirectoryGone(w2, w2.log[i].path, w2.log[i].purpose, |w0.log|)
    {
      assert i < |w0.log| && w0.log[i] == w2.log[i];
      OneDirectoryGone(w0, w1, w2, paths.value, materialized, w2.log[i].path, w2.log[i].purpose);
    }
  }

  lemma StoppedStays(w: World, w': World, n: nat)
    requires n <= |w.log| && ChildrenStopped(w, n) && ProcsAge(w.procs, w'.procs) && w.log <= w'.log
    ensures ChildrenStopped(w', n)
  {
    assert w'.log[..n] == w.log[..n];
    forall pid | pid in w'.procs
      ensures Stopped(w'.procs[pid])
    {
      assert Ages(w.procs[pid], w'.procs[pid]);
    }
  }

  /** The three parts of teardown together, for the children: stopping, removing, restoring. */
  lemma StoppedThroughout(w0: World, w1: World, w2: World, w3: World, touched: set<Path>)
    requires Rely(w0, w1) && ChildrenStopped(w1, |w1.log|)
    requires Step(w1, w2, touched) && Closes(w1.log, w2.log) && Rely(w2, w3.(handlers := w2.handlers))
    ensures ProcsAge(w0.procs, w3.procs) && Closes(w0.log, w3.log) && w1.log <= w3.log
    ensures ChildrenStopped(w3, |w1.log|)
  {
    StoppedStays(w1, w2, |w1.log|);
    StoppedStays(w2, w3, |w1.log|);
    ProcsAgeTransitive(w0.procs, w1.procs, w2.procs);
    ProcsAgeTransitive(w0.procs, w2.procs, w3.procs);
  }

  /** The same for the directories. */
  lemma GoneThroughout(w1: World, w2: World, w3: World, touched: set<Path>)
    requires AllStopped(w1) && Step(w1, w2, touched) && Closes(w1.log, w2.log) && RuntimeGone(w2, |w1.log|)
    requires forall i :: 0 <= i < |w1.log| && w1.log[i].MadeDirectory? ==> SafeRoot(w1.runRoot)
    requires Rely(w2, w3.(handlers := w2.handlers))
    ensures RuntimeGone(w3, |w1.log|)
  {
    forall p | p in w2.procs
      ensures !Runs(w2.procs[p])
    {
      assert Ages(w1.procs[p], w2.procs[p]);
    }
    forall i | 0 <= i < |w2.log| && w2.log[i].MadeDirectory?
      ensures SafeRoot(w2.runRoot)
    {
      assert i < |w1.log| && w1.log[i] == w2.log[i];
    }
    RuntimeStaysGone(w2, w3, |w1.log|);
  }

  /** `_terminate_children(children)` in the finally block: it reaches every child that was started. */
  method StopAll(relay: SignalRelay, children: seq<Pid>)
    requires Registered(relay, children)
    modifies relay`received, relay.os
    ensures relay.Interfered() && Registered(relay, children)
    ensures AllStopped(relay.os.w) && ChildrenStopped(relay.os.w, |relay.os.w.log|)
  {
    relay.TerminateChildren(children);
    assert relay.os.w.log[..|relay.os.w.log|] == relay.os.w.log;
  }

  lemma SettledMeansReached(relay: SignalRelay, children: seq<Pid>)
    requires Registered(relay, children)
    ensures EveryChildReached(relay.os.w)
  {
  }

  /** The finally block. Before position `calm` of the log every child was stopped; all removals come after it. */
  method Teardown(relay: SignalRelay, children: seq<Pid>, paths: Option<RuntimePaths>, materialized: bool)
    returns (ghost calm: nat)
    requires Registered(relay, children) && AccountedFor(relay.os.w, paths, materialized)
    modifies relay, relay.os
    ensures relay.Valid() && EveryChildReached(relay.os.w)
    ensures |old(relay.os.w.log)| <= calm <= |relay.os.w.log|
    ensures ChildrenStopped(relay.os.w, calm) && RuntimeGone(relay.os.w, calm)
    ensures ProcsAge(old(relay.os.w.procs), relay.os.w.procs) && Closes(old(relay.os.w.log), relay.os.w.log)
    ensures relay.os.w.handlers == old(relay.os.w.handlers) + old(relay.prior)
  {
    ghost var w0 := relay.os.w;
    StopAll(relay, children);
    ghost var w1 := relay.os.w;
    calm := |w1.log|;
    RelyIsStep(w0, w1, {});
    AccountedForLater(w0, w1, paths, materialized);
    RemoveRuntime(relay, paths, materialized);
    ghost var w2 := relay.os.w;
    relay.Restore();
    ghost var touched := if paths.Some? then {paths.value.secretDirectory} + {paths.value.socketDirectory} else {};
    StoppedThroughout(w0, w1, w2, relay.os.w, touched);
    GoneThroughout(w1, w2, relay.os.w, touched);
    SettledMeansReached(relay, children);
  }

  // ----- main -----

  function LoadError(reason: Option<string>): Error {
    if reason.Some? then Expected(Rejected(reason.value)) else Unexpected
  }

  ghost function FailureOf(loaded: Result<Payloads, Option<string>>): Option<Option<string>> {
    if loaded.Err? then Some(loaded.error) else None
  }

  lemma LaunchedIsAccounted(relay: SignalRelay, paths: RuntimePaths, ids: Identities, children: seq<Pid>, materialized: bool)
    requires Launched(relay, paths, ids, children, materialized)
    requires SafeRoot(relay.os.w.runRoot) && paths.secretDirectory != paths.socketDirectory
    ensures AccountedFor(relay.os.w, Some(paths), materialized)
  {
  }

  ghost predicate OnlyQuiet(log: seq<Event>) {
    forall i :: 0 <= i < |log| ==> Quiet(log[i])
  }

  lemma PreparationStarts(w0: World, w1: World, paths: RuntimePaths)
    requires MadeExactly(w0, w1, paths) && OnlyQuiet(w0.log)
    ensures Launching(w1.log, paths) && paths.secretDirectory != paths.socketDirectory
  {
    forall i | 0 <= i < |w1.log|
      ensures LaunchEvent(w1.log[i]) && (w1.log[i].MadeDirectory? ==> w1.log[i].path == PathFor(paths, w1.log[i].purpose))
    {
      if i < |w0.log| {
        assert w1.log[i] == w0.log[i];
      } else {
        assert Preparatory(w1.log[i]);
      }
    }
  }

  lemma PreparationFails(w0: World, w1: World, error: Error, ids: Identities)
    requires PreparationEnds(w0, w1, Err(error)) && OnlyQuiet(w0.log)
    requires SafeRoot(w1.runRoot) || error == Expected(RunRootInvalid)
    ensures RaisedCleanly(w1.log, error, ids) && AccountedFor(w1, None, false) && WebStartsClean(w1.log, ids)
    ensures Truthful(w1.log, None, true)
  {
    forall i | 0 <= i < |w1.log|
      ensures Preparatory(w1.log[i]) && (w1.log[i].MadeDirectory? ==> |w0.log| <= i)
    {
      if i < |w0.log| {
        assert w1.log[i] == w0.log[i];
      }
    }
  }

  /** The try block of main. */
  method Serve(relay: SignalRelay, loaded: Result<Payloads, Option<string>>, ids: Identities, commandValid: bool, rounds: nat)
    returns (outcome: Outcome, children: seq<Pid>, paths: Option<RuntimePaths>, materialized: bool)
    requires Registered(relay, []) && relay.os.w.procs == map[] && OnlyQuiet(relay.os.w.log)
    modifies relay`children, relay`received, relay.os
    ensures Registered(relay, children) && AccountedFor(relay.os.w, paths, materialized)
    ensures ServedSoFar(relay, outcome, ids, rounds, FailureOf(loaded), commandValid)
    ensures loaded.Err? ==> outcome == Raised(LoadError(loaded.error))
    ensures outcome.Raised? && outcome.error.Expected? && outcome.error.code.Rejected? ==> loaded == Err(Some(outcome.error.code.reason))
  {
    relay.Interleave();
    if loaded.Err? {
      LoadingFails(relay.os.w, loaded.error, ids);
      FirstLandedAppend(relay.os.w.log, LoadFailed(loaded.error));
      relay.os.w := relay.os.w.Note(LoadFailed(loaded.error));
      return Raised(LoadError(loaded.error)), [], None, false;
    }
    outcome, children, paths, materialized := ServeLoaded(relay, loaded.value, ids, commandValid, rounds);
    NotRejected(relay.os.w.log, outcome, ids, commandValid);
  }

  lemma LoadingFails(w: World, reason: Option<string>, ids: Identities)
    requires OnlyQuiet(w.log)
    ensures var after := w.Note(LoadFailed(reason));
            && RaisedCleanly(after.log, LoadError(reason), ids) && AccountedFor(after, None, false)
            && WebStartsClean(after.log, ids) && Truthful(after.log, Some(reason), true)
  {
    var log := w.log + [LoadFailed(reason)];
    assert forall i :: 0 <= i < |log| ==> Quiet(log[i]) || log[i] == LoadFailed(reason);
    assert log[|w.log|] == LoadFailed(reason);
  }

  lemma NotRejected(log: seq<Event>, outcome: Outcome, ids: Identities, commandValid: bool)
    requires Truthful(log, None, commandValid) && (outcome.Raised? ==> RaisedCleanly(log, outcome.error, ids))
    ensures outcome.Raised? && outcome.error.Expected? ==> !outcome.error.code.Rejected?
  {
  }

  /** The try block once everything was loaded and checked. */
  method ServeLoaded(relay: SignalRelay, secrets: Payloads, ids: Identities, commandValid: bool, rounds: nat)
    returns (outcome: Outcome, children: seq<Pid>, paths: Option<RuntimePaths>, materialized: bool)
    requires Registered(relay, []) && relay.os.w.procs == map[] && OnlyQuiet(relay.os.w.log)
    modifies relay`children, relay`received, relay.os
    ensures Registered(relay, children) && AccountedFor(relay.os.w, paths, materialized)
    ensures ServedSoFar(relay, outcome, ids, rounds, None, commandValid)
  {
    ghost var w0 := relay.os.w;
    var prepared := PrepareRuntime(relay, secrets, ids);
    if prepared.Err? {
      PreparationFails(w0, relay.os.w, prepared.error, ids);
      return Raised(prepared.error), [], None, false;
    }
    PreparationStarts(w0, relay.os.w, prepared.value);
    paths := Some(prepared.value);
    outcome, children, materialized := ServePrepared(relay, prepared.value, ids, commandValid, rounds);
    LaunchedIsAccounted(relay, prepared.value, ids, children, materialized);
  }

  /** The try block after the worker was started and the secrets were removed. */
  method ServeBeside(relay: SignalRelay, worker: Pid, paths: RuntimePaths, ids: Identities, commandValid: bool, rounds: nat,
                     ghost h: nat, ghost launch: seq<Event>)
    returns (outcome: Outcome, children: seq<Pid>)
    requires Launched(relay, paths, ids, [worker], false) && SafeRoot(relay.os.w.runRoot) && worker in relay.os.w.procs
    requires WorkerReady(relay.os.w.log, launch, worker, h, paths, ids)
    modifies relay`children, relay`received, relay.os
    ensures Launched(relay, paths, ids, children, false)
    ensures ServedSoFar(relay, outcome, ids, rounds, None, commandValid)
  {
    var web, s := StartWeb(relay, worker, paths, ids, commandValid, h, launch);
    if web.Err? {
      return Raised(web.error), [worker];
    }
    children := [worker, web.value];
    assert [worker] + [web.value] == children;
    outcome := ServeChildren(relay, worker, web.value, paths, ids, rounds, s, commandValid);
  }

  /** The try block after preparation. */
  method ServePrepared(relay: SignalRelay, paths: RuntimePaths, ids: Identities, commandValid: bool, rounds: nat)
    returns (outcome: Outcome, children: seq<Pid>, materialized: bool)
    requires Registered(relay, []) && relay.os.w.procs == map[] && Launching(relay.os.w.log, paths) && SafeRoot(relay.os.w.runRoot)
    modifies relay`children, relay`received, relay.os
    ensures Launched(relay, paths, ids, children, materialized)
    ensures ServedSoFar(relay, outcome, ids, rounds, None, commandValid)
  {
    materialized := true;
    ghost var h, launch;
    var started: Result<Pid, Error>;
    started, children, h, launch := StartWorker(relay, paths, ids);
    if started.Err? {
      return Raised(started.error), children, materialized;
    }
    materialized := false;
    outcome, children := ServeBeside(relay, started.value, paths, ids, commandValid, rounds, h, launch);
  }

  lemma FailureExplained(w1: World, w2: World, ids: Identities, r: nat, error: Error, status: int)
    requires RaisedCleanly(w1.log, error, ids) && FailureDecided(w1.log, w2.log, r, error)
    requires status == StatusFor(w2.log[|w2.log| - 1].received, Failure(error))
    ensures StatusExplained(status, w2, ids)
  {
    FailureConcludes(w1.log, w2.log, w2.procs.Keys, ids, r, error);
    assert ExplainedBy(status, w2.log, w2.procs.Keys, ids, r, |w2.log| - 1, Failure(error));
  }

  /** The status of a run whose try block was left: the except blocks decide it, unless _supervise did. */
  method StatusOf(relay: SignalRelay, outcome: Outcome, ids: Identities, children: seq<Pid>, paths: Option<RuntimePaths>,
                  materialized: bool, ghost rounds: nat)
    returns (status: int)
    requires Registered(relay, children) && AccountedFor(relay.os.w, paths, materialized) && WebStartsClean(relay.os.w.log, ids)
    requires !outcome.StillSupervising? && Ended(outcome, relay.os.w, ids, rounds)
    modifies relay`received, relay.os
    ensures Registered(relay, children) && AccountedFor(relay.os.w, paths, materialized) && WebStartsClean(relay.os.w.log, ids)
    ensures relay.os.w.handlers == old(relay.os.w.handlers) && relay.prior == old(relay.prior)
    ensures StatusExplained(status, relay.os.w, ids) && CalmlyExtends(old(relay.os.w.log), relay.os.w.log)
    ensures outcome.Raised? ==> Reported(outcome.error) in relay.os.w.log
  {
    ghost var w1 := relay.os.w;
    if outcome.Exited? {
      status := outcome.status;
      ExitConcludes(w1, ids, status);
    } else {
      ghost var r;
      status, r := ExceptBlock(relay, outcome.error);
      FailureExplained(w1, relay.os.w, ids, r, outcome.error, status);
      AccountedForLater(w1, relay.os.w, paths, materialized);
      CalmKeepsWebStart(w1.log, relay.os.w.log, ids);
    }
  }

  /** What is left when main returns, beside the handlers. */
  ghost predicate Finished(w: World, status: int, ids: Identities, calm: nat) {
    StatusExplained(status, w, ids) && calm <= |w.log| && ChildrenStopped(w, calm) && RuntimeGone(w, calm)
  }

  lemma FinishedAfter(w0: World, w1: World, w2: World, status: int, ids: Identities, calm: nat, outcome: Outcome)
    requires CalmlyExtends(w0.log, w1.log) && StatusExplained(status, w1, ids) && WebStartsClean(w1.log, ids)
    requires outcome.Raised? ==> Reported(outcome.error) in w1.log
    requires w1.procs.Keys == w2.procs.Keys && Closes(w1.log, w2.log)
    requires calm <= |w2.log| && ChildrenStopped(w2, calm) && RuntimeGone(w2, calm)
    ensures WebStartsClean(w2.log, ids) && Finished(w2, status, ids, calm)
    ensures CalmlyExtends(w0.log, w2.log) && (outcome.Raised? ==> Reported(outcome.error) in w2.log)
  {
    CalmKeepsWebStart(w1.log, w2.log, ids);
    StatusStaysExplained(status, w1, w2, ids);
  }

  /** The except and finally blocks. */
  method FinishRun(relay: SignalRelay, outcome: Outcome, ids: Identities, children: seq<Pid>, paths: Option<RuntimePaths>,
                   materialized: bool, ghost rounds: nat)
    returns (status: int, ghost calm: nat)
    requires Registered(relay, children) && AccountedFor(relay.os.w, paths, materialized) && WebStartsClean(relay.os.w.log, ids)
    requires !outcome.StillSupervising? && Ended(outcome, relay.os.w, ids, rounds)
    modifies relay, relay.os
    ensures WebStartsClean(relay.os.w.log, ids) && EveryChildReached(relay.os.w) && Finished(relay.os.w, status, ids, calm)
    ensures relay.os.w.handlers == old(relay.os.w.handlers) + old(relay.prior)
    ensures CalmlyExtends(old(relay.os.w.log), relay.os.w.log)
    ensures outcome.Raised? ==> Reported(outcome.error) in relay.os.w.log
  {
    ghost var w0 := relay.os.w;
    status := StatusOf(relay, outcome, ids, children, paths, materialized, rounds);
    ghost var w1 := relay.os.w;
    calm := Teardown(relay, children, paths, materialized);
    FinishedAfter(w0, w1, relay.os.w, status, ids, calm, outcome);
  }

  /** What the run says of its inputs, and what it does unless something went wrong. */
  ghost predicate TrueToInputs(log: seq<Event>, ids: Identities, loaded: Result<Payloads, Option<string>>, commandValid: bool) {
    && Truthful(log, FailureOf(loaded), commandValid)
    && (forall reason :: Reported(Expected(Rejected(reason))) in log <==> loaded == Err(Some(reason)))
    && (Reported(Unexpected) in log ==> SomeCallFailed(log) || loaded == Err(None))
    && (Reported(Expected(ChildCommandInvalid)) in log ==> !commandValid)
    && (loaded.Ok? && !SomeCallFailed(log) && !RootRefused(log) ==> WorkerStarted(log))
    && (loaded.Ok? && !Troubled(log, ids) ==> WebStarts(log))
  }

  lemma ReportsAreTrue(status: int, w: World, ids: Identities, loaded: Result<Payloads, Option<string>>, commandValid: bool, error: Error)
    requires StatusExplained(status, w, ids) && Truthful(w.log, FailureOf(loaded), commandValid) && Reported(error) in w.log
    ensures error.Expected? && error.code.Rejected? ==> loaded == Err(Some(error.code.reason))
    ensures error.Unexpected? ==> SomeCallFailed(w.log) || loaded == Err(None)
    ensures error == Expected(ChildCommandInvalid) ==> !commandValid
  {
    var r := ReportIsExplained(status, w, ids, error);
    assert forall e :: e in w.log[..r] ==> e in w.log;
    assert forall i :: 0 <= i < r ==> w.log[..r][i] == w.log[i];
  }

  lemma AllReportsAreTrue(status: int, w: World, ids: Identities, loaded: Result<Payloads, Option<string>>, commandValid: bool)
    requires StatusExplained(status, w, ids) && Truthful(w.log, FailureOf(loaded), commandValid)
    ensures forall reason :: Reported(Expected(Rejected(reason))) in w.log ==> loaded == Err(Some(reason))
    ensures Reported(Unexpected) in w.log ==> SomeCallFailed(w.log) || loaded == Err(None)
    ensures Reported(Expected(ChildCommandInvalid)) in w.log ==> !commandValid
  {
    forall error | Reported(error) in w.log
      ensures error.Expected? && error.code.Rejected? ==> loaded == Err(Some(error.code.reason))
      ensures error.Unexpected? ==> SomeCallFailed(w.log) || loaded == Err(None)
      ensures error == Expected(ChildCommandInvalid) ==> !commandValid
    {
      ReportsAreTrue(status, w, ids, loaded, commandValid, error);
    }
  }

  lemma FinishedTrueToInputs(status: int, w: World, ids: Identities, loaded: Result<Payloads, Option<string>>, commandValid: bool)
    requires StatusExplained(status, w, ids) && WebStartsClean(w.log, ids) && Truthful(w.log, FailureOf(loaded), commandValid)
    requires loaded.Err? ==> Reported(LoadError(loaded.error)) in w.log
    ensures TrueToInputs(w.log, ids, loaded, commandValid)
  {
    AllReportsAreTrue(status, w, ids, loaded, commandValid);
    if loaded.Ok? && !SomeCallFailed(w.log) && !RootRefused(w.log) {
      WorkerIsStarted(status, w, ids);
    }
    if loaded.Ok? && !Troubled(w.log, ids) {
      UntroubledRunStartsWeb(status, w, ids);
    }
  }

  lemma WatchingTrueToInputs(w: World, ids: Identities, loaded: Result<Payloads, Option<string>>, commandValid: bool, rounds: nat)
    requires StillWatching(w, rounds) && loaded.Ok? && Truthful(w.log, None, commandValid)
    ensures TrueToInputs(w.log, ids, loaded, commandValid)
  {
    var worker, s: nat, from: nat :| WatchingSince(w, worker, s, from, rounds);
    assert forall error :: Reported(error) !in w.log;
  }

  /** main after the handlers were installed. */
  method RunInstalled(relay: SignalRelay, loaded: Result<Payloads, Option<string>>, ids: Identities, commandValid: bool, rounds: nat)
    returns (status: Option<int>, ghost calm: nat)
    requires Registered(relay, []) && relay.os.w.procs == map[] && OnlyQuiet(relay.os.w.log)
    modifies relay, relay.os
    ensures WebStartsClean(relay.os.w.log, ids) && EveryChildReached(relay.os.w)
    ensures TrueToInputs(relay.os.w.log, ids, loaded, commandValid)
    ensures status.None? ==> StillWatching(relay.os.w, rounds) && relay.os.w.clock >= old(relay.os.w.clock) + 100 * rounds
    ensures status.Some? ==> Finished(relay.os.w, status.value, ids, calm)
                             && relay.os.w.handlers == old(relay.os.w.handlers) + old(relay.prior)
  {
    var outcome, children, paths, materialized := Serve(relay, loaded, ids, commandValid, rounds);
    ghost var w1 := relay.os.w;
    if outcome.StillSupervising? {
      SettledMeansReached(relay, children);
      WatchingTrueToInputs(w1, ids, loaded, commandValid, rounds);
      return None, 0;
    }
    var code;
    code, calm := FinishRun(relay, outcome, ids, children, paths, materialized, rounds);
    CalmStaysTruthful(w1.log, relay.os.w.log, FailureOf(loaded), commandValid);
    FinishedTrueToInputs(code, relay.os.w, ids, loaded, commandValid);
    status := Some(code);
  }

  /** main. The secrets, the target and the identities were loaded and checked with outcome `loaded`;
      `rounds` bounds the supervision rounds of the run, and the status is None while it still supervises. */
  method RunSupervisor(os: Machine, isRoot: bool, command: seq<string>, loaded: Result<Payloads, Option<string>>, ids: Identities, rounds: nat)
    returns (status: Option<int>, ghost calm: nat)
    requires os.w.procs == map[] && os.w.log == [] && forall s :: s in HANDLED ==> s in os.w.handlers
    modifies os
    ensures !isRoot ==> status == Some(78) && os.w == old(os.w).Note(Reported(Expected(RootRequired)))
    ensures isRoot && command == [] ==> status == Some(78) && os.w == old(os.w).Note(Reported(Expected(WebCommandMissing)))
    ensures WebStartsClean(os.w.log, ids) && EveryChildReached(os.w)
    ensures isRoot && command != [] ==> TrueToInputs(os.w.log, ids, loaded, command[0] != "")
    ensures status.None? ==> StillWatching(os.w, rounds) && os.w.clock >= old(os.w.clock) + 100 * rounds
    ensures isRoot && command != [] && status.Some? ==>
              Finished(os.w, status.value, ids, calm) && os.w.handlers == old(os.w.handlers)
  {
    calm := 0;
    if !isRoot {
      os.w := os.w.Note(Reported(Expected(RootRequired)));
      return Some(78), calm;
    }
    if command == [] {
      os.w := os.w.Note(Reported(Expected(WebCommandMissing)));
      return Some(78), calm;
    }
    var relay := new SignalRelay(os);
    relay.Install();
    TakenOverAndBack(old(os.w.handlers), os.w.handlers, relay.prior, HANDLED, Relay);
    status, calm := RunInstalled(relay, loaded, ids, command[0] != "", rounds);
  }
}
