/** Preparation of the runtime directories by the vault worker supervisor. No child runs yet,
    so under a safe run root nobody else can write to them; signals may still land anywhere. */
module VaultRuntime {
  import opened Prelude
  import opened VaultMachine
  import opened VaultSignalRelay

  const SECRET_FILES: seq<string> := ["private-key.b64", "public-key-registry.json", "ingest-dsn", "exa-api-key"]
  const SOCKET_DIRECTORY_MODE := 488  // 0o750
  const SECRET_DIRECTORY_MODE := 448  // 0o700
  const SECRET_FILE_MODE := 384       // 0o600

  datatype Identities = Identities(workerUid: nat, acquisitionGid: nat, webUid: nat)
  datatype RuntimePaths = RuntimePaths(secretDirectory: Path, socketDirectory: Path)

  // The four secrets in the order in which they are written.
  type Payloads = s: seq<seq<bv8>> | |s| == 4 witness [[], [], [], []]

  /** A secret file with mode 0o600 that belongs to the worker and its group. */
  ghost function SecretNode(payload: seq<bv8>, ids: Identities): Node {
    Node(Regular, 384, ids.workerUid, ids.acquisitionGid, payload)
  }

  /** The first n secret files, each with its whole payload. */
  ghost function SecretEntries(secrets: Payloads, ids: Identities, n: nat): map<string, Node>
    requires n <= 4
  {
    if n == 0 then map[] else SecretEntries(secrets, ids, n - 1)[SECRET_FILES[n - 1] := SecretNode(secrets[n - 1], ids)]
  }

  lemma SecretEntriesNames(secrets: Payloads, ids: Identities)
    ensures SECRET_FILES == ["private-key.b64", "public-key-registry.json", "ingest-dsn", "exa-api-key"]
    ensures forall name :: name in SecretEntries(secrets, ids, 4) <==> name in SECRET_FILES
    ensures forall i :: 0 <= i < 4 ==> SecretEntries(secrets, ids, 4)[SECRET_FILES[i]] == SecretNode(secrets[i], ids)
  {
    assert |SECRET_FILES[0]| == 15 && |SECRET_FILES[1]| == 24 && |SECRET_FILES[2]| == 10 && |SECRET_FILES[3]| == 11;
    var one := SecretEntries(secrets, ids, 1);
    var two := SecretEntries(secrets, ids, 2);
    var three := SecretEntries(secrets, ids, 3);
    assert one == SecretEntries(secrets, ids, 0)[SECRET_FILES[0] := SecretNode(secrets[0], ids)];
    assert two == one[SECRET_FILES[1] := SecretNode(secrets[1], ids)];
    assert three == two[SECRET_FILES[2] := SecretNode(secrets[2], ids)];
    assert SecretEntries(secrets, ids, 4) == three[SECRET_FILES[3] := SecretNode(secrets[3], ids)];
  }

  /** Only signals and the clock moved, and calls failed. */
  ghost predicate Still(w: World, w': World) {
    && w.clock <= w'.clock && w'.runRoot == w.runRoot && w'.handlers == w.handlers && w'.procs == w.procs
    && w.log <= w'.log && forall i :: |w.log| <= i < |w'.log| ==> Quiet(w'.log[i]) || w'.log[i].CallFailed?
  }

  ghost predicate NoneFailed(a: seq<Event>, b: seq<Event>) {
    forall i :: |a| <= i < |b| ==> !b[i].CallFailed?
  }

  lemma FailedLater(a: seq<Event>, b: seq<Event>, c: seq<Event>)
    requires a <= b <= c
    ensures NoneFailed(a, c) <==> NoneFailed(a, b) && NoneFailed(b, c)
  {
    assert forall i :: |a| <= i < |b| ==> c[i] == b[i];
  }

  /** One call, which was either made or failed. */
  ghost predicate Called(before: World, after: World, call: Call, ok: bool) {
    if ok then after.log == before.log else after.log == before.log + [CallFailed(call)]
  }

  lemma AfterCall(w0: World, before: World, after: World, call: Call, ok: bool)
    requires Still(w0, before) && Called(before, after, call, ok)
    requires after.clock == before.clock && after.runRoot == before.runRoot && after.handlers == before.handlers && after.procs == before.procs
    ensures Still(w0, after) && FirstLanded(after.log) == FirstLanded(before.log)
    ensures NoneFailed(w0.log, after.log) <==> NoneFailed(w0.log, before.log) && ok
  {
    FirstLandedAppend(before.log, CallFailed(call));
    FailedLater(w0.log, before.log, after.log);
    if !ok {
      assert after.log[|before.log|] == CallFailed(call);
    }
  }

  ghost predicate Alone(w: World) {
    SafeRoot(w.runRoot) && w.procs == map[]
  }

  method Pause(relay: SignalRelay)
    requires relay.Valid() && Alone(relay.os.w)
    modifies relay`received, relay.os
    ensures relay.Valid() && relay.Kept()
    ensures Still(old(relay.os.w), relay.os.w) && relay.os.w.dirs == old(relay.os.w.dirs)
    ensures NoneFailed(old(relay.os.w.log), relay.os.w.log)
  {
    ghost var w0 := relay.os.w;
    relay.Interleave();
    NobodyElseWrites(w0, relay.os.w);
  }

  // ----- _write_all and _materialize_files -----

  /** Writes the whole payload in however many pieces the system takes, or fails part way. */
  method WriteAll(relay: SignalRelay, dir: Path, name: string, payload: seq<bv8>) returns (ok: bool)
    requires relay.Valid() && Alone(relay.os.w)
    requires dir in relay.os.w.dirs && name in relay.os.w.dirs[dir].entries
    modifies relay`received, relay.os
    ensures relay.Valid() && relay.Kept() && Still(old(relay.os.w), relay.os.w)
    ensures ok <==> NoneFailed(old(relay.os.w.log), relay.os.w.log)
    ensures exists n :: 0 <= n <= |payload| && (ok ==> n == |payload|) &&
              relay.os.w.dirs == PutNode(old(relay.os.w.dirs), dir, name,
                                   Append(old(relay.os.w.dirs)[dir].entries[name], payload[..n]))
  {
    ghost var w0 := relay.os.w;
    ghost var node := w0.dirs[dir].entries[name];
    var written := 0;
    assert Append(node, payload[..0]) == node;
    assert w0.dirs[dir].entries[name := node] == w0.dirs[dir].entries;
    while written < |payload|
      invariant 0 <= written <= |payload|
      invariant relay.Valid() && relay.Kept() && Still(w0, relay.os.w) && NoneFailed(w0.log, relay.os.w.log)
      invariant relay.os.w.dirs == PutNode(w0.dirs, dir, name, Append(node, payload[..written]))
      decreases |payload| - written
    {
      var count := WriteSome(relay, dir, name, payload, written, w0);
      if count.None? {
        return false;
      }
      written := written + count.value;
      if count.value <= 0 {
        return false;
      }
    }
    assert payload[..written] == payload;
    ok := true;
  }

  /** One os.write of what is left of the payload. */
  method WriteSome(relay: SignalRelay, dir: Path, name: string, payload: seq<bv8>, written: nat, ghost w0: World) returns (count: Option<nat>)
    requires relay.Valid() && Alone(relay.os.w) && Still(w0, relay.os.w) && NoneFailed(w0.log, relay.os.w.log)
    requires dir in w0.dirs && name in w0.dirs[dir].entries && written <= |payload|
    requires relay.os.w.dirs == PutNode(w0.dirs, dir, name, Append(w0.dirs[dir].entries[name], payload[..written]))
    modifies relay`received, relay.os
    ensures relay.Valid() && relay.Kept() && Still(w0, relay.os.w)
    ensures NoneFailed(w0.log, relay.os.w.log) <==> count.Some? && count.value > 0
    ensures var more := if count.Some? then count.value else 0;
      && written + more <= |payload|
      && relay.os.w.dirs == PutNode(w0.dirs, dir, name, Append(w0.dirs[dir].entries[name], payload[..written + more]))
  {
    ghost var w1 := relay.os.w;
    Pause(relay);
    ghost var before := relay.os.w;
    FailedLater(w0.log, w1.log, before.log);
    count := relay.os.Write(dir, name, payload[written..]);
    AfterCall(w0, before, relay.os.w, WriteFile, count.Some? && count.value > 0);
    AppendMore(w0.dirs, dir, name, w0.dirs[dir].entries[name], payload, written, if count.Some? then count.value else 0);
  }

  lemma AppendMore(dirs: map<Path, Dir>, dir: Path, name: string, node: Node, payload: seq<bv8>, written: nat, count: nat)
    requires dir in dirs && written + count <= |payload|
    ensures var sofar := Append(node, payload[..written]);
            PutNode(PutNode(dirs, dir, name, sofar), dir, name, Append(sofar, payload[written..][..count])) ==
            PutNode(dirs, dir, name, Append(node, payload[..written + count]))
  {
    var sofar, next := Append(node, payload[..written]), Append(node, payload[..written + count]);
    assert payload[..written + count] == payload[..written] + payload[written..][..count];
    assert Append(sofar, payload[written..][..count]).content == next.content;
    PutNodeTwice(dirs, dir, name, sofar, next);
  }

  /** Only entries of this directory differ. */
  ghost predicate OnlyEntriesDiffer(dirs: map<Path, Dir>, dirs': map<Path, Dir>, dir: Path) {
    && dir in dirs && dirs'.Keys == dirs.Keys
    && (forall p :: p in dirs && p != dir ==> dirs'[p] == dirs[p])
    && dirs'[dir].(entries := dirs[dir].entries) == dirs[dir]
  }

  /** Exclusive create, fchown and fchmod: an empty file that only the worker may read. */
  method OpenSecret(relay: SignalRelay, dir: Path, name: string, ids: Identities) returns (ok: bool)
    requires relay.Valid() && Alone(relay.os.w) && dir in relay.os.w.dirs
    modifies relay`received, relay.os
    ensures relay.Valid() && relay.Kept() && Still(old(relay.os.w), relay.os.w)
    ensures ok <==> NoneFailed(old(relay.os.w.log), relay.os.w.log)
    ensures OnlyEntriesDiffer(old(relay.os.w.dirs), relay.os.w.dirs, dir)
    ensures ok ==> name !in old(relay.os.w.dirs)[dir].entries &&
                   relay.os.w.dirs == PutNode(old(relay.os.w.dirs), dir, name, SecretNode([], ids))
  {
    ghost var w0 := relay.os.w;
    Pause(relay);
    ghost var w1 := relay.os.w;
    var granted;
    ok, granted := relay.os.CreateExclusive(dir, name, SECRET_FILE_MODE);
    AfterCall(w0, w1, relay.os.w, CreateFile, ok);
    if !ok {
      return;
    }
    var node := Node(Regular, granted, 0, 0, []);
    var owned := node.(uid := ids.workerUid, gid := ids.acquisitionGid);
    ok := ChangeSecret(relay, dir, name, owned, node, w0);
    if !ok {
      return;
    }
    ok := ChangeSecret(relay, dir, name, owned.(mode := SECRET_FILE_MODE), owned, w0);
  }

  /** fchown or fchmod of the file that was created since `w0`. */
  method ChangeSecret(relay: SignalRelay, dir: Path, name: string, node: Node, ghost now: Node, ghost w0: World) returns (ok: bool)
    requires relay.Valid() && Alone(relay.os.w) && Still(w0, relay.os.w) && NoneFailed(w0.log, relay.os.w.log)
    requires dir in w0.dirs && relay.os.w.dirs == PutNode(w0.dirs, dir, name, now)
    modifies relay`received, relay.os
    ensures relay.Valid() && relay.Kept() && Still(w0, relay.os.w)
    ensures ok <==> NoneFailed(w0.log, relay.os.w.log)
    ensures relay.os.w.dirs == PutNode(w0.dirs, dir, name, if ok then node else now)
  {
    ghost var w1 := relay.os.w;
    Pause(relay);
    ghost var before := relay.os.w;
    FailedLater(w0.log, w1.log, before.log);
    ok := relay.os.ChangeFile(dir, name, node);
    AfterCall(w0, before, relay.os.w, Call.ChangeFile, ok);
    PutNodeTwice(w0.dirs, dir, name, now, node);
  }

  /** os.open of the directory or os.fsync, after the steps since `w0`. */
  method TryCall(relay: SignalRelay, call: Call, ghost w0: World) returns (ok: bool)
    requires relay.Valid() && Alone(relay.os.w) && Still(w0, relay.os.w) && NoneFailed(w0.log, relay.os.w.log)
    modifies relay`received, relay.os
    ensures relay.Valid() && relay.Kept() && Still(w0, relay.os.w) && relay.os.w.dirs == old(relay.os.w.dirs)
    ensures ok <==> NoneFailed(w0.log, relay.os.w.log)
  {
    ghost var w1 := relay.os.w;
    Pause(relay);
    ghost var before := relay.os.w;
    FailedLater(w0.log, w1.log, before.log);
    ok := relay.os.Try(call);
    AfterCall(w0, before, relay.os.w, call, ok);
  }

  /** Opens the file and writes the whole payload. */
  method FillFile(relay: SignalRelay, dir: Path, name: string, payload: seq<bv8>, ids: Identities) returns (ok: bool)
    requires relay.Valid() && Alone(relay.os.w) && dir in relay.os.w.dirs
    modifies relay`received, relay.os
    ensures relay.Valid() && relay.Kept() && Still(old(relay.os.w), relay.os.w)
    ensures ok <==> NoneFailed(old(relay.os.w.log), relay.os.w.log)
    ensures OnlyEntriesDiffer(old(relay.os.w.dirs), relay.os.w.dirs, dir)
    ensures ok ==> name !in old(relay.os.w.dirs)[dir].entries &&
                   relay.os.w.dirs == PutNode(old(relay.os.w.dirs), dir, name, SecretNode(payload, ids))
  {
    ghost var w0 := relay.os.w;
    ok := OpenSecret(relay, dir, name, ids);
    if !ok {
      return;
    }
    ghost var w1 := relay.os.w;
    ghost var empty := SecretNode([], ids);
    ok := WriteAll(relay, dir, name, payload);
    ghost var n :| 0 <= n <= |payload| && (ok ==> n == |payload|) &&
      relay.os.w.dirs == PutNode(PutNode(w0.dirs, dir, name, empty), dir, name, Append(empty, payload[..n]));
    PutNodeTwice(w0.dirs, dir, name, empty, Append(empty, payload[..n]));
    FailedLater(w0.log, w1.log, relay.os.w.log);
    assert payload[..|payload|] == payload && Append(empty, payload) == SecretNode(payload, ids);
  }

  /** One iteration of the materialisation: open, write the whole payload, fsync. */
  method MaterializeFile(relay: SignalRelay, dir: Path, name: string, payload: seq<bv8>, ids: Identities) returns (ok: bool)
    requires relay.Valid() && Alone(relay.os.w) && dir in relay.os.w.dirs
    modifies relay`received, relay.os
    ensures relay.Valid() && relay.Kept() && Still(old(relay.os.w), relay.os.w)
    ensures ok <==> NoneFailed(old(relay.os.w.log), relay.os.w.log)
    ensures OnlyEntriesDiffer(old(relay.os.w.dirs), relay.os.w.dirs, dir)
    ensures ok ==> name !in old(relay.os.w.dirs)[dir].entries &&
                   relay.os.w.dirs == PutNode(old(relay.os.w.dirs), dir, name, SecretNode(payload, ids))
  {
    ghost var w0 := relay.os.w;
    ok := FillFile(relay, dir, name, payload, ids);
    if ok {
      ok := TryCall(relay, Fsync, w0);
    }
  }

  method MaterializeFiles(relay: SignalRelay, dir: Path, secrets: Payloads, ids: Identities) returns (ok: bool)
    requires relay.Valid() && Alone(relay.os.w) && dir in relay.os.w.dirs && relay.os.w.dirs[dir].entries == map[]
    modifies relay`received, relay.os
    ensures relay.Valid() && relay.Kept() && Still(old(relay.os.w), relay.os.w)
    ensures ok <==> NoneFailed(old(relay.os.w.log), relay.os.w.log)
    ensures OnlyEntriesDiffer(old(relay.os.w.dirs), relay.os.w.dirs, dir)
    ensures ok ==> relay.os.w.dirs[dir].entries == SecretEntries(secrets, ids, 4)
  {
    ghost var w0 := relay.os.w;
    ok := TryCall(relay, OpenDirectory, w0);
    if !ok {
      return;
    }
    for i := 0 to 4
      invariant relay.Valid() && relay.Kept() && Still(w0, relay.os.w) && NoneFailed(w0.log, relay.os.w.log)
      invariant OnlyEntriesDiffer(w0.dirs, relay.os.w.dirs, dir)
      invariant relay.os.w.dirs[dir].entries == SecretEntries(secrets, ids, i)
    {
      ghost var w1 := relay.os.w;
      ok := MaterializeFile(relay, dir, SECRET_FILES[i], secrets[i], ids);
      FailedLater(w0.log, w1.log, relay.os.w.log);
      if !ok {
        return;
      }
    }
    ok := TryCall(relay, Fsync, w0);
  }

  // ----- _prepare_runtime -----

  ghost function Made(o: Option<Path>): set<Path> {
    if o.Some? then {o.value} else {}
  }

  ghost predicate PreparationEvent(e: Event, secret: Option<Path>, socket: Option<Path>) {
    || Quiet(e) || e.RmtreeFailed? || e.CallFailed?
    || (secret.Some? && e == MadeDirectory(secret.value, Secrets))
    || (socket.Some? && e == MadeDirectory(socket.value, SocketHome))
  }

  /** Preparation so far made exactly these directories and changed no other. */
  ghost predicate Preparing(w: World, w': World, secret: Option<Path>, socket: Option<Path>) {
    && w.clock <= w'.clock && w'.runRoot == w.runRoot && w'.handlers == w.handlers && w'.procs == w.procs
    && w.log <= w'.log
    && (forall i :: |w.log| <= i < |w'.log| ==> PreparationEvent(w'.log[i], secret, socket))
    && (socket.Some? ==> MadeDirectory(socket.value, SocketHome) in w'.log)
    && w.dirs.Keys !! Made(secret) && (w.dirs.Keys + Made(secret)) !! Made(socket)
    && w'.dirs.Keys == w.dirs.Keys + Made(secret) + Made(socket)
    && forall p :: p in w.dirs ==> w'.dirs[p] == w.dirs[p]
  }

  lemma KeepsPreparing(w0: World, w1: World, w2: World, secret: Option<Path>, socket: Option<Path>)
    requires Preparing(w0, w1, secret, socket) && Still(w1, w2) && w2.dirs.Keys == w1.dirs.Keys
    requires forall p :: p in w0.dirs ==> w2.dirs[p] == w1.dirs[p]
    ensures Preparing(w0, w2, secret, socket)
  {
  }

  lemma StaysInLog(e: Event, a: seq<Event>, b: seq<Event>)
    requires e in a && a <= b
    ensures e in b
  {
  }

  /** Everything the worker will need is in place, with exact contents and owners, and modes 0o700 and 0o750. */
  ghost predicate Prepared(w: World, paths: RuntimePaths, secrets: Payloads, ids: Identities) {
    && paths.secretDirectory in w.dirs && paths.socketDirectory in w.dirs
    && w.dirs[paths.secretDirectory] ==
         Dir(448, ids.workerUid, ids.acquisitionGid, SecretEntries(secrets, ids, 4))
    && w.dirs[paths.socketDirectory] == Dir(488, ids.workerUid, ids.acquisitionGid, map[])
  }

  lemma MadeNext(w0: World, before: World, after: World, secret: Option<Path>, path: Path, purpose: Purpose)
    requires Preparing(w0, before, secret, None) && (purpose.Secrets? ==> secret.None?) && path !in before.dirs
    requires after.dirs == before.dirs[path := Dir(448, 0, 0, map[])] && after.log == before.log + [MadeDirectory(path, purpose)]
    requires after.clock == before.clock && after.runRoot == before.runRoot
    requires after.handlers == before.handlers && after.procs == before.procs
    ensures purpose.Secrets? ==> Preparing(w0, after, Some(path), None)
    ensures purpose.SocketHome? ==> Preparing(w0, after, secret, Some(path))
  {
  }

  method MakeDirectory(relay: SignalRelay, purpose: Purpose, ghost w0: World, ghost secret: Option<Path>)
    returns (r: Option<Path>)
    requires relay.Valid() && Alone(relay.os.w) && Preparing(w0, relay.os.w, secret, None)
    requires purpose.Secrets? ==> secret.None?
    modifies relay`received, relay.os
    ensures relay.Valid() && relay.Kept()
    ensures old(relay.os.w.log) <= relay.os.w.log && (r.Some? <==> NoneFailed(old(relay.os.w.log), relay.os.w.log))
    ensures purpose.Secrets? ==> Preparing(w0, relay.os.w, r, None)
    ensures purpose.SocketHome? ==> Preparing(w0, relay.os.w, secret, r)
    ensures forall p :: p in old(relay.os.w.dirs) ==> p in relay.os.w.dirs && relay.os.w.dirs[p] == old(relay.os.w.dirs)[p]
    ensures r.Some? ==> r.value !in old(relay.os.w.dirs) && r.value in relay.os.w.dirs &&
                        relay.os.w.dirs[r.value].entries == map[]
  {
    Pause(relay);
    ghost var before := relay.os.w;
    r := relay.os.Mkdtemp(purpose);
    if r.Some? {
      FirstLandedAppend(before.log, MadeDirectory(r.value, purpose));
      MadeNext(w0, before, relay.os.w, secret, r.value, purpose);
    } else {
      AfterCall(before, before, relay.os.w, Call.Mkdtemp, false);
    }
  }

  /** os.chown or os.chmod of a directory, after the steps since `w0`. */
  method ChangeOwned(relay: SignalRelay, path: Path, d: Dir, ghost w0: World) returns (ok: bool)
    requires relay.Valid() && Alone(relay.os.w) && Still(w0, relay.os.w) && NoneFailed(w0.log, relay.os.w.log)
    requires path in relay.os.w.dirs && d.entries == relay.os.w.dirs[path].entries
    modifies relay`received, relay.os
    ensures relay.Valid() && relay.Kept() && Still(w0, relay.os.w)
    ensures ok <==> NoneFailed(w0.log, relay.os.w.log)
    ensures relay.os.w.dirs == if ok then old(relay.os.w.dirs)[path := d] else old(relay.os.w.dirs)
  {
    ghost var w1 := relay.os.w;
    Pause(relay);
    ghost var before := relay.os.w;
    FailedLater(w0.log, w1.log, before.log);
    ok := relay.os.ChangeDirectory(path, d);
    AfterCall(w0, before, relay.os.w, Call.ChangeDirectory, ok);
  }

  /** os.chown followed by os.chmod. */
  method Own(relay: SignalRelay, path: Path, mode: nat, ids: Identities) returns (ok: bool)
    requires relay.Valid() && Alone(relay.os.w) && path in relay.os.w.dirs
    modifies relay`received, relay.os
    ensures relay.Valid() && relay.Kept() && Still(old(relay.os.w), relay.os.w)
    ensures ok <==> NoneFailed(old(relay.os.w.log), relay.os.w.log)
    ensures relay.os.w.dirs.Keys == old(relay.os.w.dirs).Keys
    ensures relay.os.w.dirs[path].entries == old(relay.os.w.dirs)[path].entries
    ensures forall p :: p in relay.os.w.dirs && p != path ==> relay.os.w.dirs[p] == old(relay.os.w.dirs)[p]
    ensures ok ==> relay.os.w.dirs[path] ==
                     Dir(mode, ids.workerUid, ids.acquisitionGid, old(relay.os.w.dirs)[path].entries)
  {
    ghost var w0 := relay.os.w;
    var d := relay.os.w.dirs[path];
    ok := ChangeOwned(relay, path, d.(uid := ids.workerUid, gid := ids.acquisitionGid), w0);
    if !ok {
      return;
    }
    ok := ChangeOwned(relay, path, d.(uid := ids.workerUid, gid := ids.acquisitionGid, mode := mode), w0);
  }

  /** The body of the try block: on failure the two out-parameters say what was made. */
  method BuildRuntime(relay: SignalRelay, secrets: Payloads, ids: Identities)
    returns (ok: bool, secret: Option<Path>, socket: Option<Path>)
    requires relay.Valid() && Alone(relay.os.w)
    modifies relay`received, relay.os
    ensures relay.Valid() && relay.Kept()
    ensures Preparing(old(relay.os.w), relay.os.w, secret, socket)
    ensures ok <==> NoneFailed(old(relay.os.w.log), relay.os.w.log)
    ensures ok ==> secret.Some? && socket.Some? &&
                   Prepared(relay.os.w, RuntimePaths(secret.value, socket.value), secrets, ids)
  {
    ghost var w0 := relay.os.w;
    ok, secret, socket := false, None, None;
    secret := MakeDirectory(relay, Secrets, w0, None);
    if secret.None? {
      return;
    }
    ghost var w1 := relay.os.w;
    socket := MakeDirectory(relay, SocketHome, w0, secret);
    ghost var w2 := relay.os.w;
    FailedLater(w0.log, w1.log, w2.log);
    if socket.None? {
      return;
    }
    ok := FillRuntime(relay, secret.value, socket.value, secrets, ids, w0);
    FailedLater(w0.log, w2.log, relay.os.w.log);
  }

  /** Ownership, modes and files of the two fresh directories. */
  method FillRuntime(relay: SignalRelay, secret: Path, socket: Path, secrets: Payloads, ids: Identities, ghost w0: World)
    returns (ok: bool)
    requires relay.Valid() && Alone(relay.os.w) && Preparing(w0, relay.os.w, Some(secret), Some(socket))
    requires relay.os.w.dirs[secret].entries == map[] && relay.os.w.dirs[socket].entries == map[]
    modifies relay`received, relay.os
    ensures relay.Valid() && relay.Kept()
    ensures Preparing(w0, relay.os.w, Some(secret), Some(socket)) && old(relay.os.w.log) <= relay.os.w.log
    ensures ok <==> NoneFailed(old(relay.os.w.log), relay.os.w.log)
    ensures ok ==> Prepared(relay.os.w, RuntimePaths(secret, socket), secrets, ids)
  {
    ghost var w1 := relay.os.w;
    ok := Own(relay, secret, SECRET_DIRECTORY_MODE, ids);
    KeepsPreparing(w0, w1, relay.os.w, Some(secret), Some(socket));
    if !ok {
      return;
    }
    ghost var w2 := relay.os.w;
    ok := Own(relay, socket, SOCKET_DIRECTORY_MODE, ids);
    KeepsPreparing(w0, w2, relay.os.w, Some(secret), Some(socket));
    FailedLater(w1.log, w2.log, relay.os.w.log);
    if !ok {
      return;
    }
    ghost var w3 := relay.os.w;
    ok := MaterializeFiles(relay, secret, secrets, ids);
    KeepsPreparing(w0, w3, relay.os.w, Some(secret), Some(socket));
    FailedLater(w1.log, w3.log, relay.os.w.log);
  }

  method RemoveRuntimeDirectory(relay: SignalRelay, path: Path)
    requires relay.Valid() && Alone(relay.os.w)
    modifies relay`received, relay.os
    ensures relay.Valid() && relay.Kept() && relay.os.w.procs == map[]
    ensures var w0, w1 := old(relay.os.w), relay.os.w;
            && w0.clock <= w1.clock && w1.runRoot == w0.runRoot && w1.handlers == w0.handlers
            && SameElsewhere(w0.dirs, w1.dirs, path)
            && w0.log <= w1.log && (forall i :: |w0.log| <= i < |w1.log| ==> Quiet(w1.log[i]) || w1.log[i] == RmtreeFailed(path))
            && (path !in w1.dirs || RmtreeFailed(path) in w1.log)
  {
    Pause(relay);
    ghost var before := relay.os.w;
    relay.os.Rmtree(path);
    FirstLandedAppend(before.log, RmtreeFailed(path));
    if relay.os.w.log != before.log {
      assert relay.os.w.log[|before.log|] == RmtreeFailed(path);
    }
  }

  ghost predicate Discarded(w: World, path: Path) {
    path !in w.dirs || RmtreeFailed(path) in w.log
  }

  /** The except block: both directories that were made are removed, or their removal fails. */
  method DiscardRuntime(relay: SignalRelay, secret: Option<Path>, socket: Option<Path>)
    requires relay.Valid() && Alone(relay.os.w) && Made(secret) !! Made(socket)
    modifies relay`received, relay.os
    ensures relay.Valid() && relay.Kept() && relay.os.w.procs == map[]
    ensures var w0, w1 := old(relay.os.w), relay.os.w;
            && w0.clock <= w1.clock && w1.runRoot == w0.runRoot && w1.handlers == w0.handlers
            && (forall p :: p in w0.dirs && p !in Made(secret) + Made(socket) ==> p in w1.dirs && w1.dirs[p] == w0.dirs[p])
            && w0.log <= w1.log && forall i :: |w0.log| <= i < |w1.log| ==> Quiet(w1.log[i]) || w1.log[i].RmtreeFailed?
    ensures forall p :: p in Made(secret) + Made(socket) ==> Discarded(relay.os.w, p)
  {
    ghost var w0 := relay.os.w;
    if secret.Some? {
      RemoveRuntimeDirectory(relay, secret.value);
    }
    ghost var w1 := relay.os.w;
    assert forall p :: p in Made(secret) ==> Discarded(w1, p);
    if socket.Some? {
      RemoveRuntimeDirectory(relay, socket.value);
    }
    forall p | p in Made(secret)
      ensures Discarded(relay.os.w, p)
    {
      if RmtreeFailed(p) in w1.log {
        StaysInLog(RmtreeFailed(p), w1.log, relay.os.w.log);
      } else {
        assert p !in w1.dirs && p !in Made(socket);
      }
    }
  }

  ghost predicate PreparationFailedClean(w: World, w': World) {
    && (forall i :: |w.log| <= i < |w'.log| && w'.log[i].MadeDirectory? ==>
          Discarded(w', w'.log[i].path))
    && (SafeRoot(w.runRoot) ==> forall p :: p in w.dirs ==> p in w'.dirs && w'.dirs[p] == w.dirs[p])
  }

  /** The last event is the lstat of the run root; what it showed decides whether the root is safe. */
  ghost predicate RootChecked(a: seq<Event>, b: seq<Event>, ok: bool) {
    && |b| > |a| && QuietlyExtends(a, b[..|b| - 1]) && b[|b| - 1].RootSeen? && (ok <==> SafeRoot(b[|b| - 1].root))
  }

  /** _validate_run_root */
  method ValidateRunRoot(relay: SignalRelay) returns (ok: bool)
    requires relay.Valid() && relay.os.w.procs == map[]
    modifies relay`received, relay.os
    ensures relay.Valid() && relay.Kept()
    ensures SameBesides(old(relay.os.w), relay.os.w) && RootChecked(old(relay.os.w.log), relay.os.w.log, ok)
    ensures ok ==> SafeRoot(relay.os.w.runRoot)
    ensures SafeRoot(old(relay.os.w.runRoot)) ==> relay.os.w.dirs == old(relay.os.w.dirs)
  {
    ghost var w0 := relay.os.w;
    relay.Interleave();
    ghost var w1 := relay.os.w;
    if SafeRoot(w0.runRoot) {
      NobodyElseWrites(w0, w1);
    }
    var root := relay.os.LstatRoot();
    FirstLandedAppend(w1.log, RootSeen(root));
    assert relay.os.w.log[..|w1.log|] == w1.log;
    ok := root.Some? && root.value.kind.Directory? && root.value.uid == 0
          && (root.value.mode / 16) % 2 == 0 && (root.value.mode / 2) % 2 == 0;
  }

  /** Only the log, the clock and the directories may differ. */
  ghost predicate SameBesides(w: World, w': World) {
    w.clock <= w'.clock && w'.runRoot == w.runRoot && w'.handlers == w.handlers && w'.procs == w.procs
  }

  ghost predicate Preparatory(e: Event) {
    Quiet(e) || e.RmtreeFailed? || e.MadeDirectory? || e.CallFailed? || e.RootSeen?
  }

  ghost predicate OnlyPrepares(a: seq<Event>, b: seq<Event>) {
    a <= b && forall i :: |a| <= i < |b| ==> Preparatory(b[i])
  }

  lemma FailedClean(w0: World, w1: World, w2: World, w3: World, secret: Option<Path>, socket: Option<Path>)
    requires RootChecked(w0.log, w1.log, true) && Preparing(w1, w2, secret, socket) && w2.log <= w3.log
    requires forall i :: |w2.log| <= i < |w3.log| ==> Quiet(w3.log[i]) || w3.log[i].RmtreeFailed?
    requires forall p :: p in Made(secret) + Made(socket) ==> Discarded(w3, p)
    requires forall p :: p in w2.dirs && p !in Made(secret) + Made(socket) ==> p in w3.dirs && w3.dirs[p] == w2.dirs[p]
    requires SafeRoot(w0.runRoot) ==> w1.dirs == w0.dirs
    ensures PreparationFailedClean(w0, w3)
  {
    RootCheckOnlyPrepares(w0.log, w1.log, true);
    assert forall i :: 0 <= i < |w1.log| ==> w3.log[i] == w1.log[i];
    forall i | |w0.log| <= i < |w3.log| && w3.log[i].MadeDirectory?
      ensures Discarded(w3, w3.log[i].path)
    {
      assert |w1.log| <= i < |w2.log| && w2.log[i] == w3.log[i];
      assert PreparationEvent(w2.log[i], secret, socket);
    }
  }

  lemma OnlyPreparation(w0: World, w1: World, w2: World, secret: Option<Path>, socket: Option<Path>)
    requires RootChecked(w0.log, w1.log, true) && Preparing(w1, w2, secret, socket)
    ensures OnlyPrepares(w0.log, w2.log)
  {
    assert forall i :: |w0.log| <= i < |w1.log| - 1 ==> w1.log[..|w1.log| - 1][i] == w1.log[i];
  }

  lemma RootCheckOnlyPrepares(a: seq<Event>, b: seq<Event>, ok: bool)
    requires RootChecked(a, b, ok)
    ensures OnlyPrepares(a, b) && forall i :: |a| <= i < |b| ==> !b[i].MadeDirectory?
  {
    assert forall i :: |a| <= i < |b| - 1 ==> b[..|b| - 1][i] == b[i];
  }

  /** The directories that preparation made since the world `w`, on success or failure. */
  ghost predicate MadeExactly(w: World, w': World, paths: RuntimePaths) {
    && SameBesides(w, w') && OnlyPrepares(w.log, w'.log)
    && MadeDirectory(paths.socketDirectory, SocketHome) in w'.log
    && (forall i :: |w.log| <= i < |w'.log| && w'.log[i].MadeDirectory? ==>
          w'.log[i] == MadeDirectory(paths.secretDirectory, Secrets) || w'.log[i] == MadeDirectory(paths.socketDirectory, SocketHome))
    && paths.secretDirectory != paths.socketDirectory
    && w.dirs.Keys !! {paths.secretDirectory, paths.socketDirectory}
    && w'.dirs.Keys == w.dirs.Keys + {paths.secretDirectory, paths.socketDirectory}
    && forall p :: p in w.dirs ==> w'.dirs[p] == w.dirs[p]
  }

  lemma PreparedSinceEarlier(w0: World, w1: World, w2: World, secret: Path, socket: Path)
    requires SameBesides(w0, w1) && RootChecked(w0.log, w1.log, true) && w1.dirs == w0.dirs
    requires Preparing(w1, w2, Some(secret), Some(socket))
    ensures MadeExactly(w0, w2, RuntimePaths(secret, socket))
  {
    OnlyPreparation(w0, w1, w2, Some(secret), Some(socket));
    RootCheckOnlyPrepares(w0.log, w1.log, true);
    assert forall i :: 0 <= i < |w1.log| ==> w2.log[i] == w1.log[i];
    forall i | |w0.log| <= i < |w2.log| && w2.log[i].MadeDirectory?
      ensures w2.log[i] == MadeDirectory(secret, Secrets) || w2.log[i] == MadeDirectory(socket, SocketHome)
    {
      assert PreparationEvent(w2.log[i], Some(secret), Some(socket));
    }
  }

  /** Some call failed since then. */
  ghost predicate CallFailedSince(a: seq<Event>, b: seq<Event>) {
    exists i :: |a| <= i < |b| && b[i].CallFailed?
  }

  /** The lstat of the run root showed none that only root can change. */
  ghost predicate RootRefusedSince(a: seq<Event>, b: seq<Event>) {
    exists i :: |a| <= i < |b| && b[i].RootSeen? && !SafeRoot(b[i].root)
  }

  /** What preparation has done, and why it failed if it did. */
  ghost predicate PreparationEnds(w: World, w': World, r: Result<RuntimePaths, Error>) {
    && SameBesides(w, w') && OnlyPrepares(w.log, w'.log)
    && (CallFailedSince(w.log, w'.log) <==> r == Err(Unexpected))
    && (RootRefusedSince(w.log, w'.log) <==> r == Err(Expected(RunRootInvalid)))
    && match r
       case Ok(paths) => SafeRoot(w'.runRoot) && MadeExactly(w, w', paths)
       case Err(error) => error in {Unexpected, Expected(RunRootInvalid)} && PreparationFailedClean(w, w')
                          && (error.Expected? ==> forall i :: |w.log| <= i < |w'.log| ==> !w'.log[i].MadeDirectory?)
  }

  lemma RootCheckFailsNothing(a: seq<Event>, b: seq<Event>, ok: bool)
    requires RootChecked(a, b, ok)
    ensures NoneFailed(a, b) && (RootRefusedSince(a, b) <==> !ok)
  {
    assert forall i :: |a| <= i < |b| - 1 ==> b[..|b| - 1][i] == b[i];
  }

  lemma EndsRefused(w0: World, w1: World)
    requires SameBesides(w0, w1) && RootChecked(w0.log, w1.log, false)
    requires SafeRoot(w0.runRoot) ==> w1.dirs == w0.dirs
    ensures PreparationEnds(w0, w1, Err(Expected(RunRootInvalid)))
  {
    RootCheckOnlyPrepares(w0.log, w1.log, false);
    RootCheckFailsNothing(w0.log, w1.log, false);
  }

  /** Building and discarding look at the run root no more. */
  lemma RootStaysAccepted(w0: World, w1: World, w2: World, w3: World, secret: Option<Path>, socket: Option<Path>)
    requires RootChecked(w0.log, w1.log, true) && Preparing(w1, w2, secret, socket) && w2.log <= w3.log
    requires forall i :: |w2.log| <= i < |w3.log| ==> Quiet(w3.log[i]) || w3.log[i].RmtreeFailed?
    ensures !RootRefusedSince(w0.log, w3.log)
    ensures CallFailedSince(w0.log, w3.log) <==> !NoneFailed(w1.log, w2.log)
  {
    RootCheckFailsNothing(w0.log, w1.log, true);
    assert forall i :: 0 <= i < |w1.log| ==> w3.log[i] == w1.log[i];
    assert forall i :: 0 <= i < |w2.log| ==> w3.log[i] == w2.log[i];
    assert forall i :: |w1.log| <= i < |w2.log| ==> PreparationEvent(w2.log[i], secret, socket);
  }

  lemma EndsPrepared(w0: World, w1: World, w2: World, secret: Path, socket: Path)
    requires SameBesides(w0, w1) && RootChecked(w0.log, w1.log, true) && w1.dirs == w0.dirs && SafeRoot(w1.runRoot)
    requires Preparing(w1, w2, Some(secret), Some(socket)) && NoneFailed(w1.log, w2.log)
    ensures PreparationEnds(w0, w2, Ok(RuntimePaths(secret, socket)))
  {
    PreparedSinceEarlier(w0, w1, w2, secret, socket);
    RootStaysAccepted(w0, w1, w2, w2, Some(secret), Some(socket));
  }

  lemma EndsDiscarded(w0: World, w1: World, w2: World, w3: World, secret: Option<Path>, socket: Option<Path>)
    requires SameBesides(w0, w1) && RootChecked(w0.log, w1.log, true) && SameBesides(w2, w3)
    requires Preparing(w1, w2, secret, socket) && !NoneFailed(w1.log, w2.log) && w2.log <= w3.log
    requires forall i :: |w2.log| <= i < |w3.log| ==> Quiet(w3.log[i]) || w3.log[i].RmtreeFailed?
    requires forall p :: p in Made(secret) + Made(socket) ==> Discarded(w3, p)
    requires forall p :: p in w2.dirs && p !in Made(secret) + Made(socket) ==> p in w3.dirs && w3.dirs[p] == w2.dirs[p]
    requires SafeRoot(w0.runRoot) ==> w1.dirs == w0.dirs
    ensures PreparationEnds(w0, w3, Err(Unexpected))
  {
    FailedClean(w0, w1, w2, w3, secret, socket);
    OnlyPreparation(w0, w1, w2, secret, socket);
    RootStaysAccepted(w0, w1, w2, w3, secret, socket);
  }

  /** Either everything is in place, under a run root that only root can change; or the removal of
      both directories was attempted, and each is gone unless its removal failed. It fails exactly if a call
      failed or the run root was refused. */
  method PrepareRuntime(relay: SignalRelay, secrets: Payloads, ids: Identities) returns (r: Result<RuntimePaths, Error>)
    requires relay.Valid() && relay.os.w.procs == map[]
    modifies relay`received, relay.os
    ensures relay.Valid() && relay.Kept() && PreparationEnds(old(relay.os.w), relay.os.w, r)
    ensures r.Ok? ==> Prepared(relay.os.w, r.value, secrets, ids)
    ensures !SafeRoot(old(relay.os.w.runRoot)) ==> r == Err(Expected(RunRootInvalid))
  {
    ghost var w0 := relay.os.w;
    var valid := ValidateRunRoot(relay);
    ghost var w1 := relay.os.w;
    if !valid {
      EndsRefused(w0, w1);
      return Err(Expected(RunRootInvalid));
    }
    var ok, secret, socket := BuildRuntime(relay, secrets, ids);
    ghost var w2 := relay.os.w;
    if ok {
      EndsPrepared(w0, w1, w2, secret.value, socket.value);
      return Ok(RuntimePaths(secret.value, socket.value));
    }
    DiscardRuntime(relay, secret, socket);
    EndsDiscarded(w0, w1, w2, relay.os.w, secret, socket);
    r := Err(Unexpected);
  }
}
