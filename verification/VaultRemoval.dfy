/** Removing the secret files and the socket directory, with signals and worker writes in between. */
module VaultRemoval {
  import opened Prelude
  import opened VaultMachine
  import opened VaultSignalRelay
  import opened VaultRuntime
  import opened VaultHistory

  const SOCKET_FILENAME := "acquisition.sock"

  ghost predicate AllStopped(w: World) {
    forall p :: p in w.procs ==> !Runs(w.procs[p])
  }

  /** Nobody but the supervisor writes any more. */
  ghost predicate Undisturbed(w: World) {
    SafeRoot(w.runRoot) && AllStopped(w)
  }

  /** Once nobody writes any more, the directory only loses entries. */
  ghost predicate OnlyShrinks(w: World, w': World, path: Path) {
    Undisturbed(w) ==>
      && Undisturbed(w')
      && (path !in w.dirs ==> path !in w'.dirs)
      && forall name :: Gone(w, path, name) ==> Gone(w', path, name)
  }

  lemma StoppedMeansNoWriter(w: World, w': World, path: Path)
    requires Rely(w, w')
    ensures OnlyShrinks(w, w', path)
  {
  }

  ghost predicate RefusedSince(a: seq<Event>, b: seq<Event>) {
    exists i :: |a| <= i < |b| && (b[i].UnlinkFailed? || b[i].RmdirFailed?)
  }

  lemma RefusedEarlier(a: seq<Event>, b: seq<Event>, c: seq<Event>, d: seq<Event>)
    requires RefusedSince(b, c) && a <= b && c <= d
    ensures RefusedSince(a, d)
  {
  }

  lemma StaysGoneOrRefused(w: World, w': World, path: Path, name: string, since: nat)
    requires since <= |w.log| && w.log <= w'.log
    requires Undisturbed(w) && OnlyShrinks(w, w', path)
    requires GoneOrRefused(w, path, name, since)
    ensures GoneOrRefused(w', path, name, since)
  {
  }

  lemma FromEarlier(w: World, path: Path, name: string, since: nat, later: nat)
    requires since <= later <= |w.log| && GoneOrRefused(w, path, name, later)
    ensures GoneOrRefused(w, path, name, since)
  {
  }

  // ----- single removals -----

  /** path.unlink() inside its try statement. */
  method UnlinkEntry(relay: SignalRelay, path: Path, name: string) returns (refused: bool)
    requires relay.Valid()
    modifies relay`received, relay.os
    ensures relay.Advanced({path}) && OnlyShrinks(old(relay.os.w), relay.os.w, path)
    ensures Closes(old(relay.os.w.log), relay.os.w.log)
    ensures if refused then RefusedSince(old(relay.os.w.log), relay.os.w.log) else QuietlyExtends(old(relay.os.w.log), relay.os.w.log)
    ensures GoneOrRefused(relay.os.w, path, name, |old(relay.os.w.log)|)
  {
    ghost var w0 := relay.os.w;
    relay.Interleave();
    ghost var w1 := relay.os.w;
    StoppedMeansNoWriter(w0, w1, path);
    var res := relay.os.Unlink(path, name);
    refused := res.Refused?;
    FirstLandedAppend(w1.log, UnlinkFailed(path, name));
    RelyIsStep(w0, w1, {});
    StepTransitive(w0, w1, relay.os.w, {}, {path});
    assert {} + {path} == {path};
    if refused {
      assert relay.os.w.log[|w1.log|] == UnlinkFailed(path, name);
      assert relay.os.w.log[|w0.log|..][|w1.log| - |w0.log|] == UnlinkFailed(path, name);
    }
  }

  /** directory.rmdir() inside its try statement. */
  method RemoveDirectory(relay: SignalRelay, path: Path) returns (refused: bool)
    requires relay.Valid()
    modifies relay`received, relay.os
    ensures relay.Advanced({path}) && OnlyShrinks(old(relay.os.w), relay.os.w, path)
    ensures Closes(old(relay.os.w.log), relay.os.w.log)
    ensures if refused then RefusedSince(old(relay.os.w.log), relay.os.w.log) && RmdirFailed(path) in relay.os.w.log[|old(relay.os.w.log)|..]
            else QuietlyExtends(old(relay.os.w.log), relay.os.w.log) && path !in relay.os.w.dirs
  {
    ghost var w0 := relay.os.w;
    relay.Interleave();
    ghost var w1 := relay.os.w;
    StoppedMeansNoWriter(w0, w1, path);
    var res := relay.os.Rmdir(path);
    refused := res.Refused?;
    FirstLandedAppend(w1.log, RmdirFailed(path));
    RelyIsStep(w0, w1, {});
    StepTransitive(w0, w1, relay.os.w, {}, {path});
    assert {} + {path} == {path};
    if refused {
      assert relay.os.w.log[|w1.log|] == RmdirFailed(path);
      assert relay.os.w.log[|w0.log|..][|w1.log| - |w0.log|] == RmdirFailed(path);
    }
  }

  // ----- _remove_secret_files -----

  /** What the removal of the first n files has done. */
  ghost predicate FilesTried(w0: World, w: World, path: Path, n: nat, failed: bool)
    requires n <= 4
  {
    && Step(w0, w, {path}) && Closes(w0.log, w.log)
    && (if failed then RefusedSince(w0.log, w.log) else QuietlyExtends(w0.log, w.log))
    && (Undisturbed(w0) ==> Undisturbed(w) && forall k :: 0 <= k < n ==> GoneOrRefused(w, path, SECRET_FILES[k], |w0.log|))
  }

  lemma OneMoreFile(w0: World, w1: World, w2: World, path: Path, n: nat, failed: bool, refused: bool)
    requires n < 4 && FilesTried(w0, w1, path, n, failed)
    requires Step(w1, w2, {path}) && Closes(w1.log, w2.log) && OnlyShrinks(w1, w2, path)
    requires if refused then RefusedSince(w1.log, w2.log) else QuietlyExtends(w1.log, w2.log)
    requires GoneOrRefused(w2, path, SECRET_FILES[n], |w1.log|)
    ensures FilesTried(w0, w2, path, n + 1, failed || refused)
  {
    StepTransitive(w0, w1, w2, {path}, {path});
    assert {path} + {path} == {path};
    if refused {
      RefusedEarlier(w0.log, w1.log, w2.log, w2.log);
    } else if failed {
      RefusedEarlier(w0.log, w0.log, w1.log, w2.log);
    }
    if Undisturbed(w0) {
      forall k | 0 <= k < n
        ensures GoneOrRefused(w2, path, SECRET_FILES[k], |w0.log|)
      {
        StaysGoneOrRefused(w1, w2, path, SECRET_FILES[k], |w0.log|);
      }
      FromEarlier(w2, path, SECRET_FILES[n], |w0.log|, |w1.log|);
    }
  }

  /** The loop over the four files. */
  method UnlinkFiles(relay: SignalRelay, path: Path) returns (failed: bool)
    requires relay.Valid()
    modifies relay`received, relay.os
    ensures relay.Valid() && relay.Kept() && FilesTried(old(relay.os.w), relay.os.w, path, 4, failed)
  {
    failed := false;
    ghost var w0 := relay.os.w;
    for i := 0 to 4
      invariant relay.Valid() && relay.Kept() && FilesTried(w0, relay.os.w, path, i, failed)
    {
      ghost var w1 := relay.os.w;
      var refused := UnlinkEntry(relay, path, SECRET_FILES[i]);
      OneMoreFile(w0, w1, relay.os.w, path, i, failed, refused);
      failed := failed || refused;
    }
  }

  /** What removing the secret files and then their directory has done. */
  ghost predicate SecretsTried(w0: World, w: World, path: Path, failed: bool) {
    && Step(w0, w, {path}) && Closes(w0.log, w.log)
    && (if failed then RefusedSince(w0.log, w.log) else QuietlyExtends(w0.log, w.log))
    && (Undisturbed(w0) ==> Undisturbed(w) && forall name :: name in SECRET_FILES ==> GoneOrRefused(w, path, name, |w0.log|))
  }

  lemma DirectoryAfterFiles(w0: World, w1: World, w2: World, path: Path, failed: bool, refused: bool)
    requires FilesTried(w0, w1, path, 4, failed)
    requires Step(w1, w2, {path}) && Closes(w1.log, w2.log) && OnlyShrinks(w1, w2, path)
    requires if refused then RefusedSince(w1.log, w2.log) else QuietlyExtends(w1.log, w2.log)
    ensures SecretsTried(w0, w2, path, failed || refused)
  {
    StepTransitive(w0, w1, w2, {path}, {path});
    assert {path} + {path} == {path};
    if refused {
      RefusedEarlier(w0.log, w1.log, w2.log, w2.log);
    } else if failed {
      RefusedEarlier(w0.log, w0.log, w1.log, w2.log);
    }
    if Undisturbed(w0) {
      forall name | name in SECRET_FILES
        ensures GoneOrRefused(w2, path, name, |w0.log|)
      {
        StaysGoneOrRefused(w1, w2, path, name, |w0.log|);
      }
    }
  }

  /** The statements up to the final check. */
  method TryRemoveSecrets(relay: SignalRelay, path: Path) returns (failed: bool)
    requires relay.Valid()
    modifies relay`received, relay.os
    ensures relay.Valid() && relay.Kept() && SecretsTried(old(relay.os.w), relay.os.w, path, failed)
    ensures !failed ==> path !in relay.os.w.dirs
  {
    ghost var w0 := relay.os.w;
    failed := UnlinkFiles(relay, path);
    ghost var w1 := relay.os.w;
    var refused := RemoveDirectory(relay, path);
    DirectoryAfterFiles(w0, w1, relay.os.w, path, failed, refused);
    failed := failed || refused;
  }

  /** Signals and writes before the final check do not undo the removal. */
  lemma SecretsStayTried(w0: World, w1: World, w2: World, path: Path, failed: bool)
    requires SecretsTried(w0, w1, path, failed) && Rely(w1, w2)
    ensures SecretsTried(w0, w2, path, failed)
    ensures SafeRoot(w0.runRoot) && path !in w1.dirs ==> path !in w2.dirs
  {
    RelyIsStep(w1, w2, {});
    StepTransitive(w0, w1, w2, {path}, {});
    assert {path} + {} == {path};
    if failed {
      RefusedEarlier(w0.log, w0.log, w1.log, w2.log);
    }
    if Undisturbed(w0) {
      StoppedMeansNoWriter(w1, w2, path);
      forall name | name in SECRET_FILES
        ensures GoneOrRefused(w2, path, name, |w0.log|)
      {
        StaysGoneOrRefused(w1, w2, path, name, |w0.log|);
      }
    }
  }

  /** Unlinks the four files and removes the directory. In strict mode success means the directory is gone and nothing
      failed on the way, and failure that something was refused; when nobody can write there any more, every file is gone
      whose own unlink did not fail. */
  method RemoveSecretFiles(relay: SignalRelay, paths: RuntimePaths, strict: bool) returns (r: Result<(), Error>)
    requires relay.Valid()
    modifies relay`received, relay.os
    ensures relay.Valid() && relay.Kept()
    ensures exists failed :: SecretsTried(old(relay.os.w), relay.os.w, paths.secretDirectory, failed)
    ensures r.Err? ==> strict && r.error == Expected(WorkerSecretCleanupFailed)
    ensures strict && r.Ok? ==>
      paths.secretDirectory !in relay.os.w.dirs && QuietlyExtends(old(relay.os.w.log), relay.os.w.log)
    ensures r.Err? && SafeRoot(old(relay.os.w.runRoot)) ==> RefusedSince(old(relay.os.w.log), relay.os.w.log)
  {
    ghost var w0 := relay.os.w;
    var failed := TryRemoveSecrets(relay, paths.secretDirectory);
    ghost var w1 := relay.os.w;
    relay.Interleave();
    SecretsStayTried(w0, w1, relay.os.w, paths.secretDirectory, failed);
    if strict && (failed || paths.secretDirectory in relay.os.w.dirs) {
      return Err(Expected(WorkerSecretCleanupFailed));
    }
    r := Ok(());
  }

  // ----- _remove_socket_directory -----

  /** Afterwards the directory is gone or removing it failed; when nobody can write there any more, the same holds of the socket. */
  method RemoveSocketDirectory(relay: SignalRelay, paths: RuntimePaths)
    requires relay.Valid()
    modifies relay`received, relay.os
    ensures relay.Advanced({paths.socketDirectory}) && Closes(old(relay.os.w.log), relay.os.w.log)
    ensures paths.socketDirectory !in relay.os.w.dirs || RmdirFailed(paths.socketDirectory) in relay.os.w.log[|old(relay.os.w.log)|..]
    ensures Undisturbed(old(relay.os.w)) ==>
      Undisturbed(relay.os.w) && GoneOrRefused(relay.os.w, paths.socketDirectory, SOCKET_FILENAME, |old(relay.os.w.log)|)
  {
    ghost var w0 := relay.os.w;
    var _ := UnlinkEntry(relay, paths.socketDirectory, SOCKET_FILENAME);
    ghost var w1 := relay.os.w;
    var refused := RemoveDirectory(relay, paths.socketDirectory);
    StepTransitive(w0, w1, relay.os.w, {paths.socketDirectory}, {paths.socketDirectory});
    assert {paths.socketDirectory} + {paths.socketDirectory} == {paths.socketDirectory};
    if Undisturbed(w0) {
      StaysGoneOrRefused(w1, relay.os.w, paths.socketDirectory, SOCKET_FILENAME, |w0.log|);
    }
    if refused {
      assert relay.os.w.log[|w0.log|..] == relay.os.w.log[|w0.log|..|w1.log|] + relay.os.w.log[|w1.log|..];
    }
  }
}
