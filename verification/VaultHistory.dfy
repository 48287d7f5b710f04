/** What the supervisor's log and its directories say about a run: how the web child was started, how the run is watched,
    how the exit status was decided, and what teardown leaves. */
module VaultHistory {
  import opened Prelude
  import opened VaultMachine
  import opened VaultRuntime

  // ----- the start of the web child -----

  /** A socket with mode 0o660 that belongs to the worker and its group. */
  ghost predicate SocketReady(node: Node, ids: Identities) {
    node.kind.Socket? && node.mode == 432 && node.uid == ids.workerUid && node.gid == ids.acquisitionGid
  }

  datatype Look = Missing | Ready | Fails(error: Error)

  /** What one lstat of the socket path means. */
  ghost function Judge(seen: Result<Option<Node>, ()>, ids: Identities): Look {
    if seen.Err? then Fails(Expected(WorkerSocketInvalid))
    else if seen.value.None? then Missing
    else if SocketReady(seen.value.value, ids) then Ready
    else Fails(Expected(WorkerSocketInvalid))
  }

  ghost predicate RemovalFailed(e: Event, path: Path) {
    (e.UnlinkFailed? && e.path == path) || (e.RmdirFailed? && e.path == path)
  }

  ghost predicate NoRemovalFailed(log: seq<Event>, path: Path) {
    forall e :: e in log ==> !RemovalFailed(e, path)
  }

  ghost predicate WorkerStart(e: Event) {
    e.Spawned? && e.role.Worker?
  }

  ghost predicate WebStart(e: Event) {
    e.Spawned? && e.role.Web?
  }

  /** A spawned worker was polled alive, with no signal recorded before that poll, and
      afterwards an lstat showed the right kind of socket in the socket directory. */
  ghost predicate WorkerShowedSocket(log: seq<Event>, ids: Identities) {
    exists h, k, j :: 0 <= h < k < j < |log| &&
      WorkerStart(log[h]) && log[k] == Polled(log[h].pid, None) && FirstLanded(log[..k]).None? &&
      log[j].Probed? && Judge(log[j].seen, ids).Ready? && MadeDirectory(log[j].path, SocketHome) in log
  }

  /** Every secret directory made so far is gone from the given directories, and removing it never failed. */
  ghost predicate SecretsRemoved(log: seq<Event>, dirs: map<Path, Dir>) {
    forall p :: MadeDirectory(p, Secrets) in log ==> p !in dirs && NoRemovalFailed(log, p)
  }

  /** Whenever the web child was started, all of this held at that moment. */
  ghost predicate WebStartsClean(log: seq<Event>, ids: Identities) {
    forall i :: 0 <= i < |log| && WebStart(log[i]) ==>
      WorkerShowedSocket(log[..i], ids) && SecretsRemoved(log[..i], log[i].dirs)
  }

  lemma CalmKeepsWebStart(a: seq<Event>, b: seq<Event>, ids: Identities)
    requires WebStartsClean(a, ids) && CalmlyExtends(a, b)
    ensures WebStartsClean(b, ids)
  {
    forall i | 0 <= i < |b| && WebStart(b[i])
      ensures WorkerShowedSocket(b[..i], ids) && SecretsRemoved(b[..i], b[i].dirs)
    {
      assert i < |a|;
      assert b[..i] == a[..i] && b[i] == a[i];
    }
  }

  // ----- watching the children -----

  ghost predicate SeenAlive(log: seq<Event>, from: nat, c: Pid) {
    exists i :: from <= i < |log| && log[i] == Polled(c, None)
  }

  lemma StaysSeenAlive(a: seq<Event>, b: seq<Event>, from: nat, c: Pid)
    requires SeenAlive(a, from, c) && a <= b
    ensures SeenAlive(b, from, c)
  {
  }

  ghost predicate PolledAlive(log: seq<Event>, from: nat, children: seq<Pid>) {
    forall c :: c in children ==> SeenAlive(log, from, c)
  }

  lemma PolledAliveLonger(a: seq<Event>, b: seq<Event>, from: nat, children: seq<Pid>)
    requires PolledAlive(a, from, children) && a <= b
    ensures PolledAlive(b, from, children)
  {
  }

  /** From this position on there were n rounds, one after the other, each of which polled every child alive. */
  ghost predicate Watched(log: seq<Event>, from: nat, children: seq<Pid>, n: nat)
    decreases n
  {
    if n == 0 then from <= |log|
    else exists mid: nat :: mid <= |log| && Watched(log[..mid], from, children, n - 1) && PolledAlive(log, mid, children)
  }

  lemma OneMoreRound(a: seq<Event>, b: seq<Event>, from: nat, children: seq<Pid>, n: nat)
    requires Watched(a, from, children, n) && a <= b && PolledAlive(b, |a|, children)
    ensures Watched(b, from, children, n + 1)
  {
    assert b[..|a|] == a;
  }

  /** As long as no signal is recorded, nothing in the new part observed an exit. */
  ghost predicate ExitFree(a: seq<Event>, b: seq<Event>) {
    a <= b && (FirstLanded(b).None? ==> forall i :: |a| <= i < |b| ==> !ExitPoll(b[i]))
  }

  lemma ExitFreeTransitive(a: seq<Event>, b: seq<Event>, c: seq<Event>)
    requires ExitFree(a, b) && ExitFree(b, c)
    ensures ExitFree(a, c)
  {
    if FirstLanded(b).Some? {
      FirstLandedPrefix(b, c);
    }
  }

  // ----- the exit status -----

  function PortableReturncode(returncode: int): (code: nat) {
    if returncode >= 0 then returncode else 128 - returncode
  }

  /** Two return codes are reported alike only if they are equal, or one is a death by signal n and the other an exit with 128 + n. */
  lemma PortableCodesCollideIff(a: int, b: int)
    ensures PortableReturncode(a) == PortableReturncode(b) <==> a == b || (a < 0 && b == 128 - a) || (b < 0 && a == 128 - b)
  {
  }

  // Why a run ended: an exception left the try block, or a child was polled with this code.
  datatype Reason = Failure(error: Error) | ChildExit(code: int)

  ghost function StatusFor(received: Option<int>, reason: Reason): int {
    match received
    case Some(sig) => 128 + sig
    case None =>
      match reason
      case Failure(error) => if error.Expected? then 78 else 70
      case ChildExit(code) => if code >= 0 then code else 128 - code
  }

  ghost predicate Unconcluded(log: seq<Event>) {
    forall i :: 0 <= i < |log| ==> !log[i].Decided? && !log[i].Reported?
  }

  ghost predicate NothingStarted(log: seq<Event>) {
    forall i :: 0 <= i < |log| ==> !log[i].Spawned? && !log[i].MadeDirectory?
  }

  ghost predicate WorkerStarted(log: seq<Event>) {
    exists h :: 0 <= h < |log| && WorkerStart(log[h])
  }

  ghost predicate WebStarts(log: seq<Event>) {
    exists s :: 0 <= s < |log| && WebStart(log[s])
  }

  ghost predicate SomeCallFailed(log: seq<Event>) {
    exists j :: 0 <= j < |log| && log[j].CallFailed?
  }

  ghost predicate RootRefused(log: seq<Event>) {
    exists j :: 0 <= j < |log| && log[j].RootSeen? && !SafeRoot(log[j].root)
  }

  ghost predicate LookedInvalid(log: seq<Event>, ids: Identities) {
    exists j :: 0 <= j < |log| && log[j].Probed? && Judge(log[j].seen, ids).Fails?
  }

  ghost predicate RemovalRefused(log: seq<Event>) {
    exists j :: 0 <= j < |log| && (log[j].UnlinkFailed? || log[j].RmdirFailed?)
  }

  ghost predicate MissingLook(e: Event, path: Path, ids: Identities) {
    e.Probed? && e.path == path && Judge(e.seen, ids).Missing?
  }

  /** The worker was polled alive before any signal was recorded, the socket was missing, and a pause of 50 ms followed; there
      was no other pause. */
  ghost predicate MissedRound(a: seq<Event>, b: seq<Event>, worker: Pid, path: Path, ids: Identities) {
    exists k, j, m :: |a| <= k < j < m < |b| &&
      b[k] == Polled(worker, None) && FirstLanded(b[..k]).None? && MissingLook(b[j], path, ids) && b[m] == Slept(50) &&
      forall i :: |a| <= i < |b| && i != m ==> !b[i].Slept?
  }

  /** From this position on there were n such rounds, and no other pause. */
  ghost predicate Waited(log: seq<Event>, from: nat, worker: Pid, path: Path, ids: Identities, n: nat)
    decreases n
  {
    if n == 0 then from <= |log| && forall i :: from <= i < |log| ==> !log[i].Slept?
    else exists mid: nat :: mid <= |log| && Waited(log[..mid], from, worker, path, ids, n - 1) && MissedRound(log[..mid], log, worker, path, ids)
  }

  /** The clock was read at `from`; in rounds until the last event, which is the first reading after 30 seconds, nothing but
      a missing socket was seen. */
  ghost predicate WaitedOut(log: seq<Event>, from: nat, worker: Pid, path: Path, ids: Identities) {
    && from < |log| - 1 && log[from].Told? && log[|log| - 1].Told?
    && log[|log| - 1].at >= log[from].at + 30_000
    && (forall i :: from <= i < |log| - 1 && log[i].Told? ==> log[i].at < log[from].at + 30_000)
    && exists n: nat :: Waited(log, from, worker, path, ids, n)
  }

  ghost predicate TimedOutAt(log: seq<Event>, ids: Identities, h: nat, from: nat, to: nat, path: Path) {
    && h < from < to <= |log| && WorkerStart(log[h]) && MadeDirectory(path, SocketHome) in log
    && WaitedOut(log[..to], from, log[h].pid, path, ids)
  }

  ghost predicate TimedOut(log: seq<Event>, ids: Identities) {
    exists h: nat, from: nat, to: nat, path :: TimedOutAt(log, ids, h, from, to, path)
  }

  /** The failure has its cause in the log. */
  ghost predicate ErrorExplained(error: Error, log: seq<Event>, ids: Identities) {
    match error
    case Unexpected => SomeCallFailed(log) || LoadFailed(None) in log
    case Expected(code) =>
      match code
      case RootRequired => false
      case WebCommandMissing => false
      case Rejected(reason) => NothingStarted(log) && LoadFailed(Some(reason)) in log
      case RunRootInvalid => NothingStarted(log) && RootRefused(log)
      case WorkerExitedBeforeSocket => exists h :: 0 <= h < |log| && WorkerStart(log[h]) && ExitSeen(log, log[h].pid)
      case StartupInterrupted => WorkerStarted(log) && FirstLanded(log).Some?
      case WorkerSocketInvalid => WorkerStarted(log) && LookedInvalid(log, ids)
      case WorkerSocketTimeout => TimedOut(log, ids)
      case WorkerSecretCleanupFailed => WorkerStarted(log) && RemovalRefused(log)
      case ChildCommandInvalid => WorkerStarted(log) && CommandRefused(Web) in log
  }

  /** The web child was started at s, and r is the first poll after that that observed an exit, unless a signal was recorded. */
  ghost predicate FirstExit(log: seq<Event>, s: nat, r: nat, d: nat)
    requires r < d < |log|
  {
    && s < r && WebStart(log[s]) && ExitPoll(log[r])
    && (forall i :: s < i < r ==> Quiet(log[i]))
    && (FirstLanded(log[..d]).None? ==> forall i :: s < i < r ==> !ExitPoll(log[i]))
  }

  /** The run ended for this reason at r, and the one read that decides the status came after it, at d. Nothing but
      teardown follows r. */
  ghost predicate Concluded(log: seq<Event>, pids: set<Pid>, ids: Identities, r: nat, d: nat, reason: Reason) {
    && r < d < |log| && Unconcluded(log[..r]) && log[d] == Decided(FirstLanded(log[..d]))
    && (forall i :: r < i < |log| && i != d ==> Closing(log[i]))
    && match reason
       case Failure(error) => log[r] == Reported(error) && ErrorExplained(error, log[..r], ids) && !WebStarts(log[..r])
       case ChildExit(code) =>
         && log[r].Polled? && log[r].pid in pids && log[r].code == Some(code)
         && (exists s: nat :: FirstExit(log, s, r, d))
         && forall p :: p in pids && p != log[r].pid ==> StoppedBy(log[..d], p)
  }

  ghost predicate ExplainedBy(status: int, log: seq<Event>, pids: set<Pid>, ids: Identities, r: nat, d: nat, reason: Reason) {
    Concluded(log, pids, ids, r, d, reason) && status == StatusFor(log[d].received, reason)
  }

  /** The status is the one that the log determines. */
  ghost predicate StatusExplained(status: int, w: World, ids: Identities) {
    exists r: nat, d: nat, reason :: ExplainedBy(status, w.log, w.procs.Keys, ids, r, d, reason)
  }

  lemma DecisionIsUnique(log: seq<Event>, pids: set<Pid>, ids: Identities, r1: nat, d1: nat, reason1: Reason, r2: nat, d2: nat, reason2: Reason)
    requires Concluded(log, pids, ids, r1, d1, reason1) && Concluded(log, pids, ids, r2, d2, reason2)
    ensures d1 == d2
  {
  }

  lemma ReasonIsUnique(log: seq<Event>, pids: set<Pid>, ids: Identities, r1: nat, d: nat, reason1: Reason, r2: nat, reason2: Reason)
    requires Concluded(log, pids, ids, r1, d, reason1) && Concluded(log, pids, ids, r2, d, reason2)
    requires FirstLanded(log[..d]).None? && r1 <= r2
    ensures r1 == r2 && reason1 == reason2
  {
    assert forall s: nat :: r1 < s < |log| ==> !WebStart(log[s]) && !log[s].Reported?;
  }

  lemma SameConclusion(log: seq<Event>, pids: set<Pid>, ids: Identities, r1: nat, d1: nat, reason1: Reason, r2: nat, d2: nat, reason2: Reason)
    requires Concluded(log, pids, ids, r1, d1, reason1) && Concluded(log, pids, ids, r2, d2, reason2)
    ensures d1 == d2 && StatusFor(log[d1].received, reason1) == StatusFor(log[d2].received, reason2)
  {
    DecisionIsUnique(log, pids, ids, r1, d1, reason1, r2, d2, reason2);
    if FirstLanded(log[..d1]).None? {
      if r1 <= r2 {
        ReasonIsUnique(log, pids, ids, r1, d1, reason1, r2, reason2);
      } else {
        ReasonIsUnique(log, pids, ids, r2, d1, reason2, r1, reason1);
      }
    }
  }

  /** The log determines the status: no other value can be explained by it. */
  lemma StatusIsDetermined(s1: int, s2: int, w: World, ids: Identities)
    requires StatusExplained(s1, w, ids) && StatusExplained(s2, w, ids)
    ensures s1 == s2
  {
    var r1: nat, d1: nat, reason1 :| ExplainedBy(s1, w.log, w.procs.Keys, ids, r1, d1, reason1);
    var r2: nat, d2: nat, reason2 :| ExplainedBy(s2, w.log, w.procs.Keys, ids, r2, d2, reason2);
    SameConclusion(w.log, w.procs.Keys, ids, r1, d1, reason1, r2, d2, reason2);
  }

  /** A startup that was interrupted ends with 128 plus the first signal. */
  lemma InterruptionGivesTheSignal(w: World, ids: Identities, r: nat, d: nat)
    requires Concluded(w.log, w.procs.Keys, ids, r, d, Failure(Expected(StartupInterrupted)))
    ensures FirstLanded(w.log).Some?
    ensures StatusFor(w.log[d].received, Failure(Expected(StartupInterrupted))) == 128 + FirstLanded(w.log).value
  {
    FirstLandedPrefix(w.log[..r], w.log[..d]);
    FirstLandedPrefix(w.log[..r], w.log);
  }

  /** The failing events of a startup. */
  ghost predicate Troubled(log: seq<Event>, ids: Identities) {
    || SomeCallFailed(log) || RootRefused(log) || LookedInvalid(log, ids) || RemovalRefused(log) || TimedOut(log, ids)
    || FirstLanded(log).Some? || CommandRefused(Web) in log
    || (exists reason :: LoadFailed(reason) in log)
    || (exists h :: 0 <= h < |log| && WorkerStart(log[h]) && ExitSeen(log, log[h].pid))
  }

  lemma CausesAreTrouble(error: Error, log: seq<Event>, ids: Identities)
    requires ErrorExplained(error, log, ids)
    ensures Troubled(log, ids)
  {
  }

  lemma TroubleStays(a: seq<Event>, b: seq<Event>, ids: Identities)
    requires Troubled(a, ids) && a <= b
    ensures Troubled(b, ids)
  {
    assert forall i :: 0 <= i < |a| ==> b[i] == a[i];
    assert forall e :: e in a ==> e in b;
    if FirstLanded(a).Some? {
      FirstLandedPrefix(a, b);
    } else if TimedOut(a, ids) {
      var h: nat, from: nat, to: nat, path :| TimedOutAt(a, ids, h, from, to, path);
      assert b[..to] == a[..to];
      assert TimedOutAt(b, ids, h, from, to, path);
    } else if h :| 0 <= h < |a| && WorkerStart(a[h]) && ExitSeen(a, a[h].pid) {
      var i :| 0 <= i < |a| && ExitPoll(a[i]) && a[i].pid == a[h].pid;
      assert ExitSeen(b, b[h].pid);
    }
  }

  /** A run that ends without trouble has started the web child. */
  lemma UntroubledRunStartsWeb(status: int, w: World, ids: Identities)
    requires StatusExplained(status, w, ids) && !Troubled(w.log, ids)
    ensures WebStarts(w.log)
  {
    var r: nat, d: nat, reason :| ExplainedBy(status, w.log, w.procs.Keys, ids, r, d, reason);
    match reason
    case Failure(error) =>
      CausesAreTrouble(error, w.log[..r], ids);
      TroubleStays(w.log[..r], w.log, ids);
    case ChildExit(_) =>
      var s: nat :| FirstExit(w.log, s, r, d);
  }

  lemma ReportIsTheReason(log: seq<Event>, pids: set<Pid>, ids: Identities, r: nat, d: nat, reason: Reason, error: Error)
    requires Concluded(log, pids, ids, r, d, reason) && Reported(error) in log
    ensures reason == Failure(error)
  {
    var i :| 0 <= i < |log| && log[i] == Reported(error);
    assert forall k :: 0 <= k < r ==> log[..r][k] == log[k];
  }

  /** What is reported on standard error has its cause in the log. */
  lemma ReportIsExplained(status: int, w: World, ids: Identities, error: Error) returns (r: nat)
    requires StatusExplained(status, w, ids) && Reported(error) in w.log
    ensures r <= |w.log| && ErrorExplained(error, w.log[..r], ids)
  {
    var d: nat, reason;
    r, d, reason :| ExplainedBy(status, w.log, w.procs.Keys, ids, r, d, reason);
    ReportIsTheReason(w.log, w.procs.Keys, ids, r, d, reason, error);
  }

  /** Without a signal it decides the status. */
  lemma ReportDecidesTheStatus(status: int, w: World, ids: Identities, error: Error)
    requires StatusExplained(status, w, ids) && Reported(error) in w.log && FirstLanded(w.log).None?
    ensures status == if error.Expected? then 78 else 70
  {
    var r: nat, d: nat, reason :| ExplainedBy(status, w.log, w.procs.Keys, ids, r, d, reason);
    ReportIsTheReason(w.log, w.procs.Keys, ids, r, d, reason, error);
    NothingLandedBefore(w.log, d);
  }

  lemma NothingLandedBefore(log: seq<Event>, d: nat)
    requires d <= |log| && FirstLanded(log).None?
    ensures FirstLanded(log[..d]).None?
  {
    if FirstLanded(log[..d]).Some? {
      FirstLandedPrefix(log[..d], log);
    }
  }

  lemma LateFailureHasWorker(error: Error, log: seq<Event>, ids: Identities)
    requires ErrorExplained(error, log, ids)
    requires !SomeCallFailed(log) && !RootRefused(log) && forall reason :: LoadFailed(reason) !in log
    ensures WorkerStarted(log)
  {
    if TimedOut(log, ids) {
      var h: nat, from: nat, to: nat, path :| TimedOutAt(log, ids, h, from, to, path);
    }
  }

  lemma WorkerStaysStarted(a: seq<Event>, b: seq<Event>)
    requires WorkerStarted(a) && a <= b
    ensures WorkerStarted(b)
  {
    var h :| 0 <= h < |a| && WorkerStart(a[h]);
    assert b[h] == a[h];
  }

  lemma TroubleComesLater(a: seq<Event>, b: seq<Event>)
    requires a <= b && !SomeCallFailed(b) && !RootRefused(b) && forall reason :: LoadFailed(reason) !in b
    ensures !SomeCallFailed(a) && !RootRefused(a) && forall reason :: LoadFailed(reason) !in a
  {
    assert forall i :: 0 <= i < |a| ==> b[i] == a[i];
  }

  /** Once everything was loaded, only a failed call or a refused run root keeps the worker from being started. */
  lemma WorkerIsStarted(status: int, w: World, ids: Identities)
    requires StatusExplained(status, w, ids) && WebStartsClean(w.log, ids)
    requires !SomeCallFailed(w.log) && !RootRefused(w.log) && forall reason :: LoadFailed(reason) !in w.log
    ensures WorkerStarted(w.log)
  {
    var r: nat, d: nat, reason :| ExplainedBy(status, w.log, w.procs.Keys, ids, r, d, reason);
    match reason
    case Failure(error) =>
      TroubleComesLater(w.log[..r], w.log);
      LateFailureHasWorker(error, w.log[..r], ids);
      WorkerStaysStarted(w.log[..r], w.log);
    case ChildExit(_) =>
      var s: nat :| FirstExit(w.log, s, r, d);
      assert WorkerShowedSocket(w.log[..s], ids);
      WorkerStaysStarted(w.log[..s], w.log);
  }

  /** Teardown does not change what was concluded. */
  lemma ConcludedLater(a: seq<Event>, b: seq<Event>, pids: set<Pid>, ids: Identities, r: nat, d: nat, reason: Reason)
    requires Concluded(a, pids, ids, r, d, reason) && Closes(a, b)
    ensures Concluded(b, pids, ids, r, d, reason) && b[d] == a[d]
  {
    assert b[..r] == a[..r] && b[..d] == a[..d];
    if reason.ChildExit? {
      var s: nat :| FirstExit(a, s, r, d);
      assert FirstExit(b, s, r, d);
    }
  }

  // ----- how supervision ends -----

  /** The last event is the read that decides the status, after a poll at r that was the first since `from` to observe an
      exit, unless a signal was recorded, and after every other child was stopped. */
  ghost predicate ChildEnded(log: seq<Event>, from: nat, children: seq<Pid>, r: nat, status: int) {
    && from <= r < |log| - 1
    && var d := |log| - 1;
       && ExitPoll(log[r]) && log[r].pid in children
       && (forall i :: from <= i < d ==> Quiet(log[i]))
       && (FirstLanded(log[..d]).None? ==> forall i :: from <= i < r ==> !ExitPoll(log[i]))
       && log[d] == Decided(FirstLanded(log[..d]))
       && (forall c :: c in children && c != log[r].pid ==> StoppedBy(log[..d], c))
       && status == StatusFor(log[d].received, ChildExit(log[r].code.value))
  }

  /** The part of the log before was quiet and observed no exit either. */
  lemma ChildEndedSince(log: seq<Event>, a: seq<Event>, from: nat, children: seq<Pid>, r: nat, status: int)
    requires ChildEnded(log, |a|, children, r, status) && a <= log && from <= |a|
    requires forall i :: from <= i < |a| ==> Quiet(a[i])
    requires FirstLanded(a).None? ==> forall i :: from <= i < |a| ==> !ExitPoll(a[i])
    ensures ChildEnded(log, from, children, r, status)
  {
    var before := log[..|log| - 1];
    assert a <= before;
    if FirstLanded(a).Some? {
      FirstLandedPrefix(a, before);
    }
  }

  ghost predicate OthersStopped(w: World, children: seq<Pid>, r: nat)
    requires r < |w.log|
  {
    w.log[r].Polled? && forall c :: c in children && c != w.log[r].pid ==> c in w.procs && Stopped(w.procs[c])
  }

  // ----- what teardown leaves -----

  /** The directory has no entry of this name, or does not exist. */
  ghost predicate Gone(w: World, path: Path, name: string) {
    path !in w.dirs || name !in w.dirs[path].entries
  }

  ghost predicate GoneOrRefused(w: World, path: Path, name: string, since: nat)
    requires since <= |w.log|
  {
    Gone(w, path, name) || UnlinkFailed(path, name) in w.log[since..]
  }

  /** None of the secret files, and no socket directory, is left, unless removing that very thing since this position
      failed, or the removal of a failed preparation did. */
  ghost predicate DirectoryGone(w: World, path: Path, purpose: Purpose, since: nat)
    requires since <= |w.log|
  {
    || RmtreeFailed(path) in w.log
    || match purpose
       case Secrets => forall name :: name in SECRET_FILES ==> GoneOrRefused(w, path, name, since)
       case SocketHome => path !in w.dirs || RmdirFailed(path) in w.log[since..]
  }

  ghost predicate RuntimeGone(w: World, since: nat)
    requires since <= |w.log|
  {
    forall i :: 0 <= i < |w.log| && w.log[i].MadeDirectory? ==> DirectoryGone(w, w.log[i].path, w.log[i].purpose, since)
  }

  /** Every child ever started is stopped, and was so before this position of the log. */
  ghost predicate ChildrenStopped(w: World, before: nat)
    requires before <= |w.log|
  {
    forall pid :: pid in w.procs ==> Stopped(w.procs[pid]) && StoppedBy(w.log[..before], pid)
  }

  /** A signal recorded at any time has got through to every child ever started. */
  ghost predicate EveryChildReached(w: World) {
    forall pid :: pid in w.procs && FirstLanded(w.log).Some? ==> Reached(w.procs[pid], FirstLanded(w.log).value)
  }

  // ----- a run that is still supervising -----

  /** The web child was started at s beside a worker, nothing but watching followed, and the secrets are gone. */
  ghost predicate WatchingSince(w: World, worker: Pid, s: nat, from: nat, rounds: nat) {
    && s < |w.log| && s < from && WebStart(w.log[s]) && w.procs.Keys == {worker, w.log[s].pid}
    && (exists h :: 0 <= h < s && WorkerStart(w.log[h]) && w.log[h].pid == worker)
    && (forall i :: s < i < |w.log| ==> Quiet(w.log[i]))
    && Watched(w.log, from, [worker, w.log[s].pid], rounds)
    && Unconcluded(w.log) && SecretsRemoved(w.log, w.dirs)
  }

  ghost predicate StillWatching(w: World, rounds: nat) {
    exists worker, s: nat, from: nat :: WatchingSince(w, worker, s, from, rounds)
  }
}
