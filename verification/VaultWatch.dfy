/** Waiting for the worker's socket, and supervising the children once both run. */
module VaultWatch {
  import opened Prelude
  import opened VaultMachine
  import opened VaultSignalRelay
  import opened VaultRuntime
  import opened VaultHistory
  import opened VaultRemoval

  const SOCKET_MODE := 432  // 0o660
  const STARTUP_TIMEOUT := 30_000

  // ----- _wait_for_socket -----

  /** Nothing happened but polls, signals and looks at the socket. */
  ghost predicate Watches(a: seq<Event>, b: seq<Event>) {
    a <= b && forall i :: |a| <= i < |b| ==> Quiet(b[i]) || b[i].Probed?
  }

  /** Between the two logs the worker was polled alive before any signal was recorded, and later
      an lstat showed the expected socket. */
  ghost predicate SocketSeen(a: seq<Event>, b: seq<Event>, worker: Pid, path: Path, ids: Identities) {
    exists k, j :: |a| <= k < j < |b| &&
      b[k] == Polled(worker, None) && FirstLanded(b[..k]).None? &&
      b[j].Probed? && b[j].path == path && Judge(b[j].seen, ids).Ready?
  }

  lemma SocketSeenInside(a: seq<Event>, b: seq<Event>, c: seq<Event>, d: seq<Event>, worker: Pid, path: Path, ids: Identities)
    requires SocketSeen(b, c, worker, path, ids) && a <= b && c <= d
    ensures SocketSeen(a, d, worker, path, ids)
  {
    var k, j :| |b| <= k < j < |c| && c[k] == Polled(worker, None) && FirstLanded(c[..k]).None? &&
      c[j].Probed? && c[j].path == path && Judge(c[j].seen, ids).Ready?;
    assert d[..k] == c[..k] && d[k] == c[k] && d[j] == c[j];
  }

  /** Nothing happened but signals, polls, looks at the socket and pauses. */
  ghost predicate RoundEvents(a: seq<Event>, b: seq<Event>) {
    a <= b && forall i :: |a| <= i < |b| ==> b[i].Polled? || b[i].Signalled? || b[i].Landed? || b[i].Probed? || b[i].Slept?
  }

  ghost predicate NotWanted(error: Error, log: seq<Event>, worker: Pid) {
    || (error == Expected(WorkerExitedBeforeSocket) && ExitSeen(log, worker))
    || (error == Expected(StartupInterrupted) && FirstLanded(log).Some?)
  }

  /** Why a round failed, as the log shows it. */
  ghost predicate RoundFailure(error: Error, log: seq<Event>, worker: Pid, ids: Identities) {
    || NotWanted(error, log, worker)
    || (error == Expected(WorkerSocketInvalid) && LookedInvalid(log, ids))
  }

  /** Why waiting failed. */
  ghost predicate WaitFailure(error: Error, from: nat, log: seq<Event>, worker: Pid, path: Path, ids: Identities) {
    || RoundFailure(error, log, worker, ids)
    || (error == Expected(WorkerSocketTimeout) && exists start: nat :: from <= start && WaitedOut(log, start, worker, path, ids))
  }

  /** The last event is a pause of 50 ms after a look that showed no socket, and there was no other pause. */
  ghost predicate MissedLook(a: seq<Event>, b: seq<Event>, path: Path, ids: Identities) {
    && |b| > |a| && b[|b| - 1] == Slept(50)
    && (forall i :: |a| <= i < |b| - 1 ==> !b[i].Slept?)
    && exists j :: |a| <= j < |b| - 1 && MissingLook(b[j], path, ids)
  }

  ghost predicate AliveUnsignalled(a: seq<Event>, b: seq<Event>, worker: Pid) {
    exists k :: |a| <= k < |b| && b[k] == Polled(worker, None) && FirstLanded(b[..k]).None?
  }

  ghost predicate LookedAt(a: seq<Event>, b: seq<Event>, path: Path, ids: Identities, look: Look) {
    exists j :: |a| <= j < |b| && b[j].Probed? && b[j].path == path && look == Judge(b[j].seen, ids)
  }

  /** The checks on the worker and the relay that open a round: Some error, or the worker was alive and no signal had landed. */
  method WorkerStillWanted(relay: SignalRelay, worker: Pid) returns (r: Option<Error>)
    requires relay.Valid() && worker in relay.os.w.procs
    modifies relay`received, relay.os
    ensures relay.Interfered() && Signals(old(relay.os.w.log), relay.os.w.log)
    ensures r.None? ==> AliveUnsignalled(old(relay.os.w.log), relay.os.w.log, worker)
    ensures r.Some? ==> NotWanted(r.value, relay.os.w.log, worker)
  {
    ghost var w0 := relay.os.w;
    var returncode := relay.Observe(worker);
    ghost var w1 := relay.os.w;
    if returncode.Some? {
      return Some(Expected(WorkerExitedBeforeSocket));
    }
    relay.Interleave();
    RelyTransitive(w0, w1, relay.os.w);
    if relay.received.Some? {
      return Some(Expected(StartupInterrupted));
    }
    ghost var k := |w1.log| - 1;
    assert relay.os.w.log[k] == Polled(worker, None) && relay.os.w.log[..k] == w0.log;
    r := None;
  }

  /** One lstat of the socket path and the branches on it: what the look says is what the lstat showed, and a missing socket
      is waited for. */
  method LookForSocket(relay: SignalRelay, path: Path, ids: Identities) returns (look: Look)
    requires relay.Valid()
    modifies relay`received, relay.os
    ensures relay.Advanced({}) && RoundEvents(old(relay.os.w.log), relay.os.w.log)
    ensures LookedAt(old(relay.os.w.log), relay.os.w.log, path, ids, look)
    ensures look.Missing? ==> MissedLook(old(relay.os.w.log), relay.os.w.log, path, ids)
                              && relay.os.w.clock >= old(relay.os.w.clock) + 50
  {
    ghost var w0 := relay.os.w;
    var info := LstatSocket(relay, path);
    ghost var w2 := relay.os.w;
    look := Fails(Expected(WorkerSocketInvalid));
    if info.Ok? && info.value.Some? {
      var node := info.value.value;
      if node.kind.Socket? && node.mode == SOCKET_MODE && node.uid == ids.workerUid && node.gid == ids.acquisitionGid {
        look := Ready;
      }
    } else if info.Ok? {
      look := Missing;
      relay.Sleep(50);
      RelyIsStep(w2, relay.os.w, {});
      StepTransitive(w0, w2, relay.os.w, {}, {});
      PauseAfterLook(w0.log, w2.log, relay.os.w.log, path, info, ids);
    }
  }

  method LstatSocket(relay: SignalRelay, path: Path) returns (info: Result<Option<Node>, ()>)
    requires relay.Valid()
    modifies relay`received, relay.os
    ensures relay.Advanced({}) && SignalsThen(old(relay.os.w.log), relay.os.w.log, Probed(path, info))
  {
    ghost var w0 := relay.os.w;
    relay.Interleave();
    ghost var w1 := relay.os.w;
    RelyIsStep(w0, w1, {});
    info := relay.os.Lstat(path, SOCKET_FILENAME);
    FirstLandedAppend(w1.log, Probed(path, info));
    StepTransitive(w0, w1, relay.os.w, {}, {});
    assert relay.os.w.log[..|w1.log|] == w1.log;
  }

  lemma PauseAfterLook(a: seq<Event>, b: seq<Event>, c: seq<Event>, path: Path, info: Result<Option<Node>, ()>, ids: Identities)
    requires SignalsThen(a, b, Probed(path, info)) && SignalsThen(b, c, Slept(50))
    ensures RoundEvents(a, c) && LookedAt(a, c, path, ids, Judge(info, ids))
    ensures Judge(info, ids).Missing? ==> MissedLook(a, c, path, ids)
  {
    assert forall i :: |b| <= i < |c| - 1 ==> c[..|c| - 1][i] == c[i];
    assert forall i :: |a| <= i < |b| - 1 ==> b[..|b| - 1][i] == b[i] == c[i];
    assert c[|b| - 1] == c[..|c| - 1][|b| - 1] == b[|b| - 1];
  }

  /** What a round saw: the socket, nothing, or a reason to give up. */
  ghost predicate RoundSaw(a: seq<Event>, b: seq<Event>, worker: Pid, path: Path, ids: Identities, look: Look) {
    match look
    case Ready => SocketSeen(a, b, worker, path, ids)
    case Missing => MissedRound(a, b, worker, path, ids)
    case Fails(error) => RoundFailure(error, b, worker, ids)
  }

  lemma LookAfterPoll(w0: seq<Event>, w1: seq<Event>, w2: seq<Event>, worker: Pid, path: Path, ids: Identities, look: Look)
    requires Signals(w0, w1) && RoundEvents(w1, w2) && AliveUnsignalled(w0, w1, worker) && LookedAt(w1, w2, path, ids, look)
    requires look.Missing? ==> MissedLook(w1, w2, path, ids)
    ensures RoundSaw(w0, w2, worker, path, ids, look) && RoundEvents(w0, w2)
  {
    var k :| |w0| <= k < |w1| && w1[k] == Polled(worker, None) && FirstLanded(w1[..k]).None?;
    assert w2[..k] == w1[..k] && w2[k] == w1[k];
    assert forall i :: |w0| <= i < |w1| ==> w2[i] == w1[i];
    var j :| |w1| <= j < |w2| && w2[j].Probed? && w2[j].path == path && look == Judge(w2[j].seen, ids);
    if look.Missing? {
      var l :| |w1| <= l < |w2| - 1 && MissingLook(w2[l], path, ids);
      assert w2[|w2| - 1] == Slept(50);
    }
  }

  /** The rest of a round, after the checks since the world `a` that end in `refusal`. */
  method LookUnlessRefused(relay: SignalRelay, refusal: Option<Error>, path: Path, ids: Identities, ghost a: World, ghost worker: Pid)
    returns (look: Look)
    requires relay.Valid() && Rely(a, relay.os.w) && Signals(a.log, relay.os.w.log)
    requires if refusal.None? then AliveUnsignalled(a.log, relay.os.w.log, worker) else NotWanted(refusal.value, relay.os.w.log, worker)
    modifies relay`received, relay.os
    ensures relay.Valid() && relay.Kept() && Step(a, relay.os.w, {}) && RoundEvents(a.log, relay.os.w.log)
    ensures RoundSaw(a.log, relay.os.w.log, worker, path, ids, look)
    ensures look.Missing? ==> relay.os.w.clock >= a.clock + 50
  {
    ghost var w1 := relay.os.w;
    RelyIsStep(a, w1, {});
    if refusal.Some? {
      return Fails(refusal.value);
    }
    look := LookForSocket(relay, path, ids);
    LookAfterPoll(a.log, w1.log, relay.os.w.log, worker, path, ids, look);
    StepTransitive(a, w1, relay.os.w, {}, {});
  }

  /** One round of the loop. */
  method StartupRound(relay: SignalRelay, worker: Pid, path: Path, ids: Identities) returns (look: Look)
    requires relay.Valid() && worker in relay.os.w.procs
    modifies relay`received, relay.os
    ensures relay.Advanced({}) && RoundEvents(old(relay.os.w.log), relay.os.w.log)
    ensures RoundSaw(old(relay.os.w.log), relay.os.w.log, worker, path, ids, look)
    ensures look.Missing? ==> relay.os.w.clock >= old(relay.os.w.clock) + 50
  {
    ghost var w0 := relay.os.w;
    var refusal := WorkerStillWanted(relay, worker);
    look := LookUnlessRefused(relay, refusal, path, ids, w0, worker);
  }

  /** The last event is the reading `now`; since the one at `start` all other readings were before the deadline. */
  ghost predicate Readings(log: seq<Event>, start: nat, deadline: int, now: int) {
    && start < |log| - 1 && log[start] == Told(deadline - STARTUP_TIMEOUT) && log[|log| - 1] == Told(now)
    && forall i :: start <= i < |log| - 1 && log[i].Told? ==> log[i].at < deadline
  }

  ghost predicate NoPause(a: seq<Event>, b: seq<Event>) {
    a <= b && forall i :: |a| <= i < |b| ==> !b[i].Slept?
  }

  lemma MissedRoundGoesOn(a: seq<Event>, b: seq<Event>, c: seq<Event>, worker: Pid, path: Path, ids: Identities)
    requires MissedRound(a, b, worker, path, ids) && NoPause(b, c)
    ensures MissedRound(a, c, worker, path, ids)
  {
    var k, j, m :| |a| <= k < j < m < |b| && b[k] == Polled(worker, None) && FirstLanded(b[..k]).None? &&
      MissingLook(b[j], path, ids) && b[m] == Slept(50) && forall i :: |a| <= i < |b| && i != m ==> !b[i].Slept?;
    assert c[..k] == b[..k];
    assert forall i :: 0 <= i < |b| ==> c[i] == b[i];
  }

  lemma OneMoreMissed(a: seq<Event>, b: seq<Event>, start: nat, worker: Pid, path: Path, ids: Identities, n: nat)
    requires Waited(a, start, worker, path, ids, n) && a <= b && MissedRound(a, b, worker, path, ids)
    ensures Waited(b, start, worker, path, ids, n + 1)
  {
    assert b[..|a|] == a;
  }

  lemma NoRoundYet(log: seq<Event>, start: nat, worker: Pid, path: Path, ids: Identities)
    requires start <= |log| && forall i :: start <= i < |log| ==> !log[i].Slept?
    ensures Waited(log, start, worker, path, ids, 0)
  {
  }

  /** A round and then a reading of the clock. */
  lemma NextReading(a: seq<Event>, b: seq<Event>, c: seq<Event>, start: nat, deadline: int, before: int, now: int)
    requires Readings(a, start, deadline, before) && before < deadline
    requires RoundEvents(a, b) && SignalsThen(b, c, Told(now))
    ensures Readings(c, start, deadline, now) && NoPause(b, c) && a <= c
  {
    assert forall i :: |b| <= i < |c| - 1 ==> c[..|c| - 1][i] == c[i];
    assert forall i :: 0 <= i < |b| ==> c[..|c| - 1][i] == b[i] == c[i];
    assert forall i :: 0 <= i < |a| ==> b[i] == a[i];
  }

  lemma NextRound(a: seq<Event>, b: seq<Event>, c: seq<Event>, start: nat, worker: Pid, path: Path, ids: Identities, n: nat)
    requires Waited(a, start, worker, path, ids, n) && a <= b && MissedRound(a, b, worker, path, ids) && NoPause(b, c)
    ensures Waited(c, start, worker, path, ids, n + 1)
  {
    MissedRoundGoesOn(a, b, c, worker, path, ids);
    OneMoreMissed(a, c, start, worker, path, ids, n);
  }

  /** n rounds since the world `a` missed the socket, and the clock was read again. */
  ghost predicate Waiting(a: World, w: World, start: nat, deadline: int, now: int, worker: Pid, path: Path, ids: Identities, n: nat) {
    && Step(a, w, {}) && Watches(a.log, w.log) && |a.log| <= start && now == w.clock
    && Readings(w.log, start, deadline, now) && Waited(w.log, start, worker, path, ids, n)
  }

  lemma FirstReadings(a: World, b: World, c: World, begin: int, now: int, worker: Pid, path: Path, ids: Identities)
    requires Rely(a, b) && Rely(b, c) && now == c.clock
    requires SignalsThen(a.log, b.log, Told(begin)) && SignalsThen(b.log, c.log, Told(now))
    ensures Waiting(a, c, |b.log| - 1, begin + STARTUP_TIMEOUT, now, worker, path, ids, 0)
  {
    RelyTransitive(a, b, c);
    RelyIsStep(a, c, {});
    assert forall i :: |b.log| <= i < |c.log| - 1 ==> c.log[..|c.log| - 1][i] == c.log[i];
    assert forall i :: 0 <= i < |b.log| ==> c.log[..|c.log| - 1][i] == b.log[i] == c.log[i];
    assert forall i :: |a.log| <= i < |b.log| - 1 ==> b.log[..|b.log| - 1][i] == b.log[i];
    NoRoundYet(c.log, |b.log| - 1, worker, path, ids);
  }

  /** `deadline = time.monotonic() + timeout_seconds` and the first evaluation of the loop condition. */
  method BeginWaiting(relay: SignalRelay, ghost worker: Pid, ghost path: Path, ghost ids: Identities)
    returns (deadline: int, now: int, ghost start: nat)
    requires relay.Valid()
    modifies relay`received, relay.os
    ensures relay.Valid() && relay.Kept()
    ensures Waiting(old(relay.os.w), relay.os.w, start, deadline, now, worker, path, ids, 0)
  {
    ghost var w0 := relay.os.w;
    var begin := relay.Now();
    ghost var w1 := relay.os.w;
    deadline, start := begin + STARTUP_TIMEOUT, |w1.log| - 1;
    now := relay.Now();
    FirstReadings(w0, w1, relay.os.w, begin, now, worker, path, ids);
  }

  lemma StepsOfARound(a: World, w1: World, w2: World, w3: World)
    requires Step(a, w1, {}) && Step(w1, w2, {}) && Rely(w2, w3)
    ensures Step(a, w3, {})
  {
    RelyIsStep(w2, w3, {});
    StepTransitive(a, w1, w2, {}, {});
    StepTransitive(a, w2, w3, {}, {});
  }

  lemma WatchesOn(a: seq<Event>, b: seq<Event>, c: seq<Event>, d: seq<Event>)
    requires Watches(a, b) && RoundEvents(b, c) && QuietlyExtends(c, d)
    ensures Watches(a, d)
  {
  }

  lemma StillWaiting(a: World, w1: World, w2: World, w3: World, start: nat, deadline: int, before: int, now: int,
                     worker: Pid, path: Path, ids: Identities, n: nat)
    requires Waiting(a, w1, start, deadline, before, worker, path, ids, n) && before < deadline
    requires Step(w1, w2, {}) && RoundEvents(w1.log, w2.log) && MissedRound(w1.log, w2.log, worker, path, ids)
    requires Rely(w2, w3) && SignalsThen(w2.log, w3.log, Told(now)) && now == w3.clock
    ensures Waiting(a, w3, start, deadline, now, worker, path, ids, n + 1)
  {
    NextReading(w1.log, w2.log, w3.log, start, deadline, before, now);
    NextRound(w1.log, w2.log, w3.log, start, worker, path, ids, n);
    StepsOfARound(a, w1, w2, w3);
    WatchesOn(a.log, w1.log, w2.log, w3.log);
  }

  /** One pass of the loop and the next evaluation of its condition. */
  method WaitOnce(relay: SignalRelay, worker: Pid, path: Path, ids: Identities, before: int,
                  ghost a: World, ghost start: nat, ghost deadline: int, ghost n: nat)
    returns (look: Look, now: int)
    requires relay.Valid() && worker in relay.os.w.procs
    requires Waiting(a, relay.os.w, start, deadline, before, worker, path, ids, n) && before < deadline
    modifies relay`received, relay.os
    ensures relay.Valid() && relay.Kept() && Step(a, relay.os.w, {}) && Watches(a.log, relay.os.w.log)
    ensures look.Missing? ==> Waiting(a, relay.os.w, start, deadline, now, worker, path, ids, n + 1) && now > before
    ensures look.Ready? ==> SocketSeen(a.log, relay.os.w.log, worker, path, ids)
    ensures look.Fails? ==> RoundFailure(look.error, relay.os.w.log, worker, ids)
  {
    ghost var w1 := relay.os.w;
    look := StartupRound(relay, worker, path, ids);
    ghost var w2 := relay.os.w;
    StepTransitive(a, w1, w2, {}, {});
    now := before;
    if look.Ready? {
      SocketSeenInside(a.log, w1.log, w2.log, w2.log, worker, path, ids);
    } else if look.Missing? {
      now := relay.Now();
      StillWaiting(a, w1, w2, relay.os.w, start, deadline, before, now, worker, path, ids, n);
    }
  }

  lemma WaitingIsOver(a: World, w: World, start: nat, deadline: int, now: int, worker: Pid, path: Path, ids: Identities, n: nat)
    requires Waiting(a, w, start, deadline, now, worker, path, ids, n) && now >= deadline
    ensures WaitFailure(Expected(WorkerSocketTimeout), |a.log|, w.log, worker, path, ids)
  {
    assert WaitedOut(w.log, start, worker, path, ids);
  }

  /** Ends after the timeout at the latest: with the socket seen, or with an error that has its cause in the log. */
  method WaitForSocket(relay: SignalRelay, worker: Pid, path: Path, ids: Identities) returns (r: Result<(), Error>)
    requires relay.Valid() && worker in relay.os.w.procs
    modifies relay`received, relay.os
    ensures relay.Advanced({}) && Watches(old(relay.os.w.log), relay.os.w.log)
    ensures r.Ok? ==> SocketSeen(old(relay.os.w.log), relay.os.w.log, worker, path, ids)
    ensures r.Err? ==> WaitFailure(r.error, |old(relay.os.w.log)|, relay.os.w.log, worker, path, ids)
  {
    ghost var a, n := relay.os.w, 0;
    var deadline, now, start := BeginWaiting(relay, worker, path, ids);
    while now < deadline
      invariant relay.Valid() && relay.Kept() && Waiting(a, relay.os.w, start, deadline, now, worker, path, ids, n)
      decreases deadline - now
    {
      var look;
      look, now := WaitOnce(relay, worker, path, ids, now, a, start, deadline, n);
      if look.Fails? {
        return Err(look.error);
      }
      if look.Ready? {
        return Ok(());
      }
      n := n + 1;
    }
    WaitingIsOver(a, relay.os.w, start, deadline, now, worker, path, ids, n);
    r := Err(Expected(WorkerSocketTimeout));
  }

  // ----- _supervise -----

  /** The read of `relay.received` that an exit status is computed from. */
  method DecidingRead(relay: SignalRelay) returns (received: Option<int>)
    requires relay.Valid()
    modifies relay.os
    ensures relay.Advanced({}) && received == relay.received
    ensures relay.os.w == old(relay.os.w).Note(Decided(received))
    ensures received == FirstLanded(old(relay.os.w.log))
  {
    received := relay.received;
    FirstLandedAppend(relay.os.w.log, Decided(received));
    relay.os.w := relay.os.w.Note(Decided(received));
  }

  function Others(children: seq<Pid>, exited: Pid): (others: seq<Pid>)
    ensures forall c :: c in others <==> c in children && c != exited
  {
    if children == [] then []
    else
      var front, last := Others(children[..|children| - 1], exited), children[|children| - 1];
      if last != exited then front + [last] else front
  }

  /** The log after a deciding read: before it only signals. */
  ghost predicate JustDecided(a: seq<Event>, log: seq<Event>) {
    && |log| > |a| && QuietlyExtends(a, log[..|log| - 1])
    && log[|log| - 1] == Decided(FirstLanded(log[..|log| - 1]))
  }

  /** The deciding read, with signals before it. */
  method Decide(relay: SignalRelay) returns (received: Option<int>)
    requires relay.Valid()
    modifies relay`received, relay.os
    ensures relay.Advanced({}) && JustDecided(old(relay.os.w.log), relay.os.w.log)
    ensures received == relay.os.w.log[|relay.os.w.log| - 1].received
  {
    ghost var w0 := relay.os.w;
    relay.Interleave();
    ghost var w1 := relay.os.w;
    RelyIsStep(w0, w1, {});
    received := DecidingRead(relay);
    StepTransitive(w0, w1, relay.os.w, {}, {});
    assert relay.os.w.log[..|w1.log|] == w1.log;
  }

  /** All children but the one that exited were stopped. */
  ghost predicate OthersDone(w: World, children: seq<Pid>, exited: Pid) {
    forall c :: c in children && c != exited ==> c in w.procs && Stopped(w.procs[c]) && StoppedBy(w.log, c)
  }

  /** `_terminate_children([other for other in children if other is not child])` */
  method StopOthers(relay: SignalRelay, children: seq<Pid>, exited: Pid)
    requires relay.Valid() && forall c :: c in children ==> c in relay.os.w.procs
    modifies relay`received, relay.os
    ensures relay.Interfered()
    ensures OthersDone(relay.os.w, children, exited)
  {
    var others := Others(children, exited);
    relay.TerminateChildren(others);
  }

  lemma DecidedAfterExit(w1: seq<Event>, w2: seq<Event>, log: seq<Event>, children: seq<Pid>, status: int)
    requires w1 != [] && ExitPoll(w1[|w1| - 1]) && w1[|w1| - 1].pid in children
    requires QuietlyExtends(w1, w2) && JustDecided(w2, log)
    requires forall c :: c in children && c != w1[|w1| - 1].pid ==> StoppedBy(w2, c)
    requires status == StatusFor(log[|log| - 1].received, ChildExit(w1[|w1| - 1].code.value))
    ensures ChildEnded(log, |w1| - 1, children, |w1| - 1, status)
  {
  }

  /** The exit that was just polled is the first thing that happened, unless a signal was recorded. */
  lemma ExitPollEnds(a: seq<Event>, c: seq<Event>, log: seq<Event>, children: seq<Pid>, pid: Pid, code: int, status: int)
    requires JustPolled(a, c, pid, Some(code))
    requires c <= log && ChildEnded(log, |c| - 1, children, |c| - 1, status)
    ensures ChildEnded(log, |a|, children, |c| - 1, status)
  {
    var before := c[..|c| - 1];
    assert FirstLanded(before).None? ==> FirstLanded(c).None? by {
      FirstLandedAppend(before, c[|c| - 1]);
      assert before + [c[|c| - 1]] == c;
    }
    assert before <= log;
    if FirstLanded(before).None? {
      assert before == a;
    }
    ChildEndedSince(log, before, |a|, children, |c| - 1, status);
  }

  lemma OthersStayStopped(w2: World, w3: World, children: seq<Pid>, exited: Pid)
    requires ProcsAge(w2.procs, w3.procs)
    requires forall c :: c in children && c != exited ==> c in w2.procs && Stopped(w2.procs[c])
    ensures forall c :: c in children && c != exited ==> c in w3.procs && Stopped(w3.procs[c])
  {
  }

  lemma ExitDecided(a: seq<Event>, w1: World, w2: World, w3: World, children: seq<Pid>, exited: Pid, returncode: int, status: int)
    requires exited in children && JustPolled(a, w1.log, exited, Some(returncode))
    requires QuietlyExtends(w1.log, w2.log) && JustDecided(w2.log, w3.log) && ProcsAge(w2.procs, w3.procs)
    requires OthersDone(w2, children, exited)
    requires status == StatusFor(w3.log[|w3.log| - 1].received, ChildExit(returncode))
    ensures ChildEnded(w3.log, |a|, children, |w1.log| - 1, status) && OthersStopped(w3, children, |w1.log| - 1)
  {
    DecidedAfterExit(w1.log, w2.log, w3.log, children, status);
    ExitPollEnds(a, w1.log, w3.log, children, exited, returncode, status);
    OthersStayStopped(w2, w3, children, exited);
  }

  /** The others are terminated, and then the status is read; `stopped` is the world in between. */
  method StopOthersAndDecide(relay: SignalRelay, children: seq<Pid>, exited: Pid) returns (received: Option<int>, ghost stopped: World)
    requires relay.Valid() && forall c :: c in children ==> c in relay.os.w.procs
    modifies relay`received, relay.os
    ensures relay.Advanced({}) && QuietlyExtends(old(relay.os.w.log), stopped.log)
    ensures JustDecided(stopped.log, relay.os.w.log) && ProcsAge(stopped.procs, relay.os.w.procs)
    ensures OthersDone(stopped, children, exited)
    ensures received == relay.os.w.log[|relay.os.w.log| - 1].received
  {
    ghost var w1 := relay.os.w;
    StopOthers(relay, children, exited);
    stopped := relay.os.w;
    RelyIsStep(w1, stopped, {});
    received := Decide(relay);
    StepTransitive(w1, stopped, relay.os.w, {}, {});
  }

  /** The two return statements. */
  method ExitStatus(received: Option<int>, returncode: int) returns (status: int)
    ensures status == StatusFor(received, ChildExit(returncode))
  {
    if received.Some? {
      return 128 + received.value;
    }
    return PortableReturncode(returncode);
  }

  /** A child was polled with this return code: the others are terminated and then the exit status is decided. `stopped` is
      the world in between. */
  method FinishAfterExit(relay: SignalRelay, children: seq<Pid>, exited: Pid, returncode: int) returns (status: int, ghost stopped: World)
    requires relay.Valid() && forall c :: c in children ==> c in relay.os.w.procs
    modifies relay`received, relay.os
    ensures relay.Advanced({}) && QuietlyExtends(old(relay.os.w.log), stopped.log)
    ensures JustDecided(stopped.log, relay.os.w.log) && ProcsAge(stopped.procs, relay.os.w.procs)
    ensures OthersDone(stopped, children, exited)
    ensures status == StatusFor(relay.os.w.log[|relay.os.w.log| - 1].received, ChildExit(returncode))
  {
    var received;
    received, stopped := StopOthersAndDecide(relay, children, exited);
    status := ExitStatus(received, returncode);
  }

  /** What the round has seen of the first n children: all alive. */
  ghost predicate AliveSoFar(a: seq<Event>, b: seq<Event>, children: seq<Pid>, n: nat)
    requires n <= |children|
  {
    ExitFree(a, b) && forall k :: 0 <= k < n ==> SeenAlive(b, |a|, children[k])
  }

  lemma OneMoreAlive(a: seq<Event>, b: seq<Event>, c: seq<Event>, children: seq<Pid>, n: nat)
    requires n < |children| && AliveSoFar(a, b, children, n) && JustPolled(b, c, children[n], None)
    ensures AliveSoFar(a, c, children, n + 1)
  {
    ExitFreeTransitive(a, b, c);
    forall k | 0 <= k < n
      ensures SeenAlive(c, |a|, children[k])
    {
      StaysSeenAlive(b, c, |a|, children[k]);
    }
  }

  /** What follows the poll of one child. `a` is the world before it. */
  method AfterPoll(relay: SignalRelay, children: seq<Pid>, child: Pid, returncode: Option<int>, ghost a: World)
    returns (status: Option<int>, ghost r: nat)
    requires relay.Valid() && child in children && forall c :: c in children ==> c in relay.os.w.procs
    requires Rely(a, relay.os.w) && JustPolled(a.log, relay.os.w.log, child, returncode)
    modifies relay`received, relay.os
    ensures relay.Valid() && relay.Kept() && Step(a, relay.os.w, {})
    ensures status.None? ==> returncode.None? && relay.os.w == old(relay.os.w) && relay.received == old(relay.received)
    ensures status.Some? ==> ChildEnded(relay.os.w.log, |a.log|, children, r, status.value) && OthersStopped(relay.os.w, children, r)
  {
    ghost var w1 := relay.os.w;
    RelyIsStep(a, w1, {});
    if returncode.None? {
      return None, 0;
    }
    var code, w2 := FinishAfterExit(relay, children, child, returncode.value);
    ExitDecided(a.log, w1, w2, relay.os.w, children, child, returncode.value, code);
    StepTransitive(a, w1, relay.os.w, {}, {});
    status, r := Some(code), |w1.log| - 1;
  }

  /** One child of the round. */
  method PollChild(relay: SignalRelay, children: seq<Pid>, child: Pid) returns (status: Option<int>, ghost r: nat)
    requires relay.Valid() && child in children && forall c :: c in children ==> c in relay.os.w.procs
    modifies relay`received, relay.os
    ensures relay.Advanced({})
    ensures status.None? ==> relay.Interfered() && JustPolled(old(relay.os.w.log), relay.os.w.log, child, None)
    ensures status.Some? ==> ChildEnded(relay.os.w.log, |old(relay.os.w.log)|, children, r, status.value)
                             && OthersStopped(relay.os.w, children, r)
  {
    ghost var w0 := relay.os.w;
    var returncode := relay.Observe(child);
    status, r := AfterPoll(relay, children, child, returncode, w0);
  }

  /** One pass over the children: all were polled alive, or one had exited and the run is concluded. */
  method PollRound(relay: SignalRelay, children: seq<Pid>) returns (status: Option<int>, ghost r: nat)
    requires relay.Valid() && forall c :: c in children ==> c in relay.os.w.procs
    modifies relay`received, relay.os
    ensures relay.Advanced({})
    ensures status.None? ==> relay.Interfered() && ExitFree(old(relay.os.w.log), relay.os.w.log)
                             && PolledAlive(relay.os.w.log, |old(relay.os.w.log)|, children)
    ensures status.Some? ==> ChildEnded(relay.os.w.log, |old(relay.os.w.log)|, children, r, status.value)
                             && OthersStopped(relay.os.w, children, r)
  {
    ghost var a := relay.os.w;
    for i := 0 to |children|
      invariant relay.Interfered() && AliveSoFar(a.log, relay.os.w.log, children, i)
    {
      ghost var w0 := relay.os.w;
      status, r := PollChild(relay, children, children[i]);
      if status.Some? {
        RelyIsStep(a, w0, {});
        StepTransitive(a, w0, relay.os.w, {}, {});
        ChildEndedSince(relay.os.w.log, w0.log, |a.log|, children, r, status.value);
        return;
      }
      RelyTransitive(a, w0, relay.os.w);
      OneMoreAlive(a.log, w0.log, relay.os.w.log, children, i);
    }
    RelyIsStep(a, relay.os.w, {});
    status, r := None, 0;
  }

  /** One round of the loop with the pause after it. */
  method RoundAndPause(relay: SignalRelay, children: seq<Pid>) returns (status: Option<int>, ghost r: nat)
    requires relay.Valid() && forall c :: c in children ==> c in relay.os.w.procs
    modifies relay`received, relay.os
    ensures relay.Advanced({})
    ensures status.None? ==> relay.Interfered() && ExitFree(old(relay.os.w.log), relay.os.w.log)
                             && PolledAlive(relay.os.w.log, |old(relay.os.w.log)|, children)
                             && relay.os.w.clock >= old(relay.os.w.clock) + 100
    ensures status.Some? ==> ChildEnded(relay.os.w.log, |old(relay.os.w.log)|, children, r, status.value)
                             && OthersStopped(relay.os.w, children, r)
  {
    ghost var w0 := relay.os.w;
    status, r := PollRound(relay, children);
    if status.None? {
      ghost var w1 := relay.os.w;
      relay.Sleep(100);
      RelyTransitive(w0, w1, relay.os.w);
      RelyIsStep(w0, relay.os.w, {});
      ExitFreeTransitive(w0.log, w1.log, relay.os.w.log);
      PolledAliveLonger(w1.log, relay.os.w.log, |w0.log|, children);
    }
  }

  /** Since the world `a` there were n rounds that polled all children alive, each followed by a pause. */
  ghost predicate WatchedSince(a: World, w: World, children: seq<Pid>, n: nat) {
    Rely(a, w) && ExitFree(a.log, w.log) && Watched(w.log, |a.log|, children, n) && w.clock >= a.clock + 100 * n
  }

  lemma WatchedLonger(a: World, b: World, c: World, children: seq<Pid>, n: nat)
    requires WatchedSince(a, b, children, n) && Rely(b, c) && ExitFree(b.log, c.log)
    requires PolledAlive(c.log, |b.log|, children) && c.clock >= b.clock + 100
    ensures WatchedSince(a, c, children, n + 1)
  {
    RelyTransitive(a, b, c);
    OneMoreRound(b.log, c.log, |a.log|, children, n);
    ExitFreeTransitive(a.log, b.log, c.log);
  }

  lemma WatchedUntilEnd(a: World, b: World, c: World, children: seq<Pid>, n: nat, r: nat, status: int)
    requires WatchedSince(a, b, children, n) && Step(b, c, {}) && ChildEnded(c.log, |b.log|, children, r, status)
    ensures Step(a, c, {}) && ChildEnded(c.log, |a.log|, children, r, status)
  {
    RelyIsStep(a, b, {});
    StepTransitive(a, b, c, {}, {});
    ChildEndedSince(c.log, b.log, |a.log|, children, r, status);
  }

  /** The loop, for at most this many rounds. A status: a child was seen to exit, the others were stopped, and then the status
      was decided. None: in every round all children were polled alive, and each round was followed by a pause. */
  method Supervise(relay: SignalRelay, children: seq<Pid>, rounds: nat) returns (status: Option<int>, ghost r: nat)
    requires relay.Valid() && forall c :: c in children ==> c in relay.os.w.procs
    modifies relay`received, relay.os
    ensures relay.Advanced({})
    ensures status.None? ==> relay.Interfered() && WatchedSince(old(relay.os.w), relay.os.w, children, rounds)
    ensures status.Some? ==> ChildEnded(relay.os.w.log, |old(relay.os.w.log)|, children, r, status.value)
                             && OthersStopped(relay.os.w, children, r)
  {
    ghost var a := relay.os.w;
    for round := 0 to rounds
      invariant relay.Interfered() && WatchedSince(a, relay.os.w, children, round)
    {
      ghost var w0 := relay.os.w;
      status, r := RoundAndPause(relay, children);
      if status.Some? {
        WatchedUntilEnd(a, w0, relay.os.w, children, round, r, status.value);
        return;
      }
      WatchedLonger(a, w0, relay.os.w, children, round);
    }
    RelyIsStep(a, relay.os.w, {});
    status, r := None, 0;
  }
}
