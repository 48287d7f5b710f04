/** SignalRelay and the child-stopping functions of the vault worker supervisor.

    `Interleave` stands between any two statements: it lets the machine drift and
    runs the relay's handler for any number of signals. Every method below calls it
    wherever the original could be interrupted, so each contract holds for every
    placement of signals, child exits and worker writes. */
module VaultSignalRelay {
  import opened Prelude
  import opened VaultMachine

  const SHUTDOWN_TIMEOUT := 10_000
  const HANDLED: seq<int> := [SIGINT, SIGTERM, SIGHUP, SIGQUIT]

  /** The entries of these keys were saved in `prior` and replaced by `mine`; no other changed. */
  ghost predicate TakenOver<K(!new), V(!new)>(table: map<K, V>, now: map<K, V>, prior: map<K, V>, keys: seq<K>, mine: V) {
    && now.Keys == table.Keys
    && (forall s :: s in prior <==> s in keys)
    && (forall s :: s in keys ==> s in table && prior[s] == table[s])
    && (forall s :: s in table ==> now[s] == if s in keys then mine else table[s])
  }

  lemma TakeOneMore<K(!new), V(!new)>(table: map<K, V>, now: map<K, V>, prior: map<K, V>, keys: seq<K>, mine: V, k: K)
    requires TakenOver(table, now, prior, keys, mine) && k in table && k !in keys
    ensures TakenOver(table, now[k := mine], prior[k := now[k]], keys + [k], mine)
  {
  }

  /** Putting the saved entries back restores the table. */
  lemma TakenOverAndBack<K(!new), V(!new)>(table: map<K, V>, now: map<K, V>, prior: map<K, V>, keys: seq<K>, mine: V)
    requires TakenOver(table, now, prior, keys, mine)
    ensures now + prior == table
  {
  }

  lemma AnyOf<T>(s: set<T>) returns (x: T)
    requires s != {}
    ensures x in s
  {
    x :| x in s;
  }

  /** Between the two worlds the group was signalled, unless the exit was observed. */
  ghost predicate SignalledSince(w: World, w': World, pid: Pid, sig: int) {
    && pid in w'.procs
    && Reached(w'.procs[pid], sig)
    && (Exited(w', pid) || exists i :: |w.log| <= i < |w'.log| && SignalledWith(w'.log[i], pid, sig)
                                       && w.clock <= w'.log[i].at <= w'.clock)
  }

  /** Only what signals and polls leave in the log was added. */
  ghost predicate Signals(a: seq<Event>, b: seq<Event>) {
    a <= b && forall i :: |a| <= i < |b| ==> b[i].Polled? || b[i].Signalled? || b[i].Landed?
  }

  /** The last event is this one; before it only signals and polls were added. */
  ghost predicate SignalsThen(a: seq<Event>, b: seq<Event>, e: Event) {
    |b| > |a| && Signals(a, b[..|b| - 1]) && b[|b| - 1] == e
  }

  class SignalRelay {
    const os: Machine
    var children: seq<Pid>
    var received: Option<int>
    var prior: map<int, Handler>

    constructor (os: Machine)
      requires FirstLanded(os.w.log).None?
      ensures this.os == os && children == [] && received == None && prior == map[] && Valid()
    {
      this.os := os;
      children, received, prior := [], None, map[];
    }

    ghost predicate Valid()
      reads this, os
    {
      && (forall c :: c in children ==> c in os.w.procs)
      && received == FirstLanded(os.w.log)
    }

    /** Whatever signal was recorded first has got through to this child. */
    ghost predicate Settled(c: Pid)
      reads this, os
    {
      c in os.w.procs && (received.Some? ==> Reached(os.w.procs[c], received.value))
    }

    ghost predicate AllSettled()
      reads this, os
    {
      forall c :: c in children ==> Settled(c)
    }

    /** The relay's part of an interruption: the first signal stays, and settled children stay settled. */
    twostate predicate Kept()
      reads this, os
    {
      && children == old(children) && prior == old(prior)
      && (old(received).Some? ==> received == old(received))
      && (forall c :: c in children && old(Settled(c)) ==> Settled(c))
    }

    twostate predicate Interfered()
      reads this, os
    {
      Valid() && Kept() && Rely(old(os.w), os.w)
    }

    twostate predicate Advanced(touched: set<Path>)
      reads this, os
    {
      Valid() && Kept() && Step(old(os.w), os.w, touched)
    }

    // ----- _signal_child, _handle, and the interruption itself -----

    /** os.killpg, which may be interrupted before it unless the handler calls it. */
    method SendSignal(pid: Pid, sig: int, inHandler: bool)
      requires Valid() && pid in os.w.procs
      modifies this`received, os
      ensures Interfered()
      ensures inHandler ==> received == old(received)
      ensures Reached(os.w.procs[pid], sig) && |os.w.log| > |old(os.w.log)|
      ensures os.w.log[|os.w.log| - 1] == Signalled(pid, sig, os.w.clock)
      ensures Signals(old(os.w.log), os.w.log)
      decreases if inHandler then 0 else 5
    {
      ghost var w0 := os.w;
      if inHandler {
        os.Drift();
      } else {
        Interleave();
      }
      ghost var w1 := os.w;
      os.KillGroup(pid, sig);
      FirstLandedAppend(w1.log, Signalled(pid, sig, w1.clock));
      RelyTransitive(w0, w1, os.w);
    }

    method SignalChild(pid: Pid, sig: int, inHandler: bool)
      requires Valid() && pid in os.w.procs
      modifies this`received, os
      ensures Interfered()
      ensures inHandler ==> received == old(received)
      ensures SignalledSince(old(os.w), os.w, pid, sig) && Signals(old(os.w.log), os.w.log)
      decreases if inHandler then 1 else 6
    {
      ghost var w0 := os.w;
      var code := os.Poll(pid);
      FirstLandedAppend(w0.log, Polled(pid, code));
      if code.Some? {
        assert ExitPoll(os.w.log[|w0.log|]) && os.w.log[|w0.log|].pid == pid;
        return;
      }
      ghost var w1 := os.w;
      SendSignal(pid, sig, inHandler);
      RelyTransitive(w0, w1, os.w);
    }

    method Handle(sig: int)
      requires Valid()
      modifies this`received, os
      ensures Interfered()
      ensures received == if old(received).Some? then old(received) else Some(sig)
      ensures forall c :: c in children ==> Reached(os.w.procs[c], sig)
      ensures Signals(old(os.w.log), os.w.log)
      decreases 2
    {
      ghost var w0 := os.w;
      FirstLandedAppend(os.w.log, Landed(sig));
      os.w := os.w.Note(Landed(sig));
      if received.None? {
        received := Some(sig);
      }
      for i := 0 to |children|
        invariant Valid() && Rely(w0, os.w) && Signals(old(os.w.log), os.w.log)
        invariant received == if old(received).Some? then old(received) else Some(sig)
        invariant forall c :: c in children && old(Settled(c)) && old(received).Some? ==> Settled(c)
        invariant forall k :: 0 <= k < i ==> Reached(os.w.procs[children[k]], sig)
      {
        ghost var before := os.w;
        SignalChild(children[i], sig, true);
        RelyTransitive(w0, before, os.w);
      }
    }

    /** The machine drifts, and then the handler may run once. */
    method Interrupt()
      requires Valid()
      modifies this`received, os
      ensures Interfered()
      ensures received != old(received) ==> AllSettled()
      ensures received.None? ==> os.w.log == old(os.w.log)
      ensures Signals(old(os.w.log), os.w.log)
      decreases 3
    {
      ghost var w0 := os.w;
      os.Drift();
      ghost var w1 := os.w;
      var sig: int := *;
      if sig in os.w.handlers && os.w.handlers[sig] == Relay {
        Handle(sig);
        RelyTransitive(w0, w1, os.w);
      }
    }

    method Interleave()
      requires Valid()
      modifies this`received, os
      ensures Interfered()
      ensures received != old(received) ==> AllSettled()
      ensures received.None? ==> os.w.log == old(os.w.log)
      ensures Signals(old(os.w.log), os.w.log)
      decreases 4
    {
      var n: nat :| true;
      while n > 0
        invariant Interfered()
        invariant received != old(received) ==> AllSettled()
        invariant received.None? ==> os.w.log == old(os.w.log)
        invariant Signals(old(os.w.log), os.w.log)
        decreases n
      {
        ghost var before := os.w;
        Interrupt();
        RelyTransitive(old(os.w), before, os.w);
        n := n - 1;
      }
    }

    /** time.sleep: at least this long passes, with interruptions. */
    method Sleep(ticks: nat)
      requires Valid()
      modifies this`received, os
      ensures Interfered() && os.w.clock >= old(os.w.clock) + ticks
      ensures SignalsThen(old(os.w.log), os.w.log, Slept(ticks))
      ensures received.None? ==> os.w.log == old(os.w.log) + [Slept(ticks)]
    {
      ghost var w0 := os.w;
      Interleave();
      ghost var w1 := os.w;
      FirstLandedAppend(w1.log, Slept(ticks));
      os.w := os.w.(clock := os.w.clock + ticks).Note(Slept(ticks));
      RelyTransitive(w0, w1, os.w);
      assert os.w.log[..|w1.log|] == w1.log;
    }

    /** time.monotonic(), with interruptions before it. */
    method Now() returns (t: int)
      requires Valid()
      modifies this`received, os
      ensures Interfered() && old(os.w.clock) <= t == os.w.clock
      ensures SignalsThen(old(os.w.log), os.w.log, Told(t))
    {
      ghost var w0 := os.w;
      Interleave();
      ghost var w1 := os.w;
      t := os.Now();
      FirstLandedAppend(w1.log, Told(t));
      RelyTransitive(w0, w1, os.w);
      assert os.w.log[..|w1.log|] == w1.log;
    }

    // ----- install, restore, add -----

    /** The loop body of install. */
    method TakeOver(signum: int, ghost table: map<int, Handler>, ghost keys: seq<int>)
      requires Valid() && children == [] && signum in table && signum !in keys
      requires TakenOver(table, os.w.handlers, prior, keys, Relay)
      modifies this, os
      ensures Valid() && children == []
      ensures ProcsAge(old(os.w.procs), os.w.procs) && QuietlyExtends(old(os.w.log), os.w.log) && old(os.w.clock) <= os.w.clock
      ensures TakenOver(table, os.w.handlers, prior, keys + [signum], Relay)
    {
      TakeOneMore(table, os.w.handlers, prior, keys, Relay, signum);
      prior := prior[signum := os.w.handlers[signum]];
      Interleave();
      os.w := os.w.(handlers := os.w.handlers[signum := Relay]);
    }

    method Install()
      requires Valid() && prior == map[] && children == []
      requires forall s :: s in HANDLED ==> s in os.w.handlers
      modifies this, os
      ensures Valid() && children == []
      ensures ProcsAge(old(os.w.procs), os.w.procs) && QuietlyExtends(old(os.w.log), os.w.log) && old(os.w.clock) <= os.w.clock
      ensures TakenOver(old(os.w.handlers), os.w.handlers, prior, HANDLED, Relay)
      ensures forall s :: s in prior <==> s in {SIGINT, SIGTERM, SIGHUP, SIGQUIT}
    {
      ghost var w0 := os.w;
      for i := 0 to |HANDLED|
        invariant Valid() && children == []
        invariant ProcsAge(w0.procs, os.w.procs) && QuietlyExtends(w0.log, os.w.log) && w0.clock <= os.w.clock
        invariant TakenOver(w0.handlers, os.w.handlers, prior, HANDLED[..i], Relay)
      {
        ghost var w1 := os.w;
        TakeOver(HANDLED[i], w0.handlers, HANDLED[..i]);
        ProcsAgeTransitive(w0.procs, w1.procs, os.w.procs);
        assert HANDLED[..i + 1] == HANDLED[..i] + [HANDLED[i]];
      }
      assert HANDLED[..|HANDLED|] == HANDLED;
    }

    method Restore()
      requires Valid()
      modifies this, os
      ensures Valid() && prior == map[]
      ensures children == old(children)
      ensures old(received).Some? ==> received == old(received)
      ensures forall c :: c in children && old(Settled(c)) ==> Settled(c)
      ensures Rely(old(os.w), os.w.(handlers := old(os.w.handlers)))
      ensures os.w.handlers == old(os.w.handlers) + old(prior)
    {
      ghost var w0 := os.w;
      ghost var table := os.w.handlers;
      var left: set<int> := prior.Keys;
      while left != {}
        invariant left <= prior.Keys
        invariant Valid() && children == old(children) && prior == old(prior)
        invariant old(received).Some? ==> received == old(received)
        invariant forall c :: c in children && old(Settled(c)) ==> Settled(c)
        invariant Rely(w0, os.w.(handlers := table))
        invariant os.w.handlers == table + (prior - left)
        decreases left
      {
        ghost var some := AnyOf(left);
        var signum :| signum in left;
        ghost var before := os.w;
        Interleave();
        RelyTransitive(w0, before.(handlers := table), os.w.(handlers := table));
        os.w := os.w.(handlers := os.w.handlers[signum := prior[signum]]);
        left := left - {signum};
      }
      assert prior - left == prior;
      prior := map[];
    }

    /** Appends a child and, if a signal was recorded, forwards it: afterwards no signal
        recorded at any point before, during or after the append has missed the child. */
    method Add(child: Pid)
      requires Valid() && AllSettled() && child in os.w.procs
      modifies this`children, this`received, os
      ensures Valid() && AllSettled()
      ensures children == old(children) + [child]
      ensures old(received).Some? ==> received == old(received)
      ensures Rely(old(os.w), os.w)
      ensures received.None? ==> os.w.log == old(os.w.log)
    {
      ghost var w0 := os.w;
      Interleave();
      ghost var w1 := os.w;
      children := children + [child];
      Forward(child);
      RelyTransitive(w0, w1, os.w);
    }

    /** The check in `add`, once the child is in the list: it forwards a signal that was recorded before. */
    method Forward(child: Pid)
      requires Valid() && child in children && forall c :: c in children && c != child ==> Settled(c)
      modifies this`received, os
      ensures Interfered() && AllSettled()
      ensures received.None? ==> os.w.log == old(os.w.log)
    {
      ghost var w0 := os.w;
      Interleave();
      if received.Some? {
        ghost var w1 := os.w;
        Interleave();
        ghost var w2 := os.w;
        SignalChild(child, received.value, false);
        RelyTransitive(w0, w1, w2);
        RelyTransitive(w0, w2, os.w);
      }
    }

    // ----- _terminate_children -----

    /** child.poll() as the main program calls it, interruptible. */
    method Observe(pid: Pid) returns (code: Option<int>)
      requires Valid() && pid in os.w.procs
      modifies this`received, os
      ensures Interfered()
      ensures code.Some? ==> os.w.procs[pid].state == Observed(code.value) && Exited(os.w, pid)
      ensures JustPolled(old(os.w.log), os.w.log, pid, code) && Signals(old(os.w.log), os.w.log)
    {
      ghost var w0 := os.w;
      Interleave();
      ghost var w1 := os.w;
      code := os.Poll(pid);
      FirstLandedAppend(w1.log, Polled(pid, code));
      RelyTransitive(w0, w1, os.w);
      assert os.w.log[|w1.log|] == Polled(pid, code);
    }

    /** The comprehension `[child for child in children if child.poll() is None]`. */
    method PollLiving(cs: seq<Pid>) returns (living: seq<Pid>)
      requires Valid() && forall c :: c in cs ==> c in os.w.procs
      modifies this`received, os
      ensures Interfered()
      ensures forall c :: c in living ==> c in cs
      ensures forall c :: c in cs ==> c in living || Exited(os.w, c)
    {
      living := [];
      for i := 0 to |cs|
        invariant Interfered()
        invariant forall c :: c in living ==> c in cs
        invariant forall k :: 0 <= k < i ==> cs[k] in living || Exited(os.w, cs[k])
      {
        ghost var w0, seen := os.w, living;
        var code := Observe(cs[i]);
        RelyTransitive(old(os.w), w0, os.w);
        if code.None? {
          living := living + [cs[i]];
        }
        assert forall c :: c in seen ==> c in living;
        forall k | 0 <= k < i && cs[k] !in living
          ensures Exited(os.w, cs[k])
        {
          StaysExited(w0, os.w, cs[k]);
        }
      }
    }

    method SignalAll(cs: seq<Pid>, sig: int)
      requires Valid() && forall c :: c in cs ==> c in os.w.procs
      modifies this`received, os
      ensures Interfered()
      ensures forall c :: c in cs ==> SignalledSince(old(os.w), os.w, c, sig)
    {
      for i := 0 to |cs|
        invariant Interfered()
        invariant forall k :: 0 <= k < i ==> SignalledSince(old(os.w), os.w, cs[k], sig)
      {
        ghost var w0 := os.w;
        SignalChild(cs[i], sig, false);
        RelyTransitive(old(os.w), w0, os.w);
      }
    }

    /** Waits for the children in `living` to exit: until none is left, or the deadline has passed. */
    method GracePeriod(cs: seq<Pid>, deadline: int) returns (living: seq<Pid>)
      requires Valid() && forall c :: c in cs ==> c in os.w.procs
      modifies this`received, os
      ensures Interfered()
      ensures living == [] || os.w.clock >= deadline
      ensures forall c :: c in living ==> c in cs
      ensures forall c :: c in cs ==> c in living || Exited(os.w, c)
    {
      living := cs;
      while living != [] && os.w.clock < deadline
        invariant Interfered()
        invariant forall c :: c in living ==> c in cs
        invariant forall c :: c in cs ==> c in living || Exited(os.w, c)
        decreases if living == [] || deadline < os.w.clock then 0 else deadline - os.w.clock + 1
      {
        ghost var before, left := os.w, living;
        living := PollLiving(living);
        ghost var polled := os.w;
        RelyTransitive(old(os.w), before, polled);
        if living != [] {
          Sleep(50);
          RelyTransitive(old(os.w), polled, os.w);
          RelyTransitive(before, polled, os.w);
        }
        forall c | c in cs && c !in living
          ensures Exited(os.w, c)
        {
          if c in left {
            StaysExited(polled, os.w, c);
          } else {
            StaysExited(before, os.w, c);
          }
        }
      }
    }

    /** Always returns, whatever the children do; afterwards the exit of each child was
        observed, or its group was sent SIGKILL after SIGTERM. */
    method TerminateChildren(cs: seq<Pid>)
      requires Valid() && forall c :: c in cs ==> c in os.w.procs
      modifies this`received, os
      ensures Interfered()
      ensures forall c :: c in cs ==> Stopped(os.w.procs[c])
      ensures forall c :: c in cs ==> StoppedBy(os.w.log, c)
    {
      ghost var w0 := os.w;
      var living := PollLiving(cs);
      ghost var w1 := os.w;
      SignalAll(living, SIGTERM);
      ghost var w2 := os.w;
      RelyTransitive(w0, w1, w2);
      var survivors := GracePeriod(living, os.w.clock + SHUTDOWN_TIMEOUT);
      ghost var w3 := os.w;
      RelyTransitive(w0, w2, w3);
      SignalAll(survivors, SIGKILL);
      ghost var w4 := os.w;
      RelyTransitive(w0, w3, w4);
      WaitAll(cs);
      RelyTransitive(w0, w4, os.w);
      forall c | c in cs
        ensures Stopped(os.w.procs[c]) && StoppedBy(os.w.log, c)
      {
        EndOfChild(w1, w2, w3, w4, os.w, c, c in living, c in survivors);
      }
    }

    /** The final `child.wait(timeout=1.0)` pass: it can only observe more exits. */
    method WaitAll(cs: seq<Pid>)
      requires Valid() && forall c :: c in cs ==> c in os.w.procs
      modifies this`received, os
      ensures Interfered()
    {
      for i := 0 to |cs|
        invariant Interfered()
      {
        ghost var w0 := os.w;
        var _ := Observe(cs[i]);
        RelyTransitive(old(os.w), w0, os.w);
      }
    }
  }

  /** The four phases of termination, seen by one child. */
  lemma EndOfChild(w1: World, w2: World, w3: World, w4: World, w5: World, c: Pid, living: bool, survived: bool)
    requires Rely(w1, w2) && Rely(w2, w3) && Rely(w3, w4) && Rely(w4, w5) && c in w1.procs
    requires !living ==> Exited(w1, c)
    requires living ==> SignalledSince(w1, w2, c, SIGTERM)
    requires living && !survived ==> Exited(w3, c)
    requires survived ==> living && SignalledSince(w3, w4, c, SIGKILL) && w3.clock >= w2.clock + SHUTDOWN_TIMEOUT
    ensures Stopped(w5.procs[c]) && StoppedBy(w5.log, c)
  {
    if Exited(w1, c) || Exited(w2, c) || Exited(w3, c) || Exited(w4, c) {
      LateExit(w1, w2, w3, w4, w5, c);
    } else {
      var i :| |w1.log| <= i < |w2.log| && SignalledWith(w2.log[i], c, SIGTERM) && w1.clock <= w2.log[i].at <= w2.clock;
      var j :| |w3.log| <= j < |w4.log| && SignalledWith(w4.log[j], c, SIGKILL) && w3.clock <= w4.log[j].at <= w4.clock;
      assert w4.log[i] == w2.log[i];
      StaysStoppedBy(w4.log, w5.log, c);
      assert Ages(w4.procs[c], w5.procs[c]);
    }
  }

  lemma LateExit(w1: World, w2: World, w3: World, w4: World, w5: World, c: Pid)
    requires Rely(w1, w2) && Rely(w2, w3) && Rely(w3, w4) && Rely(w4, w5)
    requires Exited(w1, c) || Exited(w2, c) || Exited(w3, c) || Exited(w4, c)
    ensures Exited(w5, c)
  {
    if Exited(w1, c) {
      StaysExited(w1, w2, c);
    }
    if Exited(w2, c) {
      StaysExited(w2, w3, c);
    }
    if Exited(w3, c) {
      StaysExited(w3, w4, c);
    }
    StaysExited(w4, w5, c);
  }
}
