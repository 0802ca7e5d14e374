/**
 * The host-local advisory lock that serialises every registry command.
 *
 * The lock is a marker file created exclusively; it holds the holder's process
 * id in decimal. A contender that fails to create it reads the file and probes
 * whether that process still exists; a dead, unreadable or malformed owner
 * makes the marker stale and it is deleted at once, a live owner makes the
 * contender sleep one second. At most `timeout` creation attempts are made.
 *
 * The filesystem and the process table are an abstract `World`: the marker
 * (absent, or present with its readability and content) and the set of
 * process ids for which the liveness probe `os.kill(pid, 0)` succeeds. Other
 * processes act only while this one sleeps: the world seen after the k-th
 * sleep is the k-th entry of an oracle `schedule` (unchanged once the
 * schedule is exhausted).
 */
module Lock {
  import opened Wrappers
  import opened PidText

  datatype MarkerFile = MarkerFile(readable: bool, content: string)

  datatype World = World(marker: Option<MarkerFile>, signalable: set<int>)

  /** The marker this process creates: its own pid in decimal. */
  function OwnMarker(pid: nat): MarkerFile {
    MarkerFile(true, FormatNat(pid))
  }

  /**
   * `_lock_owner_alive`: the marker can be opened, its content parses as an
   * integer, and that process answers the probe. A missing or unreadable file
   * (IOError) and a non-numeric content (ValueError) both count as dead.
   */
  predicate OwnerAlive(w: World) {
    match w.marker
    case None => false
    case Some(m) =>
      m.readable &&
      match ParseInt(m.content)
      case None => false
      case Some(pid) => pid in w.signalable
  }

  /** A marker written by this process is judged alive exactly when this process answers the probe. */
  lemma OwnMarkerAlive(w: World, pid: nat)
    requires w.marker == Some(OwnMarker(pid))
    ensures OwnerAlive(w) <==> pid in w.signalable
  {
    ParseFormatNat(pid);
  }

  /** What one iteration of the retry loop did. */
  datatype Outcome = Acquired | RemovedStale | Waited

  datatype Attempt = Attempt(seen: World, outcome: Outcome)

  datatype Run = Run(locked: bool, world: World, attempts: seq<Attempt>)

  function AfterSleep(w: World, schedule: seq<World>): World {
    if schedule == [] then w else schedule[0]
  }

  function RestOf(schedule: seq<World>): seq<World> {
    if schedule == [] then [] else schedule[1..]
  }

  /** The schedule left after `k` sleeps. */
  function Drop(schedule: seq<World>, k: nat): seq<World> {
    if k <= |schedule| then schedule[k..] else []
  }

  function Prepend(a: Attempt, r: Run): Run {
    r.(attempts := [a] + r.attempts)
  }

  /** `_try_lock_with_retry` as a function of the world, the pid, the attempts left and the oracle. */
  function Retry(w: World, pid: nat, remaining: int, schedule: seq<World>): Run
    decreases remaining
  {
    if remaining <= 0 then Run(false, w, [])
    else if w.marker.None? then Run(true, w.(marker := Some(OwnMarker(pid))), [Attempt(w, Acquired)])
    else if !OwnerAlive(w) then
      Prepend(Attempt(w, RemovedStale), Retry(w.(marker := None), pid, remaining - 1, schedule))
    else
      Prepend(Attempt(w, Waited), Retry(AfterSleep(w, schedule), pid, remaining - 1, RestOf(schedule)))
  }

  /** The run `r` after the attempts `done` already made. */
  function Extend(done: seq<Attempt>, r: Run): Run {
    r.(attempts := done + r.attempts)
  }

  lemma ExtendPrepend(done: seq<Attempt>, a: Attempt, r: Run)
    ensures Extend(done, Prepend(a, r)) == Extend(done + [a], r)
  {
    assert done + ([a] + r.attempts) == (done + [a]) + r.attempts;
  }

  function Bound(n: int): nat {
    if n > 0 then n else 0
  }

  /** Each attempt did what the marker it saw calls for. */
  predicate AttemptSound(a: Attempt) {
    match a.outcome
    case Acquired => a.seen.marker.None?
    case RemovedStale => a.seen.marker.Some? && !OwnerAlive(a.seen)
    case Waited => a.seen.marker.Some? && OwnerAlive(a.seen)
  }

  /** At most `timeout` attempts; a failed run used all of them (none when `timeout <= 0`). */
  lemma {:induction false} RetryAttemptCount(w: World, pid: nat, n: int, schedule: seq<World>)
    ensures var r := Retry(w, pid, n, schedule);
      |r.attempts| <= Bound(n) && (!r.locked ==> |r.attempts| == Bound(n))
    decreases n
  {
    if n > 0 && w.marker.Some? {
      if !OwnerAlive(w) {
        RetryAttemptCount(w.(marker := None), pid, n - 1, schedule);
      } else {
        RetryAttemptCount(AfterSleep(w, schedule), pid, n - 1, RestOf(schedule));
      }
    }
  }

  /**
   * The lock is taken only by creating the marker: success means the last
   * attempt created it and none before did, and the marker is then this
   * process's own.
   */
  lemma {:induction false} RetryLockedIffCreated(w: World, pid: nat, n: int, schedule: seq<World>)
    ensures var r := Retry(w, pid, n, schedule);
      && (r.locked <==> |r.attempts| > 0 && r.attempts[|r.attempts| - 1].outcome == Acquired)
      && (forall i :: 0 <= i < |r.attempts| - 1 ==> r.attempts[i].outcome != Acquired)
      && (r.locked ==> r.world == r.attempts[|r.attempts| - 1].seen.(marker := Some(OwnMarker(pid))))
    decreases n
  {
    if n > 0 && w.marker.Some? {
      if !OwnerAlive(w) {
        RetryLockedIffCreated(w.(marker := None), pid, n - 1, schedule);
      } else {
        RetryLockedIffCreated(AfterSleep(w, schedule), pid, n - 1, RestOf(schedule));
      }
    }
  }

  /**
   * Every attempt reacts to the marker it saw: it creates only an absent
   * marker, deletes only a marker whose owner is dead, and sleeps only when
   * the owner is alive. The first attempt sees the starting world.
   */
  lemma {:induction false} RetryAttemptsSound(w: World, pid: nat, n: int, schedule: seq<World>)
    ensures var r := Retry(w, pid, n, schedule);
      && (forall i :: 0 <= i < |r.attempts| ==> AttemptSound(r.attempts[i]))
      && (|r.attempts| > 0 ==> r.attempts[0].seen == w)
    decreases n
  {
    if n > 0 && w.marker.Some? {
      if !OwnerAlive(w) {
        RetryAttemptsSound(w.(marker := None), pid, n - 1, schedule);
      } else {
        RetryAttemptsSound(AfterSleep(w, schedule), pid, n - 1, RestOf(schedule));
      }
    }
  }

  /** After the attempt at `i` deleted a stale marker, the next one saw the same world without it. */
  predicate StaleRetriedAt(attempts: seq<Attempt>, i: nat)
    requires i + 1 < |attempts|
  {
    attempts[i].outcome == RemovedStale ==> attempts[i + 1].seen == attempts[i].seen.(marker := None)
  }

  /**
   * Deleting a stale marker costs no sleep: the next attempt follows at once
   * and sees the same world without the marker.
   */
  lemma {:induction false} RetryStaleRetriedAtOnce(w: World, pid: nat, n: int, schedule: seq<World>)
    ensures var r := Retry(w, pid, n, schedule);
      forall i :: 0 <= i < |r.attempts| - 1 ==> StaleRetriedAt(r.attempts, i)
    decreases n
  {
    if n > 0 && w.marker.Some? {
      var r := Retry(w, pid, n, schedule);
      var next := if !OwnerAlive(w) then w.(marker := None) else AfterSleep(w, schedule);
      var rest := if !OwnerAlive(w) then schedule else RestOf(schedule);
      var tail := Retry(next, pid, n - 1, rest);
      RetryStaleRetriedAtOnce(next, pid, n - 1, rest);
      RetryAttemptsSound(next, pid, n - 1, rest);
      assert r.attempts == [r.attempts[0]] + tail.attempts;
      forall i | 0 <= i < |r.attempts| - 1
        ensures StaleRetriedAt(r.attempts, i)
      {
        if i > 0 {
          assert StaleRetriedAt(tail.attempts, i - 1);
        }
      }
    }
  }

  /** A stale marker left by a crashed holder is taken over on the second attempt, without waiting. */
  lemma StaleMarkerTakenOver(w: World, pid: nat, n: int, schedule: seq<World>)
    requires w.marker.Some? && !OwnerAlive(w) && n >= 2
    ensures var r := Retry(w, pid, n, schedule);
      && r.locked
      && r.attempts == [Attempt(w, RemovedStale), Attempt(w.(marker := None), Acquired)]
      && r.world == w.(marker := Some(OwnMarker(pid)))
  {
  }

  /** With a live owner that nobody changes, every attempt sleeps and the lock times out. */
  lemma {:induction false} LiveOwnerTimesOut(w: World, pid: nat, n: int)
    requires OwnerAlive(w)
    ensures var r := Retry(w, pid, n, []);
      && !r.locked && r.world == w && |r.attempts| == Bound(n)
      && (forall i :: 0 <= i < |r.attempts| ==> r.attempts[i] == Attempt(w, Waited))
    decreases n
  {
    if n > 0 {
      LiveOwnerTimesOut(w, pid, n - 1);
    }
  }

  /**
   * The filesystem and process table as the lock sees them. The methods are
   * the system calls the lock makes.
   */
  class Host {
    var marker: Option<MarkerFile>
    var signalable: set<int>

    constructor (w: World)
      ensures State() == w
    {
      marker := w.marker;
      signalable := w.signalable;
    }

    function State(): World
      reads this
    {
      World(marker, signalable)
    }

    /** `os.open` with O_CREAT | O_EXCL, then writing the pid: fails when the marker exists. */
    method CreateExclusive(pid: nat) returns (created: bool)
      modifies this
      ensures created == old(marker).None?
      ensures State() == if created then old(State()).(marker := Some(OwnMarker(pid))) else old(State())
    {
      created := marker.None?;
      if created {
        marker := Some(OwnMarker(pid));
      }
    }

    /** `os.unlink`; the source raises OSError on a missing file, so the marker must exist. */
    method Unlink()
      requires marker.Some?
      modifies this
      ensures State() == old(State()).(marker := None)
    {
      marker := None;
    }

    /** `time.sleep(1)`: while this process sleeps the world becomes `after`. */
    method Sleep(after: World)
      modifies this
      ensures State() == after
    {
      marker := after.marker;
      signalable := after.signalable;
    }
  }

  class InterprocessLock {
    const host: Host
    const timeout: int
    const pid: nat
    /** `_locked`; `None` until `TryLock` has run (the attribute does not exist yet). */
    var locked: Option<bool>
    /** The attempts made by the last `TryLockWithRetry`. */
    ghost var attempts: seq<Attempt>

    constructor (host: Host, timeout: int, pid: nat)
      ensures this.host == host && this.timeout == timeout && this.pid == pid
      ensures locked == None && attempts == []
    {
      this.host := host;
      this.timeout := timeout;
      this.pid := pid;
      locked := None;
      attempts := [];
    }

    method TryLockOnce() returns (created: bool)
      modifies host
      ensures created == old(host.marker).None?
      ensures host.State() == if created then old(host.State()).(marker := Some(OwnMarker(pid))) else old(host.State())
    {
      created := host.CreateExclusive(pid);
    }

    method LockOwnerAlive() returns (alive: bool)
      ensures alive == OwnerAlive(host.State())
    {
      alive := false;
      if host.marker.Some? && host.marker.value.readable {
        var parsed := ParseInt(host.marker.value.content);
        if parsed.Some? {
          alive := parsed.value in host.signalable;
        }
      }
    }

    method InvalidateLock()
      requires host.marker.Some?
      modifies host
      ensures host.State() == old(host.State()).(marker := None)
    {
      host.Unlink();
    }

    /** The counted retry loop; `schedule[k]` is the world after the k-th sleep. */
    method TryLockWithRetry(schedule: seq<World>) returns (ok: bool)
      modifies host, this
      ensures var r := Retry(old(host.State()), pid, timeout, schedule);
        ok == r.locked && host.State() == r.world && attempts == r.attempts
      ensures locked == old(locked)
    {
      ghost var goal := Retry(host.State(), pid, timeout, schedule);
      attempts := [];
      var i := 0;
      var slept := 0;
      while i < timeout
        invariant 0 <= i <= Bound(timeout)
        invariant 0 <= slept <= i
        invariant goal == Extend(attempts, Retry(host.State(), pid, timeout - i, Drop(schedule, slept)))
        invariant locked == old(locked)
      {
        ghost var seen := host.State();
        ghost var rest := Drop(schedule, slept);
        var created := TryLockOnce();
        if created {
          attempts := attempts + [Attempt(seen, Acquired)];
          return true;
        }
        var alive := LockOwnerAlive();
        if !alive {
          InvalidateLock();
          ExtendPrepend(attempts, Attempt(seen, RemovedStale), Retry(host.State(), pid, timeout - i - 1, rest));
          attempts := attempts + [Attempt(seen, RemovedStale)];
        } else {
          var after := if slept < |schedule| then schedule[slept] else host.State();
          host.Sleep(after);
          assert after == AfterSleep(seen, rest);
          assert Drop(schedule, slept + 1) == RestOf(rest);
          ExtendPrepend(attempts, Attempt(seen, Waited), Retry(after, pid, timeout - i - 1, RestOf(rest)));
          attempts := attempts + [Attempt(seen, Waited)];
          slept := slept + 1;
        }
        i := i + 1;
      }
      return false;
    }

    /** `try_lock`: records the outcome in `_locked`. */
    method TryLock(schedule: seq<World>) returns (ok: bool)
      modifies host, this
      ensures var r := Retry(old(host.State()), pid, timeout, schedule);
        ok == r.locked && host.State() == r.world && attempts == r.attempts
      ensures locked == Some(ok)
    {
      ok := TryLockWithRetry(schedule);
      locked := Some(ok);
    }

    /** `close`: deletes the marker exactly when `TryLock` succeeded; `_locked` is left as it is. */
    method Close()
      requires locked.Some?
      requires locked.value ==> host.marker.Some?
      modifies host
      ensures host.State() == if locked.value then old(host.State()).(marker := None) else old(host.State())
    {
      if locked.value {
        InvalidateLock();
      }
    }
  }
}
