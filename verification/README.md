# Autoscaling registry — a Dafny model

This project models the small registry behind Salt auto-acceptance of
autoscaled minions (`reactors/autoscaling/autoscale_registry.py`). A minion
may be accepted only after two things have happened, in either order:

- the autoscaling group announced the instance (`new-instance`);
- the minion connected to the Salt master (`new-minion`).

The registry keeps one row per instance id in a table `instances`, with two
nullable timestamps: `instancetimestamp` and `miniontimestamp`. Its four
commands are `new-instance`, `new-minion`, `check` and `purge`. Every command
first takes a host-local advisory lock. The lock is a marker file
`<database>.lock`, created exclusively, holding the holder's pid. A contender
deletes a marker whose owner is dead or unreadable, sleeps while the owner is
alive, and gives up after `--lock-timeout` attempts. A command that cannot take
the lock exits 1 and never opens the database.

Modules:

- `Wrappers` (`wrappers.dfy`): `Option`, used for the nullable columns.
- `PidText` (`pid_text.dfy`): the marker content. It holds the decimal pid,
  which is read back with Python's `int()`.
- `Lock` (`lock.dfy`): the filesystem and process table as an abstract
  `World`, and the retry loop as a function `Retry` with lemmas about it. It
  also holds the classes `Host` (the system calls) and `InterprocessLock`. Its
  methods are proved equal to `Retry`.
- `Store` (`store.dfy`): `Record`, the table as a `map`, and the upsert,
  readiness, pending and purge functions with their laws. The class `Database`
  updates the rows in place; its methods are proved against those functions.
- `Commands` (`commands.dfy`): the four gate-first commands, the purge cutoff,
  and the pending report.

Inputs the model cannot compute are parameters:

- the clock `now` (`time.time()`, in whole seconds);
- the process id `pid` (`os.getpid()`);
- the liveness probe, as the set `signalable` of pids for which `os.kill(pid, 0)` succeeds;
- `schedule`, the world this process finds after each one-second sleep.

Other processes act only while this one sleeps.

## Model

| member | source | states |
|---|---|---|
| PidText.FormatNatValue | reactors/autoscaling/autoscale_registry.py:42 | the decimal text written into the marker denotes the pid it was made from |
| PidText.ParseFormatNat | reactors/autoscaling/autoscale_registry.py:42-53 | `int()` of the text written by `os.write(f, "{0}".format(pid))` gives back that pid |
| PidText.ParseIntIgnoresPadding | reactors/autoscaling/autoscale_registry.py:53 | a whitespace character before or after the marker content does not change what `int()` reads |
| PidText.SpaceAfterSign | reactors/autoscaling/autoscale_registry.py:53 | as in Python 2's `int()`, a `+` or `-` sign may be followed by any run of whitespace before the digits; the marker then names the signed number, which is probed |
| PidText.LongSuffixRejected | reactors/autoscaling/autoscale_registry.py:53-54 | `int()` rejects a trailing `L`, so such a marker is a ValueError and its owner counts as dead |
| Lock.OwnMarkerAlive | reactors/autoscaling/autoscale_registry.py:24-30 | a marker written by this process counts as alive exactly when its pid answers the `os.kill(pid, 0)` probe, so a holder that has written its pid and answers the probe is never taken for stale |
| Lock.InterprocessLock.constructor | reactors/autoscaling/autoscale_registry.py:34-36 | the lock keeps the marker, the timeout and the pid, and `_locked` does not exist yet |
| Lock.Host.CreateExclusive | reactors/autoscaling/autoscale_registry.py:40-45 | the O_CREAT/O_EXCL open succeeds exactly when no marker exists; it then leaves a readable marker holding this pid, and otherwise changes nothing |
| Lock.InterprocessLock.TryLockOnce | reactors/autoscaling/autoscale_registry.py:38-47 | `_try_lock_once` returns true exactly when the marker was absent, and the marker is then this process's own |
| Lock.InterprocessLock.LockOwnerAlive | reactors/autoscaling/autoscale_registry.py:49-57 | the owner is alive only if the marker exists, is readable, parses as an integer and that pid answers the probe; a missing or unreadable file and non-numeric content count as dead |
| Lock.Host.Unlink | reactors/autoscaling/autoscale_registry.py:59-60 | removes the marker, which must exist (`os.unlink` raises otherwise), and nothing else |
| Lock.InterprocessLock.InvalidateLock | reactors/autoscaling/autoscale_registry.py:59-60 | `_invalidate_lock` removes the marker and nothing else |
| Lock.Host.Sleep | reactors/autoscaling/autoscale_registry.py:69 | while this process sleeps, other processes may leave the world in any state, given by the oracle |
| Lock.InterprocessLock.TryLockWithRetry | reactors/autoscaling/autoscale_registry.py:62-70 | the counted loop returns, leaves the world, and makes exactly the attempts that `Retry` describes |
| Lock.RetryAttemptCount | reactors/autoscaling/autoscale_registry.py:62-70 | at most `timeout` creation attempts; a failed run used exactly `timeout` attempts, and none when `timeout <= 0` |
| Lock.RetryLockedIffCreated | reactors/autoscaling/autoscale_registry.py:63-65 | the loop succeeds exactly when its last attempt created the marker, no earlier attempt did, and the marker is then this process's own |
| Lock.RetryAttemptsSound | reactors/autoscaling/autoscale_registry.py:64-69 | each attempt creates only an absent marker, deletes only a marker whose owner is dead, and sleeps only when the owner is alive; the first attempt sees the starting world |
| Lock.RetryStaleRetriedAtOnce | reactors/autoscaling/autoscale_registry.py:66-67 | after deleting a stale marker the next attempt follows without sleeping, in the same world minus the marker |
| Lock.StaleMarkerTakenOver | reactors/autoscaling/autoscale_registry.py:62-70 | a marker left by a dead holder is deleted and the lock is taken on the second attempt, with no sleep, when `timeout >= 2` |
| Lock.LiveOwnerTimesOut | reactors/autoscaling/autoscale_registry.py:68-70 | while a live owner keeps the marker, every attempt sleeps and the loop fails after `timeout` attempts without changing the world |
| Lock.InterprocessLock.TryLock | reactors/autoscaling/autoscale_registry.py:72-74 | `try_lock` stores the loop's result in `_locked` and returns it |
| Lock.InterprocessLock.Close | reactors/autoscaling/autoscale_registry.py:76-78 | `close` deletes the marker if and only if `_locked` is true, and otherwise changes nothing |
| Store.Restamp | reactors/autoscaling/autoscale_registry.py:130 | `_replace` sets the chosen timestamp to now, and keeps the id and the other timestamp |
| Store.FirstSeen | reactors/autoscaling/autoscale_registry.py:128 | a new row has the id, the chosen timestamp set to now and the other timestamp NULL |
| Store.WriteReplaces | reactors/autoscaling/autoscale_registry.py:100-114 | an INSERT under `ON CONFLICT REPLACE` replaces the row with the same key, leaves every other row, and keeps one row per key |
| Store.Database.CreateTableIfNotExist | reactors/autoscaling/autoscale_registry.py:98-100 | the table exists afterwards and its rows are unchanged |
| Store.Database.ReadRecord | reactors/autoscaling/autoscale_registry.py:103-109 | `read_record` returns the row with that key, or None when there is none |
| Store.Database.WriteRecord | reactors/autoscaling/autoscale_registry.py:112-114 | `write_record` stores the row under its own id, replacing any row there |
| Store.Database.Upsert | reactors/autoscaling/autoscale_registry.py:125-131 | the read-modify-write loop over the ids leaves the table described by `ObserveAll` and keeps the table invariant |
| Store.ObserveAllEffect | reactors/autoscaling/autoscale_registry.py:125-131 | after recording, every listed id has the chosen timestamp equal to now; an existing id keeps its other timestamp and a new id gets NULL; every other row is unchanged; the keys are the old keys plus the ids |
| Store.ObservedStamps | reactors/autoscaling/autoscale_registry.py:144-150 | the stamps one recorded id carries: the chosen timestamp is now, the other is the old one, or NULL for a new id |
| Store.ObserveAllWellFormed | reactors/autoscaling/autoscale_registry.py:127-131 | both upserts keep one row per key and at least one timestamp per row |
| Store.ObserveAllLatestWins | reactors/autoscaling/autoscale_registry.py:125-131 | recording the same ids twice under one signal is recording them once at the later time: latest wins and the other timestamp is never touched |
| Store.ObserveAllCommute | reactors/autoscaling/autoscale_registry.py:125-150 | recording instances and recording minions commute, so neither signal clobbers the other |
| Store.ReadyAfterBothSignals | reactors/autoscaling/autoscale_registry.py:174-178 | an id announced as an instance and connected as a minion, in either order, is ready |
| Store.PendingPartition | reactors/autoscaling/autoscale_registry.py:164-172 | the two pending queries are disjoint, never hold a ready row or an unknown id, and with the ready rows they cover the table |
| Store.Database.PendingRows | reactors/autoscaling/autoscale_registry.py:164-170 | the two SELECTs return the ids missing only the minion timestamp and the ids missing only the instance timestamp |
| Store.Database.CountReady | reactors/autoscaling/autoscale_registry.py:174-178 | the COUNT over the `instanceid` column is positive exactly when the row for that id has both timestamps |
| Store.PurgeExact | reactors/autoscaling/autoscale_registry.py:200-204 | the DELETE removes exactly the rows whose two timestamps are each NULL or older than the cutoff; a row with any timestamp at or after the cutoff survives unchanged; the count is the number removed |
| Store.PurgeWellFormed | reactors/autoscaling/autoscale_registry.py:200-203 | purging keeps one row per key and at least one timestamp per row |
| Store.PurgeMonotone | reactors/autoscaling/autoscale_registry.py:200-203 | a later cutoff deletes at least as much, and a second purge with the same cutoff deletes nothing more |
| Store.ObservedSurvivesPurge | reactors/autoscaling/autoscale_registry.py:125-131 | an id recorded at `now` survives any purge whose cutoff is not after `now` |
| Store.OneSignalThenPurged | reactors/autoscaling/autoscale_registry.py:200-203 | an id seen by one signal only, at a time before the cutoff, is removed |
| Store.Database.DeleteStale | reactors/autoscaling/autoscale_registry.py:199-204 | the DELETE leaves the rows `Purged` describes and returns the number of rows removed |
| Commands.NewInstance | reactors/autoscaling/autoscale_registry.py:117-133 | exit 0 and the table recorded with the instance signal when the lock is taken, then the marker is gone; exit 1 with the database untouched otherwise |
| Commands.NewMinion | reactors/autoscaling/autoscale_registry.py:136-152 | the mirror image with the minion signal |
| Commands.Check | reactors/autoscaling/autoscale_registry.py:155-185 | exit 0 exactly when the lock is taken and the id is ready; the rows never change, so no row is created for an unknown id; the pending report is returned |
| Commands.PendingReportAsPrintedMislabels | reactors/autoscaling/autoscale_registry.py:164-172 | as printed, every pending line names the signal its row lacks, for every well-formed table |
| Commands.PendingReportAsPrintedExample | reactors/autoscaling/autoscale_registry.py:164-167 | as printed, a row with only an instance timestamp is reported as registered as a minion, so the printed report is not always empty |
| Commands.PendingReportTruthful | reactors/autoscaling/autoscale_registry.py:164-172 | with corrected labels every line names the signal the row has and the one it lacks, and every half-registered row gets its line |
| Commands.UnitSeconds | reactors/autoscaling/autoscale_registry.py:194 | a unit's length in seconds is positive and, beyond seconds, a whole number of minutes |
| Commands.LongerDurationKeepsMore | reactors/autoscaling/autoscale_registry.py:194-203 | a longer purge duration keeps every row a shorter one keeps; a duration of 0 puts the cutoff at now |
| Commands.UnitsNest | reactors/autoscaling/autoscale_registry.py:194 | a week is seven days, a day 24 hours, an hour 60 minutes and a minute 60 seconds |
| Commands.Purge | reactors/autoscaling/autoscale_registry.py:188-205 | with the lock: the stale rows at `now - duration * unit` are deleted, their count is returned and the exit code is 0; without it, exit 1 and the database is untouched |

## Left out

- `extensions/runners/autoscaling.py` is glue and is not part of this model. It shells out to the registry, calls Salt's key acceptance and async highstate, and runs the AWS tagging CLI.
- SQLite plumbing is not modelled: connections, cursors, commit and rollback. The table is a `map` that changes atomically.
- Store I/O failures are not modelled, nor is the release of the lock by `contextlib.closing` when an exception escapes.
- Real system calls become oracle inputs: `os.open`, `os.write`, `os.unlink`, `os.kill`, `os.getpid` and `time.sleep`.
- `os.kill(pid, 0)` also fails with EPERM for a live process owned by another user. `pid_is_running` (lines 26-29) then returns False, so the source deletes that holder's marker. `signalable` leaves such pids out, so the model does not say that a live holder is never deleted.
- `os.kill(pid, 0)` is abstracted as membership in `signalable`. The model does not say which pids answer; pid 0 and pids below -1 signal process groups, and -1 signals every process the caller may signal.
- Creating the marker can fail in the source for reasons other than an existing file, such as permissions. That path and the later failing `os.unlink` are not modelled.
- The holder's `close` can unlink the marker after this process's exclusive create failed (line 64) and before its `open` (line 51). The source then counts the owner as dead, and `_invalidate_lock` (line 60) raises an uncaught `OSError`, so the command crashes instead of retrying. The model lets other processes act only during sleeps, so it never reaches this crash.
- Other processes can act only during this process's sleeps. The source's race between deleting a stale marker and recreating it, and interleavings at any other point, are not modelled.
- Every syscall is modelled as atomic. The window between creating the marker (line 40) and writing the pid (line 42) is reached only through the `schedule` oracle. A contender then reads an empty file, whose ValueError makes the live holder count as dead (lines 53-55).
- Store.Database.Upsert: takes one clock reading `now` for the whole command. The source calls `time.time()` once per id.
- Store.ObserveAllEffect: timestamps are whole seconds, not floats. With whole seconds, `purge 0 seconds` in the same second as the recording keeps the row.
- Overflow is not modelled: `OverflowError` from `os.kill` for a pid beyond the C range, and from `timedelta` for an out-of-range duration. The latter happens after the lock is taken and before `contextlib.closing`, so the marker would be left behind.
- `Lock.InterprocessLock.Close` requires that `try_lock` ran, because the source then raises `AttributeError`. A second `close` after a success raises `OSError` in the source, and the model's precondition excludes it.
- Argument parsing (`main`, `argparse`), the printed message text, and the order of printed rows are not modelled. The pending report is a set.

## Findings

| source | as written | input that shows it | evidently intended | confidence | as-written member | corrected member |
|---|---|---|---|---|---|---|
| reactors/autoscaling/autoscale_registry.py:164-172 | the query for rows with `instancetimestamp` set and `miniontimestamp` NULL prints them as "registered as minion, but not as EC2 instance", and the second query prints the reverse | a table with only row `i-1`, `instancetimestamp` 0 and `miniontimestamp` NULL | each line names the signal its row has and the one it lacks | not executed | Commands.PendingReportAsPrintedMislabels, Commands.PendingReportAsPrintedExample | Commands.PendingReportTruthful |

The model follows the SQL predicates, not the printed labels, and
`Commands.Check` returns the corrected report.
