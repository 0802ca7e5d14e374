/**
 * The four subcommands of the registry. Each builds a lock on the marker
 * `<database-file>.lock`, returns exit code 1 at once when the lock cannot be
 * taken (the database is then never opened), and otherwise creates the table
 * if needed, runs its store operation and releases the lock.
 *
 * The clock (`time.time()`), the process id (`os.getpid()`) and the world seen
 * after each sleep of the lock are parameters.
 */
module Commands {
  import opened Wrappers
  import opened Lock
  import opened Store

  /** `new-instance INSTANCE...`. */
  method NewInstance(host: Host, db: Database, timeout: int, pid: nat, ids: seq<string>, now: int, schedule: seq<World>)
    returns (code: int)
    requires db.Valid()
    modifies host, db
    ensures db.Valid()
    ensures var r := Retry(old(host.State()), pid, timeout, schedule);
      && (code == if r.locked then 0 else 1)
      && (r.locked ==> db.hasTable && db.rows == ObserveAll(old(db.rows), ids, Instance, now)
                       && host.State() == r.world.(marker := None))
      && (!r.locked ==> db.hasTable == old(db.hasTable) && db.rows == old(db.rows) && host.State() == r.world)
  {
    var lock := new InterprocessLock(host, timeout, pid);
    var ok := lock.TryLock(schedule);
    if !ok {
      return 1;
    }
    RetryLockedIffCreated(old(host.State()), pid, timeout, schedule);
    db.CreateTableIfNotExist();
    db.Upsert(ids, Instance, now);
    lock.Close();
    return 0;
  }

  /** `new-minion MINION...`. */
  method NewMinion(host: Host, db: Database, timeout: int, pid: nat, ids: seq<string>, now: int, schedule: seq<World>)
    returns (code: int)
    requires db.Valid()
    modifies host, db
    ensures db.Valid()
    ensures var r := Retry(old(host.State()), pid, timeout, schedule);
      && (code == if r.locked then 0 else 1)
      && (r.locked ==> db.hasTable && db.rows == ObserveAll(old(db.rows), ids, Minion, now)
                       && host.State() == r.world.(marker := None))
      && (!r.locked ==> db.hasTable == old(db.hasTable) && db.rows == old(db.rows) && host.State() == r.world)
  {
    var lock := new InterprocessLock(host, timeout, pid);
    var ok := lock.TryLock(schedule);
    if !ok {
      return 1;
    }
    RetryLockedIffCreated(old(host.State()), pid, timeout, schedule);
    db.CreateTableIfNotExist();
    db.Upsert(ids, Minion, now);
    lock.Close();
    return 0;
  }

  /** One line of the pending report: the id and the signal the line says it was registered by. */
  datatype PendingLine = PendingLine(id: string, registeredAs: Signal)

  /** A line tells the truth when the row has the named signal and lacks the other one. */
  predicate Truthful(t: Table, line: PendingLine) {
    line.id in t
    && Stamp(t[line.id], line.registeredAs).Some?
    && Stamp(t[line.id], Other(line.registeredAs)).None?
  }

  /**
   * The report as printed by the source: rows awaiting their minion are
   * printed as "registered as minion, but not as EC2 instance", and rows
   * awaiting their instance the other way round.
   */
  function PendingReportAsPrinted(t: Table): set<PendingLine> {
    (set id | id in AwaitingMinion(t) :: PendingLine(id, Minion))
    + (set id | id in AwaitingInstance(t) :: PendingLine(id, Instance))
  }

  /** The report with each line labelled by the signal its query found. */
  function PendingReport(t: Table): set<PendingLine> {
    (set id | id in AwaitingMinion(t) :: PendingLine(id, Instance))
    + (set id | id in AwaitingInstance(t) :: PendingLine(id, Minion))
  }

  /** Every line of the report as printed names the signal its row lacks: none of them tells the truth. */
  lemma PendingReportAsPrintedMislabels(t: Table)
    requires WellFormed(t)
    ensures forall line :: line in PendingReportAsPrinted(t) ==> !Truthful(t, line)
  {
    forall line | line in PendingReportAsPrinted(t)
      ensures !Truthful(t, line)
    {
      assert line.id in AwaitingMinion(t) || line.id in AwaitingInstance(t);
    }
  }

  /** An announced instance whose minion has not connected is printed as the opposite case. */
  lemma PendingReportAsPrintedExample()
    ensures var t := map["i-1" := Record("i-1", Some(0), None)];
      PendingLine("i-1", Minion) in PendingReportAsPrinted(t) && !Truthful(t, PendingLine("i-1", Minion))
  {
    var t := map["i-1" := Record("i-1", Some(0), None)];
    assert "i-1" in t && t["i-1"].minionTimestamp.None? && t["i-1"].instanceTimestamp.Some?;
    assert t["i-1"].instanceId in AwaitingMinion(t);
  }

  /** Every line of the corrected report tells the truth, and every half-registered row gets its line. */
  lemma PendingReportTruthful(t: Table)
    requires WellFormed(t)
    ensures forall line :: line in PendingReport(t) ==> Truthful(t, line)
    ensures forall id, s :: id in t && Stamp(t[id], s).Some? && Stamp(t[id], Other(s)).None? ==>
      PendingLine(id, s) in PendingReport(t)
  {
    PendingPartition(t);
    forall id, s | id in t && Stamp(t[id], s).Some? && Stamp(t[id], Other(s)).None?
      ensures PendingLine(id, s) in PendingReport(t)
    {
      assert t[id].instanceId == id;
      match s
      case Instance => assert id in AwaitingMinion(t);
      case Minion => assert id in AwaitingInstance(t);
    }
  }

  /**
   * `check INSTANCE`: exit code 0 exactly when the lock was taken and `id` is
   * ready; the rows are never changed, and no row is created for an unknown id.
   */
  method Check(host: Host, db: Database, timeout: int, pid: nat, id: string, schedule: seq<World>)
    returns (code: int, report: set<PendingLine>)
    requires db.Valid()
    modifies host, db
    ensures db.Valid() && db.rows == old(db.rows)
    ensures var r := Retry(old(host.State()), pid, timeout, schedule);
      && (code == if r.locked && Ready(old(db.rows), id) then 0 else 1)
      && (r.locked ==> db.hasTable && report == PendingReport(db.rows) && host.State() == r.world.(marker := None))
      && (!r.locked ==> db.hasTable == old(db.hasTable) && report == {} && host.State() == r.world)
  {
    var lock := new InterprocessLock(host, timeout, pid);
    var ok := lock.TryLock(schedule);
    if !ok {
      return 1, {};
    }
    RetryLockedIffCreated(old(host.State()), pid, timeout, schedule);
    db.CreateTableIfNotExist();
    var awaitingMinion, awaitingInstance := db.PendingRows();
    report := (set k | k in awaitingMinion :: PendingLine(k, Instance))
            + (set k | k in awaitingInstance :: PendingLine(k, Minion));
    var found := db.CountReady(id);
    lock.Close();
    code := if found then 0 else 1;
  }

  /** The UNIT argument of `purge`. */
  datatype TimeUnit = Seconds | Minutes | Hours | Days | Weeks

  /** `timedelta(**{unit: 1}).total_seconds()`. */
  function UnitSeconds(u: TimeUnit): (seconds: nat)
    ensures seconds >= 1
    ensures u != Seconds ==> seconds % 60 == 0
  {
    match u
    case Seconds => 1
    case Minutes => 60
    case Hours => 3600
    case Days => 86400
    case Weeks => 604800
  }

  /** `time.time() - duration`, in whole seconds. */
  function PurgeCutoff(now: int, duration: int, u: TimeUnit): int {
    now - duration * UnitSeconds(u)
  }

  /**
   * A longer duration keeps every row a shorter one keeps; a duration of 0
   * puts the cutoff at `now`.
   */
  lemma LongerDurationKeepsMore(t: Table, now: int, shorter: int, longer: int, u: TimeUnit)
    requires shorter <= longer
    ensures Purged(t, PurgeCutoff(now, shorter, u)).Keys <= Purged(t, PurgeCutoff(now, longer, u)).Keys
    ensures PurgeCutoff(now, 0, u) == now
  {
    assert PurgeCutoff(now, longer, u) <= PurgeCutoff(now, shorter, u) by {
      match u
      case Seconds =>
      case Minutes =>
      case Hours =>
      case Days =>
      case Weeks =>
    }
    PurgeMonotone(t, PurgeCutoff(now, longer, u), PurgeCutoff(now, shorter, u));
  }

  /** One week is seven days, one day 24 hours, one hour 60 minutes, one minute 60 seconds. */
  lemma UnitsNest(now: int, d: int)
    ensures PurgeCutoff(now, d, Weeks) == PurgeCutoff(now, 7 * d, Days)
    ensures PurgeCutoff(now, d, Days) == PurgeCutoff(now, 24 * d, Hours)
    ensures PurgeCutoff(now, d, Hours) == PurgeCutoff(now, 60 * d, Minutes)
    ensures PurgeCutoff(now, d, Minutes) == PurgeCutoff(now, 60 * d, Seconds)
  {
  }

  /**
   * `purge DURATION UNIT`: deletes exactly the rows stale at the cutoff and
   * reports how many. The source returns None on success, which exits 0.
   */
  method Purge(host: Host, db: Database, timeout: int, pid: nat, duration: int, u: TimeUnit, now: int, schedule: seq<World>)
    returns (code: int, deleted: nat)
    requires db.Valid()
    modifies host, db
    ensures db.Valid()
    ensures var r := Retry(old(host.State()), pid, timeout, schedule);
      && (code == if r.locked then 0 else 1)
      && (r.locked ==> db.hasTable && db.rows == Purged(old(db.rows), PurgeCutoff(now, duration, u))
                       && deleted == |old(db.rows)| - |db.rows| && host.State() == r.world.(marker := None))
      && (!r.locked ==> db.hasTable == old(db.hasTable) && db.rows == old(db.rows) && deleted == 0
                        && host.State() == r.world)
  {
    var lock := new InterprocessLock(host, timeout, pid);
    var ok := lock.TryLock(schedule);
    if !ok {
      return 1, 0;
    }
    RetryLockedIffCreated(old(host.State()), pid, timeout, schedule);
    var cutoff := now - duration * UnitSeconds(u);
    db.CreateTableIfNotExist();
    deleted := db.DeleteStale(cutoff);
    lock.Close();
    code := 0;
  }
}
