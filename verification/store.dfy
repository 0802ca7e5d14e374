/**
 * The reconciliation store: one table `instances` keyed by `instanceid`, whose
 * rows carry two nullable timestamps, one per signal. An autoscaling group
 * announcing an instance is the `Instance` signal; the same machine connecting
 * to the Salt master is the `Minion` signal. A row with both set is ready.
 */
module Store {
  import opened Wrappers

  /** A row of the table (the `Record` named tuple). */
  datatype Record = Record(instanceId: string, instanceTimestamp: Option<int>, minionTimestamp: Option<int>)

  datatype Signal = Instance | Minion

  function Other(s: Signal): Signal {
    if s == Instance then Minion else Instance
  }

  /** The column that records signal `s`. */
  function Stamp(r: Record, s: Signal): Option<int> {
    match s
    case Instance => r.instanceTimestamp
    case Minion => r.minionTimestamp
  }

  /** `record._replace(<column of s>=now)`: sets one column and keeps the key and the other. */
  function Restamp(r: Record, s: Signal, now: int): (r': Record)
    ensures r'.instanceId == r.instanceId
    ensures Stamp(r', s) == Some(now) && Stamp(r', Other(s)) == Stamp(r, Other(s))
  {
    match s
    case Instance => r.(instanceTimestamp := Some(now))
    case Minion => r.(minionTimestamp := Some(now))
  }

  /** The row created on the first observation of `id`: the other column starts NULL. */
  function FirstSeen(id: string, s: Signal, now: int): (r: Record)
    ensures r.instanceId == id
    ensures Stamp(r, s) == Some(now) && Stamp(r, Other(s)) == None
  {
    match s
    case Instance => Record(id, Some(now), None)
    case Minion => Record(id, None, Some(now))
  }

  type Table = map<string, Record>

  /** The primary key: the row stored under `k` has `instanceid` `k`. */
  ghost predicate KeyedById(t: Table) {
    forall k :: k in t ==> t[k].instanceId == k
  }

  predicate HasStamp(r: Record) {
    r.instanceTimestamp.Some? || r.minionTimestamp.Some?
  }

  /** The table invariant: keyed by id, and every row has at least one timestamp. */
  ghost predicate WellFormed(t: Table) {
    KeyedById(t) && forall k :: k in t ==> HasStamp(t[k])
  }

  /** `read_record`: the row with that key, or `None`. */
  function Lookup(t: Table, id: string): Option<Record> {
    if id in t then Some(t[id]) else None
  }

  /** `write_record`: the INSERT whose key conflict is resolved by REPLACE. */
  function Write(t: Table, r: Record): Table {
    t[r.instanceId := r]
  }

  /** A written row replaces any row with its key, leaves every other row alone, and never duplicates a key. */
  lemma WriteReplaces(t: Table, r: Record, k: string)
    ensures Lookup(Write(t, r), r.instanceId) == Some(r)
    ensures k != r.instanceId ==> Lookup(Write(t, r), k) == Lookup(t, k)
    ensures Write(t, r).Keys == t.Keys + {r.instanceId}
    ensures KeyedById(t) ==> KeyedById(Write(t, r))
  {
  }

  /** The read-modify-write of one id in the loop of `new_instance` / `new_minion`. */
  function Observe(t: Table, id: string, s: Signal, now: int): Table {
    match Lookup(t, id)
    case None => Write(t, FirstSeen(id, s, now))
    case Some(r) => Write(t, Restamp(r, s, now))
  }

  /** The loop over the ids, in order. */
  function ObserveAll(t: Table, ids: seq<string>, s: Signal, now: int): Table
    decreases |ids|
  {
    if ids == [] then t
    else Observe(ObserveAll(t, ids[..|ids| - 1], s, now), ids[|ids| - 1], s, now)
  }

  /** What recording `ids` under signal `s` at `now` makes of the row of `k`. */
  function Expected(t: Table, ids: seq<string>, s: Signal, now: int, k: string): Option<Record> {
    if k in ids then Some(if k in t then Restamp(t[k], s, now) else FirstSeen(k, s, now))
    else Lookup(t, k)
  }

  /**
   * Every recorded id gets signal `s` stamped `now`, keeps its other
   * timestamp (NULL for a new id), and every other row is untouched.
   */
  lemma {:induction false} ObserveAllEffect(t: Table, ids: seq<string>, s: Signal, now: int)
    requires KeyedById(t)
    ensures var t' := ObserveAll(t, ids, s, now);
      && KeyedById(t')
      && t'.Keys == t.Keys + (set id | id in ids)
      && forall k :: Lookup(t', k) == Expected(t, ids, s, now, k)
    decreases |ids|
  {
    if ids != [] {
      var init, last := ids[..|ids| - 1], ids[|ids| - 1];
      assert ids == init + [last];
      ObserveAllEffect(t, init, s, now);
      var m := ObserveAll(t, init, s, now);
      forall k
        ensures Lookup(Observe(m, last, s, now), k) == Expected(t, ids, s, now, k)
      {
        assert Lookup(m, k) == Expected(t, init, s, now, k);
        assert k in ids <==> k in init || k == last;
      }
    }
  }

  /** The stamps an id carries after it is recorded. */
  lemma ObservedStamps(t: Table, ids: seq<string>, s: Signal, now: int, id: string)
    requires KeyedById(t) && id in ids
    ensures var t' := ObserveAll(t, ids, s, now);
      && id in t' && t'[id].instanceId == id
      && Stamp(t'[id], s) == Some(now)
      && Stamp(t'[id], Other(s)) == if id in t then Stamp(t[id], Other(s)) else None
  {
    ObserveAllEffect(t, ids, s, now);
    assert Lookup(ObserveAll(t, ids, s, now), id) == Expected(t, ids, s, now, id);
  }

  /** Both upserts and the table invariant: no row without a timestamp, one row per key. */
  lemma ObserveAllWellFormed(t: Table, ids: seq<string>, s: Signal, now: int)
    requires WellFormed(t)
    ensures WellFormed(ObserveAll(t, ids, s, now))
  {
    ObserveAllEffect(t, ids, s, now);
    var t' := ObserveAll(t, ids, s, now);
    forall k | k in t'
      ensures HasStamp(t'[k])
    {
      assert Lookup(t', k) == Expected(t, ids, s, now, k);
    }
  }

  /** Two tables agree on every lookup exactly when they are equal. */
  lemma LookupExtensional(a: Table, b: Table)
    requires forall k :: Lookup(a, k) == Lookup(b, k)
    ensures a == b
  {
    assert forall k :: k in a <==> Lookup(a, k).Some?;
    assert a.Keys == b.Keys;
    forall k | k in a
      ensures a[k] == b[k]
    {
      assert Lookup(a, k) == Lookup(b, k);
    }
  }

  /** Recording the same ids twice under one signal: the latest time wins, nothing else moves. */
  lemma ObserveAllLatestWins(t: Table, ids: seq<string>, s: Signal, a: int, b: int)
    requires KeyedById(t)
    ensures ObserveAll(ObserveAll(t, ids, s, a), ids, s, b) == ObserveAll(t, ids, s, b)
  {
    var m := ObserveAll(t, ids, s, a);
    ObserveAllEffect(t, ids, s, a);
    ObserveAllEffect(m, ids, s, b);
    ObserveAllEffect(t, ids, s, b);
    forall k
      ensures Lookup(ObserveAll(m, ids, s, b), k) == Lookup(ObserveAll(t, ids, s, b), k)
    {
      assert Lookup(m, k) == Expected(t, ids, s, a, k);
    }
    LookupExtensional(ObserveAll(m, ids, s, b), ObserveAll(t, ids, s, b));
  }

  /** The merge law: recording one signal never clobbers the other, so the two upserts commute. */
  lemma ObserveAllCommute(t: Table, xs: seq<string>, a: int, ys: seq<string>, b: int)
    requires KeyedById(t)
    ensures ObserveAll(ObserveAll(t, xs, Instance, a), ys, Minion, b)
         == ObserveAll(ObserveAll(t, ys, Minion, b), xs, Instance, a)
  {
    var l := ObserveAll(t, xs, Instance, a);
    var r := ObserveAll(t, ys, Minion, b);
    ObserveAllEffect(t, xs, Instance, a);
    ObserveAllEffect(t, ys, Minion, b);
    ObserveAllEffect(l, ys, Minion, b);
    ObserveAllEffect(r, xs, Instance, a);
    forall k
      ensures Lookup(ObserveAll(l, ys, Minion, b), k) == Lookup(ObserveAll(r, xs, Instance, a), k)
    {
      assert Lookup(l, k) == Expected(t, xs, Instance, a, k);
      assert Lookup(r, k) == Expected(t, ys, Minion, b, k);
    }
    LookupExtensional(ObserveAll(l, ys, Minion, b), ObserveAll(r, xs, Instance, a));
  }

  /** `check`'s COUNT query: a row for `id` with both timestamps set. */
  predicate Ready(t: Table, id: string) {
    id in t && t[id].instanceTimestamp.Some? && t[id].minionTimestamp.Some?
  }

  /** An id announced as an instance and connected as a minion, in either order, is ready. */
  lemma ReadyAfterBothSignals(t: Table, xs: seq<string>, a: int, ys: seq<string>, b: int, id: string)
    requires KeyedById(t) && id in xs && id in ys
    ensures Ready(ObserveAll(ObserveAll(t, xs, Instance, a), ys, Minion, b), id)
    ensures Ready(ObserveAll(ObserveAll(t, ys, Minion, b), xs, Instance, a), id)
  {
    ObserveAllEffect(t, xs, Instance, a);
    ObservedStamps(t, xs, Instance, a, id);
    ObservedStamps(ObserveAll(t, xs, Instance, a), ys, Minion, b, id);
    ObserveAllCommute(t, xs, a, ys, b);
  }

  /** Rows with an instance timestamp but no minion timestamp (the first pending query). */
  function AwaitingMinion(t: Table): set<string> {
    set k | k in t && t[k].minionTimestamp.None? && t[k].instanceTimestamp.Some? :: t[k].instanceId
  }

  /** Rows with a minion timestamp but no instance timestamp (the second pending query). */
  function AwaitingInstance(t: Table): set<string> {
    set k | k in t && t[k].minionTimestamp.Some? && t[k].instanceTimestamp.None? :: t[k].instanceId
  }

  /**
   * The pending reports are the rows missing exactly one timestamp, split by
   * which one is missing: disjoint, never a ready row, never an unknown id,
   * and together with the ready rows they cover the table.
   */
  lemma PendingPartition(t: Table)
    requires WellFormed(t)
    ensures AwaitingMinion(t) !! AwaitingInstance(t)
    ensures forall id :: id in AwaitingMinion(t) ==> id in t && t[id].instanceTimestamp.Some? && t[id].minionTimestamp.None?
    ensures forall id :: id in AwaitingInstance(t) ==> id in t && t[id].minionTimestamp.Some? && t[id].instanceTimestamp.None?
    ensures forall id :: id in t ==> (Ready(t, id) || id in AwaitingMinion(t) || id in AwaitingInstance(t))
  {
    forall id | id in t
      ensures Ready(t, id) || id in AwaitingMinion(t) || id in AwaitingInstance(t)
    {
      assert HasStamp(t[id]) && t[id].instanceId == id;
    }
  }

  /** `purge`'s WHERE clause: each timestamp is NULL or strictly older than the cutoff. */
  predicate Stale(r: Record, cutoff: int) {
    (r.minionTimestamp.None? || r.minionTimestamp.value < cutoff) &&
    (r.instanceTimestamp.None? || r.instanceTimestamp.value < cutoff)
  }

  function StaleIds(t: Table, cutoff: int): set<string> {
    set k | k in t && Stale(t[k], cutoff)
  }

  /** The table after the DELETE. */
  function Purged(t: Table, cutoff: int): Table {
    map k | k in t && !Stale(t[k], cutoff) :: t[k]
  }

  /**
   * The DELETE removes exactly the stale rows: a row with some timestamp at or
   * after the cutoff survives unchanged, and the removed count is the number
   * of stale rows.
   */
  lemma PurgeExact(t: Table, cutoff: int)
    ensures forall k :: k in Purged(t, cutoff) <==> k in t && !Stale(t[k], cutoff)
    ensures forall k :: k in Purged(t, cutoff) ==> Purged(t, cutoff)[k] == t[k]
    ensures forall k, s :: k in t && Stamp(t[k], s).Some? && Stamp(t[k], s).value >= cutoff ==> k in Purged(t, cutoff)
    ensures |t| == |Purged(t, cutoff)| + |StaleIds(t, cutoff)|
  {
    var kept := Purged(t, cutoff).Keys;
    assert t.Keys == kept + StaleIds(t, cutoff);
    assert kept !! StaleIds(t, cutoff);
    forall k, s | k in t && Stamp(t[k], s).Some? && Stamp(t[k], s).value >= cutoff
      ensures k in Purged(t, cutoff)
    {
      assert !Stale(t[k], cutoff) by {
        match s
        case Instance =>
        case Minion =>
      }
    }
  }

  /** Purging keeps the table invariant. */
  lemma PurgeWellFormed(t: Table, cutoff: int)
    requires WellFormed(t)
    ensures WellFormed(Purged(t, cutoff))
  {
  }

  /** A later cutoff deletes at least as much; purging twice with one cutoff is purging once. */
  lemma PurgeMonotone(t: Table, earlier: int, later: int)
    requires earlier <= later
    ensures Purged(t, later).Keys <= Purged(t, earlier).Keys
    ensures Purged(Purged(t, later), later) == Purged(t, later)
  {
  }

  /** A row recorded at `now` survives any purge whose cutoff is not after `now`. */
  lemma ObservedSurvivesPurge(t: Table, ids: seq<string>, s: Signal, now: int, cutoff: int, id: string)
    requires KeyedById(t) && id in ids && cutoff <= now
    ensures id in Purged(ObserveAll(t, ids, s, now), cutoff)
  {
    ObservedStamps(t, ids, s, now, id);
    PurgeExact(ObserveAll(t, ids, s, now), cutoff);
  }

  /** An id seen by one signal only, then never again, is removed by a purge with a later cutoff. */
  lemma OneSignalThenPurged(t: Table, id: string, s: Signal, now: int, cutoff: int)
    requires KeyedById(t) && id !in t && now < cutoff
    ensures id !in Purged(ObserveAll(t, [id], s, now), cutoff)
  {
    ObservedStamps(t, [id], s, now, id);
    var r := ObserveAll(t, [id], s, now)[id];
    assert Stale(r, cutoff) by {
      match s
      case Instance =>
      case Minion =>
    }
  }

  /** The table file: absent until the first command creates the table. */
  class Database {
    var hasTable: bool
    var rows: Table

    ghost predicate Valid()
      reads this
    {
      (!hasTable ==> rows == map[]) && WellFormed(rows)
    }

    constructor ()
      ensures Valid() && !hasTable
    {
      hasTable := false;
      rows := map[];
    }

    /** `create_table_if_not_exist`. */
    method CreateTableIfNotExist()
      requires Valid()
      modifies this
      ensures Valid() && hasTable && rows == old(rows)
    {
      hasTable := true;
    }

    method ReadRecord(id: string) returns (r: Option<Record>)
      requires hasTable
      ensures r == Lookup(rows, id)
    {
      r := if id in rows then Some(rows[id]) else None;
    }

    method WriteRecord(r: Record)
      requires hasTable
      modifies this
      ensures hasTable && rows == Write(old(rows), r)
    {
      rows := rows[r.instanceId := r];
    }

    /** The loop of `new_instance` (s = Instance) and `new_minion` (s = Minion). */
    method Upsert(ids: seq<string>, s: Signal, now: int)
      requires Valid() && hasTable
      modifies this
      ensures Valid() && hasTable
      ensures rows == ObserveAll(old(rows), ids, s, now)
    {
      var i := 0;
      while i < |ids|
        invariant 0 <= i <= |ids|
        invariant hasTable
        invariant rows == ObserveAll(old(rows), ids[..i], s, now)
      {
        var id := ids[i];
        var found := ReadRecord(id);
        var record := match found
          case None => FirstSeen(id, s, now)
          case Some(r) => Restamp(r, s, now);
        WriteRecord(record);
        assert ids[..i + 1][..i] == ids[..i];
        i := i + 1;
      }
      assert ids[..|ids|] == ids;
      ObserveAllWellFormed(old(rows), ids, s, now);
    }

    /** The two pending SELECTs of `check`. */
    method PendingRows() returns (awaitingMinion: set<string>, awaitingInstance: set<string>)
      requires hasTable
      ensures awaitingMinion == AwaitingMinion(rows) && awaitingInstance == AwaitingInstance(rows)
    {
      awaitingMinion := set k | k in rows && rows[k].minionTimestamp.None? && rows[k].instanceTimestamp.Some? :: rows[k].instanceId;
      awaitingInstance := set k | k in rows && rows[k].minionTimestamp.Some? && rows[k].instanceTimestamp.None? :: rows[k].instanceId;
    }

    /** The COUNT(*) query of `check`, over the `instanceid` column: positive exactly when `id` is ready. */
    method CountReady(id: string) returns (found: bool)
      requires Valid() && hasTable
      ensures found == Ready(rows, id)
    {
      var matching := set k | k in rows && rows[k].minionTimestamp.Some? && rows[k].instanceTimestamp.Some? && rows[k].instanceId == id;
      found := |matching| > 0;
      if Ready(rows, id) {
        assert id in matching;
      } else {
        assert matching == {};
      }
    }

    /** `purge`'s DELETE; `deleted` is the cursor's row count. */
    method DeleteStale(cutoff: int) returns (deleted: nat)
      requires Valid() && hasTable
      modifies this
      ensures Valid() && hasTable
      ensures rows == Purged(old(rows), cutoff)
      ensures deleted == |StaleIds(old(rows), cutoff)| == |old(rows)| - |rows|
    {
      var doomed := set k | k in rows && Stale(rows[k], cutoff);
      PurgeExact(rows, cutoff);
      PurgeWellFormed(rows, cutoff);
      rows := map k | k in rows && k !in doomed :: rows[k];
      deleted := |doomed|;
    }
  }
}
