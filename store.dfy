/**
 * The `location_logs` table as a value, and the meaning of the SQL that the
 * data-access interface runs against it (LocationDao.kt):
 *   - `@Insert` with an auto-generated key,
 *   - `SELECT * FROM location_logs WHERE synced = 0 ORDER BY id ASC`,
 *   - `UPDATE location_logs SET synced = 1 WHERE id IN (:ids)`,
 *   - `SELECT COUNT(*) FROM location_logs WHERE synced = 0`.
 * Rows are kept in ascending key order, so "ORDER BY id ASC" is the order
 * of the sequence itself.
 */
module Store {
  import opened Config
  import opened Entities

  /** Keys strictly ascending: primary keys are distinct, and the sequence is in `id` order. */
  predicate Ascending(rows: seq<LocationEntity>) {
    forall i, j :: 0 <= i < j < |rows| ==> rows[i].id < rows[j].id
  }

  function Ids(rows: seq<LocationEntity>): seq<int> {
    seq(|rows|, i requires 0 <= i < |rows| => rows[i].id)
  }

  /**
   * The table and SQLite's AUTOINCREMENT counter (the largest key ever used;
   * no row is ever deleted, so it is also at least every stored key).
   */
  datatype Table = Table(rows: seq<LocationEntity>, lastId: int)

  predicate ValidTable(t: Table) {
    && Ascending(t.rows)
    && 0 <= t.lastId
    && forall e :: e in t.rows ==> e.id != 0 && e.id <= t.lastId
  }

  /** No record disappears, and the only change a record may undergo is `synced` becoming true. */
  ghost predicate Grows(before: seq<LocationEntity>, after: seq<LocationEntity>) {
    forall e :: e in before ==> e in after || e.(synced := true) in after
  }

  lemma GrowsTransitive(a: seq<LocationEntity>, b: seq<LocationEntity>, c: seq<LocationEntity>)
    requires Grows(a, b) && Grows(b, c)
    ensures Grows(a, c)
  {
    forall e | e in a ensures e in c || e.(synced := true) in c {
      if e !in b {
        assert e.(synced := true).(synced := true) == e.(synced := true);
      }
    }
  }

  // ---------------------------------------------------------------- queries

  /** `WHERE synced = 0`, keeping the table's order. */
  function Unsynced(rows: seq<LocationEntity>): (r: seq<LocationEntity>)
    ensures |r| <= |rows|
  {
    if rows == [] then []
    else (if rows[0].synced then [] else [rows[0]]) + Unsynced(rows[1..])
  }

  /** The pending query returns exactly the records whose `synced` flag is false. */
  lemma {:induction false} UnsyncedMembers(rows: seq<LocationEntity>)
    ensures forall e :: e in Unsynced(rows) <==> e in rows && !e.synced
  {
    if rows != [] {
      UnsyncedMembers(rows[1..]);
      assert forall e :: e in rows <==> e == rows[0] || e in rows[1..];
    }
  }

  /** `COUNT(*) ... WHERE synced = 0`. */
  function CountUnsynced(rows: seq<LocationEntity>): (n: nat)
    ensures n <= |rows|
  {
    if rows == [] then 0
    else (if rows[0].synced then 0 else 1) + CountUnsynced(rows[1..])
  }

  lemma {:induction false} CountIsPendingLength(rows: seq<LocationEntity>)
    ensures CountUnsynced(rows) == |Unsynced(rows)|
  {
    if rows != [] {
      CountIsPendingLength(rows[1..]);
    }
  }

  /** Prepending a record whose key is below every other keeps the keys ascending. */
  lemma AscendingCons(x: LocationEntity, s: seq<LocationEntity>)
    requires Ascending(s)
    requires forall y :: y in s ==> x.id < y.id
    ensures Ascending([x] + s)
  {
    forall i, j | 0 <= i < j < |[x] + s| ensures ([x] + s)[i].id < ([x] + s)[j].id {
      assert ([x] + s)[j] == s[j - 1];
      if i > 0 {
        assert ([x] + s)[i] == s[i - 1];
      } else {
        assert s[j - 1] in s;
      }
    }
  }

  lemma {:induction false} PendingAscending(rows: seq<LocationEntity>)
    requires Ascending(rows)
    ensures Ascending(Unsynced(rows))
  {
    if rows != [] {
      var rest := rows[1..];
      PendingAscending(rest);
      UnsyncedMembers(rest);
      if !rows[0].synced {
        forall y | y in Unsynced(rest) ensures rows[0].id < y.id {
          var k :| 0 <= k < |rest| && rest[k] == y;
          assert rows[k + 1] == y;
        }
        AscendingCons(rows[0], Unsynced(rest));
      }
    }
  }

  // ------------------------------------------------------------ markSynced

  /** The effect of `UPDATE ... SET synced = 1 WHERE id IN (ids)` on one row. */
  function MarkRow(e: LocationEntity, ids: seq<int>): LocationEntity {
    if e.id in ids then e.(synced := true) else e
  }

  function MarkAll(rows: seq<LocationEntity>, ids: seq<int>): (r: seq<LocationEntity>)
    ensures |r| == |rows|
    ensures forall i :: 0 <= i < |rows| ==> r[i] == MarkRow(rows[i], ids)
  {
    if rows == [] then [] else [MarkRow(rows[0], ids)] + MarkAll(rows[1..], ids)
  }

  /**
   * The UPDATE sets `synced` for exactly the rows whose key is listed, and
   * changes nothing else: keys, order and every other column stay.
   */
  lemma MarkSetsExactly(rows: seq<LocationEntity>, ids: seq<int>)
    ensures var r := MarkAll(rows, ids);
      && Ids(r) == Ids(rows)
      && forall i :: 0 <= i < |rows| ==>
           && r[i].synced == (rows[i].synced || rows[i].id in ids)
           && r[i].(synced := rows[i].synced) == rows[i]
  {
  }

  lemma MarkKeepsValid(t: Table, ids: seq<int>)
    requires ValidTable(t)
    ensures ValidTable(Table(MarkAll(t.rows, ids), t.lastId))
  {
    var r := MarkAll(t.rows, ids);
    forall e | e in r ensures e.id != 0 && e.id <= t.lastId {
      var i :| 0 <= i < |r| && r[i] == e;
      assert t.rows[i] in t.rows;
    }
  }

  lemma MarkKeepsAscending(rows: seq<LocationEntity>, ids: seq<int>)
    requires Ascending(rows)
    ensures Ascending(MarkAll(rows, ids))
  {
  }

  lemma IdsConcat(a: seq<LocationEntity>, b: seq<LocationEntity>)
    ensures Ids(a + b) == Ids(a) + Ids(b)
  {
  }

  /** Marking is idempotent: a second UPDATE with the same keys changes nothing. */
  lemma MarkIdempotent(rows: seq<LocationEntity>, ids: seq<int>)
    ensures MarkAll(MarkAll(rows, ids), ids) == MarkAll(rows, ids)
  {
  }

  /** Keys that are absent, or whose rows are already synced, have no effect. */
  lemma MarkWithoutPendingKeys(rows: seq<LocationEntity>, ids: seq<int>)
    requires forall e :: e in rows && e.id in ids ==> e.synced
    ensures MarkAll(rows, ids) == rows
  {
    forall i | 0 <= i < |rows| ensures MarkAll(rows, ids)[i] == rows[i] {
      assert rows[i] in rows;
    }
  }

  /** Two UPDATEs in a row equal one UPDATE with both key lists. */
  lemma MarkCompose(rows: seq<LocationEntity>, a: seq<int>, b: seq<int>)
    ensures MarkAll(MarkAll(rows, a), b) == MarkAll(rows, a + b)
  {
    forall i | 0 <= i < |rows| ensures MarkAll(MarkAll(rows, a), b)[i] == MarkAll(rows, a + b)[i] {
      assert rows[i].id in a + b <==> rows[i].id in a || rows[i].id in b;
    }
  }

  lemma MarkGrows(rows: seq<LocationEntity>, ids: seq<int>)
    ensures Grows(rows, MarkAll(rows, ids))
  {
    var r := MarkAll(rows, ids);
    forall e | e in rows ensures e in r || e.(synced := true) in r {
      var i :| 0 <= i < |rows| && rows[i] == e;
      assert r[i] == MarkRow(e, ids);
    }
  }

  /** The pending records that remain after an UPDATE with the given keys. */
  function Without(s: seq<LocationEntity>, ids: seq<int>): seq<LocationEntity> {
    if s == [] then []
    else (if s[0].id in ids then [] else [s[0]]) + Without(s[1..], ids)
  }

  lemma UnsyncedCons(x: LocationEntity, s: seq<LocationEntity>)
    ensures Unsynced([x] + s) == (if x.synced then [] else [x]) + Unsynced(s)
  {
    assert ([x] + s)[1..] == s;
  }

  lemma WithoutCons(x: LocationEntity, s: seq<LocationEntity>, ids: seq<int>)
    ensures Without([x] + s, ids) == (if x.id in ids then [] else [x]) + Without(s, ids)
  {
    assert ([x] + s)[1..] == s;
  }

  lemma {:induction false} UnsyncedAfterMark(rows: seq<LocationEntity>, ids: seq<int>)
    ensures Unsynced(MarkAll(rows, ids)) == Without(Unsynced(rows), ids)
  {
    if rows != [] {
      var x, rest := rows[0], rows[1..];
      assert rows == [x] + rest;
      assert MarkAll(rows, ids) == [MarkRow(x, ids)] + MarkAll(rest, ids);
      UnsyncedCons(MarkRow(x, ids), MarkAll(rest, ids));
      UnsyncedCons(x, rest);
      UnsyncedAfterMark(rest, ids);
      if !x.synced {
        WithoutCons(x, Unsynced(rest), ids);
        assert Unsynced(rows) == [x] + Unsynced(rest);
        if x.id in ids {
          assert Unsynced(MarkAll(rows, ids)) == Unsynced(MarkAll(rest, ids));
        } else {
          assert MarkRow(x, ids) == x;
          assert Unsynced(MarkAll(rows, ids)) == [x] + Unsynced(MarkAll(rest, ids));
        }
      } else {
        assert Unsynced(rows) == Unsynced(rest);
        assert Unsynced(MarkAll(rows, ids)) == Unsynced(MarkAll(rest, ids));
      }
    }
  }

  lemma {:induction false} WithoutPrefix(s: seq<LocationEntity>, ids: seq<int>, n: nat)
    requires n <= |s|
    requires forall i :: 0 <= i < n ==> s[i].id in ids
    requires forall i :: n <= i < |s| ==> s[i].id !in ids
    ensures Without(s, ids) == s[n..]
  {
    if s != [] {
      if n == 0 {
        WithoutPrefix(s[1..], ids, 0);
        assert s == [s[0]] + s[1..];
      } else {
        WithoutPrefix(s[1..], ids, n - 1);
        assert s[1..][n - 1..] == s[n..];
      }
    }
  }

  /**
   * Marking the keys of the first `n` pending records takes exactly those
   * records off the pending queue and leaves the rest pending, in order.
   */
  lemma MarkBatchLeavesRest(rows: seq<LocationEntity>, n: nat)
    requires Ascending(rows)
    requires n <= |Unsynced(rows)|
    ensures Unsynced(MarkAll(rows, Ids(Unsynced(rows)[..n]))) == Unsynced(rows)[n..]
  {
    var p := Unsynced(rows);
    var ids := Ids(p[..n]);
    PendingAscending(rows);
    forall i | 0 <= i < n ensures p[i].id in ids {
      assert ids[i] == p[i].id;
    }
    forall i | n <= i < |p| ensures p[i].id !in ids {
      forall j | 0 <= j < n ensures ids[j] != p[i].id {
        assert ids[j] == p[j].id;
      }
    }
    UnsyncedAfterMark(rows, ids);
    WithoutPrefix(p, ids, n);
  }

  /**
   * Marking the next batch of the queue after its first `t` records were
   * marked: the table is as if the first `t' = t + |batch|` records had been
   * marked in one UPDATE, and they are off the pending queue.
   */
  lemma MarkNextBatch(rows: seq<LocationEntity>, queue: seq<LocationEntity>, t: nat, batch: seq<LocationEntity>, t': nat)
    requires Ascending(rows) && queue == Unsynced(rows)
    requires t' == t + |batch| <= |queue| && batch == queue[t..][..|batch|]
    ensures var next := MarkAll(MarkAll(rows, Ids(queue[..t])), Ids(batch));
      && next == MarkAll(rows, Ids(queue[..t']))
      && Unsynced(next) == queue[t'..]
  {
    MarkCompose(rows, Ids(queue[..t]), Ids(batch));
    IdsConcat(queue[..t], batch);
    PrefixThenNext(queue, t, |batch|);
    assert queue[..t] + batch == queue[..t'];
    MarkBatchLeavesRest(rows, t');
  }

  lemma PrefixThenNext<T>(s: seq<T>, t: nat, n: nat)
    requires t + n <= |s|
    ensures s[..t] + s[t..][..n] == s[..t + n]
  {
  }

  // ----------------------------------------------------------------- insert

  lemma IdsTail(rows: seq<LocationEntity>, x: int)
    requires rows != [] && x !in Ids(rows)
    ensures x !in Ids(rows[1..])
  {
    forall k | 0 <= k < |rows| - 1 ensures Ids(rows[1..])[k] != x {
      assert Ids(rows[1..])[k] == Ids(rows)[k + 1];
    }
  }

  /** Places a record with a new key at its position in key order. */
  function InsertSorted(rows: seq<LocationEntity>, e: LocationEntity): (r: seq<LocationEntity>)
    requires Ascending(rows)
    requires e.id !in Ids(rows)
    ensures Ascending(r)
    ensures |r| == |rows| + 1
    ensures forall x :: x in r <==> x in rows || x == e
  {
    if rows == [] || e.id < rows[0].id then
      AscendingCons(e, rows);
      [e] + rows
    else
      assert e.id != rows[0].id by { assert Ids(rows)[0] == rows[0].id; }
      var rest := rows[1..];
      IdsTail(rows, e.id);
      var tail := InsertSorted(rest, e);
      forall y | y in tail ensures rows[0].id < y.id {
        if y != e {
          var k :| 0 <= k < |rest| && rest[k] == y;
          assert rows[k + 1] == y;
        }
      }
      AscendingCons(rows[0], tail);
      [rows[0]] + tail
  }

  /**
   * `@Insert` with the default conflict strategy (ABORT). A key of 0 means
   * "generate one": AUTOINCREMENT uses one more than the largest key ever
   * used. Any other key is stored as given, and fails if it is already taken.
   */
  function InsertRecord(t: Table, e: LocationEntity): (r: Option<Table>)
    requires ValidTable(t)
    ensures r.None? ==> e.id != 0
    ensures r.Some? ==> |r.value.rows| == |t.rows| + 1 && t.lastId <= r.value.lastId
  {
    if e.id == 0 then
      Some(Table(t.rows + [e.(id := t.lastId + 1)], t.lastId + 1))
    else if e.id in Ids(t.rows) then
      None
    else
      Some(Table(InsertSorted(t.rows, e), Max(t.lastId, e.id)))
  }

  lemma {:induction false} CountAppend(rows: seq<LocationEntity>, e: LocationEntity)
    ensures CountUnsynced(rows + [e]) == CountUnsynced(rows) + (if e.synced then 0 else 1)
  {
    if rows != [] {
      assert (rows + [e])[1..] == rows[1..] + [e];
      CountAppend(rows[1..], e);
    }
  }

  lemma {:induction false} CountInsertSorted(rows: seq<LocationEntity>, e: LocationEntity)
    requires Ascending(rows) && e.id !in Ids(rows)
    ensures CountUnsynced(InsertSorted(rows, e)) == CountUnsynced(rows) + (if e.synced then 0 else 1)
  {
    if rows != [] && e.id >= rows[0].id {
      var r := InsertSorted(rows, e);
      IdsTail(rows, e.id);
      assert r[1..] == InsertSorted(rows[1..], e);
      CountInsertSorted(rows[1..], e);
    }
  }

  /**
   * An insert fails only on a key conflict. When it succeeds the table stays
   * well formed, every earlier record is still there unchanged, the new
   * record is stored (with its generated key if it had none), and the
   * pending count grows by one exactly when the record is unsynced.
   */
  lemma InsertRecordEffect(t: Table, e: LocationEntity)
    requires ValidTable(t)
    ensures InsertRecord(t, e).Some? <==> e.id == 0 || e.id !in Ids(t.rows)
    ensures InsertRecord(t, e).Some? ==>
      var t' := InsertRecord(t, e).value;
      && ValidTable(t')
      && t.lastId <= t'.lastId
      && |t'.rows| == |t.rows| + 1
      && (forall x :: x in t'.rows <==> x in t.rows || x == (if e.id == 0 then e.(id := t'.lastId) else e))
      && CountUnsynced(t'.rows) == CountUnsynced(t.rows) + (if e.synced then 0 else 1)
  {
    if e.id == 0 {
      var f := e.(id := t.lastId + 1);
      var rows' := t.rows + [f];
      forall i, j | 0 <= i < j < |rows'| ensures rows'[i].id < rows'[j].id {
        if j == |t.rows| {
          assert t.rows[i] in t.rows;
        }
      }
      CountAppend(t.rows, f);
    } else if e.id !in Ids(t.rows) {
      CountInsertSorted(t.rows, e);
    }
  }

  /** A generated key is new: it is appended after every stored record, and no stored record has it. */
  lemma InsertFreshKey(t: Table, e: LocationEntity)
    requires ValidTable(t) && e.id == 0
    ensures InsertRecord(t, e).Some?
    ensures var t' := InsertRecord(t, e).value;
      && t'.rows == t.rows + [e.(id := t'.lastId)]
      && t'.lastId !in Ids(t.rows)
      && t'.lastId > 0
  {
    forall k | 0 <= k < |t.rows| ensures Ids(t.rows)[k] != t.lastId + 1 {
      assert t.rows[k] in t.rows;
    }
  }

  lemma InsertGrows(t: Table, e: LocationEntity)
    requires ValidTable(t) && InsertRecord(t, e).Some?
    ensures Grows(t.rows, InsertRecord(t, e).value.rows)
  {
    InsertRecordEffect(t, e);
  }
}
