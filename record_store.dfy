/**
 * The run-record store (`DataManager`): the `rogue_runs` table, whose primary key is the run id
 * alone, with `uid` and `theme` as ordinary columns that select a partition on reading.
 */
module RecordStore {
  import opened Runs

  /** One row of `rogue_runs`: (id, uid, theme, start_ts, record_data). */
  datatype Row = Row(id: string, uid: string, theme: string, startTs: int, record: Run)

  /** The table, keyed by the primary key `id`. */
  type Table = map<string, Row>

  /** Every row is filed under its own id and its start_ts column is the record's start time. */
  ghost predicate ValidTable(t: Table) {
    forall id :: id in t ==> t[id].id == id && t[id].record.id == id && t[id].startTs == t[id].record.startTs
  }

  /** The tuple `merge_and_save_runs` builds for one run. */
  function RowOf(uid: string, theme: string, run: Run): Row {
    Row(run.id, uid, theme, run.startTs, run)
  }

  /** `runs_to_insert`: one row per run that has an id, in batch order. */
  function Pending(uid: string, theme: string, runs: seq<Run>): (rows: seq<Row>)
    ensures |rows| <= |runs|
    ensures forall k :: 0 <= k < |rows| ==> rows[k].id != "" && rows[k].uid == uid && rows[k].theme == theme
  {
    if runs == [] then []
    else
      var run := runs[|runs| - 1];
      Pending(uid, theme, runs[..|runs| - 1]) + (if run.id == "" then [] else [RowOf(uid, theme, run)])
  }

  /** `INSERT OR REPLACE` of each row in turn. */
  function Upsert(t: Table, rows: seq<Row>): Table {
    if rows == [] then t
    else var row := rows[|rows| - 1]; Upsert(t, rows[..|rows| - 1])[row.id := row]
  }

  /** The table after merging a batch: each run with an id replaces the row with that id. */
  function Merged(t: Table, uid: string, theme: string, runs: seq<Run>): (merged: Table)
    ensures t.Keys <= merged.Keys
    ensures forall id :: id in merged ==> id in t || (merged[id].uid == uid && merged[id].theme == theme)
  {
    if runs == [] then t
    else
      var run := runs[|runs| - 1];
      var before := Merged(t, uid, theme, runs[..|runs| - 1]);
      if run.id == "" then before else before[run.id := RowOf(uid, theme, run)]
  }

  /** Some run of the batch carries the (non-empty) id. */
  ghost predicate InBatch(runs: seq<Run>, id: string) {
    id != "" && exists k :: 0 <= k < |runs| && runs[k].id == id
  }

  /** Building the rows and then inserting them one by one is merging the batch. */
  lemma {:induction false} UpsertPending(t: Table, uid: string, theme: string, runs: seq<Run>)
    ensures Upsert(t, Pending(uid, theme, runs)) == Merged(t, uid, theme, runs)
  {
    if runs != [] {
      var run := runs[|runs| - 1];
      var front := runs[..|runs| - 1];
      UpsertPending(t, uid, theme, front);
      var rows := Pending(uid, theme, front);
      if run.id != "" {
        var row := RowOf(uid, theme, run);
        assert Pending(uid, theme, runs) == rows + [row];
        assert (rows + [row])[..|rows|] == rows;
        assert Upsert(t, rows + [row]) == Upsert(t, rows)[row.id := row];
      } else {
        assert Pending(uid, theme, runs) == rows;
      }
    }
  }

  /** Merging keeps every row and adds the ids of the batch, and nothing else. */
  lemma {:induction false} MergedKeys(t: Table, uid: string, theme: string, runs: seq<Run>)
    ensures forall id :: id in Merged(t, uid, theme, runs) <==> id in t || InBatch(runs, id)
  {
    if runs != [] {
      var front := runs[..|runs| - 1];
      MergedKeys(t, uid, theme, front);
      forall id | InBatch(runs, id) && id !in t && id != runs[|runs| - 1].id
        ensures InBatch(front, id)
      {
        var k :| 0 <= k < |runs| && runs[k].id == id;
        assert front[k].id == id;
      }
      forall id | InBatch(front, id)
        ensures InBatch(runs, id)
      {
        var k :| 0 <= k < |front| && front[k].id == id;
        assert runs[k].id == id;
      }
    }
  }

  /** A row whose id the batch does not mention is exactly as it was. */
  lemma {:induction false} MergedUntouched(t: Table, uid: string, theme: string, runs: seq<Run>, id: string)
    requires forall k :: 0 <= k < |runs| ==> runs[k].id != id
    ensures id in Merged(t, uid, theme, runs) <==> id in t
    ensures id in t ==> Merged(t, uid, theme, runs)[id] == t[id]
  {
    if runs != [] {
      MergedUntouched(t, uid, theme, runs[..|runs| - 1], id);
    }
  }

  /**
   * Last write wins: the id of the last run in the batch carrying it maps to that run, tagged
   * with this merge's uid and theme (so a run merged under another uid or theme moves there).
   */
  lemma {:induction false} MergedLastWins(t: Table, uid: string, theme: string, runs: seq<Run>, k: nat)
    requires k < |runs| && runs[k].id != ""
    requires forall j :: k < j < |runs| ==> runs[j].id != runs[k].id
    ensures runs[k].id in Merged(t, uid, theme, runs)
    ensures Merged(t, uid, theme, runs)[runs[k].id] == RowOf(uid, theme, runs[k])
  {
    if k < |runs| - 1 {
      MergedLastWins(t, uid, theme, runs[..|runs| - 1], k);
    }
  }

  /** Merging is overwriting the table with the rows the batch alone would produce. */
  lemma {:induction false} MergedIsOverwrite(t: Table, uid: string, theme: string, runs: seq<Run>)
    ensures Merged(t, uid, theme, runs) == t + Merged(map[], uid, theme, runs)
  {
    if runs != [] {
      var run := runs[|runs| - 1];
      var front := runs[..|runs| - 1];
      MergedIsOverwrite(t, uid, theme, front);
      if run.id != "" {
        var b := Merged(map[], uid, theme, front);
        assert (t + b)[run.id := RowOf(uid, theme, run)] == t + b[run.id := RowOf(uid, theme, run)];
      }
    }
  }

  /** Merging the same batch twice leaves the table as merging it once. */
  lemma MergeIdempotent(t: Table, uid: string, theme: string, runs: seq<Run>)
    ensures Merged(Merged(t, uid, theme, runs), uid, theme, runs) == Merged(t, uid, theme, runs)
  {
    var b := Merged(map[], uid, theme, runs);
    MergedIsOverwrite(t, uid, theme, runs);
    MergedIsOverwrite(t + b, uid, theme, runs);
    assert (t + b) + b == t + b;
  }

  /** Merging keeps every row filed under its own id. */
  lemma {:induction false} MergedValid(t: Table, uid: string, theme: string, runs: seq<Run>)
    requires ValidTable(t)
    ensures ValidTable(Merged(t, uid, theme, runs))
  {
    if runs != [] {
      MergedValid(t, uid, theme, runs[..|runs| - 1]);
    }
  }

  /** The row with this id belongs to the (uid, theme) partition. */
  ghost predicate InPartition(t: Table, uid: string, theme: string, id: string) {
    id in t && t[id].uid == uid && t[id].theme == theme
  }

  /** `ORDER BY start_ts DESC`. */
  ghost predicate NewestFirst(runs: seq<Run>) {
    forall i, j :: 0 <= i < j < |runs| ==> runs[i].startTs >= runs[j].startTs
  }

  /** No two runs of the list share an id. */
  ghost predicate DistinctIds(runs: seq<Run>) {
    forall i, j :: 0 <= i < j < |runs| ==> runs[i].id != runs[j].id
  }

  /**
   * `runs` is what `get_all_runs(uid, theme)` may return from table `t`: the stored record of every
   * row of the partition, each exactly once, newest first.
   */
  ghost predicate IsPartitionListing(t: Table, uid: string, theme: string, runs: seq<Run>) {
    && NewestFirst(runs)
    && DistinctIds(runs)
    && (forall i :: 0 <= i < |runs| ==> InPartition(t, uid, theme, runs[i].id) && t[runs[i].id].record == runs[i])
    && (forall id :: InPartition(t, uid, theme, id) ==> exists i :: 0 <= i < |runs| && runs[i].id == id)
  }

  /** The first position of a newest-first list whose run does not start later than `x`. */
  function InsertionPoint(runs: seq<Run>, x: Run): (k: nat)
    ensures k <= |runs|
    ensures forall j :: 0 <= j < k ==> runs[j].startTs > x.startTs
    ensures k < |runs| ==> runs[k].startTs <= x.startTs
  {
    if runs == [] || runs[0].startTs <= x.startTs then 0 else 1 + InsertionPoint(runs[1..], x)
  }

  /** `x` placed into a newest-first list at its insertion point. */
  function InsertNewestFirst(runs: seq<Run>, x: Run): seq<Run> {
    var k := InsertionPoint(runs, x);
    runs[..k] + [x] + runs[k..]
  }

  /** `r` is `runs` with `x` placed at position `k`. */
  ghost predicate InsertedAt(r: seq<Run>, runs: seq<Run>, x: Run, k: nat) {
    && k <= |runs| && |r| == |runs| + 1 && r[k] == x
    && (forall i :: 0 <= i < k ==> r[i] == runs[i])
    && (forall i :: k < i < |r| ==> r[i] == runs[i - 1])
  }

  lemma InsertNewestFirstShape(runs: seq<Run>, x: Run)
    ensures InsertedAt(InsertNewestFirst(runs, x), runs, x, InsertionPoint(runs, x))
  {
  }

  /** Inserting at the insertion point keeps a list newest first. */
  lemma InsertKeepsOrder(runs: seq<Run>, x: Run)
    requires NewestFirst(runs)
    ensures NewestFirst(InsertNewestFirst(runs, x))
  {
  }

  /** Inserting a run with a new id keeps the ids distinct. */
  lemma InsertKeepsDistinct(r: seq<Run>, runs: seq<Run>, x: Run, k: nat)
    requires InsertedAt(r, runs, x, k) && DistinctIds(runs)
    requires forall i :: 0 <= i < |runs| ==> runs[i].id != x.id
    ensures DistinctIds(r)
  {
  }

  /**
   * The loop state of `get_all_runs`: `runs` lists, newest first and once each, exactly the
   * partition's rows whose ids are no longer `unseen`.
   */
  ghost predicate Gathered(t: Table, uid: string, theme: string, unseen: set<string>, runs: seq<Run>) {
    && NewestFirst(runs)
    && DistinctIds(runs)
    && (forall i :: 0 <= i < |runs| ==>
          InPartition(t, uid, theme, runs[i].id) && t[runs[i].id].record == runs[i] && runs[i].id !in unseen)
    && (forall id :: id !in unseen && InPartition(t, uid, theme, id) ==>
          exists i :: 0 <= i < |runs| && runs[i].id == id)
  }

  /** Visiting one more id keeps the loop state: a partition row is inserted, any other row skipped. */
  lemma GatherStep(t: Table, uid: string, theme: string, unseen: set<string>, runs: seq<Run>, id: string)
    requires ValidTable(t) && id in unseen && id in t
    requires Gathered(t, uid, theme, unseen, runs)
    ensures Gathered(t, uid, theme, unseen - {id},
                     if InPartition(t, uid, theme, id) then InsertNewestFirst(runs, t[id].record) else runs)
  {
    if InPartition(t, uid, theme, id) {
      GatherInsert(t, uid, theme, unseen, runs, id);
    }
  }

  lemma GatherInsert(t: Table, uid: string, theme: string, unseen: set<string>, runs: seq<Run>, id: string)
    requires ValidTable(t) && id in unseen && InPartition(t, uid, theme, id)
    requires Gathered(t, uid, theme, unseen, runs)
    ensures Gathered(t, uid, theme, unseen - {id}, InsertNewestFirst(runs, t[id].record))
  {
    var x := t[id].record;
    assert x.id == id;
    var k := InsertionPoint(runs, x);
    var r := InsertNewestFirst(runs, x);
    InsertNewestFirstShape(runs, x);
    InsertKeepsOrder(runs, x);
    assert forall i :: 0 <= i < |runs| ==> runs[i].id != x.id;
    InsertKeepsDistinct(r, runs, x, k);
    forall i | 0 <= i < |r|
      ensures InPartition(t, uid, theme, r[i].id) && t[r[i].id].record == r[i] && r[i].id !in unseen - {id}
    {
      if i > k {
        assert r[i] == runs[i - 1];
      } else if i < k {
        assert r[i] == runs[i];
      }
    }
    forall other | other !in unseen - {id} && InPartition(t, uid, theme, other)
      ensures exists i :: 0 <= i < |r| && r[i].id == other
    {
      if other == id {
        assert r[k].id == other;
      } else {
        var i :| 0 <= i < |runs| && runs[i].id == other;
        if i < k {
          assert r[i].id == other;
        } else {
          assert r[i + 1].id == other;
        }
      }
    }
  }

  /** With nothing left unseen, the loop state is a complete listing of the partition. */
  lemma GatheredAll(t: Table, uid: string, theme: string, runs: seq<Run>)
    requires Gathered(t, uid, theme, {}, runs)
    ensures IsPartitionListing(t, uid, theme, runs)
  {
  }

  /** The state of the `rogue_runs` table behind one database connection. */
  class DataManager {
    var rows: Table

    ghost predicate Valid()
      reads this
    {
      ValidTable(rows)
    }

    /** Opening the store: `CREATE TABLE IF NOT EXISTS` on a fresh database. */
    constructor ()
      ensures Valid() && rows == map[]
    {
      rows := map[];
    }

    /**
     * `merge_and_save_runs`: nothing happens for an empty batch; otherwise every run with an id
     * becomes a row (INSERT OR REPLACE), in batch order.
     */
    method MergeAndSaveRuns(uid: string, theme: string, newRuns: seq<Run>)
      requires Valid()
      modifies this
      ensures Valid()
      ensures rows == Merged(old(rows), uid, theme, newRuns)
    {
      if |newRuns| == 0 {
        return;
      }

      var runsToInsert: seq<Row> := [];
      for i := 0 to |newRuns|
        invariant runsToInsert == Pending(uid, theme, newRuns[..i])
      {
        assert newRuns[..i + 1][..i] == newRuns[..i];
        var run := newRuns[i];
        if run.id == "" {
          continue;
        }
        runsToInsert := runsToInsert + [RowOf(uid, theme, run)];
      }
      assert newRuns[..|newRuns|] == newRuns;

      ghost var before := rows;
      for j := 0 to |runsToInsert|
        invariant rows == Upsert(before, runsToInsert[..j])
      {
        assert runsToInsert[..j + 1][..j] == runsToInsert[..j];
        var row := runsToInsert[j];
        rows := rows[row.id := row];
      }
      assert runsToInsert[..|runsToInsert|] == runsToInsert;
      UpsertPending(before, uid, theme, newRuns);
      MergedValid(before, uid, theme, newRuns);
    }

    /** `get_all_runs`: the records of one (uid, theme) partition, newest first. */
    method GetAllRuns(uid: string, theme: string) returns (runs: seq<Run>)
      requires Valid()
      ensures IsPartitionListing(rows, uid, theme, runs)
    {
      runs := [];
      var unseen := rows.Keys;
      while unseen != {}
        invariant unseen <= rows.Keys
        invariant Gathered(rows, uid, theme, unseen, runs)
        decreases unseen
      {
        var id :| id in unseen;
        GatherStep(rows, uid, theme, unseen, runs, id);
        var row := rows[id];
        if row.uid == uid && row.theme == theme {
          runs := InsertNewestFirst(runs, row.record);
        }
        unseen := unseen - {id};
      }
      GatheredAll(rows, uid, theme, runs);
    }
  }
}
