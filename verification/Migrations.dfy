/** Merging duplicate rows of `usage_daily`, and of price snapshots (src/schema_migrations.py). */
module Migrations {
  import opened Basics
  import opened UsageRows
  import opened Sessions
  import opened Ledger
  import opened Snapshots

  // ---------------------------------------------------------------- usage_daily

  datatype Row = Row(id: int, key: DailyKey, totals: Totals)

  predicate DistinctIds(rows: seq<Row>) { forall i, j :: 0 <= i < j < |rows| ==> rows[i].id != rows[j].id }

  function RowPart(r: Row, k: DailyKey): Measure { if r.key == k then Measure(r.totals, 0, 0) else NOTHING }

  function PartsAt(k: DailyKey): Row -> Measure { r => RowPart(r, k) }

  /** SUM of the numeric columns over a group. */
  function KeySum(rows: seq<Row>, k: DailyKey): Totals { Fold(rows, PartsAt(k)).totals }

  predicate HasKey(rows: seq<Row>, k: DailyKey) { exists i :: 0 <= i < |rows| && rows[i].key == k }

  /** MIN(id) of a group. */
  predicate IsLeastId(rows: seq<Row>, k: DailyKey, id: int) {
    (exists i :: 0 <= i < |rows| && rows[i].key == k && rows[i].id == id) &&
    forall i :: 0 <= i < |rows| && rows[i].key == k ==> id <= rows[i].id
  }

  /** One row per key, under the smallest id of the key, holding the key's sums. */
  ghost predicate IsMerged(rows: seq<Row>, out: seq<Row>) {
    (forall i :: 0 <= i < |out| ==>
      IsLeastId(rows, out[i].key, out[i].id) && out[i].totals == KeySum(rows, out[i].key)) &&
    (forall i, j :: 0 <= i < j < |out| ==> out[i].key != out[j].key) &&
    forall k :: HasKey(rows, k) ==> HasKey(out, k)
  }

  /** Whatever way it is reached, a merged table has the same rows. */
  lemma MergedIsUnique(rows: seq<Row>, a: seq<Row>, b: seq<Row>)
    requires IsMerged(rows, a) && IsMerged(rows, b)
    ensures forall r :: r in a <==> r in b
    ensures |a| == |b|
  {
    MergedIncludes(rows, a, b);
    MergedIncludes(rows, b, a);
    var sa, sb := set r | r in a, set r | r in b;
    assert sa == sb;
    DistinctKeysSize(a);
    DistinctKeysSize(b);
  }

  lemma MergedIncludes(rows: seq<Row>, a: seq<Row>, b: seq<Row>)
    requires IsMerged(rows, a) && IsMerged(rows, b)
    ensures forall r :: r in a ==> r in b
  {
    forall r | r in a ensures r in b {
      var i :| 0 <= i < |a| && a[i] == r;
      var n :| 0 <= n < |rows| && rows[n].key == r.key && rows[n].id == r.id;
      assert HasKey(b, rows[n].key);
      var j :| 0 <= j < |b| && b[j].key == r.key;
      assert b[j] == r;
    }
  }

  lemma {:induction false} DistinctKeysSize(a: seq<Row>)
    requires forall i, j :: 0 <= i < j < |a| ==> a[i].key != a[j].key
    ensures |set r | r in a| == |a|
    decreases |a|
  {
    if a != [] {
      var rest, last := a[..|a| - 1], a[|a| - 1];
      DistinctKeysSize(rest);
      assert a == rest + [last];
      assert (set r | r in a) == (set r | r in rest) + {last};
    }
  }

  lemma KeySumSnoc(rows: seq<Row>, r: Row, k: DailyKey)
    ensures KeySum(rows + [r], k) == if r.key == k then Add(KeySum(rows, k), r.totals) else KeySum(rows, k)
  {
    FoldAppend(rows, r, PartsAt(k));
    if r.key == k { PlusOfTotals(Fold(rows, PartsAt(k)), r.totals); } else { PlusNothing(Fold(rows, PartsAt(k))); }
  }

  lemma PlusOfTotals(m: Measure, t: Totals)
    ensures Plus(m, Measure(t, 0, 0)).totals == Add(m.totals, t)
  {
  }

  lemma NoKeyNoSum(rows: seq<Row>, k: DailyKey)
    requires !HasKey(rows, k)
    ensures KeySum(rows, k) == ZERO
  {
    FoldOfNothing(rows, PartsAt(k));
  }

  lemma SumFromNothing(t: Totals)
    ensures Add(ZERO, t) == t
  {
    PlusIsAbelian(Measure(t, 0, 0), NOTHING, NOTHING);
  }

  method FindKey(out: seq<Row>, k: DailyKey) returns (at: nat)
    ensures at <= |out| && (at < |out| ==> out[at].key == k) && (at == |out| ==> !HasKey(out, k))
  {
    at := 0;
    while at < |out| && out[at].key != k
      invariant 0 <= at <= |out|
      invariant forall i :: 0 <= i < at ==> out[i].key != k
    {
      at := at + 1;
    }
  }

  /** `GROUP BY date, provider, model, client_source, user_id`, a NULL user being a group of its own: the
      whole of `_sqlite_recreate_usage_daily`, and the subquery of the PostgreSQL update. */
  method GroupRows(rows: seq<Row>) returns (out: seq<Row>)
    requires DistinctIds(rows)
    ensures IsMerged(rows, out)
  {
    out := [];
    for n := 0 to |rows|
      invariant IsMerged(rows[..n], out)
    {
      var r := rows[n];
      var at := FindKey(out, r.key);
      assert rows[..n + 1] == rows[..n] + [r];
      if at < |out| {
        GroupGrows(rows[..n], r, out, at);
        out := out[at := Absorbed(out[at], r)];
      } else {
        GroupOpens(rows[..n], r, out);
        out := out + [r];
      }
    }
    assert rows[..|rows|] == rows;
  }

  lemma LeastIdSnoc(rows: seq<Row>, r: Row, k: DailyKey, id: int)
    requires IsLeastId(rows, k, id)
    ensures IsLeastId(rows + [r], k, if r.key == k && r.id < id then r.id else id)
  {
    var all := rows + [r];
    assert all[|rows|] == r;
    var i :| 0 <= i < |rows| && rows[i].key == k && rows[i].id == id;
    assert all[i] == rows[i];
  }

  /** A group after one more of its rows. */
  function Absorbed(g: Row, r: Row): Row { Row(if r.id < g.id then r.id else g.id, r.key, Add(g.totals, r.totals)) }

  lemma GroupGrows(rows: seq<Row>, r: Row, out: seq<Row>, at: nat)
    requires IsMerged(rows, out) && at < |out| && out[at].key == r.key
    ensures IsMerged(rows + [r], out[at := Absorbed(out[at], r)])
  {
    var out' := out[at := Absorbed(out[at], r)];
    var all := rows + [r];
    forall i | 0 <= i < |out'|
      ensures IsLeastId(all, out'[i].key, out'[i].id) && out'[i].totals == KeySum(all, out'[i].key)
    {
      LeastIdSnoc(rows, r, out[i].key, out[i].id);
      KeySumSnoc(rows, r, out[i].key);
    }
    forall k | HasKey(all, k) ensures HasKey(out', k) {
      HasKeySnoc(rows, r);
      assert HasKey(out, k);
      var j :| 0 <= j < |out| && out[j].key == k;
      assert out'[j].key == k;
    }
  }

  lemma GroupOpens(rows: seq<Row>, r: Row, out: seq<Row>)
    requires IsMerged(rows, out) && !HasKey(out, r.key)
    ensures IsMerged(rows + [r], out + [r])
  {
    var out', all := out + [r], rows + [r];
    assert !HasKey(rows, r.key);
    forall i | 0 <= i < |out'|
      ensures IsLeastId(all, out'[i].key, out'[i].id) && out'[i].totals == KeySum(all, out'[i].key)
    {
      if i < |out| {
        OldGroupStays(rows, r, out[i]);
      } else {
        NewGroup(rows, r);
      }
    }
    forall i, j | 0 <= i < j < |out'| ensures out'[i].key != out'[j].key {
      if j == |out| { assert out[i].key != r.key; }
    }
    forall k | HasKey(all, k) ensures HasKey(out', k) {
      HasKeySnoc(rows, r);
      HasKeySnoc(out, r);
    }
  }

  /** A row of another key changes nothing of a group. */
  lemma OldGroupStays(rows: seq<Row>, r: Row, g: Row)
    requires IsLeastId(rows, g.key, g.id) && g.totals == KeySum(rows, g.key) && r.key != g.key
    ensures IsLeastId(rows + [r], g.key, g.id) && g.totals == KeySum(rows + [r], g.key)
  {
    LeastIdSnoc(rows, r, g.key, g.id);
    KeySumSnoc(rows, r, g.key);
  }

  /** The first row of a key is its group. */
  lemma NewGroup(rows: seq<Row>, r: Row)
    requires !HasKey(rows, r.key)
    ensures IsLeastId(rows + [r], r.key, r.id) && r.totals == KeySum(rows + [r], r.key)
  {
    var all := rows + [r];
    assert all[|rows|] == r;
    assert forall i :: 0 <= i < |rows| ==> rows[i].key != r.key;
    NoKeyNoSum(rows, r.key);
    SumFromNothing(r.totals);
    KeySumSnoc(rows, r, r.key);
  }

  /** A row of the same key with a smaller id. */
  predicate Shadowed(rows: seq<Row>, r: Row) {
    exists i :: 0 <= i < |rows| && rows[i].key == r.key && rows[i].id < r.id
  }

  /** The rows after the update: same ids and keys, and the sums of their key wherever no smaller id has it. */
  predicate IsUpdated(rows: seq<Row>, updated: seq<Row>) {
    |updated| == |rows| &&
    (forall i :: 0 <= i < |rows| ==> updated[i].id == rows[i].id && updated[i].key == rows[i].key) &&
    forall i :: 0 <= i < |rows| && !Shadowed(rows, rows[i]) ==> updated[i].totals == KeySum(rows, rows[i].key)
  }

  method FindId(sums: seq<Row>, id: int) returns (at: nat)
    ensures at <= |sums| && (at < |sums| ==> sums[at].id == id)
    ensures at == |sums| ==> forall i :: 0 <= i < |sums| ==> sums[i].id != id
  {
    at := 0;
    while at < |sums| && sums[at].id != id
      invariant 0 <= at <= |sums|
      invariant forall i :: 0 <= i < at ==> sums[i].id != id
    {
      at := at + 1;
    }
  }

  method WriteSums(rows: seq<Row>, sums: seq<Row>) returns (updated: seq<Row>)
    requires DistinctIds(rows) && IsMerged(rows, sums)
    ensures IsUpdated(rows, updated)
  {
    updated := [];
    for n := 0 to |rows|
      invariant |updated| == n
      invariant forall i :: 0 <= i < n ==> updated[i].id == rows[i].id && updated[i].key == rows[i].key
      invariant forall i :: 0 <= i < n && !Shadowed(rows, rows[i]) ==> updated[i].totals == KeySum(rows, rows[i].key)
    {
      var at := FindId(sums, rows[n].id);
      WrittenWhereLeast(rows, sums, n, at);
      updated := updated + [if at < |sums| then rows[n].(totals := sums[at].totals) else rows[n]];
    }
  }

  /** `out[i]` is row `from[i]`, in order; they are the rows below `n` that nothing shadows. */
  ghost predicate AreLeft(rows: seq<Row>, updated: seq<Row>, n: nat, out: seq<Row>, from: seq<nat>)
    requires IsUpdated(rows, updated) && n <= |rows|
  {
    |from| == |out| &&
    (forall i :: 0 <= i < |out| ==> from[i] < n && out[i] == updated[from[i]] && !Shadowed(rows, rows[from[i]])) &&
    (forall i, j :: 0 <= i < j < |out| ==> from[i] < from[j]) &&
    forall i :: 0 <= i < n && !Shadowed(rows, rows[i]) ==> HasKey(out, rows[i].key)
  }

  lemma OneMoreLeft(rows: seq<Row>, updated: seq<Row>, n: nat, out: seq<Row>, from: seq<nat>)
    requires IsUpdated(rows, updated) && n < |rows| && AreLeft(rows, updated, n, out, from)
    ensures Shadowed(rows, rows[n]) ==> AreLeft(rows, updated, n + 1, out, from)
    ensures !Shadowed(rows, rows[n]) ==> AreLeft(rows, updated, n + 1, out + [updated[n]], from + [n])
  {
    var out', from' := out + [updated[n]], from + [n];
    if !Shadowed(rows, rows[n]) {
      HasKeySnoc(out, updated[n]);
      forall i | 0 <= i < |out'|
        ensures from'[i] < n + 1 && out'[i] == updated[from'[i]] && !Shadowed(rows, rows[from'[i]])
      {
        if i < |out| { assert out'[i] == out[i] && from'[i] == from[i]; }
      }
    }
  }

  /** `_postgres_merge_usage_daily_duplicates`: the sums are written into the row with the smallest id of each
      key, then every row behind a smaller id is deleted. */
  method UpdateThenDelete(rows: seq<Row>) returns (out: seq<Row>)
    requires DistinctIds(rows)
    ensures IsMerged(rows, out)
  {
    var sums := GroupRows(rows);
    var updated := WriteSums(rows, sums);
    out := [];
    ghost var from: seq<nat> := [];
    for n := 0 to |updated|
      invariant AreLeft(rows, updated, n, out, from)
    {
      ShadowedAlike(rows, updated, updated[n], rows[n]);
      OneMoreLeft(rows, updated, n, out, from);
      if !Shadowed(updated, updated[n]) {
        out, from := out + [updated[n]], from + [n];
      }
    }
    LeftoversAreMerged(rows, updated, out, from);
  }

  lemma ShadowedAlike(rows: seq<Row>, updated: seq<Row>, a: Row, b: Row)
    requires |rows| == |updated| && forall i :: 0 <= i < |rows| ==>
      updated[i].id == rows[i].id && updated[i].key == rows[i].key
    requires a.id == b.id && a.key == b.key
    ensures Shadowed(updated, a) <==> Shadowed(rows, b)
  {
    if i :| 0 <= i < |rows| && rows[i].key == b.key && rows[i].id < b.id { assert updated[i].key == a.key; }
  }

  /** The update reaches a row exactly when no smaller id has its key. */
  lemma WrittenWhereLeast(rows: seq<Row>, sums: seq<Row>, n: nat, at: nat)
    requires DistinctIds(rows) && IsMerged(rows, sums) && n < |rows| && at <= |sums|
    requires at < |sums| ==> sums[at].id == rows[n].id
    requires at == |sums| ==> forall i :: 0 <= i < |sums| ==> sums[i].id != rows[n].id
    ensures at < |sums| ==> sums[at].totals == KeySum(rows, rows[n].key)
    ensures at == |sums| ==> Shadowed(rows, rows[n])
  {
    if at < |sums| {
      var i :| 0 <= i < |rows| && rows[i].key == sums[at].key && rows[i].id == sums[at].id;
      assert i == n;
    } else {
      assert HasKey(sums, rows[n].key);
      var j :| 0 <= j < |sums| && sums[j].key == rows[n].key;
      assert IsLeastId(rows, sums[j].key, sums[j].id);
      var i :| 0 <= i < |rows| && rows[i].key == sums[j].key && rows[i].id == sums[j].id;
      assert rows[i].id <= rows[n].id && rows[i].id != rows[n].id;
    }
  }

  lemma LeftoversAreMerged(rows: seq<Row>, updated: seq<Row>, out: seq<Row>, from: seq<nat>)
    requires DistinctIds(rows) && IsUpdated(rows, updated) && AreLeft(rows, updated, |rows|, out, from)
    ensures IsMerged(rows, out)
  {
    forall i | 0 <= i < |out|
      ensures IsLeastId(rows, out[i].key, out[i].id) && out[i].totals == KeySum(rows, out[i].key)
    {
      assert rows[from[i]].key == out[i].key && rows[from[i]].id == out[i].id;
    }
    forall i, j | 0 <= i < j < |out| ensures out[i].key != out[j].key {
      assert rows[from[i]].id != rows[from[j]].id;
      assert !Shadowed(rows, rows[from[i]]) && !Shadowed(rows, rows[from[j]]);
    }
    forall i | 0 <= i < |rows| ensures HasKey(out, rows[i].key) {
      var m := LeastOfKey(rows, i);
      assert HasKey(out, rows[m].key);
    }
  }

  /** Every key has a row that no smaller id shadows. */
  lemma {:induction false} LeastOfKey(rows: seq<Row>, i: nat) returns (m: nat)
    requires i < |rows|
    ensures m < |rows| && rows[m].key == rows[i].key && !Shadowed(rows, rows[m])
  {
    m := i;
    for n := 0 to |rows|
      invariant m < |rows| && rows[m].key == rows[i].key
      invariant forall j :: 0 <= j < n && rows[j].key == rows[i].key ==> rows[m].id <= rows[j].id
    {
      if rows[n].key == rows[i].key && rows[n].id < rows[m].id { m := n; }
    }
  }

  /** The two databases end with the same table: the same rows, as many of them, every key's totals kept. */
  lemma BothDatabasesAgree(rows: seq<Row>, sqlite: seq<Row>, postgres: seq<Row>, k: DailyKey)
    requires IsMerged(rows, sqlite) && IsMerged(rows, postgres)
    ensures (forall r :: r in sqlite <==> r in postgres) && |sqlite| == |postgres|
    ensures KeySum(sqlite, k) == KeySum(rows, k) == KeySum(postgres, k)
  {
    MergedIsUnique(rows, sqlite, postgres);
    MergedKeepsSums(rows, sqlite, k);
    MergedKeepsSums(rows, postgres, k);
  }

  lemma SameKeys(rows: seq<Row>, out: seq<Row>, k: DailyKey)
    requires IsMerged(rows, out)
    ensures HasKey(rows, k) <==> HasKey(out, k)
  {
    if n :| 0 <= n < |rows| && rows[n].key == k { assert HasKey(out, rows[n].key); }
    if i :| 0 <= i < |out| && out[i].key == k { assert IsLeastId(rows, out[i].key, out[i].id); }
  }

  lemma MergedKeepsSums(rows: seq<Row>, out: seq<Row>, k: DailyKey)
    requires IsMerged(rows, out)
    ensures KeySum(out, k) == KeySum(rows, k)
  {
    if HasKey(out, k) {
      var i :| 0 <= i < |out| && out[i].key == k;
      SingleRowSum(out, k, i);
    } else {
      NoKeyNoSum(out, k);
      SameKeys(rows, out, k);
      NoKeyNoSum(rows, k);
    }
  }

  lemma {:induction false} SingleRowSum(out: seq<Row>, k: DailyKey, i: nat)
    requires forall i, j :: 0 <= i < j < |out| ==> out[i].key != out[j].key
    requires i < |out| && out[i].key == k
    ensures KeySum(out, k) == out[i].totals
    decreases |out|
  {
    var rest, last := out[..|out| - 1], out[|out| - 1];
    assert out == rest + [last];
    KeySumSnoc(rest, last, k);
    if i == |rest| {
      NoKeyNoSum(rest, k);
      SumFromNothing(last.totals);
    } else {
      SingleRowSum(rest, k, i);
    }
  }

  /** The merged table, read as the keyed table the application uses. */
  function AsDaily(out: seq<Row>): (m: map<DailyKey, Totals>)
    ensures forall k :: k in m <==> HasKey(out, k)
  {
    if out == [] then map[]
    else
      var last := out[|out| - 1];
      var m := AsDaily(out[..|out| - 1]);
      assert forall k :: HasKey(out, k) <==>
        HasKey(out[..|out| - 1], k) || k == last.key by { HasKeySnoc(out[..|out| - 1], last); }
      m[last.key := last.totals]
  }

  lemma HasKeySnoc(rows: seq<Row>, r: Row)
    ensures forall k :: HasKey(rows + [r], k) <==> HasKey(rows, k) || k == r.key
    ensures rows + [r] != [] && (rows + [r])[..|rows + [r]| - 1] == rows
  {
    var all := rows + [r];
    assert all[|rows|] == r && forall i :: 0 <= i < |rows| ==> all[i] == rows[i];
    forall k ensures HasKey(all, k) <==> HasKey(rows, k) || k == r.key {
      if i :| 0 <= i < |rows| && rows[i].key == k { assert all[i].key == k; }
      if k == r.key { assert all[|rows|].key == k; }
    }
  }

  lemma {:induction false} AsDailyLooksUp(out: seq<Row>, i: nat)
    requires forall i, j :: 0 <= i < j < |out| ==> out[i].key != out[j].key
    requires i < |out|
    ensures out[i].key in AsDaily(out) && AsDaily(out)[out[i].key] == out[i].totals
    decreases |out|
  {
    if i < |out| - 1 {
      AsDailyLooksUp(out[..|out| - 1], i);
    } else {
      assert out[i].key == out[|out| - 1].key;
    }
    assert HasKey(out, out[i].key);
  }

  /** If the duplicate rows of every key together held its group-by, the merged table is the group-by: the
      migration establishes what the upserts then keep. */
  lemma MigrationEstablishesAgreement(usage: seq<Usage>, rows: seq<Row>, out: seq<Row>)
    requires IsMerged(rows, out)
    requires forall k :: SharesKey(usage, rows, k)
    ensures DailyAgrees(usage, AsDaily(out))
  {
    forall k ensures EntryAgrees(usage, AsDaily(out), k) {
      assert SharesKey(usage, rows, k);
      if HasKey(out, k) {
        var i :| 0 <= i < |out| && out[i].key == k;
        AsDailyLooksUp(out, i);
      }
      SameKeys(rows, out, k);
    }
  }

  predicate SharesKey(usage: seq<Usage>, rows: seq<Row>, k: DailyKey) {
    (HasKey(rows, k) <==> SumOf(usage, OfKey(k)).requestCount > 0) &&
    (HasKey(rows, k) ==> KeySum(rows, k) == SumOf(usage, OfKey(k)))
  }

  // ---------------------------------------------------------------- price_snapshots

  /** A snapshot row from when snapshots were kept per provider. */
  datatype OldSnapshot = OldSnapshot(provider: string, version: Snapshot)

  predicate IsFirst(snapshots: map<int, OldSnapshot>, id: int) {
    id in snapshots && forall j :: j in snapshots && snapshots[j].version == snapshots[id].version ==> id <= j
  }

  /** The survivors are the first of each version, and no two of them are alike. */
  ghost predicate AreSurvivors(snapshots: map<int, OldSnapshot>, kept: map<int, Snapshot>) {
    forall id :: (id in kept <==> IsFirst(snapshots, id)) && (id in kept ==> kept[id] == snapshots[id].version)
  }

  /** A row's reference moves to the survivor of the same date, model, source and rates; a dangling one is cleared. */
  ghost predicate IsRepointed(snapshots: map<int, OldSnapshot>, kept: map<int, Snapshot>, was: Option<int>,
                              now: Option<int>) {
    if was.Some? && was.value in snapshots then
      now.Some? && now.value in kept && kept[now.value] == snapshots[was.value].version
    else now == None
  }

  /** `_drop_price_snapshot_provider`: repoint every usage row, delete what is not the first of its version,
      drop the provider. */
  method DropSnapshotProvider(snapshots: map<int, OldSnapshot>, refs: seq<Option<int>>)
    returns (kept: map<int, Snapshot>, after: seq<Option<int>>)
    ensures AreSurvivors(snapshots, kept)
    ensures |after| == |refs| && forall i :: 0 <= i < |refs| ==> IsRepointed(snapshots, kept, refs[i], after[i])
  {
    var firsts := set id | id in snapshots && IsFirst(snapshots, id);
    kept := map id | id in firsts :: snapshots[id].version;
    after := [];
    for n := 0 to |refs|
      invariant |after| == n && forall i :: 0 <= i < n ==> IsRepointed(snapshots, kept, refs[i], after[i])
    {
      var survivor := None;
      if refs[n].Some? && refs[n].value in snapshots {
        var version := snapshots[refs[n].value].version;
        var alike := set id | id in snapshots && snapshots[id].version == version;
        assert refs[n].value in alike;
        var least := LeastOf(alike);
        assert snapshots[least].version == version;
        forall j | j in snapshots && snapshots[j].version == version ensures least <= j { assert j in alike; }
        assert IsFirst(snapshots, least);
        survivor := Some(least);
      }
      after := after + [survivor];
    }
  }

  /** The new unique index holds, and every version has its survivor. */
  lemma SurvivorsAreDistinct(snapshots: map<int, OldSnapshot>, kept: map<int, Snapshot>)
    requires AreSurvivors(snapshots, kept)
    ensures forall i, j :: i in kept && j in kept && kept[i] == kept[j] ==> i == j
  {
    forall i, j | i in kept && j in kept && kept[i] == kept[j] ensures i == j {
      assert IsFirst(snapshots, i) && IsFirst(snapshots, j);
    }
  }

  /** A usage row bound before the migration is bound after it, and replays the same cost. */
  lemma RepointingKeepsReplay(snapshots: map<int, OldSnapshot>, kept: map<int, Snapshot>, u: Usage, was: Option<int>,
                              now: Option<int>)
    requires IsRepointed(snapshots, kept, was, now)
    requires was.Some? && was.value in snapshots && BoundTo(u, snapshots[was.value].version)
    ensures now.Some? && now.value in kept && BoundTo(u, kept[now.value])
    ensures ShowsCharge(u, DetailAt(u, ParseRates(kept[now.value].rates), false))
  {
    ReplayShowsCharge(u, kept[now.value]);
  }
}
