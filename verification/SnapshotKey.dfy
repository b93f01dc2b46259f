/** The cache key of a simulation (autosys/analysis/simulated_risk.py, `_snapshot_key`).
    JSON encoding and SHA-256 are taken to be injective, so the key is the list that
    is encoded, together with the cycles and the seed. */
module SnapshotKey {
  import opened Permutations
  import opened Sorting

  /** A job row: its name (the primary key) and its other columns. */
  datatype Row = Row(name: string, columns: map<string, string>)

  const RUNTIME_JOB_COLS: set<string> :=
    {"status", "last_start", "last_end", "last_run_date", "created_at", "updated_at"}

  datatype Key = Key(blob: seq<Row>, cycles: int, seed: int)

  function NameOf(r: Row): string {
    r.name
  }

  ghost predicate UniqueRows(rows: seq<Row>) {
    DistinctKeys(rows, NameOf)
  }

  function Definition(r: Row): Row {
    Row(r.name, r.columns - RUNTIME_JOB_COLS)
  }

  function Definitions(rows: seq<Row>): (defs: seq<Row>)
    ensures |defs| == |rows| && forall i :: 0 <= i < |rows| ==> defs[i] == Definition(rows[i])
  {
    if rows == [] then [] else [Definition(rows[0])] + Definitions(rows[1..])
  }

  function Blob(rows: seq<Row>): seq<Row> {
    SortBy(Definitions(rows), NameOf)
  }

  /** The two rows define the same job: they differ in runtime columns at most. */
  ghost predicate SameJob(r: Row, q: Row) {
    && r.name == q.name
    && forall c :: c !in RUNTIME_JOB_COLS ==>
         ((c in r.columns <==> c in q.columns) && (c in r.columns ==> r.columns[c] == q.columns[c]))
  }

  ghost predicate SameJobs(a: seq<Row>, b: seq<Row>) {
    && (forall i :: 0 <= i < |a| ==> Defined(b, a[i]))
    && (forall i :: 0 <= i < |b| ==> Defined(a, b[i]))
  }

  ghost predicate Defined(rows: seq<Row>, r: Row) {
    exists k :: 0 <= k < |rows| && SameJob(rows[k], r)
  }

  lemma SameJobIff(r: Row, q: Row)
    ensures SameJob(r, q) <==> Definition(r) == Definition(q)
  {
    if Definition(r) == Definition(q) {
      forall c | c !in RUNTIME_JOB_COLS
        ensures (c in r.columns <==> c in q.columns) && (c in r.columns ==> r.columns[c] == q.columns[c])
      {
        assert c in r.columns <==> c in Definition(r).columns;
        assert c in q.columns <==> c in Definition(q).columns;
      }
    }
    if SameJob(r, q) {
      assert Definition(r).columns == Definition(q).columns;
    }
  }

  lemma DefinedIff(rows: seq<Row>, r: Row)
    ensures Defined(rows, r) <==> Definition(r) in Definitions(rows)
  {
    if Defined(rows, r) {
      var k :| 0 <= k < |rows| && SameJob(rows[k], r);
      SameJobIff(rows[k], r);
      assert Definitions(rows)[k] == Definition(r);
    }
    if Definition(r) in Definitions(rows) {
      var k :| 0 <= k < |rows| && Definitions(rows)[k] == Definition(r);
      SameJobIff(rows[k], r);
    }
  }

  lemma DefinitionsAreDistinct(rows: seq<Row>)
    requires UniqueRows(rows)
    ensures DistinctKeys(Definitions(rows), NameOf) && NoDup(Definitions(rows))
  {
    var defs := Definitions(rows);
    forall i, j | 0 <= i < j < |defs| ensures NameOf(defs[i]) != NameOf(defs[j]) {
      assert NameOf(rows[i]) != NameOf(rows[j]);
    }
  }

  /** A rearrangement of rows with distinct names has distinct names. */
  lemma DistinctCarriesOver(defs: seq<Row>, sorted: seq<Row>)
    requires DistinctKeys(defs, NameOf) && NoDup(defs) && multiset(sorted) == multiset(defs)
    ensures DistinctKeys(sorted, NameOf)
  {
    NoDupCarriesOver(defs, sorted);
    SameMembers(defs, sorted);
    forall i, j | 0 <= i < j < |sorted| ensures NameOf(sorted[i]) != NameOf(sorted[j]) {
      assert sorted[i] in sorted && sorted[j] in sorted;
      NamesTellApart(defs, sorted[i], sorted[j]);
    }
  }

  lemma NamesTellApart(defs: seq<Row>, r: Row, q: Row)
    requires DistinctKeys(defs, NameOf) && r in defs && q in defs && r != q
    ensures NameOf(r) != NameOf(q)
  {
    var x :| 0 <= x < |defs| && defs[x] == r;
    var y :| 0 <= y < |defs| && defs[y] == q;
    assert x < y ==> NameOf(defs[x]) != NameOf(defs[y]);
    assert y < x ==> NameOf(defs[y]) != NameOf(defs[x]);
  }

  lemma UniqueDefinitions(rows: seq<Row>)
    requires UniqueRows(rows)
    ensures NoDup(Definitions(rows)) && DistinctKeys(SortBy(Definitions(rows), NameOf), NameOf)
  {
    DefinitionsAreDistinct(rows);
    DistinctCarriesOver(Definitions(rows), SortBy(Definitions(rows), NameOf));
  }

  lemma FoundIn(a: seq<Row>, b: seq<Row>, d: Row)
    requires forall i :: 0 <= i < |a| ==> Defined(b, a[i])
    requires d in Definitions(a)
    ensures d in Definitions(b)
  {
    var i :| 0 <= i < |a| && Definitions(a)[i] == d;
    DefinedIff(b, a[i]);
  }

  lemma SameJobsSameDefinitions(a: seq<Row>, b: seq<Row>)
    requires UniqueRows(a) && UniqueRows(b) && SameJobs(a, b)
    ensures multiset(Definitions(a)) == multiset(Definitions(b))
  {
    DefinitionsAreDistinct(a);
    DefinitionsAreDistinct(b);
    forall d ensures d in Definitions(a) <==> d in Definitions(b) {
      if d in Definitions(a) {
        FoundIn(a, b, d);
      }
      if d in Definitions(b) {
        FoundIn(b, a, d);
      }
    }
    NoDupSameMembers(Definitions(a), Definitions(b));
  }

  lemma BlobDefines(a: seq<Row>, b: seq<Row>)
    requires Blob(a) == Blob(b)
    ensures forall i :: 0 <= i < |a| ==> Defined(b, a[i])
  {
    SameMembers(Definitions(a), Definitions(b));
    forall i | 0 <= i < |a| ensures Defined(b, a[i]) {
      assert Definitions(a)[i] in Definitions(a);
      DefinedIff(b, a[i]);
    }
  }

  lemma SameJobsSameBlob(a: seq<Row>, b: seq<Row>)
    requires UniqueRows(a) && UniqueRows(b) && SameJobs(a, b)
    ensures Blob(a) == Blob(b)
  {
    SameJobsSameDefinitions(a, b);
    UniqueDefinitions(a);
    SortByIsSorted(Definitions(a), NameOf);
    SortByIsSorted(Definitions(b), NameOf);
    DistinctTellApart(Blob(a), NameOf);
    SortedIsUnique(Blob(a), Blob(b), NameOf);
  }

  /** The blob is canonical: two job tables have the same blob exactly if they define
      the same jobs, in whatever order and whatever their runtime columns hold. */
  lemma BlobIsCanonicalIff(a: seq<Row>, b: seq<Row>)
    requires UniqueRows(a) && UniqueRows(b)
    ensures Blob(a) == Blob(b) <==> SameJobs(a, b)
  {
    if Blob(a) == Blob(b) {
      BlobDefines(a, b);
      BlobDefines(b, a);
    }
    if SameJobs(a, b) {
      SameJobsSameBlob(a, b);
    }
  }
}
