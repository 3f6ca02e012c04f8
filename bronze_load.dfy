/**
 * The bronze tables as a mutable sink, the per-category loaders that append
 * to them, and `load_all_raw_data`, which runs the seven loaders in a fixed
 * order and isolates each loader's failure.
 */
module BronzeLoad {

  import opened Wrappers
  import LandingStore
  import opened BronzeMapping

  /** The loaders of `load_all_raw_data`, in the order it runs them. */
  const LoaderOrder: seq<Table> := [Points, Forecasts, Hourly, Observations, Stations, Zones, GridData]

  /** Where each table's loader stands in LoaderOrder. */
  function Position(t: Table): (i: nat)
    ensures i < |LoaderOrder| && LoaderOrder[i] == t
  {
    match t
    case Points => 0
    case Forecasts => 1
    case Hourly => 2
    case Observations => 3
    case Stations => 4
    case Zones => 5
    case GridData => 6
  }

  /** Every table is loaded, and loaded once: LoaderOrder lists each table at its Position only. */
  lemma LoaderOrderDistinct(i: nat)
    requires i < |LoaderOrder|
    ensures Position(LoaderOrder[i]) == i
  {
  }

  /** The loader statements, one per table: the rows inserted from a category's files, or the error raised. */
  type Loader = (Table, seq<LandingStore.FileBody>) -> Result<seq<Row>, LoadError>

  /** The seven loaders of bronze_loader.py, reading `::TIMESTAMP` through `cast`. */
  function Loaders(cast: Cast): Loader {
    (t, files) => LoadRows(t, files, cast)
  }

  /** Every row has the table's arity. */
  ghost predicate Fits(t: Table, rows: seq<Row>) {
    forall k :: 0 <= k < |rows| ==> |rows[k]| == Arity(t)
  }

  /** Every row a loader inserts has the arity of its table. */
  ghost predicate Conforms(load: Loader) {
    forall t: Table, files: seq<LandingStore.FileBody> :: load(t, files).Ok? ==> Fits(t, load(t, files).value)
  }

  /** The statements of bronze_loader.py insert rows of the declared widths. */
  lemma LoadersConform(cast: Cast)
    ensures Conforms(Loaders(cast))
  {
    forall t: Table, files: seq<LandingStore.FileBody>, k |
      LoadRows(t, files, cast).Ok? && 0 <= k < |LoadRows(t, files, cast).value|
      ensures |LoadRows(t, files, cast).value[k]| == Arity(t)
    {
      LoadRowsShape(t, files, cast);
    }
  }

  /** The rows one loader appends when run over the landing store: its rows, or none when it raises. */
  ghost function Appended(dirs: LandingStore.Dirs, t: Table, load: Loader): seq<Row> {
    match load(t, LandingStore.Batch(dirs, Category(t)))
    case Ok(rows) => rows
    case Err(_) => []
  }

  /** What each loader appends when run over the landing store `dirs`. */
  ghost function AppendedOf(dirs: LandingStore.Dirs, load: Loader): Table -> seq<Row> {
    (t: Table) => Appended(dirs, t, load)
  }

  /** The number of rows the first `n` loaders of LoaderOrder append between them, a raising loader counting 0. */
  function Total(n: nat, rowsOf: Table -> seq<Row>): nat
    requires n <= |LoaderOrder|
  {
    if n == 0 then 0 else Total(n - 1, rowsOf) + |rowsOf(LoaderOrder[n - 1])|
  }

  /** Every appended row has its table's arity and the lineage of a landed file of that category. */
  lemma AppendedRowsShape(dirs: LandingStore.Dirs, t: Table, cast: Cast)
    ensures forall k :: 0 <= k < |Appended(dirs, t, Loaders(cast))| ==>
              |Appended(dirs, t, Loaders(cast))[k]| == Arity(t)
    ensures |Appended(dirs, t, Loaders(cast))| > 0 ==>
              |Appended(dirs, t, Loaders(cast))| == ExpectedRows(t, LandingStore.Batch(dirs, Category(t)))
  {
    var files := LandingStore.Batch(dirs, Category(t));
    if LoadRows(t, files, cast).Ok? {
      LoadRowsShape(t, files, cast);
    }
  }

  /** After the first `i` loaders: each of their tables grew by its rows, the others not at all, and `total` counts those rows. */
  predicate Loaded(start: map<Table, seq<Row>>, tables: map<Table, seq<Row>>, total: nat, i: nat, rowsOf: Table -> seq<Row>)
    requires i <= |LoaderOrder|
  {
    && total == Total(i, rowsOf)
    && forall t: Table :: t in start && t in tables && tables[t] == start[t] + (if Position(t) < i then rowsOf(t) else [])
  }

  /** Before the first loader, no table has grown. */
  lemma LoadedNone(start: map<Table, seq<Row>>, rowsOf: Table -> seq<Row>)
    requires forall t: Table :: t in start
    ensures Loaded(start, start, 0, 0, rowsOf)
  {
    forall t: Table
      ensures start[t] == start[t] + []
    {
    }
  }

  /** After the last loader, every table has grown by its own rows. */
  lemma LoadedAll(start: map<Table, seq<Row>>, tables: map<Table, seq<Row>>, total: nat, rowsOf: Table -> seq<Row>)
    requires Loaded(start, tables, total, |LoaderOrder|, rowsOf)
    ensures total == Total(|LoaderOrder|, rowsOf)
    ensures forall t: Table :: tables[t] == start[t] + rowsOf(t)
  {
  }

  lemma LoadedStep(start: map<Table, seq<Row>>, before: map<Table, seq<Row>>, after: map<Table, seq<Row>>,
                   total: nat, rows: nat, i: nat, rowsOf: Table -> seq<Row>)
    requires i < |LoaderOrder|
    requires Loaded(start, before, total, i, rowsOf)
    requires after == before[LoaderOrder[i] := before[LoaderOrder[i]] + rowsOf(LoaderOrder[i])]
    requires rows == |rowsOf(LoaderOrder[i])|
    ensures Loaded(start, after, total + rows, i + 1, rowsOf)
  {
    var u := LoaderOrder[i];
    LoaderOrderDistinct(i);
    forall t: Table
      ensures after[t] == start[t] + (if Position(t) < i + 1 then rowsOf(t) else [])
    {
      if t == u {
        assert after[t] == before[t] + rowsOf(t) && Position(t) == i;
      } else {
        assert after[t] == before[t] && Position(t) != i;
      }
    }
  }

  /**
   * The seven bronze tables. Each holds the rows appended to it so far; every
   * row has its table's arity, as the schema demands.
   */
  class BronzeSink {
    var tables: map<Table, seq<Row>>

    ghost predicate Valid()
      reads this
    {
      forall t: Table :: t in tables && Fits(t, tables[t])
    }

    /** `init_bronze_schema` on a fresh database: seven empty tables. */
    constructor ()
      ensures Valid()
      ensures forall t: Table :: tables[t] == []
    {
      tables := map[Points := [], Forecasts := [], Hourly := [], Observations := [],
                    Stations := [], Zones := [], GridData := []];
      new;
      forall t: Table
        ensures t in tables
      {
        assert t.Points? || t.Forecasts? || t.Hourly? || t.Observations? || t.Stations? || t.Zones? || t.GridData?;
      }
    }

    /** `SELECT COUNT(*) FROM t` */
    function Count(t: Table): nat
      reads this
    {
      if t in tables then |tables[t]| else 0
    }

    /** `INSERT INTO t ...`: the rows go after the existing ones. */
    method Append(t: Table, rows: seq<Row>)
      requires Valid()
      requires forall k :: 0 <= k < |rows| ==> |rows[k]| == Arity(t)
      modifies this
      ensures Valid()
      ensures tables == old(tables)[t := old(tables)[t] + rows]
      ensures Count(t) == old(Count(t)) + |rows|
    {
      tables := tables[t := tables[t] + rows];
    }

    /** `DELETE FROM t` */
    method Clear(t: Table)
      requires Valid()
      modifies this
      ensures Valid()
      ensures tables == old(tables)[t := []]
      ensures Count(t) == 0
    {
      tables := tables[t := []];
    }

    /** The `DELETE FROM` block that precedes a reload: every table emptied. */
    method ClearAll()
      requires Valid()
      modifies this
      ensures Valid()
      ensures forall t: Table :: tables[t] == []
    {
      var i := 0;
      while i < |LoaderOrder|
        invariant 0 <= i <= |LoaderOrder|
        invariant Valid()
        invariant forall t: Table :: Position(t) < i ==> tables[t] == []
      {
        LoaderOrderDistinct(i);
        Clear(LoaderOrder[i]);
        i := i + 1;
      }
    }

    /**
     * One loader (`load_points`, ..., `load_grid_data`): its statement over the
     * files of its category, appending every row or, when it raises, none.
     */
    method RunLoader(store: LandingStore.Store, t: Table, load: Loader) returns (r: Result<nat, LoadError>)
      requires Valid() && Conforms(load)
      modifies this
      ensures Valid()
      ensures r.Ok? <==> load(t, LandingStore.Batch(store.dirs, Category(t))).Ok?
      ensures r.Ok? ==> r.value == |Appended(store.dirs, t, load)|
      ensures r.Err? ==> Appended(store.dirs, t, load) == []
      ensures tables == old(tables)[t := old(tables)[t] + Appended(store.dirs, t, load)]
    {
      var files := store.ReadCategory(Category(t));
      var result := load(t, files);
      match result {
        case Ok(rows) =>
          Append(t, rows);
          r := Ok(|rows|);
        case Err(e) =>
          assert tables[t] + [] == tables[t];
          assert tables[t := tables[t]] == tables;
          r := Err(e);
      }
    }

    /** One pass of the loop in `load_all_raw_data`: a loader that raises counts 0 and appends nothing. */
    method TryLoader(store: LandingStore.Store, t: Table, load: Loader) returns (rows: nat)
      requires Valid() && Conforms(load)
      modifies this
      ensures Valid()
      ensures rows == |Appended(store.dirs, t, load)|
      ensures tables == old(tables)[t := old(tables)[t] + Appended(store.dirs, t, load)]
    {
      var r := RunLoader(store, t, load);
      rows := if r.Ok? then r.value else 0;
    }

    /** The loop of `load_all_raw_data`, for any loaders. */
    method RunLoaders(store: LandingStore.Store, load: Loader) returns (total: nat)
      requires Valid() && Conforms(load)
      modifies this
      ensures Valid()
      ensures total == Total(|LoaderOrder|, AppendedOf(store.dirs, load))
      ensures forall t: Table :: tables[t] == old(tables)[t] + Appended(store.dirs, t, load)
    {
      ghost var rowsOf := AppendedOf(store.dirs, load);
      LoadedNone(tables, rowsOf);
      total := 0;
      var i := 0;
      while i < |LoaderOrder|
        invariant 0 <= i <= |LoaderOrder|
        invariant Valid()
        invariant Loaded(old(tables), tables, total, i, rowsOf)
      {
        ghost var before := tables;
        var rows := TryLoader(store, LoaderOrder[i], load);
        LoadedStep(old(tables), before, tables, total, rows, i, rowsOf);
        total := total + rows;
        i := i + 1;
      }
      LoadedAll(old(tables), tables, total, rowsOf);
    }

    /**
     * `load_all_raw_data`: the seven loaders in order; a loader that raises
     * contributes 0 and the later loaders still run. The result is the sum of
     * the counts the successful loaders return, and each table grows by
     * exactly its own loader's rows.
     */
    method LoadAllRawData(store: LandingStore.Store, cast: Cast) returns (total: nat)
      requires Valid()
      modifies this
      ensures Valid()
      ensures total == Total(|LoaderOrder|, AppendedOf(store.dirs, Loaders(cast)))
      ensures forall t: Table :: tables[t] == old(tables)[t] + Appended(store.dirs, t, Loaders(cast))
    {
      LoadersConform(cast);
      total := RunLoaders(store, Loaders(cast));
    }

    /**
     * The script's entry point: every table cleared, then everything loaded.
     * Afterwards each table holds exactly what its loader reads from the
     * landing store, whatever the tables held before. The script passes no
     * `raw_dir`, so the loaders read the store rooted at "datalake/raw", even
     * when the writer was pointed elsewhere through DATALAKE_PATH.
     */
    method Reload(store: LandingStore.Store, cast: Cast) returns (total: nat)
      requires Valid()
      requires store.root == LandingStore.DefaultRoot
      modifies this
      ensures Valid()
      ensures total == Total(|LoaderOrder|, AppendedOf(store.dirs, Loaders(cast)))
      ensures forall t: Table :: tables[t] == Appended(store.dirs, t, Loaders(cast))
    {
      ClearAll();
      total := LoadAllRawData(store, cast);
    }
  }
}
