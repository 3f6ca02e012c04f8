/**
 * The landing zone of backend/datalake/writer.py: raw API payloads saved as
 * JSON files named "<identifier>_<%Y-%m-%dT%H-%M-%S>.json" under
 * "<root>/<category>/", each wrapped in an envelope of metadata; reading a
 * file back; listing a category with an identifier and a date-range filter,
 * newest first; and picking the latest file of an identifier.
 */
module LandingStore {

  import opened Wrappers
  import opened Text
  import opened Timestamps
  import opened JsonValue

  /** What a file of the store holds: a JSON document, or bytes that are not JSON. */
  datatype FileBody = JsonFile(doc: Json) | NotJson

  /** The store's directories: category -> file name -> contents. */
  type Dirs = map<string, map<string, FileBody>>

  /** A file's location: `<root>/<category>/<name>`. */
  datatype FilePath = FilePath(category: string, name: string)

  /** Default of the DATALAKE_PATH environment variable. */
  const DefaultRoot: string := "datalake/raw"

  function PathText(root: string, p: FilePath): string {
    root + "/" + p.category + "/" + p.name
  }

  /** The file name `save_raw_data` writes for an identifier and a logical time. */
  function FileName(identifier: string, t: DateTime): string {
    identifier + "_" + Stamp(t) + ".json"
  }

  /** The full path text of a saved file. */
  lemma SavedPathText(root: string, category: string, identifier: string, t: DateTime)
    ensures PathText(root, FilePath(category, FileName(identifier, t)))
            == root + "/" + category + "/" + identifier + "_" + Stamp(t) + ".json"
  {
    var pre := root + "/" + category + "/";
    assert pre + (identifier + "_" + Stamp(t) + ".json") == pre + identifier + "_" + Stamp(t) + ".json";
  }

  /** `{"metadata": {saved_at, category, identifier, timestamp}, "data": payload}` */
  function Envelope(category: string, identifier: string, payload: Json,
                    timestamp: DateTime, savedAt: DateTime): Json
  {
    JObject(map[
      "metadata" := JObject(map[
        "saved_at" := JString(IsoFormat(savedAt)),
        "category" := JString(category),
        "identifier" := JString(identifier),
        "timestamp" := JString(IsoFormat(timestamp))]),
      "data" := payload])
  }

  /** The directory of a category, empty when it does not exist yet. */
  function Dir(dirs: Dirs, category: string): map<string, FileBody> {
    if category in dirs then dirs[category] else map[]
  }

  /** The store after `save_raw_data` has (created the directory and) written one file. */
  function Saved(dirs: Dirs, category: string, identifier: string, payload: Json,
                 timestamp: DateTime, savedAt: DateTime): Dirs
  {
    dirs[category := Dir(dirs, category)[FileName(identifier, timestamp) :=
      JsonFile(Envelope(category, identifier, payload, timestamp, savedAt))]]
  }

  /** How `load_raw_data` fails. */
  datatype ReadError =
    | FileNotFound   // open() raises FileNotFoundError
    | NotValidJson   // json.load raises JSONDecodeError
    | NoGetMethod    // the document is not an object: `.get` raises AttributeError

  /**
   * `load_raw_data`: the document's "data" member, or the whole document when
   * it has none.
   */
  function ReadFile(dirs: Dirs, p: FilePath): (r: Result<Json, ReadError>)
    ensures r == Err(FileNotFound) <==> p.name !in Dir(dirs, p.category)
    ensures r == Err(NotValidJson) <==> p.name in Dir(dirs, p.category) && Dir(dirs, p.category)[p.name].NotJson?
    ensures r.Ok? ==> Dir(dirs, p.category)[p.name].JsonFile? && Dir(dirs, p.category)[p.name].doc.JObject?
  {
    var dir := Dir(dirs, p.category);
    if p.name !in dir then Err(FileNotFound)
    else match dir[p.name]
      case NotJson => Err(NotValidJson)
      case JsonFile(doc) =>
        if !doc.JObject? then Err(NoGetMethod)
        else if "data" in doc.fields then Ok(doc.fields["data"])
        else Ok(doc)
  }

  // ---------------------------------------------------------------------------
  // What `list_raw_files` keeps

  /** `Path.stem` of a name ending in ".json": the name without that suffix, unless it is all suffix. */
  function Stem(name: string): string {
    if EndsWith(name, ".json") && |name| > 5 then name[..|name| - 5] else name
  }

  /**
   * The logical time a file name encodes: `stem.split('_', 1)[1]` parsed with
   * `strptime`; None where Python raises IndexError or ValueError.
   */
  function TimeOf(name: string): Option<DateTime> {
    var parts :- SplitFirst(Stem(name), {'_'});
    ParseStamp(parts.1)
  }

  /** `if identifier:` the name must start with `identifier + "_"`; None and "" do not filter. */
  predicate IdentifierPasses(name: string, identifier: Option<string>) {
    identifier.None? || identifier.value == "" || StartsWith(name, identifier.value + "_")
  }

  /**
   * `if start_date or end_date:` the name's time must parse and lie in the
   * inclusive range; without a bound no name is checked.
   */
  predicate DatePasses(name: string, start: Option<DateTime>, end: Option<DateTime>) {
    if start.None? && end.None? then true
    else match TimeOf(name)
      case None => false
      case Some(t) => (start.None? || !Before(t, start.value)) && (end.None? || !Before(end.value, t))
  }

  datatype Filter = Filter(identifier: Option<string>, start: Option<DateTime>, end: Option<DateTime>)

  /** The names `list_raw_files` returns, in some order. */
  predicate Selected(dirs: Dirs, category: string, f: Filter, name: string) {
    && name in Dir(dirs, category)
    && EndsWith(name, ".json")
    && IdentifierPasses(name, f.identifier)
    && DatePasses(name, f.start, f.end)
  }

  /** The result of `list_raw_files`: the selected names, sorted descending. */
  ghost function Listing(dirs: Dirs, category: string, f: Filter): seq<string> {
    SortedSet(set n | n in Dir(dirs, category) && Selected(dirs, category, f, n), true)
  }

  /** A category's ".json" names in ascending order. */
  ghost function JsonNames(dirs: Dirs, category: string): seq<string> {
    SortedSet(set n | n in Dir(dirs, category) && EndsWith(n, ".json"), false)
  }

  /** The contents of the named files of a directory, in the order of the names. */
  function Contents(dir: map<string, FileBody>, names: seq<string>): seq<FileBody>
    requires forall i :: 0 <= i < |names| ==> names[i] in dir
  {
    seq(|names|, i requires 0 <= i < |names| => dir[names[i]])
  }

  /** The files DuckDB's `read_json` reads for a category, in ascending name order. */
  ghost function Batch(dirs: Dirs, category: string): seq<FileBody> {
    var names := JsonNames(dirs, category);
    assert forall i :: 0 <= i < |names| ==> names[i] in names;
    Contents(Dir(dirs, category), names)
  }

  /** A sorted sequence of exactly the selected names is the listing. */
  lemma ListingIs(dirs: Dirs, category: string, f: Filter, names: seq<string>)
    requires Sorted(names, true)
    requires forall n :: n in names <==> Selected(dirs, category, f, n)
    ensures names == Listing(dirs, category, f)
  {
    var s := set n | n in Dir(dirs, category) && Selected(dirs, category, f, n);
    SortedUnique(names, SortedSet(s, true), true);
  }

  /** A sorted sequence of exactly the ".json" names is `JsonNames`. */
  lemma JsonNamesAre(dirs: Dirs, category: string, names: seq<string>)
    requires Sorted(names, false)
    requires forall n :: n in names <==> n in Dir(dirs, category) && EndsWith(n, ".json")
    ensures names == JsonNames(dirs, category)
  {
    var s := set n | n in Dir(dirs, category) && EndsWith(n, ".json");
    SortedUnique(names, SortedSet(s, false), false);
  }

  /** The files of a sorted sequence of exactly the ".json" names are the batch. */
  lemma BatchOf(dirs: Dirs, category: string, names: seq<string>)
    requires Sorted(names, false)
    requires forall n :: n in names <==> n in Dir(dirs, category) && EndsWith(n, ".json")
    ensures forall i :: 0 <= i < |names| ==> names[i] in Dir(dirs, category)
    ensures Contents(Dir(dirs, category), names) == Batch(dirs, category)
  {
    JsonNamesAre(dirs, category, names);
  }

  // ---------------------------------------------------------------------------
  // Saving and reading back

  /** Reading a saved file gives back exactly the payload. */
  lemma SaveThenLoad(dirs: Dirs, category: string, identifier: string, payload: Json,
                     t: DateTime, savedAt: DateTime)
    ensures ReadFile(Saved(dirs, category, identifier, payload, t, savedAt),
                     FilePath(category, FileName(identifier, t))) == Ok(payload)
  {
  }

  /** A file that is a JSON object without a "data" member is returned whole. */
  lemma LoadWithoutEnvelope(dirs: Dirs, p: FilePath)
    requires p.name in Dir(dirs, p.category)
    requires Dir(dirs, p.category)[p.name].JsonFile?
    requires var doc := Dir(dirs, p.category)[p.name].doc; doc.JObject? && "data" !in doc.fields
    ensures ReadFile(dirs, p) == Ok(Dir(dirs, p.category)[p.name].doc)
  {
  }

  /** Saving touches one file and no other. */
  lemma SaveKeepsOtherFiles(dirs: Dirs, category: string, identifier: string, payload: Json,
                            t: DateTime, savedAt: DateTime, p: FilePath)
    requires p != FilePath(category, FileName(identifier, t))
    ensures ReadFile(Saved(dirs, category, identifier, payload, t, savedAt), p) == ReadFile(dirs, p)
  {
    var after := Saved(dirs, category, identifier, payload, t, savedAt);
    assert Dir(after, p.category) == if p.category == category
      then Dir(dirs, category)[FileName(identifier, t) := JsonFile(Envelope(category, identifier, payload, t, savedAt))]
      else Dir(dirs, p.category);
  }

  /** A save adds a file unless one of that name exists, which it replaces. */
  lemma SaveFileCount(dirs: Dirs, category: string, identifier: string, payload: Json,
                      t: DateTime, savedAt: DateTime)
    ensures var before := Dir(dirs, category);
      |Dir(Saved(dirs, category, identifier, payload, t, savedAt), category)|
        == if FileName(identifier, t) in before then |before| else |before| + 1
  {
    var before := Dir(dirs, category);
    var name := FileName(identifier, t);
    var after := Dir(Saved(dirs, category, identifier, payload, t, savedAt), category);
    if name in before {
      assert after.Keys == before.Keys;
    } else {
      assert after.Keys == before.Keys + {name};
    }
  }

  /**
   * Two saves of one identifier within the same second write the same file:
   * the second wins and the category does not grow.
   */
  lemma SameSecondOverwrites(dirs: Dirs, category: string, identifier: string,
                             payload1: Json, t1: DateTime, savedAt1: DateTime,
                             payload2: Json, t2: DateTime, savedAt2: DateTime)
    requires Truncate(t1) == Truncate(t2)
    ensures var first := Saved(dirs, category, identifier, payload1, t1, savedAt1);
      var second := Saved(first, category, identifier, payload2, t2, savedAt2);
      && FileName(identifier, t1) == FileName(identifier, t2)
      && |Dir(second, category)| == |Dir(first, category)|
      && ReadFile(second, FilePath(category, FileName(identifier, t1))) == Ok(payload2)
  {
    var first := Saved(dirs, category, identifier, payload1, t1, savedAt1);
    assert Stamp(t1) == Stamp(t2);
    SaveFileCount(first, category, identifier, payload2, t2, savedAt2);
  }

  /** One identifier's file names differ where their stamps do. */
  lemma FileNameInjective(identifier: string, a: DateTime, b: DateTime)
    ensures FileName(identifier, a) == FileName(identifier, b) ==> Stamp(a) == Stamp(b)
  {
    var pre := identifier + "_";
    assert FileName(identifier, a)[|pre|..|pre| + 19] == Stamp(a);
    assert FileName(identifier, b)[|pre|..|pre| + 19] == Stamp(b);
  }

  /** Saves of one identifier at different seconds keep both files. */
  lemma DifferentSecondsKeepBoth(dirs: Dirs, category: string, identifier: string,
                                 payload1: Json, t1: DateTime, savedAt1: DateTime,
                                 payload2: Json, t2: DateTime, savedAt2: DateTime)
    requires Valid(t1) && Valid(t2) && Truncate(t1) != Truncate(t2)
    ensures var first := Saved(dirs, category, identifier, payload1, t1, savedAt1);
      var second := Saved(first, category, identifier, payload2, t2, savedAt2);
      && ReadFile(second, FilePath(category, FileName(identifier, t1))) == Ok(payload1)
      && ReadFile(second, FilePath(category, FileName(identifier, t2))) == Ok(payload2)
  {
    StampInjective(t1, t2);
    var p1 := FilePath(category, FileName(identifier, t1));
    FileNameInjective(identifier, t1, t2);
    var first := Saved(dirs, category, identifier, payload1, t1, savedAt1);
    SaveThenLoad(dirs, category, identifier, payload1, t1, savedAt1);
    SaveKeepsOtherFiles(first, category, identifier, payload2, t2, savedAt2, p1);
  }

  // ---------------------------------------------------------------------------
  // Listing

  /** A category whose directory does not exist lists nothing. */
  lemma MissingCategoryListsNothing(dirs: Dirs, category: string, f: Filter)
    requires category !in dirs
    ensures Listing(dirs, category, f) == []
  {
    assert (set n | n in Dir(dirs, category) && Selected(dirs, category, f, n)) == {};
  }

  /** The stem of a name `save_raw_data` writes is the identifier, `_` and the stamp. */
  lemma StemOfFileName(identifier: string, t: DateTime)
    ensures Stem(FileName(identifier, t)) == identifier + "_" + Stamp(t)
  {
    var name := FileName(identifier, t);
    assert name == (identifier + "_" + Stamp(t)) + ".json";
    assert name[|name| - 5..] == ".json";
  }

  /** For an identifier without `_`, the time read back from the name is the time written, to the second. */
  lemma OwnFileTime(identifier: string, t: DateTime)
    requires '_' !in identifier && Valid(t)
    ensures TimeOf(FileName(identifier, t)) == Some(Truncate(t))
  {
    StemOfFileName(identifier, t);
    SplitFirstOf(identifier, '_', Stamp(t), {'_'});
    ParseStampRoundTrip(t);
  }

  /**
   * An identifier containing `_` splits in the wrong place, so its files never
   * parse: every date bound drops them.
   */
  lemma UnderscoreIdentifierNeverParses(identifier: string, t: DateTime)
    requires '_' in identifier
    ensures TimeOf(FileName(identifier, t)).None?
    ensures forall start: Option<DateTime>, end: Option<DateTime> :: start.Some? || end.Some? ==> !DatePasses(FileName(identifier, t), start, end)
  {
    StemOfFileName(identifier, t);
    var stem := identifier + "_" + Stamp(t);
    assert stem[|identifier|] == '_';
    var parts := SplitFirst(stem, {'_'}).value;
    assert |parts.0| < |identifier| by {
      var i :| 0 <= i < |identifier| && identifier[i] == '_';
      assert stem[i] == '_';
    }
    assert parts.1[|identifier| - |parts.0| - 1] == stem[|identifier|];
    UnderscoreNeverParses(parts.1);
  }

  /**
   * The identifier filter is a prefix test, so it also admits identifiers that
   * extend the one asked for after an underscore ("Sunday" admits "Sunday_River").
   */
  lemma IdentifierPrefixCollision(identifier: string, rest: string, t: DateTime)
    requires identifier != ""
    ensures IdentifierPasses(FileName(identifier + "_" + rest, t), Some(identifier))
  {
    var name := FileName(identifier + "_" + rest, t);
    assert name == (identifier + "_") + (rest + "_" + Stamp(t) + ".json");
  }

  /** The identifier filter keeps only names starting with the identifier and `_`. */
  lemma IdentifierFilterPrefix(dirs: Dirs, category: string, f: Filter, name: string)
    requires f.identifier.Some? && f.identifier.value != ""
    requires name in Listing(dirs, category, f)
    ensures StartsWith(name, f.identifier.value + "_")
  {
  }

  /** For an underscore-free identifier's own files, the date filter is the inclusive range on the logical time. */
  lemma OwnFileDateFilter(identifier: string, t: DateTime, start: Option<DateTime>, end: Option<DateTime>)
    requires '_' !in identifier && Valid(t)
    ensures DatePasses(FileName(identifier, t), start, end) <==>
      (start.None? || !Before(Truncate(t), start.value)) && (end.None? || !Before(end.value, Truncate(t)))
  {
    OwnFileTime(identifier, t);
  }

  /**
   * A ".json" name whose time does not parse is listed when no date bound is
   * given and dropped whenever one is.
   */
  lemma GarbageName(dirs: Dirs, category: string, n: string)
    requires n in Dir(dirs, category) && EndsWith(n, ".json") && TimeOf(n).None?
    ensures Selected(dirs, category, Filter(None, None, None), n)
    ensures forall start: Option<DateTime>, end: Option<DateTime> :: start.Some? || end.Some? ==>
              !Selected(dirs, category, Filter(None, start, end), n)
  {
  }

  /** A name without an underscore, such as "garbage.json", has no time to parse. */
  lemma GarbageHasNoTime(n: string)
    requires '_' !in n
    ensures TimeOf(n).None?
  {
    assert forall c :: c in Stem(n) ==> c in n;
  }

  /** For one identifier, file-name order is logical-time order, to the second. */
  lemma FileNameOrder(identifier: string, a: DateTime, b: DateTime)
    requires Valid(a) && Valid(b)
    ensures Lt(FileName(identifier, a), FileName(identifier, b)) <==> Before(Truncate(a), Truncate(b))
  {
    var pre := identifier + "_";
    assert FileName(identifier, a) == pre + (Stamp(a) + ".json");
    assert FileName(identifier, b) == pre + (Stamp(b) + ".json");
    LtCommonPrefix(pre, Stamp(a) + ".json", Stamp(b) + ".json");
    LtAppend(Stamp(a), Stamp(b), ".json", ".json");
    LtIrreflexive(".json");
    StampOrder(a, b);
  }

  /**
   * A descending listing of one identifier's own files is newest first: each
   * file's logical time is later than that of every file after it.
   */
  lemma NewestFirst(names: seq<string>, identifier: string, times: seq<DateTime>)
    requires Sorted(names, true) && |times| == |names|
    requires forall i :: 0 <= i < |names| ==> Valid(times[i]) && names[i] == FileName(identifier, times[i])
    ensures forall i, j :: 0 <= i < j < |names| ==> Before(Truncate(times[j]), Truncate(times[i]))
  {
    forall i, j | 0 <= i < j < |names| ensures Before(Truncate(times[j]), Truncate(times[i])) {
      FileNameOrder(identifier, times[j], times[i]);
    }
  }

  // ---------------------------------------------------------------------------
  // The store

  class Store {
    /** DATALAKE_ROOT */
    const root: string
    var dirs: Dirs

    constructor (root: string)
      ensures this.root == root && dirs == map[]
    {
      this.root := root;
      dirs := map[];
    }

    /**
     * `save_raw_data`. `now` and `savedAt` are the two readings of the clock:
     * the default logical time and the envelope's saved_at.
     */
    method SaveRawData(category: string, payload: Json, identifier: string,
                       timestamp: Option<DateTime>, now: DateTime, savedAt: DateTime)
      returns (path: FilePath)
      modifies this
      ensures var t := if timestamp.Some? then timestamp.value else now;
        && path == FilePath(category, FileName(identifier, t))
        && PathText(root, path) == root + "/" + category + "/" + identifier + "_" + Stamp(t) + ".json"
        && dirs == Saved(old(dirs), category, identifier, payload, t, savedAt)
    {
      var t := if timestamp.Some? then timestamp.value else now;
      var dir := if category in dirs then dirs[category] else map[];
      var filename := FileName(identifier, t);
      path := FilePath(category, filename);
      var withMetadata := Envelope(category, identifier, payload, t, savedAt);
      dirs := dirs[category := dir[filename := JsonFile(withMetadata)]];
      SavedPathText(root, category, identifier, t);
    }

    /** `load_raw_data` */
    function LoadRawData(path: FilePath): (r: Result<Json, ReadError>)
      reads this
      ensures r.Ok? ==> path.name in Dir(dirs, path.category)
    {
      ReadFile(dirs, path)
    }

    /**
     * `list_raw_files`: the category's ".json" files that pass the identifier
     * and date filters, in descending order of file name.
     */
    method ListRawFiles(category: string, identifier: Option<string>,
                        startDate: Option<DateTime>, endDate: Option<DateTime>)
      returns (files: seq<FilePath>)
      ensures |files| == |Listing(dirs, category, Filter(identifier, startDate, endDate))|
      ensures forall i :: 0 <= i < |files| ==>
        files[i] == FilePath(category, Listing(dirs, category, Filter(identifier, startDate, endDate))[i])
      ensures forall i, j :: 0 <= i < j < |files| ==> Lt(files[j].name, files[i].name)
      ensures forall n :: (exists i :: 0 <= i < |files| && files[i].name == n) <==>
        Selected(dirs, category, Filter(identifier, startDate, endDate), n)
    {
      var names := ListNames(category, identifier, startDate, endDate);
      files := seq(|names|, i requires 0 <= i < |names| => FilePath(category, names[i]));
      forall n ensures (exists i :: 0 <= i < |files| && files[i].name == n) <==> n in names {
        if n in names {
          var i :| 0 <= i < |names| && names[i] == n;
          assert files[i].name == n;
        }
      }
    }

    method ListNames(category: string, identifier: Option<string>,
                     startDate: Option<DateTime>, endDate: Option<DateTime>)
      returns (names: seq<string>)
      ensures names == Listing(dirs, category, Filter(identifier, startDate, endDate))
      ensures Sorted(names, true)
      ensures forall n :: n in names <==> Selected(dirs, category, Filter(identifier, startDate, endDate), n)
    {
      var f := Filter(identifier, startDate, endDate);
      if category !in dirs {
        names := [];
        assert (set n | n in Dir(dirs, category) && Selected(dirs, category, f, n)) == {};
        return;
      }
      var dir := dirs[category];

      // category_dir.glob("*.json"), in whatever order the directory yields
      var all := Glob(dir);

      if identifier.Some? && identifier.value != "" {
        var prefix := identifier.value + "_";
        all := Keep(all, n => StartsWith(n, prefix));
      }
      assert Distinct(all);
      assert forall n :: n in all <==> n in dir && EndsWith(n, ".json") && IdentifierPasses(n, identifier);

      if startDate.Some? || endDate.Some? {
        all := Keep(all, n => DatePasses(n, startDate, endDate));
      }
      assert Distinct(all);
      assert forall n :: n in all <==> Selected(dirs, category, f, n);

      names := Sort(all, true);
      assert forall n :: n in names <==> n in multiset(names);
      ListingIs(dirs, category, f, names);
    }

    /** `glob("*.json")` over one directory: its ".json" names, each once, in no particular order. */
    static method Glob(dir: map<string, FileBody>) returns (all: seq<string>)
      ensures Distinct(all)
      ensures forall n :: n in all <==> n in dir && EndsWith(n, ".json")
    {
      all := [];
      var pending := dir.Keys;
      while pending != {}
        invariant pending <= dir.Keys
        invariant Distinct(all)
        invariant forall n :: n in all <==> n in dir && n !in pending && EndsWith(n, ".json")
        decreases |pending|
      {
        var n :| n in pending;
        if EndsWith(n, ".json") {
          all := all + [n];
        }
        pending := pending - {n};
      }
    }

    /**
     * The two filtering passes of `list_raw_files` (the identifier prefix test
     * and the date-range loop): the names that pass `keep`.
     */
    static method Keep(all: seq<string>, keep: string -> bool) returns (kept: seq<string>)
      requires Distinct(all)
      ensures Distinct(kept)
      ensures forall n :: n in kept <==> n in all && keep(n)
    {
      kept := [];
      var k := 0;
      while k < |all|
        invariant 0 <= k <= |all|
        invariant Distinct(kept)
        invariant forall n :: n in kept <==> n in all[..k] && keep(n)
      {
        assert all[k] !in all[..k];
        if keep(all[k]) {
          kept := kept + [all[k]];
        }
        assert all[..k + 1] == all[..k] + [all[k]];
        k := k + 1;
      }
      assert all[..k] == all;
    }

    /** `get_latest_raw_file`: the first name of the identifier's listing, if any. */
    method GetLatestRawFile(category: string, identifier: string) returns (latest: Option<FilePath>)
      ensures latest.None? <==> forall n :: !Selected(dirs, category, Filter(Some(identifier), None, None), n)
      ensures latest.Some? ==>
        && latest.value.category == category
        && Selected(dirs, category, Filter(Some(identifier), None, None), latest.value.name)
        && forall n :: Selected(dirs, category, Filter(Some(identifier), None, None), n) && n != latest.value.name
             ==> Lt(n, latest.value.name)
    {
      var files := ListRawFiles(category, Some(identifier), None, None);
      if |files| > 0 {
        latest := Some(files[0]);
        forall n | Selected(dirs, category, Filter(Some(identifier), None, None), n) && n != files[0].name
          ensures Lt(n, files[0].name)
        {
          var i :| 0 <= i < |files| && files[i].name == n;
        }
      } else {
        latest := None;
      }
    }

    /** The files of a category in the order the bronze loader reads them. */
    method ReadCategory(category: string) returns (bodies: seq<FileBody>)
      ensures bodies == Batch(dirs, category)
    {
      var dir := Dir(dirs, category);
      var all := Glob(dir);
      var names := Sort(all, false);
      assert forall n :: n in names <==> n in multiset(names);
      BatchOf(dirs, category, names);
      bodies := Contents(dir, names);
    }
  }
}
