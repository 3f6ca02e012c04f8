# Ski-resort weather pipeline: landing store, bronze loader, hash keys, resort lookup

This project is a Dafny model of the sequential core of a small weather data
pipeline for ski resorts. The pipeline fetches forecasts and observations from
the US National Weather Service, lands the raw JSON in a file-based data lake,
and flattens it into DuckDB "bronze" tables. The model covers four parts:

- **The landing store** (`backend/datalake/writer.py`), module `LandingStore`.
  A `Store` class holds the data lake as a map from category to a directory,
  and each directory maps file names to file contents.
  - `save_raw_data` writes `<identifier>_<%Y-%m-%dT%H-%M-%S>.json` inside a
    metadata envelope.
  - `load_raw_data` unwraps that envelope again.
  - `list_raw_files` globs, filters by identifier prefix, filters by an
    inclusive date range, and sorts in descending order.
  - `get_latest_raw_file` takes the head of that listing.

  Module `Timestamps` models the `datetime` formatting and parsing the store
  relies on: `strftime`, `strptime` and `isoformat`.
- **The bronze flattening** (`backend/db/bronze_loader.py`).
  - Module `BronzeMapping` models each of the seven `INSERT ... SELECT ...
    FROM read_json(...)` statements as a pure function. The function maps
    the landed files of one category to the rows the statement inserts. It
    spells out the DuckDB semantics involved:
    - a missing path gives NULL;
    - 1-based list access gives NULL out of range;
    - `UNNEST` of an empty list gives no rows;
    - a failing `::TIMESTAMP` cast or a file that is not a JSON object aborts
      the whole statement.
  - Module `BronzeLoad` holds the tables as a `BronzeSink` class with append,
    clear and count. It models `load_all_raw_data` as a loop over the seven
    loaders with per-loader failure isolation, and models the script's
    clear-then-load entry point.
- **The Data Vault hash key** (`backend/db/utils.py`), module `HashKey`. The
  key joins the `str()` of each value with `|` and encodes the joined text as
  UTF-8. It then writes the MD5 digest as lowercase hex. MD5 is a parameter.
- **The resort lookup** (`backend/config.py`), module `ResortConfig`. This is
  a case-insensitive first-match linear search that raises when no resort
  matches.

Modules `Wrappers` (Option and Result), `Text` (string order, prefixes,
decimal digits, ASCII lowercase, sorting) and `JsonValue` (the JSON tree) are
shared support.

## Model

| member | source | states |
|---|---|---|
| LandingStore.Store.constructor | backend/datalake/writer.py:15 | A store over root `root` (DATALAKE_ROOT) starts with no directories. |
| LandingStore.SavedPathText | backend/datalake/writer.py:48-54 | The saved path is `root/category/identifier_STAMP.json`. |
| LandingStore.Store.SaveRawData | backend/datalake/writer.py:18-71 | The time used is the given timestamp, or `now` when it is absent. The returned path is `root/category/identifier_strftime(t).json`. The new state is the old one with that one file written or overwritten, holding the envelope `{metadata: {saved_at, category, identifier, timestamp}, data: payload}`. The category directory is created if missing. |
| LandingStore.ReadFile | backend/datalake/writer.py:74-87 | A missing file gives FileNotFound, and only then. A body that is not JSON gives a decode error, and only then. A success means the file holds a JSON object. |
| LandingStore.Store.LoadRawData | backend/datalake/writer.py:74-87 | `load_raw_data` on the store's current directories; on success the file exists. |
| LandingStore.SaveThenLoad | backend/datalake/writer.py:57-69 | Reading back a saved file returns exactly the payload. |
| LandingStore.LoadWithoutEnvelope | backend/datalake/writer.py:87 | A JSON object without a "data" member is returned whole. |
| LandingStore.SaveKeepsOtherFiles | backend/datalake/writer.py:68-69 | A save leaves what every other path reads unchanged. |
| LandingStore.SaveFileCount | backend/datalake/writer.py:52-54 | The category grows by one file, unless a file of that name already exists, in which case it keeps its size. |
| LandingStore.SameSecondOverwrites | backend/datalake/writer.py:52-54 | Two saves of one identifier in the same second target the same name. The file count does not grow, and the second payload is what reads back. |
| LandingStore.FileNameInjective | backend/datalake/writer.py:53 | For one identifier, equal file names mean equal stamps. |
| LandingStore.DifferentSecondsKeepBoth | backend/datalake/writer.py:52-54 | Saves of one identifier at different seconds keep both payloads readable. |
| LandingStore.ListingIs | backend/datalake/writer.py:121-151 | A descending-sorted sequence holding exactly the selected names is the listing; the listing is therefore unique. |
| LandingStore.JsonNamesAre | backend/db/bronze_loader.py:32 | An ascending-sorted sequence of exactly a category's ".json" names is unique. |
| LandingStore.BatchOf | backend/db/bronze_loader.py:63 | The files such a sequence names are the category's batch that `read_json` reads. |
| LandingStore.Store.ListNames | backend/datalake/writer.py:115-151 | The names returned are exactly those that exist, end in ".json", pass the identifier test and pass the date test. They are sorted in descending order and equal the `Listing` specification. |
| LandingStore.Store.ListRawFiles | backend/datalake/writer.py:90-153 | Path i of the result is the category joined with name i of the listing. The names strictly decrease. A name is returned if and only if it is selected. |
| LandingStore.Store.Glob | backend/datalake/writer.py:121 | The result holds each ".json" name of the directory exactly once, and no other name. |
| LandingStore.Store.Keep | backend/datalake/writer.py:124-148 | The kept names are exactly the input names that pass the test, each once. |
| LandingStore.Store.GetLatestRawFile | backend/datalake/writer.py:156-168 | The result is None exactly when no name passes the identifier filter. Otherwise it is a selected name of the category that is greater than every other selected name, which is the head of the descending listing. |
| LandingStore.Store.ReadCategory | backend/db/bronze_loader.py:32 | The files of a category in the order the loader reads them: ascending name order. |
| LandingStore.MissingCategoryListsNothing | backend/datalake/writer.py:117-118 | A category without a directory lists nothing. |
| LandingStore.StemOfFileName | backend/datalake/writer.py:134 | The stem of a saved name is `identifier_STAMP`. |
| LandingStore.OwnFileTime | backend/datalake/writer.py:134-135 | For an identifier without `_`, the time parsed from its own file name is the save time truncated to the second. |
| LandingStore.UnderscoreIdentifierNeverParses | backend/datalake/writer.py:134-146 | For an identifier containing `_`, the split happens in the wrong place, so the name never parses. Any date bound then drops its files. |
| LandingStore.IdentifierPrefixCollision | backend/datalake/writer.py:124-125 | The identifier filter "Sunday" admits the files of "Sunday_River". |
| LandingStore.IdentifierFilterPrefix | backend/datalake/writer.py:124-125 | With a non-empty identifier, every listed name starts with `identifier_`. |
| LandingStore.OwnFileDateFilter | backend/datalake/writer.py:128-148 | For an underscore-free identifier's own files, the date filter is exactly `start <= t <= end` on the truncated time, each bound optional. |
| LandingStore.GarbageName | backend/datalake/writer.py:128-148 | Any ".json" name whose time does not parse is listed when no date bound is given, and dropped under every start or end bound. |
| LandingStore.GarbageHasNoTime | backend/datalake/writer.py:134 | A name without `_`, such as "garbage.json", has no time part: `split('_', 1)[1]` raises IndexError. |
| LandingStore.FileNameOrder | backend/datalake/writer.py:52-53 | For one identifier, string order of file names is time order to the second, in both directions. |
| LandingStore.NewestFirst | backend/datalake/writer.py:151 | A descending listing of one identifier's own files is strictly newest first by logical time. |
| Timestamps.Stamp | backend/datalake/writer.py:52 | `strftime("%Y-%m-%dT%H-%M-%S")` is always 19 characters. |
| Timestamps.IsoFormat | backend/datalake/writer.py:59-62 | `isoformat()` is 19 characters, or 26 when microseconds are present. |
| Timestamps.ParseStamp | backend/datalake/writer.py:135 | A successful `strptime` yields a valid datetime without microseconds. |
| Timestamps.UnderscoreNeverParses | backend/datalake/writer.py:135 | No text containing `_` parses. |
| Timestamps.ParseStampRoundTrip | backend/datalake/writer.py:135 | Parsing what strftime wrote gives the datetime truncated to the second. |
| Timestamps.StampOrder | backend/datalake/writer.py:52 | Two stamps compare as strings exactly as their datetimes compare, to the second. |
| Timestamps.StampInjective | backend/datalake/writer.py:52 | Equal stamps if and only if the same second. |
| Text.Sort | backend/datalake/writer.py:151 | The result is sorted (descending when asked) and a permutation of the input. |
| BronzeMapping.CastTimestamp | backend/db/bronze_loader.py:37 | `::TIMESTAMP` maps NULL to NULL and a string to the cast's result. It fails exactly on a rejected string or a non-string. |
| BronzeMapping.TrailingSegment | backend/db/bronze_loader.py:187 | `REGEXP_EXTRACT(s, '[^/]+$')` has no `/` and is a suffix of s. When shorter than s, it is preceded by `/`. |
| BronzeMapping.Lineage | backend/db/bronze_loader.py:37-40 | The lineage is four columns. |
| BronzeMapping.PointsRow | backend/db/bronze_loader.py:34-65 | A points row exists exactly when the lineage casts succeed. It has 26 columns and starts with the file's lineage. |
| BronzeMapping.PeriodRow | backend/db/bronze_loader.py:78-112 | A forecast-period row has 29 columns and starts with the lineage. |
| BronzeMapping.ForecastRows | backend/db/bronze_loader.py:78-112 | One row per element of `data.properties.periods`, each shaped as a period row. No periods gives no rows and no error. |
| BronzeMapping.ObservationHeader | backend/db/bronze_loader.py:184-194 | The station id column is the trailing segment of the station URL, and it is followed by the observation time. |
| BronzeMapping.ObservationRow | backend/db/bronze_loader.py:177-231 | An observation row has 49 columns and starts with the lineage. |
| BronzeMapping.StationRow | backend/db/bronze_loader.py:244-267 | A station row exists exactly when the lineage casts succeed. It has 17 columns and starts with the lineage. |
| BronzeMapping.StationRows | backend/db/bronze_loader.py:244-267 | One row per element of `data.features`. No features gives no rows. |
| BronzeMapping.ZoneRow | backend/db/bronze_loader.py:281-306 | A zone row has 19 columns and starts with the lineage. |
| BronzeMapping.ZoneRows | backend/db/bronze_loader.py:281-306 | One row per element of `data.features`. No features gives no rows. |
| BronzeMapping.GridDataRow | backend/db/bronze_loader.py:320-361 | A grid-data row has 35 columns and starts with the lineage. |
| BronzeMapping.GridDataLayout | backend/db/bronze_loader.py:332-358 | Counting from 0, column 8 is the cast update time, and column 14+k holds forecast layer k copied whole as one value, so its series is not expanded. |
| BronzeMapping.DocumentRows | backend/db/bronze_loader.py:34-361 | The rows of one document for any table: as many as its expansion, each of the table's arity, each starting with the document's lineage. |
| BronzeMapping.MapResult | backend/db/bronze_loader.py:63 | Mapping every file succeeds exactly when each file does, and keeps order and length. |
| BronzeMapping.LoadRows | backend/db/bronze_loader.py:63 | A category with no files raises (the glob matches nothing). |
| BronzeMapping.AtMissing | backend/db/bronze_loader.py:41-62 | A missing intermediate struct gives NULL along every longer path, never an error. |
| BronzeMapping.AtAppend | backend/db/bronze_loader.py:41-62 | A dotted path can be followed in two steps. |
| BronzeMapping.ObservationLayout | backend/db/bronze_loader.py:180-228 | Counting from 0, column 7 of an observation row is the station id, column 8 the observation time, and columns 15-48 the quantity pairs. |
| BronzeMapping.PeriodRowsShape | backend/db/bronze_loader.py:82-112 | Row i of a forecast document is the lineage, then the document-level columns (generatedAt, updateTime, units, forecastGenerator, elevation), then period i's columns. The first ten columns are identical on every row. |
| BronzeMapping.EmptyListNoRows | backend/db/bronze_loader.py:111-112 | A document whose unnested list is empty or absent contributes no row, and raises no error. |
| BronzeMapping.LandedZoneFeatureNoRows | backend/datalake/writer.py:277-283 | A zone landed as a single Feature without `features` contributes no row to bronze_zones. |
| BronzeMapping.SavedLineage | backend/db/bronze_loader.py:37-40 | For a file the writer saved, the lineage columns are its saved_at, category, identifier and timestamp, given a cast that reads isoformat back. |
| BronzeMapping.QuantityPair | backend/db/bronze_loader.py:195-228 | Quantity k occupies columns 2k (value) and 2k+1 (unitCode). |
| BronzeMapping.MissingQuantity | backend/db/bronze_loader.py:195-228 | A missing quantity gives NULL in both of its columns. |
| BronzeMapping.CoordinateColumns | backend/db/bronze_loader.py:60-62 | Column k is coordinates element k+1 (1-based), and NULL past the end. |
| BronzeMapping.StationIdOfUrl | backend/db/bronze_loader.py:187 | The station id of `.../ID` is `ID`. |
| BronzeMapping.DocumentsRowsCount | backend/db/bronze_loader.py:111-112 | The rows of several documents number the sum of their expansions. |
| BronzeMapping.DocumentsRowOrigin | backend/db/bronze_loader.py:37-40 | The k-th row of document i sits right after the rows of the documents before it, has the table's arity, and carries the lineage of document i itself. |
| BronzeMapping.DocumentsRowsSplit | backend/db/bronze_loader.py:34-40 | The rows of several documents are the rows of those before document i, then its own rows, then the rows of those after it. |
| BronzeMapping.LoadRowsOrigin | backend/db/bronze_loader.py:37-40 | When a statement succeeds, the k-th row of landed file i sits after the rows of the files before it and carries that file's own lineage. |
| BronzeMapping.BadFileFailsCategory | backend/db/bronze_loader.py:63 | One landed file that is not a JSON object makes its whole category's statement fail. |
| BronzeMapping.LoadRowsShape | backend/db/bronze_loader.py:34-361 | A successful statement inserts the expected number of rows. Each has the table's arity and starts with the lineage of one of the landed files. |
| BronzeMapping.OneRowPerFile | backend/db/bronze_loader.py:34-63 | points, observations and grid_data insert exactly one row per landed file. |
| BronzeLoad.Position | backend/db/bronze_loader.py:375-383 | Every table has a place in the loader order. |
| BronzeLoad.LoaderOrderDistinct | backend/db/bronze_loader.py:375-383 | Each table appears once in the loader order. |
| BronzeLoad.LoadersConform | backend/db/bronze_loader.py:34-361 | Every row the seven statements insert has the declared width of its table. |
| BronzeLoad.AppendedRowsShape | backend/db/bronze_loader.py:386-393 | Every appended row has its table's arity. A non-empty append is exactly the expected rows of the category's files. |
| BronzeLoad.LoadedStep | backend/db/bronze_loader.py:386-390 | One loader step extends the loop invariant by one table. |
| BronzeLoad.BronzeSink.constructor | backend/db/bronze_loader.py:13-22 | A fresh schema has seven empty tables. |
| BronzeLoad.BronzeSink.Append | backend/db/bronze_loader.py:34-35 | INSERT appends after the existing rows of one table. The count grows by the number of rows, and nothing else changes. |
| BronzeLoad.BronzeSink.Clear | backend/db/bronze_loader.py:404-410 | DELETE empties one table and nothing else. |
| BronzeLoad.BronzeSink.ClearAll | backend/db/bronze_loader.py:404-410 | All seven tables are empty afterwards. |
| BronzeLoad.BronzeSink.RunLoader | backend/db/bronze_loader.py:389 | A loader succeeds exactly when its statement over the category's files does. It returns the number of rows appended, and it appends nothing when it fails. |
| BronzeLoad.BronzeSink.TryLoader | backend/db/bronze_loader.py:388-393 | A loader that raises counts 0 and changes nothing. Otherwise its rows go to its table. |
| BronzeLoad.BronzeSink.RunLoaders | backend/db/bronze_loader.py:385-396 | After the loop, every table has grown by exactly its own loader's rows, and the total is the sum of the successful loaders' counts. |
| BronzeLoad.BronzeSink.LoadAllRawData | backend/db/bronze_loader.py:366-396 | The seven loaders run in order; a raising loader adds 0 and does not stop the others. The total is the sum of the row counts, and each table grows by its loader's rows only. |
| BronzeLoad.BronzeSink.Reload | backend/db/bronze_loader.py:399-415 | The script reads the store rooted at "datalake/raw", since it passes no `raw_dir`. After clear-then-load, each table holds exactly what its loader reads from that store. |
| HashKey.Decimal | backend/db/utils.py:25 | `str(n)` is a non-empty digit string with no leading zero. |
| HashKey.DecimalValue | backend/db/utils.py:25 | The digits of `str(n)` denote n. |
| HashKey.StrOfNonString | backend/db/utils.py:25 | Only a string value can contain the delimiter. |
| HashKey.Split | backend/db/utils.py:25 | Splitting on `|` gives at least one piece, and no piece contains `|`. |
| HashKey.JoinSplit | backend/db/utils.py:25 | Joining the pieces of a split gives back the text. |
| HashKey.SplitJoin | backend/db/utils.py:25 | Splitting a join of delimiter-free pieces gives back the pieces. |
| HashKey.Utf8 | backend/db/utils.py:28 | `encode()` takes 1 to 4 bytes per character. |
| HashKey.Utf8Ascii | backend/db/utils.py:28 | ASCII text encodes to its code points, one byte each. |
| HashKey.EncodeCharDecodes | backend/db/utils.py:28 | The lead byte of a character's encoding gives its length, and the bytes carry its code point. |
| HashKey.DecodeUtf8 | backend/db/utils.py:28 | Decoding the UTF-8 of any text gives back the text. |
| HashKey.Utf8Injective | backend/db/utils.py:28 | Two texts have the same UTF-8 bytes if and only if they are equal. |
| HashKey.Hex | backend/db/utils.py:28 | `hexdigest()` gives two lowercase hex digits per byte. |
| HashKey.UnhexHex | backend/db/utils.py:28 | The hex text decodes back to the digest. |
| HashKey.GenerateHashKey | backend/db/utils.py:8-28 | The key is 32 lowercase hex characters. |
| HashKey.KeyIsDigest | backend/db/utils.py:25-28 | The key decodes to the MD5 of the UTF-8 of the combined string, so it depends on the ordered inputs only through that string, and the same ordered inputs always give the same key. |
| HashKey.CombinedOfFew | backend/db/utils.py:25 | One value combines to its `str()` with no delimiter; no values combine to "". |
| HashKey.CombinedRecoversValues | backend/db/utils.py:25 | When no value's `str()` contains `|`, the combined string lists the `str()` forms in order. |
| HashKey.CombinedInjective | backend/db/utils.py:25 | Under that condition, equal combined strings mean equal `str()` forms, argument for argument. |
| HashKey.DelimiterCollision | backend/db/utils.py:25 | ("a\|b") and ("a", "b") share a key. |
| HashKey.EmptyCollision | backend/db/utils.py:25 | () and ("") share a key. |
| HashKey.TypeCollision | backend/db/utils.py:25 | (1) and ("1") share a key. |
| ResortConfig.GetResortByName | backend/config.py:57-62 | On success, the result is the resort at the first index whose name equals the query case-insensitively. The error is raised if and only if no name matches, and it carries the query. It agrees with `FirstMatch`, the recursive first-match definition. The config is a value and is not changed. |
| ResortConfig.LowerIdempotent | backend/config.py:60 | ASCII lowercasing is idempotent. |
| ResortConfig.LowercasedQuery | backend/config.py:60 | A query and its lowercased form match the same resorts and give the same first match. |
| ResortConfig.FirstMatchIgnoresCase | backend/config.py:59-61 | Two queries equal ignoring case find the same first resort, or both find none. |

## Left out

- Timestamps.Stamp: years below 1000 are written zero-padded to four digits. The C library's `%Y` does not pad them, but such years never occur in this pipeline.
- Lowercasing and digits are ASCII only. Python's Unicode `str.lower` and Unicode decimal digits in `strptime` are not modelled.
- Time-zone-aware datetimes are left out. Comparing an aware bound with a naive file time raises TypeError, which `list_raw_files` does not catch.
- Filesystem errors are left out: permission errors, a write that fails halfway, an identifier containing `/`, and `mkdir` as an operation of its own. Creating the directory is part of the single map update in `SaveRawData`.
- The clock is two parameters of `SaveRawData`: the default logical time and the envelope's `saved_at`.
- The environment lookup of `DATALAKE_PATH` is replaced by the `root` given to the store's constructor.
- JSON serialisation (`indent=2`, and `default=str` turning non-JSON values into strings) is left out. Payloads are JSON trees, and files hold a tree or non-JSON bytes.
- The order of `glob` is left unspecified. `Store.Glob` returns the names in no particular order, and the sort's algorithm is not Python's Timsort; only its result is specified.
- DuckDB's schema inference (`auto_detect`, `union_by_name`) and its type coercions are left out. Values are copied as JSON, and `::TIMESTAMP` is an opaque, possibly failing `cast` parameter.
- BronzeMapping.At: a struct access on a value that is not an object gives NULL by this model's convention. In DuckDB, a column not inferred as a STRUCT makes the binder reject the statement, which depends on the schema inference left out above.
- BronzeMapping.Record: a landed file whose top level is not a JSON object fails the statement. DuckDB's automatic format detection would read a top-level array as several records; that detection is not modelled.
- The order in which `read_json` reads a category's files is assumed to be ascending file name. The source does not fix it, and it affects only row order.
- BronzeMapping.LoadRows: errors carry no message. When several problems are present, a file that is not a JSON object is reported before a failing cast. DuckDB's own ordering of errors is not modelled.
- `RETURNING *` is represented by the rows inserted. Floating-point columns, such as coordinates and measured values, are only copied.
- BronzeLoad.BronzeSink.ClearAll: deletes in table order. The script deletes hourly, forecasts, points, observations, stations, zones, grid_data, which gives the same final state.
- `init_bronze_schema` and `get_connection` are modelled only as the sink's constructor, a fresh schema with seven empty tables. The schema file it runs is not part of this model, so the call that follows the deletes in the script is not modelled.
- BronzeLoad.BronzeSink.Reload: the writer roots files at `DATALAKE_PATH` (default "datalake/raw"), while the script's loaders always read "datalake/raw". With `DATALAKE_PATH` set elsewhere, they read a directory the writer did not fill. The model represents that as a different `Store`, and `Reload` requires the store rooted at "datalake/raw".
- `print` output and the error messages of caught exceptions are left out.
- HashKey.Str: covers strings, integers, booleans and None. `str()` of floats and other objects is left out.
- HashKey.Str and HashKey.Utf8: `str()` of an integer with more than 4300 digits raises ValueError under Python's default digit limit (3.11 and later), and `.encode('utf-8')` raises UnicodeEncodeError on a lone surrogate, which a Dafny `char` cannot hold. The model converts every integer and encodes every text.
- HashKey.GenerateHashKey: MD5 is a parameter, any function from bytes to sixteen bytes, so the model says nothing about collisions of MD5 itself.
- `load_resorts_config` (YAML parsing and file I/O) is not part of this model. The config is given as a value.
- `save_resort_data` and `collect_all_resorts` orchestrate HTTP calls with broad exception handling and are not part of this model. Only the shape of the zone document they land is used, in `LandedZoneFeatureNoRows`.
- The HTTP client, the DuckDB session helpers, the pydantic API models, the UIs and the smoke-test scripts are not part of this model.
