/**
 * The seven `INSERT INTO bronze_* SELECT ... FROM read_json(...)` statements of
 * backend/db/bronze_loader.py, as functions from the landed files of one
 * category to the rows the statement inserts (and returns with RETURNING *).
 *
 * DuckDB semantics made explicit here:
 *  - `a.b` on a missing key or on NULL gives NULL. This model extends that
 *    convention to a non-object, where DuckDB's binder would instead reject
 *    the statement for a column not inferred as a STRUCT; schema inference is
 *    not modelled;
 *  - `list[k]` is 1-based and gives NULL out of range;
 *  - `FROM t, UNNEST(list)` gives one row per element, none for an empty or NULL list;
 *  - `::TIMESTAMP` is an opaque cast that may fail, and a failure aborts the
 *    whole statement, so nothing of that category is inserted;
 *  - `read_json` over a glob that matches no file raises;
 *  - by this model's convention, a landed file whose top level is not a JSON
 *    object makes the statement fail. DuckDB's automatic format detection
 *    would read a top-level array as several records instead; that detection
 *    is not modelled.
 */
module BronzeMapping {

  import opened Wrappers
  import opened Text
  import opened Timestamps
  import opened JsonValue
  import LandingStore

  /** A column value: NULL, a value copied from the document, or a TIMESTAMP produced by a cast. */
  datatype Cell = Null | Val(v: Json) | Time(t: DateTime)

  type Row = seq<Cell>

  /** The bronze tables, in the order `load_all_raw_data` runs their loaders. */
  datatype Table = Points | Forecasts | Hourly | Observations | Stations | Zones | GridData

  /** The landing-store category each table is loaded from. */
  function Category(t: Table): string {
    match t
    case Points => "points"
    case Forecasts => "forecasts"
    case Hourly => "hourly"
    case Observations => "observations"
    case Stations => "stations"
    case Zones => "zones"
    case GridData => "grid_data"
  }

  /** Number of columns each statement selects. */
  function Arity(t: Table): nat {
    match t
    case Points => 26
    case Forecasts => 29
    case Hourly => 29
    case Observations => 49
    case Stations => 17
    case Zones => 19
    case GridData => 35
  }

  /** Why a loader's statement raises. */
  datatype LoadError =
    | NoFilesFound   // the glob matched no file
    | InvalidJson    // a file is not JSON
    | NotARecord     // a file's document is not an object
    | CastFailed     // a `::TIMESTAMP` cast rejected its input

  /** The `::TIMESTAMP` cast on strings; None where DuckDB raises a conversion error. */
  type Cast = string -> Option<DateTime>

  // ---------------------------------------------------------------------------
  // Navigating a document

  /** `j.key` */
  function Field(j: Json, key: string): Json {
    if j.JObject? && key in j.fields then j.fields[key] else JNull
  }

  /** `j.k1.k2...` */
  function At(j: Json, path: seq<string>): Json
    decreases |path|
  {
    if path == [] then j else At(Field(j, path[0]), path[1..])
  }

  /** Following a path in two steps is following it in one. */
  lemma {:induction false} AtAppend(j: Json, p: seq<string>, q: seq<string>)
    ensures At(j, p + q) == At(At(j, p), q)
    decreases |p|
  {
    if p == [] {
      assert p + q == q;
    } else {
      assert (p + q)[0] == p[0] && (p + q)[1..] == p[1..] + q;
      AtAppend(Field(j, p[0]), p[1..], q);
    }
  }

  lemma {:induction false} AtNull(q: seq<string>)
    ensures At(JNull, q) == JNull
    decreases |q|
  {
    if q != [] {
      AtNull(q[1..]);
    }
  }

  /** A missing intermediate node makes every longer path NULL, never an error. */
  lemma AtMissing(j: Json, p: seq<string>, q: seq<string>)
    requires At(j, p) == JNull
    ensures At(j, p + q) == JNull
  {
    AtAppend(j, p, q);
    AtNull(q);
  }

  /** `list[k]`: 1-based; NULL out of range or when not a list. */
  function Item(j: Json, k: int): Json {
    if j.JArray? && 1 <= k <= |j.items| then j.items[k - 1] else JNull
  }

  /** The rows `UNNEST(list)` produces: the list's elements; none for NULL. */
  function Unnest(j: Json): seq<Json> {
    if j.JArray? then j.items else []
  }

  /** A selected value as a column: JSON null is NULL. */
  function Column(j: Json): Cell {
    if j.JNull? then Null else Val(j)
  }

  /** `x::TIMESTAMP`: NULL stays NULL, a string goes through the cast, anything else fails. */
  function CastTimestamp(j: Json, cast: Cast): (r: Result<Cell, LoadError>)
    ensures j.JNull? ==> r == Ok(Null)
    ensures r.Ok? && !j.JNull? ==> j.JString? && cast(j.s).Some? && r.value == Time(cast(j.s).value)
    ensures r.Err? <==> !j.JNull? && (!j.JString? || cast(j.s).None?)
  {
    match j
    case JNull => Ok(Null)
    case JString(s) =>
      (match cast(s)
       case Some(t) => Ok(Time(t))
       case None => Err(CastFailed))
    case _ => Err(CastFailed)
  }

  /** `j.k1, j.k2, ...` */
  function Columns(j: Json, keys: seq<string>): (r: seq<Cell>)
    ensures |r| == |keys|
  {
    seq(|keys|, i requires 0 <= i < |keys| => Column(Field(j, keys[i])))
  }

  /** A `{value, unitCode}` sub-object `q` as the two columns `q.value, q.unitCode`. */
  function Quantity(q: Json): (r: seq<Cell>)
    ensures |r| == 2
  {
    [Column(Field(q, "value")), Column(Field(q, "unitCode"))]
  }

  /** The quantity columns of several named sub-objects of `j`, pair after pair. */
  function Quantities(j: Json, names: seq<string>): (r: seq<Cell>)
    ensures |r| == 2 * |names|
  {
    if names == [] then [] else Quantity(Field(j, names[0])) + Quantities(j, names[1..])
  }

  /** `geometry.coordinates[1], ..., [n]` */
  function Coordinates(geometry: Json, n: nat): (r: seq<Cell>)
    ensures |r| == n
  {
    seq(n, i requires 0 <= i < n => Column(Item(Field(geometry, "coordinates"), i + 1)))
  }

  /**
   * `REGEXP_EXTRACT(s, '[^/]+$')`: the run of non-`/` characters that ends the
   * string; the empty string when it ends with `/`.
   */
  function TrailingSegment(s: string): (r: string)
    ensures '/' !in r
    ensures EndsWith(s, r)
    ensures |r| < |s| ==> s[|s| - |r| - 1] == '/'
  {
    if s == [] || s[|s| - 1] == '/' then []
    else
      var r := TrailingSegment(s[..|s| - 1]) + [s[|s| - 1]];
      assert s[..|s| - 1][|s| - 1 - |r| + 1..] + [s[|s| - 1]] == s[|s| - |r|..];
      r
  }

  /** The station id column: the trailing segment of the station URL. */
  function StationId(station: Json): Cell {
    if station.JString? then Val(JString(TrailingSegment(station.s))) else Null
  }

  // ---------------------------------------------------------------------------
  // The lineage columns every row starts with

  /** `metadata.saved_at::TIMESTAMP, metadata.category, metadata.identifier, metadata.timestamp::TIMESTAMP` */
  function Lineage(doc: Json, cast: Cast): (r: Result<seq<Cell>, LoadError>)
    ensures r.Ok? ==> |r.value| == 4
  {
    var metadata := Field(doc, "metadata");
    var savedAt :- CastTimestamp(Field(metadata, "saved_at"), cast);
    var timestamp :- CastTimestamp(Field(metadata, "timestamp"), cast);
    Ok([savedAt, Column(Field(metadata, "category")), Column(Field(metadata, "identifier")), timestamp])
  }

  /** A row of table `t` read from `doc`: the table's arity, starting with the document's lineage. */
  predicate Shaped(t: Table, doc: Json, cast: Cast, row: Row) {
    Lineage(doc, cast).Ok? && |row| == Arity(t) && row[..4] == Lineage(doc, cast).value
  }

  // ---------------------------------------------------------------------------
  // The seven mappings

  const PointProperties: seq<string> := [
    "id", "type", "cwa", "forecastOffice", "gridId", "gridX", "gridY",
    "forecast", "forecastHourly", "forecastGridData", "observationStations",
    "forecastZone", "county", "fireWeatherZone", "timeZone", "radarStation",
    "city", "state"]

  /** The columns of a bronze_points row after its lineage. */
  function PointColumns(properties: Json, geometry: Json): (r: seq<Cell>)
    ensures |r| == 22
  {
    Columns(properties, PointProperties) + [Column(Field(geometry, "type"))] + Coordinates(geometry, 3)
  }

  /** load_points: one row per file. */
  function PointsRow(doc: Json, cast: Cast): (r: Result<Row, LoadError>)
    ensures r.Ok? <==> Lineage(doc, cast).Ok?
    ensures r.Ok? ==> Shaped(Points, doc, cast, r.value)
  {
    var lineage :- Lineage(doc, cast);
    Ok(lineage + PointColumns(At(doc, ["data", "properties"]), At(doc, ["data", "geometry"])))
  }

  /** The document-level columns of a forecast row: generatedAt, updateTime, units, forecastGenerator, elevation. */
  function ForecastHeader(doc: Json, cast: Cast): (r: Result<seq<Cell>, LoadError>)
    ensures r.Ok? ==> |r.value| == 6
  {
    var properties := At(doc, ["data", "properties"]);
    var generatedAt :- CastTimestamp(Field(properties, "generatedAt"), cast);
    var updateTime :- CastTimestamp(Field(properties, "updateTime"), cast);
    Ok([generatedAt, updateTime] + Columns(properties, ["units", "forecastGenerator"])
       + Quantity(Field(properties, "elevation")))
  }

  const PeriodText: seq<string> := [
    "isDaytime", "temperature", "temperatureUnit", "temperatureTrend", "windSpeed",
    "windDirection", "icon", "shortForecast", "detailedForecast"]

  const PeriodQuantities: seq<string> := ["probabilityOfPrecipitation", "dewpoint", "relativeHumidity"]

  /** The columns taken from one element of `data.properties.periods`. */
  function PeriodColumns(period: Json, cast: Cast): (r: Result<seq<Cell>, LoadError>)
    ensures r.Ok? ==> |r.value| == 19
  {
    var startTime :- CastTimestamp(Field(period, "startTime"), cast);
    var endTime :- CastTimestamp(Field(period, "endTime"), cast);
    Ok(Columns(period, ["number", "name"]) + [startTime, endTime]
       + Columns(period, PeriodText) + Quantities(period, PeriodQuantities))
  }

  /** One row of load_forecasts / load_hourly (the two statements are identical). */
  function PeriodRow(doc: Json, period: Json, cast: Cast): (r: Result<Row, LoadError>)
    ensures r.Ok? ==> Shaped(Forecasts, doc, cast, r.value)
  {
    var lineage :- Lineage(doc, cast);
    var header :- ForecastHeader(doc, cast);
    var columns :- PeriodColumns(period, cast);
    Ok(lineage + header + columns)
  }

  function Periods(doc: Json): seq<Json> {
    Unnest(At(doc, ["data", "properties", "periods"]))
  }

  /** load_forecasts / load_hourly: one row per period. */
  function ForecastRows(doc: Json, cast: Cast): (r: Result<seq<Row>, LoadError>)
    ensures Periods(doc) == [] ==> r == Ok([])
    ensures r.Ok? ==> |r.value| == |Periods(doc)| &&
                      forall i :: 0 <= i < |r.value| ==> Shaped(Forecasts, doc, cast, r.value[i])
  {
    MapResult(Periods(doc), (period: Json) => PeriodRow(doc, period, cast))
  }

  const ObservationQuantities: seq<string> := [
    "elevation", "temperature", "dewpoint", "heatIndex", "windChill",
    "maxTemperatureLast24Hours", "minTemperatureLast24Hours", "windDirection",
    "windSpeed", "windGust", "barometricPressure", "seaLevelPressure",
    "precipitationLastHour", "precipitationLast3Hours", "precipitationLast6Hours",
    "visibility", "relativeHumidity"]

  /**
   * The descriptive columns of a bronze_observations row: id, type, station,
   * the station id, the observation time, rawMessage, textDescription, icon,
   * the geometry type and the two coordinates.
   */
  function ObservationHeader(properties: Json, geometry: Json, timestamp: Cell): (r: seq<Cell>)
    ensures |r| == 11
    ensures r[3] == StationId(Field(properties, "station")) && r[4] == timestamp
  {
    Columns(properties, ["id", "type", "station"])
    + [StationId(Field(properties, "station")), timestamp]
    + Columns(properties, ["rawMessage", "textDescription", "icon"])
    + [Column(Field(geometry, "type"))] + Coordinates(geometry, 2)
  }

  /** The columns of a bronze_observations row after the lineage: the descriptive ones, then the quantity pairs. */
  function ObservationColumns(properties: Json, geometry: Json, timestamp: Cell): (r: seq<Cell>)
    ensures |r| == 45
  {
    ObservationHeader(properties, geometry, timestamp) + Quantities(properties, ObservationQuantities)
  }

  /** load_observations: one row per file. */
  function ObservationRow(doc: Json, cast: Cast): (r: Result<Row, LoadError>)
    ensures r.Ok? ==> Shaped(Observations, doc, cast, r.value)
  {
    var lineage :- Lineage(doc, cast);
    var properties := At(doc, ["data", "properties"]);
    var timestamp :- CastTimestamp(Field(properties, "timestamp"), cast);
    Ok(lineage + ObservationColumns(properties, At(doc, ["data", "geometry"]), timestamp))
  }

  function Features(doc: Json): seq<Json> {
    Unnest(At(doc, ["data", "features"]))
  }

  /** The columns a station feature contributes to its bronze_stations row. */
  function StationColumns(feature: Json): (r: seq<Cell>)
    ensures |r| == 13
  {
    var properties := Field(feature, "properties");
    var geometry := Field(feature, "geometry");
    Columns(properties, ["id", "type", "stationIdentifier", "name", "timeZone"])
    + [Column(Field(geometry, "type"))] + Coordinates(geometry, 2)
    + Quantity(Field(properties, "elevation"))
    + Columns(properties, ["forecast", "county", "fireWeatherZone"])
  }

  /** One row of load_stations. */
  function StationRow(doc: Json, feature: Json, cast: Cast): (r: Result<Row, LoadError>)
    ensures r.Ok? <==> Lineage(doc, cast).Ok?
    ensures r.Ok? ==> Shaped(Stations, doc, cast, r.value)
  {
    var lineage :- Lineage(doc, cast);
    Ok(lineage + StationColumns(feature))
  }

  /** load_stations: one row per feature. */
  function StationRows(doc: Json, cast: Cast): (r: Result<seq<Row>, LoadError>)
    ensures Features(doc) == [] ==> r == Ok([])
    ensures r.Ok? ==> |r.value| == |Features(doc)| &&
                      forall i :: 0 <= i < |r.value| ==> Shaped(Stations, doc, cast, r.value[i])
  {
    MapResult(Features(doc), (feature: Json) => StationRow(doc, feature, cast))
  }

  /** One row of load_zones. */
  function ZoneRow(doc: Json, feature: Json, cast: Cast): (r: Result<Row, LoadError>)
    ensures r.Ok? ==> Shaped(Zones, doc, cast, r.value)
  {
    var lineage :- Lineage(doc, cast);
    var properties := Field(feature, "properties");
    var geometry := Field(feature, "geometry");
    var effectiveDate :- CastTimestamp(Field(properties, "effectiveDate"), cast);
    var expirationDate :- CastTimestamp(Field(properties, "expirationDate"), cast);
    Ok(lineage + ZoneColumns(properties, geometry, effectiveDate, expirationDate))
  }

  /** The columns a zone feature contributes to its bronze_zones row. */
  function ZoneColumns(properties: Json, geometry: Json, effectiveDate: Cell, expirationDate: Cell): (r: seq<Cell>)
    ensures |r| == 15
  {
    Columns(properties, ["id", "type", "id_code", "type_code", "name", "state"])
    + [effectiveDate, expirationDate]
    + Columns(properties, ["cwa", "forecastOffices", "timeZone", "observationStations", "radarStation"])
    + Columns(geometry, ["type", "coordinates"])
  }

  /** load_zones: one row per feature. */
  function ZoneRows(doc: Json, cast: Cast): (r: Result<seq<Row>, LoadError>)
    ensures Features(doc) == [] ==> r == Ok([])
    ensures r.Ok? ==> |r.value| == |Features(doc)| &&
                      forall i :: 0 <= i < |r.value| ==> Shaped(Zones, doc, cast, r.value[i])
  {
    MapResult(Features(doc), (feature: Json) => ZoneRow(doc, feature, cast))
  }

  const GridLayers: seq<string> := [
    "temperature", "dewpoint", "maxTemperature", "minTemperature", "relativeHumidity",
    "apparentTemperature", "heatIndex", "windChill", "skyCover", "windDirection",
    "windSpeed", "windGust", "probabilityOfPrecipitation", "quantitativePrecipitation",
    "iceAccumulation", "snowfallAmount", "snowLevel", "ceilingHeight", "visibility",
    "weather", "hazards"]

  /** load_grid_data: one row per file; each layer is copied whole into its column. */
  function GridDataRow(doc: Json, cast: Cast): (r: Result<Row, LoadError>)
    ensures r.Ok? ==> Shaped(GridData, doc, cast, r.value)
  {
    var lineage :- Lineage(doc, cast);
    var properties := At(doc, ["data", "properties"]);
    var geometry := At(doc, ["data", "geometry"]);
    var updateTime :- CastTimestamp(Field(properties, "updateTime"), cast);
    Ok(lineage + GridColumns(properties, geometry, updateTime))
  }

  /** The columns of a bronze_grid_data row after its lineage. */
  function GridColumns(properties: Json, geometry: Json, updateTime: Cell): (r: seq<Cell>)
    ensures |r| == 31
    ensures r[4] == updateTime && r[10..] == Columns(properties, GridLayers)
  {
    Columns(properties, ["gridId", "gridX", "gridY", "forecastOffice"])
    + [updateTime] + Columns(properties, ["validTimes"])
    + Quantity(Field(properties, "elevation"))
    + Columns(geometry, ["type", "coordinates"])
    + Columns(properties, GridLayers)
  }

  function Single(r: Result<Row, LoadError>): (rows: Result<seq<Row>, LoadError>)
    ensures rows.Ok? <==> r.Ok?
    ensures rows.Ok? ==> rows.value == [r.value]
  {
    var row :- r;
    Ok([row])
  }

  /** The rows one landed document contributes to a table. */
  function DocumentRows(t: Table, doc: Json, cast: Cast): (r: Result<seq<Row>, LoadError>)
    ensures r.Ok? ==> RowsShaped(t, doc, cast, r.value)
  {
    match t
    case Points => Single(PointsRow(doc, cast))
    case Forecasts => ForecastRows(doc, cast)
    case Hourly => ForecastRows(doc, cast)
    case Observations => Single(ObservationRow(doc, cast))
    case Stations => StationRows(doc, cast)
    case Zones => ZoneRows(doc, cast)
    case GridData => Single(GridDataRow(doc, cast))
  }

  // ---------------------------------------------------------------------------
  // One statement over a category's files

  /** Applying a fallible mapping to each element; the first failure wins. */
  function MapResult<A, B>(xs: seq<A>, f: A -> Result<B, LoadError>): (r: Result<seq<B>, LoadError>)
    ensures r.Ok? <==> forall i :: 0 <= i < |xs| ==> f(xs[i]).Ok?
    ensures r.Ok? ==> |r.value| == |xs| && forall i :: 0 <= i < |xs| ==> r.value[i] == f(xs[i]).value
  {
    if xs == [] then Ok([])
    else
      var y :- f(xs[0]);
      var ys :- MapResult(xs[1..], f);
      assert forall i :: 1 <= i < |xs| ==> xs[i] == xs[1..][i - 1];
      Ok([y] + ys)
  }

  /** The rows of several documents, in order; the first failing document's error otherwise. */
  function DocumentsRows(docs: seq<Json>, rowsOf: Json -> Result<seq<Row>, LoadError>): Result<seq<Row>, LoadError> {
    if docs == [] then Ok([])
    else
      var rows :- rowsOf(docs[0]);
      var rest :- DocumentsRows(docs[1..], rowsOf);
      Ok(rows + rest)
  }

  /** What `read_json` makes of one file: its document, which must be a JSON object. */
  function Record(file: LandingStore.FileBody): Result<Json, LoadError> {
    match file
    case NotJson => Err(InvalidJson)
    case JsonFile(doc) => if doc.JObject? then Ok(doc) else Err(NotARecord)
  }

  /**
   * The rows one loader's `INSERT ... SELECT ... RETURNING *` produces from the
   * files of its category, or the error it raises.
   */
  function LoadRows(t: Table, files: seq<LandingStore.FileBody>, cast: Cast): (r: Result<seq<Row>, LoadError>)
    ensures files == [] ==> r == Err(NoFilesFound)
  {
    if files == [] then Err(NoFilesFound)
    else
      var docs :- MapResult(files, Record);
      DocumentsRows(docs, doc => DocumentRows(t, doc, cast))
  }

  // ---------------------------------------------------------------------------
  // Properties of the mappings

  /** How many rows a document contributes: one, or one per element of the unnested list. */
  function Expansion(t: Table, doc: Json): nat {
    match t
    case Points => 1
    case Observations => 1
    case GridData => 1
    case Forecasts => |Periods(doc)|
    case Hourly => |Periods(doc)|
    case Stations => |Features(doc)|
    case Zones => |Features(doc)|
  }

  /** The shape of the rows one document contributes to a table. */
  predicate RowsShaped(t: Table, doc: Json, cast: Cast, rows: seq<Row>) {
    |rows| == Expansion(t, doc) && forall k :: 0 <= k < |rows| ==> Shaped(t, doc, cast, rows[k])
  }

  lemma ObservationRowIs(doc: Json, cast: Cast)
    requires ObservationRow(doc, cast).Ok?
    ensures Lineage(doc, cast).Ok? && CastTimestamp(Field(At(doc, ["data", "properties"]), "timestamp"), cast).Ok?
    ensures ObservationRow(doc, cast).value
            == Lineage(doc, cast).value
               + (ObservationHeader(At(doc, ["data", "properties"]), At(doc, ["data", "geometry"]),
                                    CastTimestamp(Field(At(doc, ["data", "properties"]), "timestamp"), cast).value)
                  + Quantities(At(doc, ["data", "properties"]), ObservationQuantities))
  {
  }

  /**
   * load_forecasts and load_hourly: row i is the document-level columns
   * (lineage, generatedAt, updateTime, units, forecastGenerator, elevation)
   * followed by the columns of period i, so those first ten columns are the
   * same on every row of one document.
   */
  lemma PeriodRowsShape(doc: Json, cast: Cast)
    requires ForecastRows(doc, cast).Ok?
    ensures |ForecastRows(doc, cast).value| == |Periods(doc)|
    ensures Periods(doc) != [] ==> Lineage(doc, cast).Ok? && ForecastHeader(doc, cast).Ok?
    ensures forall i :: 0 <= i < |Periods(doc)| ==>
              PeriodColumns(Periods(doc)[i], cast).Ok? &&
              ForecastRows(doc, cast).value[i] ==
                Lineage(doc, cast).value + ForecastHeader(doc, cast).value + PeriodColumns(Periods(doc)[i], cast).value
  {
    var rows := ForecastRows(doc, cast).value;
    if Periods(doc) != [] {
      assert PeriodRow(doc, Periods(doc)[0], cast).Ok?;
    }
    forall i | 0 <= i < |Periods(doc)|
      ensures PeriodColumns(Periods(doc)[i], cast).Ok?
      ensures rows[i] == Lineage(doc, cast).value + ForecastHeader(doc, cast).value + PeriodColumns(Periods(doc)[i], cast).value
    {
      assert PeriodRow(doc, Periods(doc)[i], cast).Ok?;
    }
  }

  /** A document whose list to unnest is empty or absent contributes no row, whatever its metadata. */
  lemma EmptyListNoRows(t: Table, doc: Json, cast: Cast)
    requires t in {Forecasts, Hourly, Stations, Zones}
    requires Expansion(t, doc) == 0
    ensures DocumentRows(t, doc, cast) == Ok([])
  {
  }

  /**
   * save_resort_data lands a zone as a single GeoJSON Feature, while load_zones
   * unnests `data.features`: a landed Feature without a `features` member
   * contributes no row to bronze_zones.
   */
  lemma LandedZoneFeatureNoRows(category: string, identifier: string, feature: Json,
                                timestamp: DateTime, savedAt: DateTime, cast: Cast)
    requires feature.JObject? && "features" !in feature.fields
    ensures DocumentRows(Zones, LandingStore.Envelope(category, identifier, feature, timestamp, savedAt), cast) == Ok([])
  {
    var doc := LandingStore.Envelope(category, identifier, feature, timestamp, savedAt);
    assert Field(doc, "data") == feature;
    assert At(doc, ["data", "features"]) == At(Field(feature, "features"), []);
  }

  /**
   * What the loaders read back as lineage from a file the writer saved: its
   * saved_at, category, identifier and logical timestamp, provided the
   * `::TIMESTAMP` cast reads back what isoformat wrote.
   */
  lemma SavedLineage(category: string, identifier: string, payload: Json,
                     timestamp: DateTime, savedAt: DateTime, cast: Cast)
    requires cast(IsoFormat(savedAt)) == Some(savedAt)
    requires cast(IsoFormat(timestamp)) == Some(timestamp)
    ensures Lineage(LandingStore.Envelope(category, identifier, payload, timestamp, savedAt), cast)
            == Ok([Time(savedAt), Val(JString(category)), Val(JString(identifier)), Time(timestamp)])
  {
    var doc := LandingStore.Envelope(category, identifier, payload, timestamp, savedAt);
    var metadata := Field(doc, "metadata");
    assert Field(metadata, "saved_at") == JString(IsoFormat(savedAt));
    assert Field(metadata, "timestamp") == JString(IsoFormat(timestamp));
    assert Field(metadata, "category") == JString(category);
    assert Field(metadata, "identifier") == JString(identifier);
  }

  /** Sub-object k of a Quantities block occupies columns 2k and 2k+1, as value then unitCode. */
  lemma {:induction false} QuantityPair(j: Json, names: seq<string>, k: nat)
    requires k < |names|
    ensures Quantities(j, names)[2 * k] == Column(Field(Field(j, names[k]), "value"))
    ensures Quantities(j, names)[2 * k + 1] == Column(Field(Field(j, names[k]), "unitCode"))
    decreases k
  {
    if k > 0 {
      QuantityPair(j, names[1..], k - 1);
      assert names[1..][k - 1] == names[k];
      assert Quantities(j, names) == Quantity(Field(j, names[0])) + Quantities(j, names[1..]);
    }
  }

  /** A missing (or null) quantity sub-object gives NULL in both of its columns. */
  lemma MissingQuantity(j: Json, names: seq<string>, k: nat)
    requires k < |names|
    requires Field(j, names[k]) == JNull
    ensures Quantities(j, names)[2 * k] == Null && Quantities(j, names)[2 * k + 1] == Null
  {
    QuantityPair(j, names, k);
  }

  /**
   * Coordinates are 1-based list access: column k holds element k of the
   * coordinates list, and positions past its end are NULL (a two-element
   * point has NULL elevation).
   */
  lemma CoordinateColumns(geometry: Json, n: nat)
    requires Field(geometry, "coordinates").JArray?
    ensures var items := Field(geometry, "coordinates").items;
            forall k :: 0 <= k < n ==>
              Coordinates(geometry, n)[k] == (if k < |items| then Column(items[k]) else Null)
  {
    forall k | 0 <= k < n
      ensures Coordinates(geometry, n)[k] == Column(Item(Field(geometry, "coordinates"), k + 1))
    {
    }
  }

  /** The station id column is the part of the station URL after its last `/`. */
  lemma StationIdOfUrl(prefix: string, id: string)
    requires '/' !in id
    ensures StationId(JString(prefix + "/" + id)) == Val(JString(id))
  {
    var s := prefix + "/" + id;
    var r := TrailingSegment(s);
    assert s[|s| - |id| - 1] == '/';
    assert s[|s| - |id|..] == id;
  }

  /**
   * Layout of a bronze_observations row: lineage, id/type/station, the station
   * id, the observation time, text columns, geometry, then the seventeen
   * quantity pairs.
   */
  lemma ObservationLayout(doc: Json, cast: Cast)
    requires ObservationRow(doc, cast).Ok?
    ensures var row := ObservationRow(doc, cast).value;
            var properties := At(doc, ["data", "properties"]);
            |row| == 49 &&
            row[..4] == Lineage(doc, cast).value &&
            row[7] == StationId(Field(properties, "station")) &&
            row[8] == CastTimestamp(Field(properties, "timestamp"), cast).value &&
            row[15..] == Quantities(properties, ObservationQuantities)
  {
    ObservationRowIs(doc, cast);
    var properties := At(doc, ["data", "properties"]);
    var timestamp := CastTimestamp(Field(properties, "timestamp"), cast).value;
    var header := ObservationHeader(properties, At(doc, ["data", "geometry"]), timestamp);
    RowParts(ObservationRow(doc, cast).value, Lineage(doc, cast).value, header,
             Quantities(properties, ObservationQuantities));
  }

  /**
   * Layout of a bronze_grid_data row: the update time is column 8, and each
   * forecast layer is copied whole, as one value, into its own column from
   * 14 on; its time series is not expanded into rows.
   */
  lemma GridDataLayout(doc: Json, cast: Cast)
    requires GridDataRow(doc, cast).Ok?
    ensures var row := GridDataRow(doc, cast).value;
            var properties := At(doc, ["data", "properties"]);
            && row[8] == CastTimestamp(Field(properties, "updateTime"), cast).value
            && forall k :: 0 <= k < |GridLayers| ==> row[14 + k] == Column(Field(properties, GridLayers[k]))
  {
    var properties := At(doc, ["data", "properties"]);
    var updateTime := CastTimestamp(Field(properties, "updateTime"), cast).value;
    var lineage := Lineage(doc, cast).value;
    var columns := GridColumns(properties, At(doc, ["data", "geometry"]), updateTime);
    GridDataRowIs(doc, cast);
    GridLayerColumns(lineage, columns, properties);
  }

  lemma GridDataRowIs(doc: Json, cast: Cast)
    requires GridDataRow(doc, cast).Ok?
    ensures Lineage(doc, cast).Ok? && CastTimestamp(Field(At(doc, ["data", "properties"]), "updateTime"), cast).Ok?
    ensures GridDataRow(doc, cast).value
            == Lineage(doc, cast).value
               + GridColumns(At(doc, ["data", "properties"]), At(doc, ["data", "geometry"]),
                             CastTimestamp(Field(At(doc, ["data", "properties"]), "updateTime"), cast).value)
  {
  }

  lemma GridLayerColumns(lineage: seq<Cell>, columns: seq<Cell>, properties: Json)
    requires |lineage| == 4 && |columns| == 31 && columns[10..] == Columns(properties, GridLayers)
    ensures (lineage + columns)[8] == columns[4]
    ensures forall k :: 0 <= k < |GridLayers| ==> (lineage + columns)[14 + k] == Column(Field(properties, GridLayers[k]))
  {
    forall k | 0 <= k < |GridLayers|
      ensures (lineage + columns)[14 + k] == Column(Field(properties, GridLayers[k]))
    {
      assert (lineage + columns)[14 + k] == columns[10 + k] == columns[10..][k];
    }
  }

  lemma RowParts(row: Row, lineage: seq<Cell>, header: seq<Cell>, tail: seq<Cell>)
    requires row == lineage + (header + tail)
    ensures row[..|lineage|] == lineage
    ensures forall k :: 0 <= k < |header| ==> row[|lineage| + k] == header[k]
    ensures row[|lineage| + |header|..] == tail
  {
  }

  /** The rows a category's files are expected to produce. */
  function ExpectedRows(t: Table, files: seq<LandingStore.FileBody>): nat {
    if files == [] then 0
    else (if files[0].JsonFile? then Expansion(t, files[0].doc) else 0) + ExpectedRows(t, files[1..])
  }

  lemma RecordsAreDocuments(files: seq<LandingStore.FileBody>)
    requires MapResult(files, Record).Ok?
    ensures forall i :: 0 <= i < |files| ==>
              files[i].JsonFile? && MapResult(files, Record).value[i] == files[i].doc
  {
    forall i | 0 <= i < |files|
      ensures files[i].JsonFile? && MapResult(files, Record).value[i] == files[i].doc
    {
      assert Record(files[i]).Ok?;
    }
  }

  lemma DocumentsRowsCons(docs: seq<Json>, rowsOf: Json -> Result<seq<Row>, LoadError>)
    requires docs != [] && DocumentsRows(docs, rowsOf).Ok?
    ensures rowsOf(docs[0]).Ok? && DocumentsRows(docs[1..], rowsOf).Ok?
    ensures DocumentsRows(docs, rowsOf).value == rowsOf(docs[0]).value + DocumentsRows(docs[1..], rowsOf).value
  {
  }

  /** `rowsOf` maps every document it accepts to rows of table `t` shaped as RowsShaped says. */
  ghost predicate ShapedBy(t: Table, cast: Cast, rowsOf: Json -> Result<seq<Row>, LoadError>) {
    forall doc :: rowsOf(doc).Ok? ==> RowsShaped(t, doc, cast, rowsOf(doc).value)
  }

  /** Landed files and the documents read from them. */
  predicate ReadAs(files: seq<LandingStore.FileBody>, docs: seq<Json>) {
    |files| == |docs| && forall i :: 0 <= i < |files| ==> files[i] == LandingStore.JsonFile(docs[i])
  }

  lemma ReadAsTail(files: seq<LandingStore.FileBody>, docs: seq<Json>)
    requires ReadAs(files, docs) && docs != []
    ensures ReadAs(files[1..], docs[1..])
  {
    assert forall i :: 0 <= i < |files[1..]| ==> files[1..][i] == files[i + 1];
  }

  /** Several documents contribute the sum of their expansions. */
  lemma {:induction false} DocumentsRowsCount(t: Table, files: seq<LandingStore.FileBody>, docs: seq<Json>, cast: Cast,
                                              rowsOf: Json -> Result<seq<Row>, LoadError>)
    requires ReadAs(files, docs) && ShapedBy(t, cast, rowsOf)
    requires DocumentsRows(docs, rowsOf).Ok?
    ensures |DocumentsRows(docs, rowsOf).value| == ExpectedRows(t, files)
    decreases |docs|
  {
    if docs != [] {
      DocumentsRowsCons(docs, rowsOf);
      ReadAsTail(files, docs);
      DocumentsRowsCount(t, files[1..], docs[1..], cast, rowsOf);
    }
  }

  /** Row k of several documents has the table's arity and the lineage of one of the documents. */
  lemma {:induction false} DocumentsRowLineage(t: Table, files: seq<LandingStore.FileBody>, docs: seq<Json>, cast: Cast,
                                              rowsOf: Json -> Result<seq<Row>, LoadError>, k: nat)
    requires ReadAs(files, docs) && ShapedBy(t, cast, rowsOf)
    requires DocumentsRows(docs, rowsOf).Ok? && k < |DocumentsRows(docs, rowsOf).value|
    ensures var row := DocumentsRows(docs, rowsOf).value[k];
            |row| == Arity(t) &&
            exists i :: 0 <= i < |files| && files[i].JsonFile? && Lineage(files[i].doc, cast) == Ok(row[..4])
    decreases |docs|
  {
    DocumentsRowsCons(docs, rowsOf);
    var first := rowsOf(docs[0]).value;
    var rest := DocumentsRows(docs[1..], rowsOf).value;
    var row := DocumentsRows(docs, rowsOf).value[k];
    if k < |first| {
      assert row == first[k] && Shaped(t, docs[0], cast, first[k]);
      assert Lineage(files[0].doc, cast) == Ok(row[..4]);
    } else {
      assert row == rest[k - |first|];
      ReadAsTail(files, docs);
      DocumentsRowLineage(t, files[1..], docs[1..], cast, rowsOf, k - |first|);
      var i :| 0 <= i < |files[1..]| && files[1..][i].JsonFile? && Lineage(files[1..][i].doc, cast) == Ok(row[..4]);
      assert files[i + 1] == files[1..][i];
    }
  }

  /**
   * The rows of several documents split at document i: the rows of the
   * documents before it, then its own rows, then the rows of those after it.
   */
  lemma {:induction false} DocumentsRowsSplit(docs: seq<Json>, rowsOf: Json -> Result<seq<Row>, LoadError>, i: nat)
    requires i < |docs| && DocumentsRows(docs, rowsOf).Ok?
    ensures DocumentsRows(docs[..i], rowsOf).Ok? && rowsOf(docs[i]).Ok? && DocumentsRows(docs[i + 1..], rowsOf).Ok?
    ensures DocumentsRows(docs, rowsOf).value ==
              DocumentsRows(docs[..i], rowsOf).value + rowsOf(docs[i]).value + DocumentsRows(docs[i + 1..], rowsOf).value
    decreases i
  {
    DocumentsRowsCons(docs, rowsOf);
    if i == 0 {
      assert docs[..0] == [] && docs[1..] == docs[i + 1..];
    } else {
      var tail := docs[1..];
      DocumentsRowsSplit(tail, rowsOf, i - 1);
      assert tail[i - 1] == docs[i] && tail[i..] == docs[i + 1..];
      assert docs[..i][0] == docs[0] && docs[..i][1..] == tail[..i - 1];
      assert DocumentsRows(docs[..i], rowsOf).value == rowsOf(docs[0]).value + DocumentsRows(tail[..i - 1], rowsOf).value;
    }
  }

  lemma ReadAsPrefix(files: seq<LandingStore.FileBody>, docs: seq<Json>, i: nat)
    requires ReadAs(files, docs) && i <= |docs|
    ensures ReadAs(files[..i], docs[..i])
  {
  }

  /**
   * The rows of document i follow the rows of the documents before it: its
   * k-th row sits right after those rows, at offset k, and carries the
   * lineage of document i itself.
   */
  lemma DocumentsRowOrigin(t: Table, docs: seq<Json>, cast: Cast, rowsOf: Json -> Result<seq<Row>, LoadError>, i: nat, k: nat)
    requires ShapedBy(t, cast, rowsOf) && DocumentsRows(docs, rowsOf).Ok?
    requires i < |docs| && k < Expansion(t, docs[i])
    ensures DocumentsRows(docs[..i], rowsOf).Ok?
    ensures |DocumentsRows(docs[..i], rowsOf).value| + k < |DocumentsRows(docs, rowsOf).value|
    ensures var row := DocumentsRows(docs, rowsOf).value[|DocumentsRows(docs[..i], rowsOf).value| + k];
            |row| == Arity(t) && Lineage(docs[i], cast) == Ok(row[..4])
  {
    DocumentsRowsSplit(docs, rowsOf, i);
    var before := DocumentsRows(docs[..i], rowsOf).value;
    var own := rowsOf(docs[i]).value;
    assert RowsShaped(t, docs[i], cast, own);
    assert Shaped(t, docs[i], cast, own[k]);
    assert DocumentsRows(docs, rowsOf).value[|before| + k] == own[k];
  }

  /** A single landed file that is not a JSON object makes its whole category fail. */
  lemma BadFileFailsCategory(t: Table, files: seq<LandingStore.FileBody>, cast: Cast, i: nat)
    requires i < |files| && Record(files[i]).Err?
    ensures LoadRows(t, files, cast).Err?
  {
  }

  /**
   * One loader statement over its category, when it succeeds: it inserts
   * ExpectedRows rows, each of the table's arity and each starting with the
   * lineage of the landed file it came from.
   */
  lemma LoadRowsShape(t: Table, files: seq<LandingStore.FileBody>, cast: Cast)
    requires LoadRows(t, files, cast).Ok?
    ensures forall i :: 0 <= i < |files| ==> files[i].JsonFile?
    ensures var rows := LoadRows(t, files, cast).value;
            |rows| == ExpectedRows(t, files) &&
            forall k :: 0 <= k < |rows| ==>
              |rows[k]| == Arity(t) &&
              exists i :: 0 <= i < |files| && files[i].JsonFile? && Lineage(files[i].doc, cast) == Ok(rows[k][..4])
  {
    var docs := MapResult(files, Record).value;
    RecordsAreDocuments(files);
    assert ReadAs(files, docs);
    var rowsOf := doc => DocumentRows(t, doc, cast);
    assert ShapedBy(t, cast, rowsOf);
    DocumentsRowsCount(t, files, docs, cast, rowsOf);
    var rows := LoadRows(t, files, cast).value;
    forall k | 0 <= k < |rows|
      ensures |rows[k]| == Arity(t)
      ensures exists i :: 0 <= i < |files| && files[i].JsonFile? && Lineage(files[i].doc, cast) == Ok(rows[k][..4])
    {
      DocumentsRowLineage(t, files, docs, cast, rowsOf, k);
    }
  }

  /**
   * The lineage invariant, file by file: when the statement succeeds, the k-th
   * row of landed file i sits after the rows of the files before it and
   * carries that file's own lineage.
   */
  lemma LoadRowsOrigin(t: Table, files: seq<LandingStore.FileBody>, cast: Cast, i: nat, k: nat)
    requires LoadRows(t, files, cast).Ok?
    requires i < |files| && files[i].JsonFile? && k < Expansion(t, files[i].doc)
    ensures ExpectedRows(t, files[..i]) + k < |LoadRows(t, files, cast).value|
    ensures var row := LoadRows(t, files, cast).value[ExpectedRows(t, files[..i]) + k];
            |row| == Arity(t) && Lineage(files[i].doc, cast) == Ok(row[..4])
  {
    var docs := MapResult(files, Record).value;
    RecordsAreDocuments(files);
    assert ReadAs(files, docs);
    var rowsOf := doc => DocumentRows(t, doc, cast);
    assert ShapedBy(t, cast, rowsOf);
    assert files[i].doc == docs[i];
    DocumentsRowOrigin(t, docs, cast, rowsOf, i, k);
    ReadAsPrefix(files, docs, i);
    DocumentsRowsCount(t, files[..i], docs[..i], cast, rowsOf);
  }

  /** load_points, load_observations and load_grid_data insert exactly one row per landed file. */
  lemma OneRowPerFile(t: Table, files: seq<LandingStore.FileBody>, cast: Cast)
    requires t in {Points, Observations, GridData}
    requires LoadRows(t, files, cast).Ok?
    ensures |LoadRows(t, files, cast).value| == |files|
  {
    LoadRowsShape(t, files, cast);
    OneEach(t, files);
  }

  lemma {:induction false} OneEach(t: Table, files: seq<LandingStore.FileBody>)
    requires t in {Points, Observations, GridData}
    requires forall i :: 0 <= i < |files| ==> files[i].JsonFile?
    ensures ExpectedRows(t, files) == |files|
    decreases |files|
  {
    if files != [] {
      OneEach(t, files[1..]);
    }
  }
}
