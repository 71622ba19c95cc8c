/** The record-to-point schema mapping of the store loader (src/database.py):
    which columns of a weather record become tags, which become fields, how
    field values are cleaned and coerced, and the one point built per record. */
module Database {
  import opened Values

  /** `TAG_COLUMNS`. */
  const TagColumns: seq<string> := ["zip_code", "state", "name"]

  /** `FIELD_COLUMNS`, in order. */
  const FieldColumns: seq<string> := [
    "chance_of_rain", "chance_of_snow", "cloud", "dewpoint_c", "dewpoint_f",
    "feelslike_c", "feelslike_f", "gust_kph", "gust_mph", "heatindex_c", "heatindex_f",
    "humidity", "is_day", "precip_in", "precip_mm", "pressure_in", "pressure_mb",
    "snow_cm", "temp_c", "temp_f", "uv", "vis_km", "vis_miles", "will_it_rain",
    "will_it_snow", "wind_degree", "wind_dir", "wind_kph", "wind_mph", "windchill_c", "windchill_f",
    "lat", "lon"
  ]

  /** The tag dictionary comprehension: every tag column the record has. */
  function Tags(record: Record): map<string, Value>
  {
    map tag | tag in TagColumns && tag in record :: record[tag]
  }

  /** A value `insert_batch` treats as missing: `None` or the empty string. */
  predicate Omitted(v: Value)
  {
    v == Null || v == Str("")
  }

  /** The conversion of one present, non-missing value: a string is passed to
      `float()` (modelled by `parseFloat`, `None` when it raises ValueError),
      except in the `wind_dir` column; every other value is kept as it is. */
  function Coerce(field: string, v: Value, parseFloat: string -> Option<real>): Option<Value>
  {
    if v.Str? && field != "wind_dir" then
      match parseFloat(v.s)
      case None => None
      case Some(x) => Some(Real(x))
    else Some(v)
  }

  /** Whether `field` of `record` ends up among the point's fields. */
  predicate Kept(record: Record, field: string, parseFloat: string -> Option<real>)
  {
    field in record && !Omitted(record[field]) && Coerce(field, record[field], parseFloat).Some?
  }

  /** The fields of the point for `record`, over the given columns. */
  function FieldsOver(columns: seq<string>, record: Record, parseFloat: string -> Option<real>): map<string, Value>
  {
    map field | field in columns && Kept(record, field, parseFloat) :: Coerce(field, record[field], parseFloat).value
  }

  function Fields(record: Record, parseFloat: string -> Option<real>): map<string, Value>
  {
    FieldsOver(FieldColumns, record, parseFloat)
  }

  /** The point of one record; its time is `record['time']`. */
  function RecordPoint(record: Record, parseFloat: string -> Option<real>): Point
    requires "time" in record
  {
    Point("weather_data", Tags(record), Fields(record, parseFloat), record["time"])
  }

  /** One more column extends the fields by that column when it is kept. */
  lemma FieldsOverStep(columns: seq<string>, field: string, record: Record, parseFloat: string -> Option<real>)
    ensures FieldsOver(columns + [field], record, parseFloat) ==
      if Kept(record, field, parseFloat) then FieldsOver(columns, record, parseFloat)[field := Coerce(field, record[field], parseFloat).value]
      else FieldsOver(columns, record, parseFloat)
  {
  }

  /** The nested loop of `insert_batch` that fills `fields` for one record, over
      the given columns (`FIELD_COLUMNS` at its call). */
  method BuildFields(columns: seq<string>, record: Record, parseFloat: string -> Option<real>) returns (fields: map<string, Value>)
    ensures fields == FieldsOver(columns, record, parseFloat)
  {
    fields := map[];
    var i := 0;
    while i < |columns|
      invariant 0 <= i <= |columns|
      invariant fields == FieldsOver(columns[..i], record, parseFloat)
    {
      var field := columns[i];
      assert columns[..i + 1] == columns[..i] + [field];
      FieldsOverStep(columns[..i], field, record, parseFloat);
      if field in record {
        var value := record[field];
        if value != Null && value != Str("") {
          if value.Str? && field != "wind_dir" {
            var x := parseFloat(value.s);
            if x.Some? {
              fields := fields[field := Real(x.value)];
            }
          } else {
            fields := fields[field := value];
          }
        }
      }
      i := i + 1;
    }
    assert columns[..i] == columns;
  }

  /** `insert_batch` without its final `write_points` call: one point per record,
      in order, or KeyError when a record has no `time`. */
  method InsertBatch(batch: seq<Record>, parseFloat: string -> Option<real>) returns (r: Result<seq<Point>>)
    ensures r.Err? <==> exists i :: 0 <= i < |batch| && "time" !in batch[i]
    ensures r.Err? ==> r.error == KeyError
    ensures r.Ok? ==> |r.value| == |batch| && forall i :: 0 <= i < |batch| ==> r.value[i] == RecordPoint(batch[i], parseFloat)
  {
    var points: seq<Point> := [];
    var i := 0;
    while i < |batch|
      invariant 0 <= i <= |batch|
      invariant |points| == i
      invariant forall j :: 0 <= j < i ==> "time" in batch[j] && points[j] == RecordPoint(batch[j], parseFloat)
    {
      var point := BuildPoint(batch[i], parseFloat);
      if point.Err? {
        return Err(point.error);
      }
      points := points + [point.value];
      i := i + 1;
    }
    return Ok(points);
  }

  /** The body of the record loop of `insert_batch`: tags, fields, then the point,
      whose `record['time']` raises KeyError when the record has no time. */
  method BuildPoint(record: Record, parseFloat: string -> Option<real>) returns (r: Result<Point>)
    ensures r.Ok? <==> "time" in record
    ensures r.Err? ==> r.error == KeyError
    ensures r.Ok? ==> r.value == RecordPoint(record, parseFloat)
  {
    var tags := Tags(record);
    var fields := BuildFields(FieldColumns, record, parseFloat);
    if "time" !in record {
      return Err(KeyError);
    }
    return Ok(Point("weather_data", tags, fields, record["time"]));
  }

  /** The tags are exactly the tag columns the record has, with their values. */
  lemma TagsSelect(record: Record)
    ensures Tags(record).Keys == record.Keys * {"zip_code", "state", "name"}
    ensures forall k :: k in Tags(record) ==> Tags(record)[k] == record[k]
  {
  }

  /** The field keys are field columns the record has; other keys of the record are
      ignored, and so are the tag columns. */
  lemma FieldsWhitelisted(record: Record, parseFloat: string -> Option<real>)
    ensures Fields(record, parseFloat).Keys <= record.Keys
    ensures forall k :: k in Fields(record, parseFloat) ==> k in FieldColumns
    ensures forall k :: k in TagColumns ==> k !in Fields(record, parseFloat)
  {
    TagsAreNotFieldColumns();
  }

  /** No column is both a tag and a field. */
  lemma TagsAreNotFieldColumns()
    ensures forall k :: k in TagColumns ==> k !in FieldColumns
  {
    forall k, j | k in TagColumns && 0 <= j < |FieldColumns| ensures FieldColumns[j] != k {
      assert DiffersEarly(FieldColumns[j], k);
    }
  }

  /** Two strings that differ in length or in one of their first two characters. */
  predicate DiffersEarly(a: string, b: string)
  {
    |a| != |b| || (|a| >= 2 && |b| >= 2 && (a[0] != b[0] || a[1] != b[1]))
  }

  /** What happens to one field column the record has: dropped when `None` or
      `''`; `wind_dir` and non-string values kept unchanged; other strings
      replaced by their `float()` value, or dropped when that raises. */
  lemma FieldCleaning(record: Record, field: string, parseFloat: string -> Option<real>)
    requires field in FieldColumns && field in record
    ensures Omitted(record[field]) ==> field !in Fields(record, parseFloat)
    ensures !Omitted(record[field]) && (!record[field].Str? || field == "wind_dir") ==>
      field in Fields(record, parseFloat) && Fields(record, parseFloat)[field] == record[field]
    ensures !Omitted(record[field]) && record[field].Str? && field != "wind_dir" ==>
      match parseFloat(record[field].s)
      case None => field !in Fields(record, parseFloat)
      case Some(x) => field in Fields(record, parseFloat) && Fields(record, parseFloat)[field] == Real(x)
  {
  }

  /** A failed coercion drops only its own field: the record with that value
      removed gives the same fields. */
  lemma FailedCoercionDropsOnlyThatField(record: Record, field: string, parseFloat: string -> Option<real>)
    requires field in record && record[field].Str? && field != "wind_dir" && parseFloat(record[field].s).None?
    ensures Fields(record, parseFloat) == Fields(record - {field}, parseFloat)
  {
  }

  /** `wind_dir` is never coerced: a string there stays a string. */
  lemma WindDirStaysText(record: Record, parseFloat: string -> Option<real>)
    requires "wind_dir" in record && record["wind_dir"].Str? && record["wind_dir"] != Str("")
    ensures Fields(record, parseFloat)["wind_dir"] == record["wind_dir"]
  {
  }
}
