/** The processor (src/processor.py): for a flushed hour it queries the store for
    per-state averages and per-state zip-code extremes of four metrics, shapes the
    grouped query results into flat records, and writes them back as analytics
    points, queueing a failed write on a list that is never drained. */
module Processor {
  import opened Values
  import opened Text

  /** The metrics both analyses cover, in this order. */
  const Metrics: seq<string> := ["temp_c", "pressure_mb", "humidity", "precip_mm"]

  // ---------------------------------------------------------------- hours

  /** `f"{h:02d}"`: at least two characters, zero-padded; a negative number keeps
      its sign and is not padded further. */
  function Pad2(h: int): string
  {
    if 0 <= h < 10 then "0" + NatToString(h) else IntToString(h)
  }

  /** The start of the hour's window. */
  function StartTime(hour: int): string
  {
    "2023-09-19T" + Pad2(hour) + ":00:00Z"
  }

  /** The end of the hour's window: the next hour's start. */
  function EndTime(hour: int): string
  {
    "2023-09-19T" + Pad2(hour + 1) + ":00:00Z"
  }

  /** The hour as `process_hourly_data` passes it on after its padding step: the
      string `"0{hour}"` below 10, the integer itself otherwise. */
  function PaddedHour(hour: int): (v: Value)
  {
    if hour < 10 then Str("0" + IntToString(hour)) else Int(hour)
  }

  /** `f"{hour}"` for the two kinds of value the padded hour can be. */
  function HourText(hour: Value): string
  {
    match hour
    case Str(s) => s
    case Int(i) => IntToString(i)
    case _ => ""
  }

  /** Every hour of a day renders as two digits. */
  lemma {:induction false} Pad2TwoDigits(h: int)
    requires 0 <= h < 100
    ensures |Pad2(h)| == 2 && AllDigits(Pad2(h))
  {
    if h >= 10 {
      assert NatToString(h) == NatToString(h / 10) + [DigitChar(h % 10)];
    }
  }

  /** The windows of consecutive hours tile the day; the window of hour 23 ends
      at the out-of-range time `T24:00:00Z`. */
  lemma WindowsTile(hour: int)
    ensures EndTime(hour) == StartTime(hour + 1)
    ensures EndTime(23) == "2023-09-19T24:00:00Z"
  {
    assert NatToString(24) == NatToString(2) + [DigitChar(4)];
  }

  /** The padded hour is a string exactly for hours below 10, and for every
      non-negative hour the analytics timestamp is the start of the window. */
  lemma PaddedHourTimestamp(hour: int)
    ensures PaddedHour(hour).Str? <==> hour < 10
    ensures 0 <= hour ==> "2023-09-19T" + HourText(PaddedHour(hour)) + ":00:00Z" == StartTime(hour)
  {
  }

  // ---------------------------------------------------------------- queries

  /** The select clause of the averages query for one metric. */
  function AverageSelect(metric: string): string
  {
    "SELECT MEAN(" + metric + ") AS avg_" + metric
  }

  /** The filter of the averages query: the single instant `start`. */
  function AverageFilter(start: string): string
  {
    "WHERE time = '" + start + "'"
  }

  /** The averages query for one metric. */
  function AverageQuery(metric: string, start: string): string
  {
    "\n        " + AverageSelect(metric) + " FROM weather_data\n        " + AverageFilter(start) + "\n        GROUP BY state\n        "
  }

  /** `get_queries_state_averages`: one query per metric, in metric order. */
  function StateAverageQueries(metrics: seq<string>, start: string, end: string): (qs: seq<string>)
    ensures |qs| == |metrics|
  {
    seq(|metrics|, i requires 0 <= i < |metrics| => AverageQuery(metrics[i], start))
  }

  lemma AverageQueryShape(metric: string, start: string)
    ensures Contains(AverageQuery(metric, start), AverageSelect(metric))
    ensures Contains(AverageQuery(metric, start), AverageFilter(start))
  {
    var head, select, middle := "\n        ", AverageSelect(metric), " FROM weather_data\n        ";
    var filter, tail := AverageFilter(start), "\n        GROUP BY state\n        ";
    assert AverageQuery(metric, start) == head + select + (middle + filter + tail);
    ContainsMiddle(head, select, middle + filter + tail);
    assert AverageQuery(metric, start) == (head + select + middle) + filter + tail;
    ContainsMiddle(head + select + middle, filter, tail);
  }

  /** Query i averages metric i at the instant `start`; `end` plays no part. */
  lemma StateAverageQueriesShape(metrics: seq<string>, start: string, end: string, end': string)
    ensures StateAverageQueries(metrics, start, end) == StateAverageQueries(metrics, start, end')
    ensures forall i :: 0 <= i < |metrics| ==>
      && Contains(StateAverageQueries(metrics, start, end)[i], AverageSelect(metrics[i]))
      && Contains(StateAverageQueries(metrics, start, end)[i], AverageFilter(start))
  {
    forall i | 0 <= i < |metrics|
      ensures && Contains(StateAverageQueries(metrics, start, end)[i], AverageSelect(metrics[i]))
              && Contains(StateAverageQueries(metrics, start, end)[i], AverageFilter(start))
    {
      AverageQueryShape(metrics[i], start);
    }
  }

  /** The select clause of an extremes query; `aggregate` is `MIN` or `MAX` and
      `alias` the matching `min_` or `max_`. */
  function ExtremeSelect(aggregate: string, alias: string, metric: string): string
  {
    "SELECT " + aggregate + "(" + metric + ") AS " + alias + metric
  }

  /** The filter of both extremes queries: the half-open window and one state. */
  function ExtremeFilter(start: string, end: string, state: string): string
  {
    "WHERE time >= '" + start + "' AND time < '" + end + "' AND \"state\" = '" + state + "'"
  }

  /** The extremes query for one metric. */
  function ExtremeQuery(aggregate: string, alias: string, metric: string, start: string, end: string, state: string): string
  {
    "\n            " + ExtremeSelect(aggregate, alias, metric) + ", zip_code \n            FROM weather_data\n            "
      + ExtremeFilter(start, end, state) + "\n            GROUP BY zip_code\n        "
  }

  /** `get_queries_zip_extremes`: the min queries and the max queries, one per
      metric each. */
  function ZipExtremeQueries(metrics: seq<string>, start: string, end: string, state: string): (qs: (seq<string>, seq<string>))
  {
    (seq(|metrics|, i requires 0 <= i < |metrics| => ExtremeQuery("MIN", "min_", metrics[i], start, end, state)),
     seq(|metrics|, i requires 0 <= i < |metrics| => ExtremeQuery("MAX", "max_", metrics[i], start, end, state)))
  }

  lemma ExtremeQueryShape(aggregate: string, alias: string, metric: string, start: string, end: string, state: string)
    ensures Contains(ExtremeQuery(aggregate, alias, metric, start, end, state), ExtremeSelect(aggregate, alias, metric))
    ensures Contains(ExtremeQuery(aggregate, alias, metric, start, end, state), ExtremeFilter(start, end, state))
  {
    var q := ExtremeQuery(aggregate, alias, metric, start, end, state);
    var head, select := "\n            ", ExtremeSelect(aggregate, alias, metric);
    var middle := ", zip_code \n            FROM weather_data\n            ";
    var filter, tail := ExtremeFilter(start, end, state), "\n            GROUP BY zip_code\n        ";
    assert q == head + select + (middle + filter + tail);
    ContainsMiddle(head, select, middle + filter + tail);
    assert q == (head + select + middle) + filter + tail;
    ContainsMiddle(head + select + middle, filter, tail);
  }

  /** Both lists are as long as `metrics`, and the i-th min and max queries select
      metric i over the window, restricted to `state`. */
  lemma ZipExtremeQueriesShape(metrics: seq<string>, start: string, end: string, state: string)
    ensures |ZipExtremeQueries(metrics, start, end, state).0| == |metrics|
    ensures |ZipExtremeQueries(metrics, start, end, state).1| == |metrics|
    ensures forall i :: 0 <= i < |metrics| ==>
      && Contains(ZipExtremeQueries(metrics, start, end, state).0[i], ExtremeSelect("MIN", "min_", metrics[i]))
      && Contains(ZipExtremeQueries(metrics, start, end, state).0[i], ExtremeFilter(start, end, state))
      && Contains(ZipExtremeQueries(metrics, start, end, state).1[i], ExtremeSelect("MAX", "max_", metrics[i]))
      && Contains(ZipExtremeQueries(metrics, start, end, state).1[i], ExtremeFilter(start, end, state))
  {
    forall i | 0 <= i < |metrics|
      ensures && Contains(ZipExtremeQueries(metrics, start, end, state).0[i], ExtremeSelect("MIN", "min_", metrics[i]))
              && Contains(ZipExtremeQueries(metrics, start, end, state).0[i], ExtremeFilter(start, end, state))
              && Contains(ZipExtremeQueries(metrics, start, end, state).1[i], ExtremeSelect("MAX", "max_", metrics[i]))
              && Contains(ZipExtremeQueries(metrics, start, end, state).1[i], ExtremeFilter(start, end, state))
    {
      ExtremeQueryShape("MIN", "min_", metrics[i], start, end, state);
      ExtremeQueryShape("MAX", "max_", metrics[i], start, end, state);
    }
  }

  // ---------------------------------------------------------------- results

  /** One series of a grouped query result: the group's tags and its points. */
  datatype Group = Group(tags: map<string, Value>, points: seq<Record>)

  /** The store's answer to a query: its groups, or `None` when the query raised. */
  type Answer = Option<seq<Group>>

  function TotalPoints(groups: seq<Group>): nat
  {
    if groups == [] then 0 else |groups[0].points| + TotalPoints(groups[1..])
  }

  /** The record `get_state_averages` emits for one point. */
  function AverageRecord(state: Value, metric: string, p: Record): Record
  {
    map["state" := state, "avg_" + metric := Get(p, "avg_" + metric)]
  }

  /** The records of one metric's result: one per point, group after group. */
  function GroupAverages(metric: string, groups: seq<Group>): seq<Record>
  {
    if groups == [] then []
    else
      var g := groups[0];
      seq(|g.points|, j requires 0 <= j < |g.points| => AverageRecord(Get(g.tags, "state"), metric, g.points[j]))
        + GroupAverages(metric, groups[1..])
  }

  /** The records of the zipped metrics and queries, metric after metric, or
      `None` as soon as one query raises. */
  function CollectAverages(metrics: seq<string>, queries: seq<string>, query: string -> Answer): Option<seq<Record>>
  {
    if metrics == [] || queries == [] then Some([])
    else match query(queries[0])
      case None => None
      case Some(groups) =>
        match CollectAverages(metrics[1..], queries[1..], query)
        case None => None
        case Some(rest) => Some(GroupAverages(metrics[0], groups) + rest)
  }

  /** `get_state_averages`: every exception is caught and discards everything. */
  function GetStateAverages(queries: seq<string>, query: string -> Answer, metrics: seq<string>): seq<Record>
  {
    match CollectAverages(metrics, queries, query)
    case None => []
    case Some(records) => records
  }

  /** A metric's result yields one record per point, each carrying the group's
      `state` tag and the point's `avg_<metric>` value, and nothing else. */
  lemma {:induction false} GroupAveragesShape(metric: string, groups: seq<Group>)
    ensures |GroupAverages(metric, groups)| == TotalPoints(groups)
    ensures forall r :: r in GroupAverages(metric, groups) ==>
      && r.Keys == {"state", "avg_" + metric}
      && exists g :: g in groups && r["state"] == Get(g.tags, "state")
  {
    if groups != [] {
      GroupAveragesShape(metric, groups[1..]);
      var g := groups[0];
      var head := seq(|g.points|, j requires 0 <= j < |g.points| => AverageRecord(Get(g.tags, "state"), metric, g.points[j]));
      forall r | r in GroupAverages(metric, groups)
        ensures r.Keys == {"state", "avg_" + metric}
        ensures exists g :: g in groups && r["state"] == Get(g.tags, "state")
      {
        if r in head {
          var j :| 0 <= j < |head| && head[j] == r;
          assert ("avg_" + metric)[0] != "state"[0];
          assert g in groups;
        } else {
          assert r in GroupAverages(metric, groups[1..]);
          var g' :| g' in groups[1..] && r["state"] == Get(g'.tags, "state");
          assert g' in groups;
        }
      }
    }
  }

  /** The records of one metric's result are exactly one per returned point, each
      carrying the `state` tag of the point's own group and the point's
      `avg_<metric>` value. */
  lemma {:induction false} GroupAveragesMembers(metric: string, groups: seq<Group>)
    ensures forall r :: r in GroupAverages(metric, groups) <==>
      exists g, p :: g in groups && p in g.points && r == AverageRecord(Get(g.tags, "state"), metric, p)
  {
    if groups != [] {
      GroupAveragesMembers(metric, groups[1..]);
      var g := groups[0];
      var head := seq(|g.points|, j requires 0 <= j < |g.points| => AverageRecord(Get(g.tags, "state"), metric, g.points[j]));
      assert GroupAverages(metric, groups) == head + GroupAverages(metric, groups[1..]);
      forall r | r in GroupAverages(metric, groups)
        ensures exists g, p :: g in groups && p in g.points && r == AverageRecord(Get(g.tags, "state"), metric, p)
      {
        if r in head {
          var j :| 0 <= j < |head| && head[j] == r;
          assert g in groups && g.points[j] in g.points;
        } else {
          var g', p' :| g' in groups[1..] && p' in g'.points && r == AverageRecord(Get(g'.tags, "state"), metric, p');
          assert g' in groups;
        }
      }
      forall g', p' | g' in groups && p' in g'.points
        ensures AverageRecord(Get(g'.tags, "state"), metric, p') in GroupAverages(metric, groups)
      {
        if g' == g {
          var j :| 0 <= j < |g.points| && g.points[j] == p';
          assert head[j] == AverageRecord(Get(g'.tags, "state"), metric, p');
        } else {
          assert g' in groups[1..];
        }
      }
    }
  }

  /** All or nothing: the averages are empty as soon as one of the zipped queries
      raises (the metric order is `AveragesConcatenate`). */
  lemma {:induction false} AveragesAllOrNothing(metrics: seq<string>, queries: seq<string>, query: string -> Answer)
    ensures CollectAverages(metrics, queries, query).None? <==>
      exists i :: 0 <= i < |metrics| && i < |queries| && query(queries[i]).None?
    ensures (exists i :: 0 <= i < |metrics| && i < |queries| && query(queries[i]).None?) ==>
      GetStateAverages(queries, query, metrics) == []
  {
    if metrics != [] && queries != [] {
      AveragesAllOrNothing(metrics[1..], queries[1..], query);
      if exists i :: 1 <= i < |metrics| && i < |queries| && query(queries[i]).None? {
        var i :| 1 <= i < |metrics| && i < |queries| && query(queries[i]).None?;
        assert query(queries[1..][i - 1]).None?;
      }
      if exists i :: 0 <= i < |metrics[1..]| && i < |queries[1..]| && query(queries[1..][i]).None? {
        var i :| 0 <= i < |metrics[1..]| && i < |queries[1..]| && query(queries[1..][i]).None?;
        assert query(queries[i + 1]).None?;
      }
    }
  }

  /** The records are grouped metric by metric, in the order of the metrics:
      collecting over two runs of zipped metrics and queries gives the first run's
      records followed by the second's, and nothing if either raises. */
  lemma {:induction false} AveragesConcatenate(m1: seq<string>, q1: seq<string>, m2: seq<string>, q2: seq<string>, query: string -> Answer)
    requires |m1| == |q1|
    ensures var a, b := CollectAverages(m1, q1, query), CollectAverages(m2, q2, query);
      CollectAverages(m1 + m2, q1 + q2, query) == if a.Some? && b.Some? then Some(a.value + b.value) else None
  {
    if m1 == [] {
      assert m1 + m2 == m2 && q1 + q2 == q2;
      if CollectAverages(m2, q2, query).Some? {
        assert [] + CollectAverages(m2, q2, query).value == CollectAverages(m2, q2, query).value;
      }
    } else {
      AveragesConcatenate(m1[1..], q1[1..], m2, q2, query);
      TailOfConcat(m1, m2);
      TailOfConcat(q1, q2);
      assert (q1 + q2)[0] == q1[0];
      assert (m1 + m2)[0] == m1[0];
      match query(q1[0])
      case None =>
      case Some(groups) =>
        var a, b := CollectAverages(m1[1..], q1[1..], query), CollectAverages(m2, q2, query);
        if a.Some? && b.Some? {
          ConcatAssociates(GroupAverages(m1[0], groups), a.value, b.value);
        }
    }
  }

  /** Every averages record names a metric of the list and carries exactly the
      `state` key and that metric's `avg_` key. */
  lemma {:induction false} AverageRecordsShape(metrics: seq<string>, queries: seq<string>, query: string -> Answer)
    ensures forall r :: r in GetStateAverages(queries, query, metrics) ==>
      exists m :: m in metrics && r.Keys == {"state", "avg_" + m}
  {
    var c := CollectAverages(metrics, queries, query);
    if c.Some? && metrics != [] && queries != [] {
      var groups := query(queries[0]).value;
      AverageRecordsShape(metrics[1..], queries[1..], query);
      GroupAveragesShape(metrics[0], groups);
      forall r | r in GetStateAverages(queries, query, metrics)
        ensures exists m :: m in metrics && r.Keys == {"state", "avg_" + m}
      {
        if r in GroupAverages(metrics[0], groups) {
          assert metrics[0] in metrics;
        } else {
          var m :| m in metrics[1..] && r.Keys == {"state", "avg_" + m};
          assert m in metrics;
        }
      }
    }
  }

  // ---------------------------------------------------------------- extremes

  /** What `calculate_extremes` takes from one group: only its first point, and
      nothing when the group is empty or that point's value is `None`. */
  function ExtremeEntry(alias: string, metric: string, g: Group): Option<Record>
  {
    if g.points == [] then None
    else
      var v := Get(g.points[0], alias + metric);
      if v == Null then None
      else Some(map["zip_code" := Get(g.tags, "zip_code"), alias + metric := v])
  }

  /** The entries of one metric's result, group after group. */
  function GroupExtremes(alias: string, metric: string, groups: seq<Group>): seq<Record>
  {
    if groups == [] then []
    else
      (match ExtremeEntry(alias, metric, groups[0]) case None => [] case Some(e) => [e])
        + GroupExtremes(alias, metric, groups[1..])
  }

  /** The entries gathered by one of the two loops of `calculate_extremes`, and
      whether a query raised and ended it. */
  datatype Gathered = Gathered(entries: seq<Record>, failed: bool)

  function ExtremePhase(alias: string, metrics: seq<string>, queries: seq<string>, query: string -> Answer): Gathered
  {
    if metrics == [] || queries == [] then Gathered([], false)
    else match query(queries[0])
      case None => Gathered([], true)
      case Some(groups) =>
        var rest := ExtremePhase(alias, metrics[1..], queries[1..], query);
        Gathered(GroupExtremes(alias, metrics[0], groups) + rest.entries, rest.failed)
  }

  /** `calculate_extremes`: the min loop, then the max loop unless the min loop
      raised; whatever was gathered before an exception is returned. */
  function CalculateExtremes(minQueries: seq<string>, maxQueries: seq<string>, query: string -> Answer, metrics: seq<string>): seq<Record>
  {
    var low := ExtremePhase("min_", metrics, minQueries, query);
    if low.failed then low.entries
    else low.entries + ExtremePhase("max_", metrics, maxQueries, query).entries
  }

  /** Only the first point of a group counts. */
  lemma ExtremeReadsFirstPoint(alias: string, metric: string, tags: map<string, Value>, p: Record, later: seq<Record>)
    ensures ExtremeEntry(alias, metric, Group(tags, [p] + later)) == ExtremeEntry(alias, metric, Group(tags, [p]))
  {
  }

  /** Every entry of a phase holds a zip code and one non-`None` value under the
      phase's alias of some metric of the list. */
  predicate ExtremeShaped(e: Record, alias: string, metrics: seq<string>)
  {
    exists m :: m in metrics && e.Keys == {"zip_code", alias + m} && e[alias + m] != Null
  }

  lemma {:induction false} GroupExtremesShape(alias: string, metric: string, groups: seq<Group>)
    ensures forall e :: e in GroupExtremes(alias, metric, groups) ==>
      e.Keys == {"zip_code", alias + metric} && e[alias + metric] != Null
    ensures |GroupExtremes(alias, metric, groups)| <= |groups|
  {
    if groups != [] {
      GroupExtremesShape(alias, metric, groups[1..]);
    }
  }

  /** The entries of one metric's result are exactly those of the groups whose
      first point has a non-`None` value: the group's zip code and that value. */
  lemma {:induction false} GroupExtremesMembers(alias: string, metric: string, groups: seq<Group>)
    ensures forall e :: e in GroupExtremes(alias, metric, groups) <==>
      exists g :: g in groups && g.points != [] && Get(g.points[0], alias + metric) != Null
        && e == map["zip_code" := Get(g.tags, "zip_code"), alias + metric := Get(g.points[0], alias + metric)]
  {
    if groups != [] {
      GroupExtremesMembers(alias, metric, groups[1..]);
      var g := groups[0];
      var head := match ExtremeEntry(alias, metric, g) case None => [] case Some(e) => [e];
      assert GroupExtremes(alias, metric, groups) == head + GroupExtremes(alias, metric, groups[1..]);
      assert forall g' :: g' in groups <==> g' == g || g' in groups[1..];
    }
  }

  lemma {:induction false} ExtremePhaseShape(alias: string, metrics: seq<string>, queries: seq<string>, query: string -> Answer)
    ensures forall e :: e in ExtremePhase(alias, metrics, queries, query).entries ==> ExtremeShaped(e, alias, metrics)
  {
    if metrics != [] && queries != [] && query(queries[0]).Some? {
      var groups := query(queries[0]).value;
      ExtremePhaseShape(alias, metrics[1..], queries[1..], query);
      GroupExtremesShape(alias, metrics[0], groups);
      forall e | e in ExtremePhase(alias, metrics, queries, query).entries
        ensures ExtremeShaped(e, alias, metrics)
      {
        if e in GroupExtremes(alias, metrics[0], groups) {
          assert metrics[0] in metrics;
        } else {
          assert e in ExtremePhase(alias, metrics[1..], queries[1..], query).entries;
          var m :| m in metrics[1..] && e.Keys == {"zip_code", alias + m} && e[alias + m] != Null;
          assert m in metrics;
        }
      }
    }
  }

  /** A query that raises ends its phase: the phase keeps exactly what the queries
      before it gathered. */
  lemma {:induction false} ExtremePhaseStops(alias: string, metrics: seq<string>, queries: seq<string>, query: string -> Answer, k: nat)
    requires k < |metrics| && k < |queries|
    requires query(queries[k]).None?
    requires forall i :: 0 <= i < k ==> query(queries[i]).Some?
    ensures ExtremePhase(alias, metrics, queries, query) ==
      Gathered(ExtremePhase(alias, metrics[..k], queries[..k], query).entries, true)
  {
    if k > 0 {
      assert forall i :: 0 <= i < k - 1 ==> queries[1..][i] == queries[i + 1];
      ExtremePhaseStops(alias, metrics[1..], queries[1..], query, k - 1);
      assert metrics[..k][1..] == metrics[1..][..k - 1];
      assert queries[..k][1..] == queries[1..][..k - 1];
    }
  }

  /** All min entries come before all max entries, and a failed min loop leaves
      out every max entry. */
  lemma MinBeforeMax(minQueries: seq<string>, maxQueries: seq<string>, query: string -> Answer, metrics: seq<string>)
    ensures var low := ExtremePhase("min_", metrics, minQueries, query);
      var r := CalculateExtremes(minQueries, maxQueries, query, metrics);
      && |low.entries| <= |r|
      && (forall i :: 0 <= i < |low.entries| ==> ExtremeShaped(r[i], "min_", metrics))
      && (forall i :: |low.entries| <= i < |r| ==> ExtremeShaped(r[i], "max_", metrics))
      && (low.failed ==> |r| == |low.entries|)
  {
    var low := ExtremePhase("min_", metrics, minQueries, query);
    var high := ExtremePhase("max_", metrics, maxQueries, query);
    ExtremePhaseShape("min_", metrics, minQueries, query);
    ExtremePhaseShape("max_", metrics, maxQueries, query);
    var r := CalculateExtremes(minQueries, maxQueries, query, metrics);
    var k := |low.entries|;
    forall i | 0 <= i < k ensures ExtremeShaped(r[i], "min_", metrics) {
      assert r[i] == low.entries[i];
      assert low.entries[i] in low.entries;
    }
    forall i | k <= i < |r| ensures ExtremeShaped(r[i], "max_", metrics) {
      assert r[i] == high.entries[i - k];
      assert high.entries[i - k] in high.entries;
    }
  }

  /** The state appended to every extreme of that state. */
  function WithState(extremes: seq<Record>, state: string): (r: seq<Record>)
    ensures |r| == |extremes|
    ensures forall i :: 0 <= i < |r| ==> r[i].Keys == extremes[i].Keys + {"state"} && r[i]["state"] == Str(state)
    ensures forall i, k :: 0 <= i < |r| && k in extremes[i] && k != "state" ==> r[i][k] == extremes[i][k]
  {
    seq(|extremes|, i requires 0 <= i < |extremes| => extremes[i]["state" := Str(state)])
  }

  /** `calculate_extremes` over the zipped min and max queries of one state. */
  function ExtremesOf(state: string, start: string, end: string, query: string -> Answer): seq<Record>
  {
    var qs := ZipExtremeQueries(Metrics, start, end, state);
    CalculateExtremes(qs.0, qs.1, query, Metrics)
  }

  /** The extremes of one state, each tagged with it. */
  function StateExtremes(state: string, start: string, end: string, query: string -> Answer): seq<Record>
  {
    WithState(ExtremesOf(state, start, end, query), state)
  }

  /** `process_zip_extremes_by_state` for the list of states the store reported. */
  function ZipExtremesByState(states: seq<string>, start: string, end: string, query: string -> Answer): seq<Record>
  {
    if states == [] then []
    else StateExtremes(states[0], start, end, query) + ZipExtremesByState(states[1..], start, end, query)
  }

  /** Every extreme carries the state it was queried for. */
  lemma {:induction false} ZipExtremesCarryState(states: seq<string>, start: string, end: string, query: string -> Answer)
    ensures forall r :: r in ZipExtremesByState(states, start, end, query) ==>
      "state" in r && exists s :: s in states && r["state"] == Str(s)
  {
    if states != [] {
      ZipExtremesCarryState(states[1..], start, end, query);
      var head := StateExtremes(states[0], start, end, query);
      forall r | r in ZipExtremesByState(states, start, end, query)
        ensures "state" in r && exists s :: s in states && r["state"] == Str(s)
      {
        if r in head {
          var j :| 0 <= j < |head| && head[j] == r;
          assert states[0] in states;
        } else {
          assert r in ZipExtremesByState(states[1..], start, end, query);
          var s :| s in states[1..] && r["state"] == Str(s);
          assert s in states;
        }
      }
    }
  }

  /** Setting the state on a list of extremes keeps exactly those extremes. */
  lemma WithStateMembers(extremes: seq<Record>, state: string)
    ensures forall r :: r in WithState(extremes, state) <==> exists e :: e in extremes && r == e["state" := Str(state)]
  {
    var r := WithState(extremes, state);
    forall x | x in r ensures exists e :: e in extremes && x == e["state" := Str(state)] {
      var j :| 0 <= j < |r| && r[j] == x;
      assert extremes[j] in extremes;
    }
    forall e | e in extremes ensures e["state" := Str(state)] in r {
      var j :| 0 <= j < |extremes| && extremes[j] == e;
      assert r[j] == e["state" := Str(state)];
    }
  }

  /** The records of one state are exactly its extremes, each with `state` set. */
  lemma StateExtremesMembers(state: string, start: string, end: string, query: string -> Answer)
    ensures forall r :: r in StateExtremes(state, start, end, query) <==>
      exists e :: e in ExtremesOf(state, start, end, query) && r == e["state" := Str(state)]
  {
    WithStateMembers(ExtremesOf(state, start, end, query), state);
  }

  /** The records are exactly those of the listed states; with
      `StateExtremesMembers`, each is an extreme of its state with that state set. */
  lemma {:induction false} ZipExtremesMembers(states: seq<string>, start: string, end: string, query: string -> Answer)
    ensures forall r :: r in ZipExtremesByState(states, start, end, query) <==>
      exists s :: s in states && r in StateExtremes(s, start, end, query)
  {
    if states != [] {
      ZipExtremesMembers(states[1..], start, end, query);
      var head := StateExtremes(states[0], start, end, query);
      var rest := ZipExtremesByState(states[1..], start, end, query);
      assert ZipExtremesByState(states, start, end, query) == head + rest;
      forall r | r in head + rest
        ensures exists s :: s in states && r in StateExtremes(s, start, end, query)
      {
        if r in head {
          assert states[0] in states;
        } else {
          var s :| s in states[1..] && r in StateExtremes(s, start, end, query);
          assert s in states;
        }
      }
      forall s, r | s in states && r in StateExtremes(s, start, end, query)
        ensures r in head + rest
      {
        if s != states[0] {
          assert s in states[1..];
        }
      }
    }
  }

  /** The per-state results are concatenated in state order. */
  lemma {:induction false} ZipExtremesConcatenate(states: seq<string>, more: seq<string>, start: string, end: string, query: string -> Answer)
    ensures ZipExtremesByState(states + more, start, end, query) ==
      ZipExtremesByState(states, start, end, query) + ZipExtremesByState(more, start, end, query)
  {
    if states != [] {
      ZipExtremesConcatenate(states[1..], more, start, end, query);
      var head := StateExtremes(states[0], start, end, query);
      var rest := ZipExtremesByState(states[1..], start, end, query);
      var tail := ZipExtremesByState(more, start, end, query);
      TailOfConcat(states, more);
      assert ZipExtremesByState(states + more, start, end, query) == head + (rest + tail);
      ConcatAssociates(head, rest, tail);
    } else {
      assert states + more == more;
    }
  }

  // ---------------------------------------------------------------- points

  /** The tags of an analytics point: the hour, plus `zip_code` and `state` when
      the record has them. */
  function AnalyticsTags(hour: Value, data: Record): map<string, Value>
  {
    var t := map["hour" := hour];
    var t := if "zip_code" in data then t["zip_code" := data["zip_code"]] else t;
    if "state" in data then t["state" := data["state"]] else t
  }

  /** The fields of an analytics point: every other key of the record. */
  function AnalyticsFields(data: Record): map<string, Value>
  {
    map k | k in data && k != "zip_code" && k != "state" :: data[k]
  }

  /** The point `send_analytics_to_influxdb` builds for one record. */
  function AnalyticsPoint(hour: Value, data: Record, measurement: string): Point
  {
    Point(measurement, AnalyticsTags(hour, data), AnalyticsFields(data), Str("2023-09-19T" + HourText(hour) + ":00:00Z"))
  }

  /** Each key of a record lands in exactly one place with its value unchanged:
      `zip_code` and `state` as tags, every other key as a field; the only other
      tag is the hour. */
  lemma AnalyticsSplit(hour: Value, data: Record, measurement: string)
    ensures var p := AnalyticsPoint(hour, data, measurement);
      && p.tags.Keys == {"hour"} + (data.Keys * {"zip_code", "state"})
      && p.tags["hour"] == hour
      && (forall k :: k in data && (k == "zip_code" || k == "state") ==> p.tags[k] == data[k])
      && p.fields.Keys == data.Keys - {"zip_code", "state"}
      && (forall k :: k in p.fields ==> p.fields[k] == data[k])
  {
  }

  /** The points of a list of analytics records, in order. */
  function AnalyticsPoints(hour: Value, data: seq<Record>, measurement: string): (points: seq<Point>)
    ensures |points| == |data|
  {
    seq(|data|, i requires 0 <= i < |data| => AnalyticsPoint(hour, data[i], measurement))
  }

  /** One call of `send_analytics_to_influxdb`, made only for a non-empty list. */
  function WriteIfAny(hour: Value, data: seq<Record>, measurement: string): seq<seq<Point>>
  {
    if data != [] then [AnalyticsPoints(hour, data, measurement)] else []
  }

  /** The averages `process_hourly_data` computes. */
  function HourAverages(hour: int, query: string -> Answer): seq<Record>
  {
    GetStateAverages(StateAverageQueries(Metrics, StartTime(hour), EndTime(hour)), query, Metrics)
  }

  /** The extremes `process_hourly_data` computes; none when listing the states raised. */
  function HourExtremes(hour: int, query: string -> Answer, states: Option<seq<string>>): seq<Record>
  {
    if states.None? then [] else ZipExtremesByState(states.value, StartTime(hour), EndTime(hour), query)
  }

  /** The writes `process_hourly_data` attempts: the averages, then the extremes,
      each only when non-empty. */
  function HourlyWrites(hour: int, query: string -> Answer, states: Option<seq<string>>): seq<seq<Point>>
  {
    WriteIfAny(PaddedHour(hour), HourAverages(hour, query), "weather_averages")
      + WriteIfAny(PaddedHour(hour), HourExtremes(hour, query, states), "zip_code_extremes")
  }

  /** A write is made exactly for a non-empty list, and every point of it carries
      the measurement, the hour tag and the hour's timestamp. */
  lemma WriteIfAnyShape(hour: Value, data: seq<Record>, measurement: string)
    ensures |WriteIfAny(hour, data, measurement)| == if data == [] then 0 else 1
    ensures forall w :: w in WriteIfAny(hour, data, measurement) ==> |w| == |data| > 0
    ensures forall w, p :: w in WriteIfAny(hour, data, measurement) && p in w ==>
      && p.measurement == measurement
      && "hour" in p.tags && p.tags["hour"] == hour
      && p.time == Str("2023-09-19T" + HourText(hour) + ":00:00Z")
  {
    if data != [] {
      var w := AnalyticsPoints(hour, data, measurement);
      assert WriteIfAny(hour, data, measurement) == [w];
      forall p | p in w
        ensures && p.measurement == measurement
                && "hour" in p.tags && p.tags["hour"] == hour
                && p.time == Str("2023-09-19T" + HourText(hour) + ":00:00Z")
      {
        var i :| 0 <= i < |data| && w[i] == p;
        assert p == AnalyticsPoint(hour, data[i], measurement);
      }
    }
  }

  /** At most two writes, none of them empty, the averages one first; every point
      is tagged with the padded hour and, for an hour of the day, stamped with the
      start of its window. */
  lemma HourlyWritesShape(hour: int, query: string -> Answer, states: Option<seq<string>>)
    ensures var ws := HourlyWrites(hour, query, states);
      && |ws| <= 2
      && (forall w :: w in ws ==> |w| > 0)
      && (forall w, p :: w in ws && p in w ==>
            && "hour" in p.tags && p.tags["hour"] == PaddedHour(hour)
            && (p.measurement == "weather_averages" || p.measurement == "zip_code_extremes")
            && (0 <= hour ==> p.time == Str(StartTime(hour))))
      && (|ws| == 2 ==> ws[0][0].measurement == "weather_averages" && ws[1][0].measurement == "zip_code_extremes")
  {
    TwoWritesShape(hour, HourAverages(hour, query), HourExtremes(hour, query, states));
  }

  lemma TwoWritesShape(hour: int, averages: seq<Record>, extremes: seq<Record>)
    ensures var ws := WriteIfAny(PaddedHour(hour), averages, "weather_averages")
                        + WriteIfAny(PaddedHour(hour), extremes, "zip_code_extremes");
      && |ws| <= 2
      && (forall w :: w in ws ==> |w| > 0)
      && (forall w, p :: w in ws && p in w ==>
            && "hour" in p.tags && p.tags["hour"] == PaddedHour(hour)
            && (p.measurement == "weather_averages" || p.measurement == "zip_code_extremes")
            && (0 <= hour ==> p.time == Str(StartTime(hour))))
      && (|ws| == 2 ==> ws[0][0].measurement == "weather_averages" && ws[1][0].measurement == "zip_code_extremes")
  {
    PaddedHourTimestamp(hour);
    var a := WriteIfAny(PaddedHour(hour), averages, "weather_averages");
    var e := WriteIfAny(PaddedHour(hour), extremes, "zip_code_extremes");
    WriteIfAnyShape(PaddedHour(hour), averages, "weather_averages");
    WriteIfAnyShape(PaddedHour(hour), extremes, "zip_code_extremes");
    assert forall w :: w in a + e ==> w in a || w in e;
    if |a + e| == 2 {
      assert (a + e)[0] == a[0] && a[0][0] in a[0];
      assert (a + e)[1] == e[0] && e[0][0] in e[0];
    }
  }

  /** The writes among `ws`, attempted from the `k`-th on, that the store refused,
      in order. */
  function Rejected<W>(accepts: nat -> bool, k: nat, ws: seq<W>): seq<W>
    decreases |ws|
  {
    if ws == [] then [] else (if accepts(k) then [] else [ws[0]]) + Rejected(accepts, k + 1, ws[1..])
  }

  /** The refused writes of two runs of attempts, one after the other. */
  lemma {:induction false} RejectedAppend<W>(accepts: nat -> bool, k: nat, a: seq<W>, b: seq<W>)
    ensures Rejected(accepts, k, a + b) == Rejected(accepts, k, a) + Rejected(accepts, k + |a|, b)
    decreases |a|
  {
    if a == [] {
      assert a + b == b;
    } else {
      RejectedAppend(accepts, k + 1, a[1..], b);
      TailOfConcat(a, b);
      ConcatAssociates(if accepts(k) then [] else [a[0]], Rejected(accepts, k + 1, a[1..]), Rejected(accepts, k + |a|, b));
    }
  }

  /** Refused writes are writes that were attempted, none more than attempted, and
      all of them when the store refuses everything. */
  lemma {:induction false} RejectedAreAttempted<W>(accepts: nat -> bool, k: nat, ws: seq<W>)
    ensures |Rejected(accepts, k, ws)| <= |ws|
    ensures forall w :: w in Rejected(accepts, k, ws) ==> w in ws
    ensures (forall j :: k <= j < k + |ws| ==> !accepts(j)) ==> Rejected(accepts, k, ws) == ws
    ensures (forall j :: k <= j < k + |ws| ==> accepts(j)) ==> Rejected(accepts, k, ws) == []
    decreases |ws|
  {
    if ws != [] {
      RejectedAreAttempted(accepts, k + 1, ws[1..]);
      assert ws == [ws[0]] + ws[1..];
    }
  }

  /** The refusals of two runs of attempts, one after the other, as one run. */
  lemma ComposeRejected<W>(accepts: nat -> bool, a0: seq<W>, p0: seq<W>, first: seq<W>, second: seq<W>)
    ensures (p0 + Rejected(accepts, |a0|, first)) + Rejected(accepts, |a0 + first|, second)
         == p0 + Rejected(accepts, |a0|, first + second)
  {
    var x := Rejected(accepts, |a0|, first);
    var y := Rejected(accepts, |a0| + |first|, second);
    var z := Rejected(accepts, |a0|, first + second);
    RejectedAppend(accepts, |a0|, first, second);
    assert z == x + y;
    assert |a0 + first| == |a0| + |first|;
    ConcatAssociates(p0, x, y);
  }

  // ---------------------------------------------------------------- the node

  /** The processor's state: the failure queue `pending_data` and the writes it
      attempted; `accepts(k)` is whether the k-th `write_points` call succeeds. */
  class ProcessorNode {
    const accepts: nat -> bool

    /** `pending_data.queue`: appended to on a failed write, never drained. */
    var pending: seq<seq<Point>>
    var attempts: seq<seq<Point>>

    constructor (accepts: nat -> bool)
      ensures this.accepts == accepts
      ensures pending == [] && attempts == []
    {
      this.accepts := accepts;
      pending, attempts := [], [];
    }

    /** The loop of `send_analytics_to_influxdb`: one point per record, in order. */
    static method BuildAnalyticsPoints(hour: Value, data: seq<Record>, measurement: string) returns (points: seq<Point>)
      ensures points == AnalyticsPoints(hour, data, measurement)
    {
      points := [];
      var i := 0;
      while i < |data|
        invariant 0 <= i <= |data|
        invariant points == AnalyticsPoints(hour, data[..i], measurement)
      {
        var d := data[i];
        var fields := map k | k in d && k != "zip_code" && k != "state" :: d[k];
        var tags := map["hour" := hour];
        if "zip_code" in d {
          tags := tags["zip_code" := d["zip_code"]];
        }
        if "state" in d {
          tags := tags["state" := d["state"]];
        }
        assert Point(measurement, tags, fields, Str("2023-09-19T" + HourText(hour) + ":00:00Z")) == AnalyticsPoint(hour, d, measurement);
        assert data[..i + 1] == data[..i] + [d];
        points := points + [Point(measurement, tags, fields, Str("2023-09-19T" + HourText(hour) + ":00:00Z"))];
        i := i + 1;
      }
      assert data[..i] == data;
    }

    /** `send_analytics_to_influxdb`: one write of all the points; on failure exactly
        that list is appended to `pending_data`, on success it is left alone. */
    method SendAnalytics(hour: Value, data: seq<Record>, measurement: string)
      modifies this`attempts, this`pending
      ensures attempts == old(attempts) + [AnalyticsPoints(hour, data, measurement)]
      ensures pending == if accepts(|old(attempts)|) then old(pending) else old(pending) + [AnalyticsPoints(hour, data, measurement)]
    {
      var points := BuildAnalyticsPoints(hour, data, measurement);
      var ok := accepts(|attempts|);
      attempts := attempts + [points];
      if !ok {
        pending := pending + [points];
      }
    }

    /** `if data: send_analytics_to_influxdb(...)`. */
    method SendIfAny(hour: Value, data: seq<Record>, measurement: string)
      modifies this`attempts, this`pending
      ensures attempts == old(attempts) + WriteIfAny(hour, data, measurement)
      ensures pending == old(pending) + Rejected(accepts, |old(attempts)|, WriteIfAny(hour, data, measurement))
    {
      if data != [] {
        SendAnalytics(hour, data, measurement);
      }
    }

    /** `process_hourly_data(hour)`. `query` answers the analysis queries and
        `states` is the answer to the store's state-listing query (`None`: it
        raised, which nothing in the processor catches, after the averages were
        written). `pending_data` grows by exactly the writes of this hour the
        store refused, in order. */
    method ProcessHourlyData(hour: int, query: string -> Answer, states: Option<seq<string>>) returns (crashed: bool)
      modifies this`attempts, this`pending
      ensures crashed <==> states.None?
      ensures attempts == old(attempts) + HourlyWrites(hour, query, states)
      ensures pending == old(pending) + Rejected(accepts, |old(attempts)|, HourlyWrites(hour, query, states))
    {
      var averages := HourAverages(hour, query);
      var padded := PaddedHour(hour);
      ghost var a0, p0 := attempts, pending;
      ghost var first := WriteIfAny(padded, averages, "weather_averages");
      SendIfAny(padded, averages, "weather_averages");
      if states.None? {
        assert HourlyWrites(hour, query, states) == first + [];
        ComposeRejected(accepts, a0, p0, first, []);
        ConcatAssociates(a0, first, []);
        return true;
      }
      var extremes := HourExtremes(hour, query, states);
      ghost var second := WriteIfAny(padded, extremes, "zip_code_extremes");
      SendIfAny(padded, extremes, "zip_code_extremes");
      assert HourlyWrites(hour, query, states) == first + second;
      ComposeRejected(accepts, a0, p0, first, second);
      ConcatAssociates(a0, first, second);
      return false;
    }
  }
}
