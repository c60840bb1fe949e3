/** `app:fetch-ga4`: replaces the contents of `ga4_snapshots` with three Google Analytics 4
    reports: page metrics for the last 28 days, the same metrics for the 28 days before,
    and landing-page metrics for the last 28 days. The Data API is a parameter returning
    the decoded response to a `runReport` request. */
module Ga4 {
  import opened Base
  import opened PhpText
  import opened PhpJson
  import opened Ingest

  /** The metrics the page report asks for, in the order the response lists them. */
  const PageMetrics: seq<string> :=
    ["sessions", "screenPageViews", "bounceRate", "averageSessionDuration", "engagedSessions", "conversions"]

  /** The metrics the landing-page report asks for. */
  const LandingMetrics: seq<string> :=
    ["sessions", "bounceRate", "averageSessionDuration", "engagedSessions", "conversions"]

  /** A `runReport` request: the property, the bearer token, one dimension, the metrics,
      the date range and the row limit; rows are ordered by sessions, descending. */
  datatype Ga4Request = Ga4Request(
    propertyId: string,
    token: Json,
    dimension: string,
    metrics: seq<string>,
    window: Window,
    limit: nat)

  type Ga4Api = Ga4Request -> Json

  /** fetchGA4Pages' request: `days` days ending `offset + 1` days ago, up to 500 pages. */
  function PagesRequest(propertyId: string, token: Json, today: int, days: int, offset: int): Ga4Request {
    Ga4Request(propertyId, token, "pagePath", PageMetrics, DateWindow(today, days, offset), 500)
  }

  /** fetchGA4LandingPages' request: the last `days` days, up to 200 landing pages. */
  function LandingRequest(propertyId: string, token: Json, today: int, days: int): Ga4Request {
    Ga4Request(propertyId, token, "landingPage", LandingMetrics, RecentWindow(today, days), 200)
  }

  /** One page of a report as the fetch functions return it. The landing-page report has
      no page views. */
  datatype Ga4Row = Ga4Row(
    pagePath: Json,
    sessions: int,
    pageviews: Option<int>,
    bounceRate: real,
    avgEngagementTime: real,
    engagedSessions: int,
    conversions: int)

  /** `$row['metricValues'][$i]['value'] ?? 0`. */
  function MetricAt(row: Json, i: nat): Json {
    AtOr(row, [Key("metricValues"), Index(i), Key("value")], Num(0.0))
  }

  /** `$row['dimensionValues'][0]['value'] ?? '/'`. */
  function PathOf(row: Json): (path: Json)
    ensures path != Null
    ensures At(row, [Key("dimensionValues"), Index(0), Key("value")]).None? ==> path == Str("/")
  {
    AtOr(row, [Key("dimensionValues"), Index(0), Key("value")], Str("/"))
  }

  /** A page-report row: metrics 0..5 are sessions, page views, bounce rate, average
      session duration, engaged sessions and conversions. */
  function PageRowOf(row: Json): (r: Ga4Row)
    ensures r.pagePath == PathOf(row) && r.pageviews.Some?
  {
    Ga4Row(
      PathOf(row),
      IntVal(MetricAt(row, 0)),
      Some(IntVal(MetricAt(row, 1))),
      RoundTo(FloatVal(MetricAt(row, 2)), 10000.0),
      RoundTo(FloatVal(MetricAt(row, 3)), 10.0),
      IntVal(MetricAt(row, 4)),
      IntVal(MetricAt(row, 5)))
  }

  /** A landing-page row: metrics 0..4 are sessions, bounce rate, average session duration,
      engaged sessions and conversions. */
  function LandingRowOf(row: Json): (r: Ga4Row)
    ensures r.pagePath == PathOf(row) && r.pageviews.None?
  {
    Ga4Row(
      PathOf(row),
      IntVal(MetricAt(row, 0)),
      None,
      RoundTo(FloatVal(MetricAt(row, 1)), 10000.0),
      RoundTo(FloatVal(MetricAt(row, 2)), 10.0),
      IntVal(MetricAt(row, 3)),
      IntVal(MetricAt(row, 4)))
  }

  /** The position of a metric's name in a request's metric list. */
  function Position(names: seq<string>, name: string): (i: nat)
    requires name in names
    ensures i < |names| && names[i] == name
  {
    if names[0] == name then 0 else 1 + Position(names[1..], name)
  }

  /** Both reports read each metric from the position its name has in the request, so the
      two layouts agree on every metric they share. */
  lemma MetricsReadByName(row: Json)
    ensures PageRowOf(row).sessions == IntVal(MetricAt(row, Position(PageMetrics, "sessions")))
    ensures PageRowOf(row).pageviews == Some(IntVal(MetricAt(row, Position(PageMetrics, "screenPageViews"))))
    ensures PageRowOf(row).bounceRate == RoundTo(FloatVal(MetricAt(row, Position(PageMetrics, "bounceRate"))), 10000.0)
    ensures PageRowOf(row).avgEngagementTime == RoundTo(FloatVal(MetricAt(row, Position(PageMetrics, "averageSessionDuration"))), 10.0)
    ensures PageRowOf(row).engagedSessions == IntVal(MetricAt(row, Position(PageMetrics, "engagedSessions")))
    ensures PageRowOf(row).conversions == IntVal(MetricAt(row, Position(PageMetrics, "conversions")))
    ensures LandingRowOf(row).sessions == IntVal(MetricAt(row, Position(LandingMetrics, "sessions")))
    ensures LandingRowOf(row).bounceRate == RoundTo(FloatVal(MetricAt(row, Position(LandingMetrics, "bounceRate"))), 10000.0)
    ensures LandingRowOf(row).avgEngagementTime == RoundTo(FloatVal(MetricAt(row, Position(LandingMetrics, "averageSessionDuration"))), 10.0)
    ensures LandingRowOf(row).engagedSessions == IntVal(MetricAt(row, Position(LandingMetrics, "engagedSessions")))
    ensures LandingRowOf(row).conversions == IntVal(MetricAt(row, Position(LandingMetrics, "conversions")))
  {
    assert Position(PageMetrics, "sessions") == 0;
    assert Position(PageMetrics, "screenPageViews") == 1;
    assert Position(PageMetrics, "bounceRate") == 2;
    assert Position(PageMetrics, "averageSessionDuration") == 3;
    assert Position(PageMetrics, "engagedSessions") == 4;
    assert Position(PageMetrics, "conversions") == 5;
    assert Position(LandingMetrics, "sessions") == 0;
    assert Position(LandingMetrics, "bounceRate") == 1;
    assert Position(LandingMetrics, "averageSessionDuration") == 2;
    assert Position(LandingMetrics, "engagedSessions") == 3;
    assert Position(LandingMetrics, "conversions") == 4;
  }

  /** A row without dimension or metric values is the root page with every metric zero. */
  lemma EmptyRowDefaults()
    ensures PageRowOf(Object([])) == Ga4Row(Str("/"), 0, Some(0), 0.0, 0.0, 0, 0)
    ensures LandingRowOf(Object([])) == Ga4Row(Str("/"), 0, None, 0.0, 0.0, 0, 0)
  {
    assert Get(Object([]), Key("metricValues")).None?;
    assert Get(Object([]), Key("dimensionValues")).None?;
    assert forall i: nat :: MetricAt(Object([]), i) == Num(0.0);
    assert PathOf(Object([])) == Str("/");
    assert IntVal(Num(0.0)) == 0;
    assert RoundTo(FloatVal(Num(0.0)), 10000.0) == 0.0;
    assert RoundTo(FloatVal(Num(0.0)), 10.0) == 0.0;
  }

  /** Each metric value missing from a row is read as zero, whatever the others are. */
  lemma MissingMetricsAreZero(row: Json)
    ensures At(row, [Key("metricValues"), Index(0), Key("value")]).None? ==>
      PageRowOf(row).sessions == 0 && LandingRowOf(row).sessions == 0
    ensures At(row, [Key("metricValues"), Index(1), Key("value")]).None? ==>
      PageRowOf(row).pageviews == Some(0) && LandingRowOf(row).bounceRate == 0.0
    ensures At(row, [Key("metricValues"), Index(2), Key("value")]).None? ==>
      PageRowOf(row).bounceRate == 0.0 && LandingRowOf(row).avgEngagementTime == 0.0
    ensures At(row, [Key("metricValues"), Index(3), Key("value")]).None? ==>
      PageRowOf(row).avgEngagementTime == 0.0 && LandingRowOf(row).engagedSessions == 0
    ensures At(row, [Key("metricValues"), Index(4), Key("value")]).None? ==>
      PageRowOf(row).engagedSessions == 0 && LandingRowOf(row).conversions == 0
    ensures At(row, [Key("metricValues"), Index(5), Key("value")]).None? ==> PageRowOf(row).conversions == 0
  {
    assert IntVal(Num(0.0)) == 0;
    assert RoundHalfAway(0.0) == 0;
  }

  /** Counts sent as digit strings, as the Data API sends them, are read exactly. */
  lemma SessionsReadExactly(row: Json, sessions: string)
    requires forall i :: 0 <= i < |sessions| ==> IsDigit(sessions[i])
    requires At(row, [Key("metricValues"), Index(0), Key("value")]) == Some(Str(sessions))
    ensures PageRowOf(row).sessions == DigitsValue(sessions)
    ensures LandingRowOf(row).sessions == DigitsValue(sessions)
  {
    DigitStringIsExact(sessions);
  }

  /** The rows `foreach ($data['rows'] ?? [] as $row)` visits. */
  function ResponseRows(data: Json): seq<Json> {
    Elements(AtOr(data, [Key("rows")], List([])))
  }

  /** The result of a fetch function: one row per response row, in order. */
  function RowsOf(data: Json, rowOf: Json -> Ga4Row): (rs: seq<Ga4Row>)
    ensures |rs| == |ResponseRows(data)|
    ensures forall i :: 0 <= i < |rs| ==> rs[i] == rowOf(ResponseRows(data)[i])
  {
    var rows := ResponseRows(data);
    seq(|rows|, i requires 0 <= i < |rows| => rowOf(rows[i]))
  }

  /** The loop of both fetch functions: `$results[] = [...]` for each response row. */
  method CollectRows(data: Json, rowOf: Json -> Ga4Row) returns (results: seq<Ga4Row>)
    ensures results == RowsOf(data, rowOf)
  {
    var rows := ResponseRows(data);
    results := [];
    for i := 0 to |rows|
      invariant |results| == i
      invariant forall k :: 0 <= k < i ==> results[k] == rowOf(rows[k])
    {
      results := results + [rowOf(rows[i])];
    }
  }

  method FetchGa4Pages(api: Ga4Api, token: Json, propertyId: string, today: int, days: int, offset: int)
    returns (request: Ga4Request, results: seq<Ga4Row>)
    ensures request == PagesRequest(propertyId, token, today, days, offset)
    ensures results == RowsOf(api(request), PageRowOf)
  {
    request := PagesRequest(propertyId, token, today, days, offset);
    results := CollectRows(api(request), PageRowOf);
  }

  method FetchGa4LandingPages(api: Ga4Api, token: Json, propertyId: string, today: int, days: int)
    returns (request: Ga4Request, results: seq<Ga4Row>)
    ensures request == LandingRequest(propertyId, token, today, days)
    ensures results == RowsOf(api(request), LandingRowOf)
  {
    request := LandingRequest(propertyId, token, today, days);
    results := CollectRows(api(request), LandingRowOf);
  }

  /** The comparison period is the 28 days right before the current one: both are 28 days
      long, they do not overlap, the previous one ends the day before the current one
      starts, and the current one ends yesterday. The landing-page report covers the
      current period. */
  lemma PeriodsAreAdjacent(propertyId: string, token: Json, today: int)
    ensures var current := PagesRequest(propertyId, token, today, 28, 0).window;
      var previous := PagesRequest(propertyId, token, today, 28, 28).window;
      && current.end == today - 1
      && current.end - current.start + 1 == 28 && previous.end - previous.start + 1 == 28
      && previous.end + 1 == current.start
      && LandingRequest(propertyId, token, today, 28).window == current
  {
  }

  /** The three sets of rows, in the order the command stores them. */
  datatype Period = Current | Previous | Landing {
    function Label(): string {
      match this
      case Current => "28d"
      case Previous => "28d_previous"
      case Landing => "28d_landing"
    }

    function Rank(): nat {
      match this
      case Current => 0
      case Previous => 1
      case Landing => 2
    }
  }

  /** A `ga4_snapshots` row. */
  datatype Ga4Record = Ga4Record(
    pagePath: Json,
    sessions: int,
    pageviews: int,
    bounceRate: real,
    avgEngagementTime: real,
    engagedSessions: int,
    conversions: int,
    dateRange: string,
    fetchedAt: int)

  /** The insert for one fetched row: landing pages are stored with zero page views. */
  function RecordOf(row: Ga4Row, period: Period, now: int): (r: Ga4Record)
    ensures r.dateRange == period.Label() && r.fetchedAt == now
    ensures r.pagePath == row.pagePath && r.sessions == row.sessions && r.conversions == row.conversions
    ensures r.bounceRate == row.bounceRate && r.avgEngagementTime == row.avgEngagementTime
    ensures r.engagedSessions == row.engagedSessions
    ensures period == Landing ==> r.pageviews == 0
    ensures period != Landing && row.pageviews.Some? ==> r.pageviews == row.pageviews.value
  {
    Ga4Record(
      row.pagePath,
      row.sessions,
      if period == Landing then 0 else row.pageviews.GetOr(0),
      row.bounceRate,
      row.avgEngagementTime,
      row.engagedSessions,
      row.conversions,
      period.Label(),
      now)
  }

  /** The stored rows of one period. */
  function PeriodRecords(rows: seq<Ga4Row>, period: Period, now: int): seq<Ga4Record> {
    MapRows(rows, row => RecordOf(row, period, now))
  }

  /** One stored row per fetched row, in order. */
  lemma PeriodRecordsAt(rows: seq<Ga4Row>, period: Period, now: int)
    ensures |PeriodRecords(rows, period, now)| == |rows|
    ensures forall i :: 0 <= i < |rows| ==> PeriodRecords(rows, period, now)[i] == RecordOf(rows[i], period, now)
  {
  }

  /** The position of a stored row's period, read back from its `date_range`. */
  function PeriodRank(r: Ga4Record): nat {
    match r.dateRange
    case "28d" => 0
    case "28d_previous" => 1
    case _ => 2
  }

  lemma PeriodRecordsRank(rows: seq<Ga4Row>, period: Period, now: int)
    ensures forall i :: 0 <= i < |rows| ==> PeriodRank(PeriodRecords(rows, period, now)[i]) == period.Rank()
  {
  }

  /** The three reports' rows as fetched. */
  datatype Reports = Reports(current: seq<Ga4Row>, previous: seq<Ga4Row>, landing: seq<Ga4Row>)

  function FetchReports(api: Ga4Api, propertyId: string, token: Json, today: int): Reports {
    Reports(
      RowsOf(api(PagesRequest(propertyId, token, today, 28, 0)), PageRowOf),
      RowsOf(api(PagesRequest(propertyId, token, today, 28, 28)), PageRowOf),
      RowsOf(api(LandingRequest(propertyId, token, today, 28)), LandingRowOf))
  }

  /** What `ga4_snapshots` holds after a successful run: the three periods' rows in turn. */
  function Snapshot(reports: Reports, now: int): seq<Ga4Record> {
    PeriodRecords(reports.current, Current, now) + PeriodRecords(reports.previous, Previous, now)
      + PeriodRecords(reports.landing, Landing, now)
  }

  /** The table's rows are grouped current, previous, landing, one per row of the three
      reports. */
  lemma SnapshotGrouped(reports: Reports, now: int)
    ensures GroupedBy(Snapshot(reports, now), PeriodRank)
    ensures |Snapshot(reports, now)| == |reports.current| + |reports.previous| + |reports.landing|
  {
    var a := PeriodRecords(reports.current, Current, now);
    var b := PeriodRecords(reports.previous, Previous, now);
    var c := PeriodRecords(reports.landing, Landing, now);
    PeriodRecordsRank(reports.current, Current, now);
    PeriodRecordsRank(reports.previous, Previous, now);
    PeriodRecordsRank(reports.landing, Landing, now);
    FourGroupsInTurn(a, b, c, [], PeriodRank);
    assert a + b + c + [] == a + b + c;
  }

  /** The columns ensureSchema adds when they are missing. */
  const AddedColumns: set<string> := {"avg_engagement_time", "engaged_sessions", "date_range"}

  /** The `ga4_snapshots` table: its columns and its rows. */
  class Ga4Snapshots {
    var columns: set<string>
    var rows: seq<Ga4Record>

    constructor (columns: set<string>, rows: seq<Ga4Record>)
      ensures this.columns == columns && this.rows == rows
    {
      this.columns := columns;
      this.rows := rows;
    }

    /** ensureSchema: adds each of the three columns that is missing. */
    method EnsureSchema()
      modifies this
      ensures columns == old(columns) + AddedColumns
      ensures rows == old(rows)
    {
      if "avg_engagement_time" !in columns {
        columns := columns + {"avg_engagement_time"};
      }
      if "engaged_sessions" !in columns {
        columns := columns + {"engaged_sessions"};
      }
      if "date_range" !in columns {
        columns := columns + {"date_range"};
      }
    }

    /** DELETE FROM ga4_snapshots. */
    method Clear()
      modifies this
      ensures rows == [] && columns == old(columns)
    {
      rows := [];
    }

    /** One insert per stored row of a period, in order; returns how many were inserted. */
    method InsertRows(records: seq<Ga4Record>) returns (count: nat)
      modifies this
      ensures rows == old(rows) + records
      ensures count == |records| && columns == old(columns)
    {
      count := 0;
      for i := 0 to |records|
        invariant rows == old(rows) + records[..i]
        invariant count == i && columns == old(columns)
      {
        assert records[..i + 1] == records[..i] + [records[i]];
        rows := rows + [records[i]];
        count := count + 1;
      }
      assert records[..|records|] == records;
    }
  }

  /** The command's environment: the OAuth settings and the property id. */
  datatype Ga4Env = Ga4Env(clientId: Option<string>, clientSecret: Option<string>, refreshToken: Option<string>, propertyId: Option<string>)

  predicate HasSettings(env: Ga4Env) {
    IsSetting(env.clientId) && IsSetting(env.clientSecret) && IsSetting(env.refreshToken) && IsSetting(env.propertyId)
  }

  function RefreshForm(env: Ga4Env): OAuthRefresh {
    OAuthRefresh(env.clientId.GetOr(""), env.clientSecret.GetOr(""), env.refreshToken.GetOr(""))
  }

  /** The run's exit status, the requests it sent, and the number of rows it saved. */
  datatype Outcome = Outcome(code: ExitCode, calls: seq<Call<Ga4Request>>, totalRows: nat)

  /** execute: settings, token, schema, clear, then the three reports. Missing settings
      fail before any request and any change; a token response without an access token
      fails after that one request, before any change; otherwise the table holds exactly
      the three reports' rows. */
  method Execute(db: Ga4Snapshots, env: Ga4Env, tokenEndpoint: TokenEndpoint, api: Ga4Api, today: int, now: int)
    returns (outcome: Outcome)
    modifies db
    ensures !HasSettings(env) ==>
      outcome == Outcome(Failure, [], 0) && db.rows == old(db.rows) && db.columns == old(db.columns)
    ensures HasSettings(env) && AccessToken(tokenEndpoint(RefreshForm(env))).None? ==>
      outcome == Outcome(Failure, [TokenCall(RefreshForm(env))], 0)
      && db.rows == old(db.rows) && db.columns == old(db.columns)
    ensures HasSettings(env) && AccessToken(tokenEndpoint(RefreshForm(env))).Some? ==>
      var token := AccessToken(tokenEndpoint(RefreshForm(env))).value;
      var propertyId := env.propertyId.value;
      && outcome.code == Success
      && outcome.calls == [TokenCall(RefreshForm(env)),
                           ReportCall(PagesRequest(propertyId, token, today, 28, 0)),
                           ReportCall(PagesRequest(propertyId, token, today, 28, 28)),
                           ReportCall(LandingRequest(propertyId, token, today, 28))]
      && db.rows == Snapshot(FetchReports(api, propertyId, token, today), now)
      && outcome.totalRows == |db.rows|
      && db.columns == old(db.columns) + AddedColumns
  {
    if !IsSetting(env.clientId) || !IsSetting(env.clientSecret) || !IsSetting(env.refreshToken) || !IsSetting(env.propertyId) {
      return Outcome(Failure, [], 0);
    }
    var propertyId := env.propertyId.value;
    var form := RefreshForm(env);
    var tokenData := tokenEndpoint(form);
    var accessToken := AccessToken(tokenData);
    if accessToken.None? {
      return Outcome(Failure, [TokenCall(form)], 0);
    }
    var token := accessToken.value;
    ghost var reports := FetchReports(api, propertyId, token, today);

    db.EnsureSchema();
    db.Clear();
    var totalRows := 0;

    var currentRequest, currentRows := FetchGa4Pages(api, token, propertyId, today, 28, 0);
    var count := db.InsertRows(PeriodRecords(currentRows, Current, now));
    assert db.rows == PeriodRecords(currentRows, Current, now);
    totalRows := totalRows + count;

    var previousRequest, previousRows := FetchGa4Pages(api, token, propertyId, today, 28, 28);
    count := db.InsertRows(PeriodRecords(previousRows, Previous, now));
    totalRows := totalRows + count;

    var landingRequest, landingRows := FetchGa4LandingPages(api, token, propertyId, today, 28);
    count := db.InsertRows(PeriodRecords(landingRows, Landing, now));
    totalRows := totalRows + count;

    assert reports == Reports(currentRows, previousRows, landingRows);
    outcome := Outcome(Success, [TokenCall(form), ReportCall(currentRequest), ReportCall(previousRequest), ReportCall(landingRequest)], totalRows);
  }
}
