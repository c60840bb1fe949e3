/** `app:fetch-gsc`: replaces the contents of `gsc_snapshots` with four Search Console
    reports (28-day and 90-day query+page rows, 28-day page aggregates, 28-day branded
    queries). The Search Analytics endpoint is a parameter returning the decoded response
    to a request. */
module Gsc {
  import opened Base
  import opened PhpJson
  import opened Ingest

  /** The most rows the Search Analytics API returns per request. */
  const BatchSize: nat := 25000

  /** The row cap of the two query+page reports, and of the page and branded reports. */
  const QueryRowLimit: nat := 25000
  const SmallReportLimit: nat := 5000

  /** The query recorded for page-level aggregate rows, which have no query dimension. */
  const PageAggregate: string := "__PAGE_AGGREGATE__"

  /** The `query contains` filter of the branded report. */
  const BrandFilter: string := "double d"

  /** One Search Analytics request: who asks, for which site and dates, along which
      dimensions, how many rows from which offset, and the query filter if any. */
  datatype GscRequest = GscRequest(
    token: Json,
    siteUrl: string,
    window: Window,
    dimensions: seq<string>,
    queryContains: Option<string>,
    rowLimit: int,
    startRow: Option<int>)

  type SearchApi = GscRequest -> Json

  /** The requests a paged fetch made, and the rows it collected. */
  datatype Fetched = Fetched(requests: seq<GscRequest>, rows: seq<Json>)

  /** The query+page request of `fetchGscData` before its paging fields are set. */
  function QueryPageBase(token: Json, siteUrl: string, today: int, days: int): GscRequest {
    GscRequest(token, siteUrl, RecentWindow(today, days), ["query", "page"], None, 0, None)
  }

  /** The request for the page that starts at `startRow`:
      `rowLimit = min($batchSize, $limit - $startRow)`. */
  function PageRequest(base: GscRequest, limit: int, startRow: int): GscRequest {
    base.(rowLimit := Min(BatchSize, limit - startRow), startRow := Some(startRow))
  }

  /** The rows of every response, concatenated in request order. */
  function AllRows(api: SearchApi, requests: seq<GscRequest>): (rows: seq<Json>)
    decreases |requests|
  {
    if requests == [] then [] else ReportRows(api(requests[0])) + AllRows(api, requests[1..])
  }

  /** The paging of `fetchGscData` from `startRow` on: one request, then another one only
      if this page was full and the next offset is still below `limit`. The rows are those
      of every response, in request order. */
  function Paged(api: SearchApi, base: GscRequest, limit: int, startRow: nat): (f: Fetched)
    ensures |f.requests| >= 1 && f.requests[0] == PageRequest(base, limit, startRow)
    decreases limit - startRow
  {
    var req := PageRequest(base, limit, startRow);
    var page := ReportRows(api(req));
    var next := startRow + |page|;
    if |page| == BatchSize && next < limit then
      var rest := Paged(api, base, limit, next);
      assert ([req] + rest.requests)[1..] == rest.requests;
      Fetched([req] + rest.requests, page + rest.rows)
    else
      Fetched([req], page)
  }

  /** The rows of a paged fetch are those of every response, in request order. */
  lemma {:induction false} PagedRowsInOrder(api: SearchApi, base: GscRequest, limit: int, startRow: nat)
    ensures Paged(api, base, limit, startRow).rows == AllRows(api, Paged(api, base, limit, startRow).requests)
    decreases limit - startRow
  {
    var req := PageRequest(base, limit, startRow);
    var page := ReportRows(api(req));
    if |page| == BatchSize && startRow + |page| < limit {
      var rest := Paged(api, base, limit, startRow + |page|);
      PagedRowsInOrder(api, base, limit, startRow + |page|);
      assert ([req] + rest.requests)[1..] == rest.requests;
    }
  }

  /** One step of the paging: the first request, and the rest of the fetch if its page was
      full and the next offset is below the limit. */
  lemma PagedStep(api: SearchApi, base: GscRequest, limit: int, startRow: nat)
    ensures var page := ReportRows(api(PageRequest(base, limit, startRow)));
      Paged(api, base, limit, startRow) ==
        if |page| == BatchSize && startRow + |page| < limit then
          Fetched([PageRequest(base, limit, startRow)] + Paged(api, base, limit, startRow + |page|).requests,
            page + Paged(api, base, limit, startRow + |page|).rows)
        else Fetched([PageRequest(base, limit, startRow)], page)
  {
  }

  /** Every request asks for `min(25000, limit - startRow)` rows at its own offset. */
  predicate AtOwnOffsets(rs: seq<GscRequest>, base: GscRequest, limit: int) {
    forall i :: 0 <= i < |rs| ==> rs[i].startRow.Some? && rs[i] == PageRequest(base, limit, rs[i].startRow.value)
  }

  /** After the first request, each offset is the previous one plus a full batch, and
      below the limit. */
  predicate AdvancesByBatch(rs: seq<GscRequest>, limit: int)
    requires forall i :: 0 <= i < |rs| ==> rs[i].startRow.Some?
  {
    forall i :: 0 < i < |rs| ==> rs[i].startRow.value == rs[i - 1].startRow.value + BatchSize && rs[i].startRow.value < limit
  }

  /** The requests of a paged fetch are at their own offsets and advance by full batches;
      so every request after the first asks for at least one row. */
  lemma {:induction false} PagedOffsets(api: SearchApi, base: GscRequest, limit: int, startRow: nat)
    ensures AtOwnOffsets(Paged(api, base, limit, startRow).requests, base, limit)
    ensures AdvancesByBatch(Paged(api, base, limit, startRow).requests, limit)
    ensures forall i :: 0 < i < |Paged(api, base, limit, startRow).requests| ==>
      Paged(api, base, limit, startRow).requests[i].rowLimit > 0
    decreases limit - startRow
  {
    var req := PageRequest(base, limit, startRow);
    var page := ReportRows(api(req));
    var next := startRow + |page|;
    var rs := Paged(api, base, limit, startRow).requests;
    if |page| == BatchSize && next < limit {
      PagedOffsets(api, base, limit, next);
      var rest := Paged(api, base, limit, next).requests;
      assert rs == [req] + rest;
      assert AtOwnOffsets(rest, base, limit) && AdvancesByBatch(rest, limit);
      assert rest[0].startRow == Some(next);
      forall i | 0 <= i < |rs| ensures rs[i].startRow.Some? && rs[i] == PageRequest(base, limit, rs[i].startRow.value) {
        if i > 0 {
          assert rs[i] == rest[i - 1];
        }
      }
      forall i | 0 < i < |rs|
        ensures rs[i].startRow.value == rs[i - 1].startRow.value + BatchSize && rs[i].startRow.value < limit
      {
        assert rs[i] == rest[i - 1];
        if i > 1 {
          assert rs[i - 1] == rest[i - 2];
        }
      }
    } else {
      assert rs == [req];
    }
  }

  /** The loop stops exactly when it should: every page but the last was full, and the last
      was short or brought the next offset to the limit. */
  predicate StopsWhenDone(api: SearchApi, rs: seq<GscRequest>, limit: int)
    requires |rs| >= 1 && rs[|rs| - 1].startRow.Some?
  {
    && (forall i :: 0 <= i < |rs| - 1 ==> |ReportRows(api(rs[i]))| == BatchSize)
    && (|ReportRows(api(rs[|rs| - 1]))| != BatchSize || rs[|rs| - 1].startRow.value + BatchSize >= limit)
  }

  lemma {:induction false} PagedStops(api: SearchApi, base: GscRequest, limit: int, startRow: nat)
    ensures Paged(api, base, limit, startRow).requests[|Paged(api, base, limit, startRow).requests| - 1].startRow.Some?
    ensures StopsWhenDone(api, Paged(api, base, limit, startRow).requests, limit)
    decreases limit - startRow
  {
    var req := PageRequest(base, limit, startRow);
    var page := ReportRows(api(req));
    var next := startRow + |page|;
    var rs := Paged(api, base, limit, startRow).requests;
    if |page| == BatchSize && next < limit {
      PagedStops(api, base, limit, next);
      var rest := Paged(api, base, limit, next).requests;
      assert rs == [req] + rest;
      assert rs[|rs| - 1] == rest[|rest| - 1];
      assert StopsWhenDone(api, rest, limit);
      forall i | 0 <= i < |rs| - 1 ensures |ReportRows(api(rs[i]))| == BatchSize {
        if i > 0 {
          assert rs[i] == rest[i - 1];
        }
      }
    } else {
      assert rs == [req];
    }
  }

  /** When the limit is at most one batch beyond the start, a single request is made. */
  lemma PagedOnce(api: SearchApi, base: GscRequest, limit: int, startRow: nat)
    requires limit - startRow <= BatchSize
    ensures Paged(api, base, limit, startRow).requests == [PageRequest(base, limit, startRow)]
  {
  }

  /** If the API never returns more rows than asked for, a paged fetch that starts below
      its limit collects at most `limit - startRow` rows. */
  lemma {:induction false} PagedWithinLimit(api: SearchApi, base: GscRequest, limit: int, startRow: nat)
    requires startRow < limit
    requires forall r: GscRequest :: |ReportRows(api(r))| <= r.rowLimit || r.rowLimit < 0
    ensures |Paged(api, base, limit, startRow).rows| <= limit - startRow
    decreases limit - startRow
  {
    var req := PageRequest(base, limit, startRow);
    var page := ReportRows(api(req));
    assert |page| <= req.rowLimit;
    if |page| == BatchSize && startRow + |page| < limit {
      PagedWithinLimit(api, base, limit, startRow + |page|);
    }
  }

  /** fetchGscData: pages through the query+page report of the last `days` days with the
      source's do-while loop. */
  method FetchGscData(api: SearchApi, token: Json, siteUrl: string, today: int, days: int, limit: int)
    returns (rows: seq<Json>, requests: seq<GscRequest>)
    ensures Fetched(requests, rows) == Paged(api, QueryPageBase(token, siteUrl, today, days), limit, 0)
  {
    var base := QueryPageBase(token, siteUrl, today, days);
    ghost var full := Paged(api, base, limit, 0);
    rows := [];
    requests := [];
    var startRow: nat := 0;
    var more := true;
    while more
      invariant more ==> requests + Paged(api, base, limit, startRow).requests == full.requests
      invariant more ==> rows + Paged(api, base, limit, startRow).rows == full.rows
      invariant !more ==> requests == full.requests && rows == full.rows
      decreases if more then (if limit - startRow > 0 then limit - startRow else 0) + 1 else 0
    {
      var req := PageRequest(base, limit, startRow);
      var page := ReportRows(api(req));
      var next := startRow + |page|;
      ghost var here := Paged(api, base, limit, startRow);
      ghost var before := (requests, rows);
      rows := rows + page;
      requests := requests + [req];
      if |page| == BatchSize && next < limit {
        ghost var rest := Paged(api, base, limit, next);
        PagedStep(api, base, limit, startRow);
        assert requests + rest.requests == before.0 + here.requests;
        assert rows + rest.rows == before.1 + here.rows;
      } else {
        PagedStep(api, base, limit, startRow);
        more := false;
      }
      startRow := next;
    }
  }

  /** The page-aggregate request of `fetchGscPages`. */
  function PagesRequest(token: Json, siteUrl: string, today: int): GscRequest {
    GscRequest(token, siteUrl, RecentWindow(today, 28), ["page"], None, SmallReportLimit, None)
  }

  /** The branded request of `fetchGscBranded`. */
  function BrandedRequest(token: Json, siteUrl: string, today: int): GscRequest {
    GscRequest(token, siteUrl, RecentWindow(today, 28), ["query", "page"], Some(BrandFilter), SmallReportLimit, None)
  }

  /** The four reports, in the order the command stores them. */
  datatype Segment = Days28 | Days90 | Pages28 | Branded28 {
    function Label(): string {
      match this
      case Days28 => "28d"
      case Days90 => "90d"
      case Pages28 => "28d_page"
      case Branded28 => "28d_branded"
    }

    function Rank(): nat {
      match this
      case Days28 => 0
      case Days90 => 1
      case Pages28 => 2
      case Branded28 => 3
    }
  }

  /** A `gsc_snapshots` row. Text and count columns keep the API's value as decoded; ctr
      and position are rounded to 4 and 1 decimals. */
  datatype GscRecord = GscRecord(
    query: Json,
    page: Json,
    clicks: Json,
    impressions: Json,
    ctr: real,
    position: real,
    dateRange: string,
    fetchedAt: int)

  /** The stored row for one API row of a segment. Query+page rows take query and page from
      `keys[0]` and `keys[1]`; page-aggregate rows take the page from `keys[0]` and record
      the fixed query `__PAGE_AGGREGATE__`. */
  function RecordOf(row: Json, segment: Segment, now: int): (r: GscRecord)
    ensures r.dateRange == segment.Label() && r.fetchedAt == now
    ensures segment == Pages28 ==> r.page == AtOr(row, [Key("keys"), Index(0)], Str(""))
    ensures segment != Pages28 ==>
      r.query == AtOr(row, [Key("keys"), Index(0)], Str("")) && r.page == AtOr(row, [Key("keys"), Index(1)], Str(""))
    ensures segment == Pages28 ==> r.query == Str(PageAggregate)
    ensures At(row, [Key("clicks")]).None? ==> r.clicks == Num(0.0)
    ensures At(row, [Key("clicks")]).Some? ==> r.clicks == At(row, [Key("clicks")]).value
    ensures At(row, [Key("impressions")]).None? ==> r.impressions == Num(0.0)
    ensures At(row, [Key("impressions")]).Some? ==> r.impressions == At(row, [Key("impressions")]).value
    ensures At(row, [Key("ctr")]).None? ==> r.ctr == 0.0
    ensures At(row, [Key("position")]).None? ==> r.position == 0.0
  {
    assert RoundHalfAway(0.0) == 0;
    var query := if segment == Pages28 then Str(PageAggregate) else AtOr(row, [Key("keys"), Index(0)], Str(""));
    var page := if segment == Pages28 then AtOr(row, [Key("keys"), Index(0)], Str("")) else AtOr(row, [Key("keys"), Index(1)], Str(""));
    GscRecord(
      query := query,
      page := page,
      clicks := AtOr(row, [Key("clicks")], Num(0.0)),
      impressions := AtOr(row, [Key("impressions")], Num(0.0)),
      ctr := RoundTo(FloatVal(AtOr(row, [Key("ctr")], Num(0.0))), 10000.0),
      position := RoundTo(FloatVal(AtOr(row, [Key("position")], Num(0.0))), 10.0),
      dateRange := segment.Label(),
      fetchedAt := now)
  }

  /** The stored rows of one segment. */
  function SegmentRecords(rows: seq<Json>, segment: Segment, now: int): seq<GscRecord> {
    MapRows(rows, row => RecordOf(row, segment, now))
  }

  /** One stored row per API row, in order. */
  lemma SegmentRecordsAt(rows: seq<Json>, segment: Segment, now: int)
    ensures |SegmentRecords(rows, segment, now)| == |rows|
    ensures forall i :: 0 <= i < |rows| ==> SegmentRecords(rows, segment, now)[i] == RecordOf(rows[i], segment, now)
  {
  }

  /** An API row with none of the expected members is stored with empty query and page
      (the page-aggregate marker as query for page rows) and zero metrics. */
  lemma EmptyRowDefaults(segment: Segment, now: int)
    ensures RecordOf(Object([]), segment, now) ==
      GscRecord(if segment == Pages28 then Str(PageAggregate) else Str(""), Str(""), Num(0.0), Num(0.0), 0.0, 0.0, segment.Label(), now)
  {
  }

  /** The command's environment. The site URL has a default; the three OAuth values do not. */
  datatype GscEnv = GscEnv(clientId: Option<string>, clientSecret: Option<string>, refreshToken: Option<string>, siteUrl: Option<string>)

  predicate HasCredentials(env: GscEnv) {
    IsSetting(env.clientId) && IsSetting(env.clientSecret) && IsSetting(env.refreshToken)
  }

  function RefreshForm(env: GscEnv): OAuthRefresh {
    OAuthRefresh(env.clientId.GetOr(""), env.clientSecret.GetOr(""), env.refreshToken.GetOr(""))
  }

  function SiteUrl(env: GscEnv): string {
    env.siteUrl.GetOr("https://doubledtrailers.com")
  }

  /** The API rows of the four reports. */
  datatype Reports = Reports(days28: seq<Json>, days90: seq<Json>, pages28: seq<Json>, branded28: seq<Json>)

  /** The four reports as a run fetches them. */
  function FetchReports(api: SearchApi, token: Json, siteUrl: string, today: int): Reports {
    Reports(
      Paged(api, QueryPageBase(token, siteUrl, today, 28), QueryRowLimit, 0).rows,
      Paged(api, QueryPageBase(token, siteUrl, today, 90), QueryRowLimit, 0).rows,
      ReportRows(api(PagesRequest(token, siteUrl, today))),
      ReportRows(api(BrandedRequest(token, siteUrl, today))))
  }

  /** The requests the four reports send, in order. */
  function ReportRequests(api: SearchApi, token: Json, siteUrl: string, today: int): seq<GscRequest> {
    Paged(api, QueryPageBase(token, siteUrl, today, 28), QueryRowLimit, 0).requests
      + Paged(api, QueryPageBase(token, siteUrl, today, 90), QueryRowLimit, 0).requests
      + [PagesRequest(token, siteUrl, today), BrandedRequest(token, siteUrl, today)]
  }

  /** What `gsc_snapshots` holds after a successful run: the four segments' rows in turn. */
  function Snapshot(reports: Reports, now: int): seq<GscRecord> {
    SegmentRecords(reports.days28, Days28, now) + SegmentRecords(reports.days90, Days90, now)
      + SegmentRecords(reports.pages28, Pages28, now) + SegmentRecords(reports.branded28, Branded28, now)
  }

  /** The table's rows are grouped by segment in fetch order, one per API row of the four
      reports. */
  lemma SnapshotGrouped(reports: Reports, now: int)
    ensures GroupedBy(Snapshot(reports, now), SegmentRank)
    ensures |Snapshot(reports, now)| == |reports.days28| + |reports.days90| + |reports.pages28| + |reports.branded28|
  {
    SegmentRecordsRank(reports.days28, Days28, now);
    SegmentRecordsRank(reports.days90, Days90, now);
    SegmentRecordsRank(reports.pages28, Pages28, now);
    SegmentRecordsRank(reports.branded28, Branded28, now);
    FourGroupsInTurn(SegmentRecords(reports.days28, Days28, now), SegmentRecords(reports.days90, Days90, now),
      SegmentRecords(reports.pages28, Pages28, now), SegmentRecords(reports.branded28, Branded28, now), SegmentRank);
  }

  /** The segment a stored row belongs to, read back from its label. */
  function SegmentOf(r: GscRecord): Segment {
    match r.dateRange
    case "28d" => Days28
    case "90d" => Days90
    case "28d_page" => Pages28
    case _ => Branded28
  }

  function SegmentRank(r: GscRecord): nat {
    SegmentOf(r).Rank()
  }

  /** Every stored row of a segment reads back as that segment. */
  lemma SegmentRecordsRank(rows: seq<Json>, segment: Segment, now: int)
    ensures forall i :: 0 <= i < |rows| ==> SegmentOf(SegmentRecords(rows, segment, now)[i]) == segment
  {
    forall i | 0 <= i < |rows| ensures SegmentOf(SegmentRecords(rows, segment, now)[i]) == segment {
      SegmentOfLabel(SegmentRecords(rows, segment, now)[i], segment);
    }
  }

  lemma SegmentOfLabel(r: GscRecord, s: Segment)
    requires r.dateRange == s.Label()
    ensures SegmentOf(r) == s
  {
  }

  /** The `gsc_snapshots` table: its columns and its rows. */
  class GscSnapshots {
    var columns: set<string>
    var rows: seq<GscRecord>

    constructor (columns: set<string>, rows: seq<GscRecord>)
      ensures this.columns == columns && this.rows == rows
    {
      this.columns := columns;
      this.rows := rows;
    }

    /** ensureSchema: adds `date_range` only when it is missing. */
    method EnsureSchema()
      modifies this
      ensures columns == old(columns) + {"date_range"}
      ensures rows == old(rows)
    {
      if "date_range" !in columns {
        columns := columns + {"date_range"};
      }
    }

    /** DELETE FROM gsc_snapshots. */
    method Clear()
      modifies this
      ensures rows == [] && columns == old(columns)
    {
      rows := [];
    }

    /** One insert per stored row of a segment, in order; returns how many were inserted. */
    method InsertRows(records: seq<GscRecord>) returns (count: nat)
      modifies this
      ensures rows == old(rows) + records
      ensures count == |records| && columns == old(columns)
    {
      count := 0;
      for i := 0 to |records|
        invariant rows == old(rows) + records[..i]
        invariant count == i && columns == old(columns)
      {
        assert records[..i + 1] == records[..i] + [records[i]];
        rows := rows + [records[i]];
        count := count + 1;
      }
      assert records[..|records|] == records;
    }
  }

  /** The run's exit status, the requests it sent, and the number of rows it saved. */
  datatype Outcome = Outcome(code: ExitCode, calls: seq<Call<GscRequest>>, totalRows: nat)

  function AsCalls(requests: seq<GscRequest>): (cs: seq<Call<GscRequest>>)
    ensures |cs| == |requests| && forall i :: 0 <= i < |cs| ==> cs[i] == ReportCall(requests[i])
  {
    seq(|requests|, i requires 0 <= i < |requests| => ReportCall(requests[i]))
  }

  /** execute: credentials, token, schema, clear, then the four reports. Without the OAuth
      settings it fails before any request and any change; when the token exchange yields
      no access token it fails after that one request, before any change; otherwise the
      table holds exactly the four reports' rows. */
  method Execute(db: GscSnapshots, env: GscEnv, tokenEndpoint: TokenEndpoint, api: SearchApi, today: int, now: int)
    returns (outcome: Outcome)
    modifies db
    ensures !HasCredentials(env) ==>
      outcome == Outcome(Failure, [], 0) && db.rows == old(db.rows) && db.columns == old(db.columns)
    ensures HasCredentials(env) && AccessToken(tokenEndpoint(RefreshForm(env))).None? ==>
      outcome == Outcome(Failure, [TokenCall(RefreshForm(env))], 0)
      && db.rows == old(db.rows) && db.columns == old(db.columns)
    ensures HasCredentials(env) && AccessToken(tokenEndpoint(RefreshForm(env))).Some? ==>
      var token := AccessToken(tokenEndpoint(RefreshForm(env))).value;
      && outcome.code == Success
      && outcome.calls == [TokenCall(RefreshForm(env))] + AsCalls(ReportRequests(api, token, SiteUrl(env), today))
      && db.rows == Snapshot(FetchReports(api, token, SiteUrl(env), today), now)
      && outcome.totalRows == |db.rows|
      && db.columns == old(db.columns) + {"date_range"}
  {
    if !IsSetting(env.clientId) || !IsSetting(env.clientSecret) || !IsSetting(env.refreshToken) {
      return Outcome(Failure, [], 0);
    }
    var form := RefreshForm(env);
    var siteUrl := SiteUrl(env);
    var tokenData := tokenEndpoint(form);
    var calls := [TokenCall(form)];
    var accessToken := AccessToken(tokenData);
    if accessToken.None? {
      return Outcome(Failure, calls, 0);
    }
    var token := accessToken.value;
    ghost var reports := FetchReports(api, token, siteUrl, today);

    db.EnsureSchema();
    db.Clear();
    var totalRows := 0;

    var rows28d, requests28d := FetchGscData(api, token, siteUrl, today, 28, QueryRowLimit);
    var count28d := db.InsertRows(SegmentRecords(rows28d, Days28, now));
    assert db.rows == SegmentRecords(rows28d, Days28, now);
    totalRows := totalRows + count28d;

    var rows90d, requests90d := FetchGscData(api, token, siteUrl, today, 90, QueryRowLimit);
    var count90 := db.InsertRows(SegmentRecords(rows90d, Days90, now));
    totalRows := totalRows + count90;

    var pageRows := ReportRows(api(PagesRequest(token, siteUrl, today)));
    var countPages := db.InsertRows(SegmentRecords(pageRows, Pages28, now));
    totalRows := totalRows + countPages;

    var brandedRows := ReportRows(api(BrandedRequest(token, siteUrl, today)));
    var countBranded := db.InsertRows(SegmentRecords(brandedRows, Branded28, now));
    totalRows := totalRows + countBranded;
    assert reports == Reports(rows28d, rows90d, pageRows, brandedRows);

    calls := calls + AsCalls(requests28d + requests90d + [PagesRequest(token, siteUrl, today), BrandedRequest(token, siteUrl, today)]);
    outcome := Outcome(Success, calls, totalRows);
  }

  /** Both query+page reports ask for at most 25000 rows, so each takes exactly one
      request, at offset 0 with a row limit of 25000. */
  lemma QueryReportsTakeOneRequest(api: SearchApi, token: Json, siteUrl: string, today: int, days: int)
    ensures Paged(api, QueryPageBase(token, siteUrl, today, days), QueryRowLimit, 0).requests
         == [QueryPageBase(token, siteUrl, today, days).(rowLimit := 25000, startRow := Some(0))]
  {
    PagedOnce(api, QueryPageBase(token, siteUrl, today, days), QueryRowLimit, 0);
  }

  /** The four requests of a run cover the same 28 days, except the 90-day report, and all
      end yesterday. */
  lemma ReportWindows(api: SearchApi, token: Json, siteUrl: string, today: int)
    ensures forall r :: r in ReportRequests(api, token, siteUrl, today) ==> r.window.end == today - 1
    ensures forall r :: r in ReportRequests(api, token, siteUrl, today) ==>
      r.window.start == today - 28 || r.window.start == today - 90
  {
    QueryReportsTakeOneRequest(api, token, siteUrl, today, 28);
    QueryReportsTakeOneRequest(api, token, siteUrl, today, 90);
  }
}
