/** `app:fetch-google-ads`: replaces the contents of `google_ads_snapshots` with four Google
    Ads reports (campaigns, keywords and search terms over 30 days, daily spend over 90
    days), each fetched with one `searchStream` request. The HTTP exchange is a parameter
    returning the reply to a request, and JSON decoding a parameter returning the decoded
    value of a text. */
module GoogleAds {
  import opened Base
  import opened PhpText
  import opened PhpJson
  import opened Ingest

  /** `str_replace('-', '', $customerId)`: "123-456-7890" becomes "1234567890". */
  function StripDashes(s: string): (r: string)
    ensures '-' !in r
    ensures |r| <= |s|
    ensures '-' !in s ==> r == s
  {
    if s == [] then []
    else
      assert s == [s[0]] + s[1..];
      (if s[0] == '-' then [] else [s[0]]) + StripDashes(s[1..])
  }

  /** Every character other than a dash is kept, as often as it occurs. */
  lemma {:induction false} StripDashesKeepsOthers(s: string)
    ensures forall c :: c != '-' ==> multiset(StripDashes(s))[c] == multiset(s)[c]
  {
    if s != [] {
      StripDashesKeepsOthers(s[1..]);
      assert s == [s[0]] + s[1..];
    }
  }

  /** Removing dashes piece by piece is removing them from the whole. */
  lemma {:induction false} StripDashesAppend(a: string, b: string)
    ensures StripDashes(a + b) == StripDashes(a) + StripDashes(b)
    decreases |a|
  {
    if a != [] {
      var head := if a[0] == '-' then [] else [a[0]];
      assert (a + b)[0] == a[0] && (a + b)[1..] == a[1..] + b;
      assert StripDashes(a + b) == head + StripDashes(a[1..] + b);
      StripDashesAppend(a[1..], b);
      assert StripDashes(a) == head + StripDashes(a[1..]);
    } else {
      assert a + b == b;
    }
  }

  /** The four reports, in the order the command fetches and stores them. */
  datatype AdsReport = Campaigns | Keywords | SearchTerms | DailySpend {
    /** The `data_type` stored with each row. */
    function Label(): string {
      match this
      case Campaigns => "campaign"
      case Keywords => "keyword"
      case SearchTerms => "search_term"
      case DailySpend => "daily_spend"
    }

    /** The FROM clause of the report's GAQL query. */
    function Resource(): string {
      match this
      case Campaigns => "campaign"
      case Keywords => "keyword_view"
      case SearchTerms => "search_term_view"
      case DailySpend => "customer"
    }

    /** How many days back the report reaches. */
    function Days(): nat {
      if this == DailySpend then 90 else 30
    }

    /** The query's LIMIT, if any. */
    function RowLimit(): Option<nat> {
      match this
      case Campaigns => Some(1000)
      case Keywords => Some(5000)
      case SearchTerms => Some(5000)
      case DailySpend => None
    }

    function Rank(): nat {
      match this
      case Campaigns => 0
      case Keywords => 1
      case SearchTerms => 2
      case DailySpend => 3
    }
  }

  /** A GAQL query: the report it selects and its `segments.date BETWEEN` window. */
  datatype GaqlQuery = GaqlQuery(report: AdsReport, window: Window)

  /** A `googleAds:searchStream` request: the customer in the URL, the bearer token and
      developer token in the headers, the query in the body. */
  datatype AdsRequest = AdsRequest(customerId: string, token: Json, developerToken: string, query: GaqlQuery)

  /** The reply to a request: no body at all, or a status code and a body. */
  datatype HttpReply = NoBody | Reply(status: int, body: string)

  type AdsApi = AdsRequest -> HttpReply

  /** `json_decode($text, true)`. */
  type Decoder = string -> Json

  /** `is_array($batch) && isset($batch['error'])`: a batch that reports an error. */
  predicate Failed(batch: Json) {
    IsArray(batch) && IsSet(batch, "error")
  }

  /** The results `array_merge` takes from a batch that has them. */
  function BatchResults(batch: Json): seq<Json> {
    ListField(batch, "results")
  }

  /** The results of every batch, concatenated in order. */
  function AllResults(batches: seq<Json>): seq<Json>
    decreases |batches|
  {
    if batches == [] then []
    else AllResults(batches[..|batches| - 1]) + BatchResults(batches[|batches| - 1])
  }

  /** The rows of a stream of batches: none at all as soon as one batch reports an error,
      otherwise every batch's results in order. */
  function Merged(batches: seq<Json>): (r: seq<Json>)
    ensures AnyFailed(batches) ==> r == []
  {
    if AnyFailed(batches) then [] else AllResults(batches)
  }

  /** Whether some batch reports an error. */
  predicate AnyFailed(batches: seq<Json>)
    decreases |batches|
  {
    batches != [] && (AnyFailed(batches[..|batches| - 1]) || Failed(batches[|batches| - 1]))
  }

  /** A stream has a failed batch exactly when one of its batches reports an error. */
  lemma {:induction false} AnyFailedIff(batches: seq<Json>)
    ensures AnyFailed(batches) <==> exists i :: 0 <= i < |batches| && Failed(batches[i])
    decreases |batches|
  {
    if batches != [] {
      var init := batches[..|batches| - 1];
      AnyFailedIff(init);
      assert forall i :: 0 <= i < |init| ==> init[i] == batches[i];
      if AnyFailed(init) {
        var i :| 0 <= i < |init| && Failed(init[i]);
        assert Failed(batches[i]);
      }
    }
  }

  lemma {:induction false} AnyFailedAppend(xs: seq<Json>, ys: seq<Json>)
    ensures AnyFailed(xs + ys) == (AnyFailed(xs) || AnyFailed(ys))
    decreases |ys|
  {
    if ys != [] {
      var ys' := ys[..|ys| - 1];
      assert (xs + ys)[..|xs + ys| - 1] == xs + ys';
      assert (xs + ys)[|xs + ys| - 1] == ys[|ys| - 1];
      AnyFailedAppend(xs, ys');
    } else {
      assert xs + ys == xs;
    }
  }

  /** A line of a newline-delimited stream, trimmed and without leading commas, when it
      carries a batch; an empty line, "0", "[" and "]" carry none. */
  function StreamLine(line: string): (r: Option<string>)
    ensures r.None? <==> !IsTruthyText(Trim(line)) || Trim(line) == "[" || Trim(line) == "]"
    ensures r.Some? ==> r.value == DropLeading(Trim(line), ',')
  {
    var t := Trim(line);
    if !IsTruthyText(t) || t == "[" || t == "]" then None else Some(DropLeading(t, ','))
  }

  /** The batch a line carries, decoded, if any. */
  function LineBatch(line: string, decode: Decoder): (batch: seq<Json>)
    ensures |batch| <= 1
  {
    match StreamLine(line)
    case None => []
    case Some(t) => [decode(t)]
  }

  /** The decoded batches of the lines that carry one, in order. */
  function LineBatches(lines: seq<string>, decode: Decoder): (batches: seq<Json>)
    ensures |batches| <= |lines|
    decreases |lines|
  {
    if lines == [] then []
    else LineBatches(lines[..|lines| - 1], decode) + LineBatch(lines[|lines| - 1], decode)
  }

  /** runGaqlQuery: no rows when there is no reply, when the status is 400 or above, or
      when the body is a single error object; otherwise the rows of the batches, read from
      a JSON array when the whole body decodes to one and line by line otherwise. */
  function GaqlResults(reply: HttpReply, decode: Decoder): seq<Json> {
    match reply
    case NoBody => []
    case Reply(status, body) =>
      if status >= 400 then []
      else if Failed(decode(body)) then []
      else if IsArray(decode(body)) then Merged(Elements(decode(body)))
      else Merged(LineBatches(Split(Trim(body), '\n'), decode))
  }

  /** runGaqlQuery: the checks on the reply, then one of the two loops below. */
  method RunGaqlQuery(reply: HttpReply, decode: Decoder) returns (results: seq<Json>)
    ensures results == GaqlResults(reply, decode)
  {
    if reply.NoBody? {
      return [];
    }
    if reply.status >= 400 {
      return [];
    }
    var single := decode(reply.body);
    if Failed(single) {
      return [];
    }
    var full := decode(reply.body);
    if IsArray(full) {
      results := MergeBatches(Elements(full));
    } else {
      results := MergeLines(Split(Trim(reply.body), '\n'), decode);
    }
  }

  /** The loop over a JSON array of batches: merges each batch's results, and gives up
      with no rows at the first batch that reports an error. */
  method MergeBatches(batches: seq<Json>) returns (results: seq<Json>)
    ensures results == Merged(batches)
  {
    results := [];
    for i := 0 to |batches|
      invariant results == AllResults(batches[..i])
      invariant !AnyFailed(batches[..i])
    {
      assert batches[..i + 1][..i] == batches[..i];
      results := results + BatchResults(batches[i]);
      if IsArray(batches[i]) && IsSet(batches[i], "error") {
        AnyFailedAppend(batches[..i + 1], batches[i + 1..]);
        assert batches[..i + 1] + batches[i + 1..] == batches;
        return [];
      }
    }
    assert batches[..|batches|] == batches;
  }

  /** The loop over the lines of a newline-delimited stream: skips the lines without a
      batch, decodes the others, and gives up as `MergeBatches` does. */
  method MergeLines(lines: seq<string>, decode: Decoder) returns (results: seq<Json>)
    ensures results == Merged(LineBatches(lines, decode))
  {
    results := [];
    ghost var batches: seq<Json> := [];
    for i := 0 to |lines|
      invariant batches == LineBatches(lines[..i], decode)
      invariant results == AllResults(batches)
      invariant !AnyFailed(batches)
    {
      LineBatchesSnoc(lines, i, decode);
      var line := Trim(lines[i]);
      if !IsTruthyText(line) || line == "[" || line == "]" {
        assert LineBatch(lines[i], decode) == [];
        continue;
      }
      line := DropLeading(line, ',');
      var decoded := decode(line);
      assert LineBatch(lines[i], decode) == [decoded];
      AllResultsSnoc(batches, decoded);
      AnyFailedSnoc(batches, decoded);
      batches := batches + [decoded];
      results := results + BatchResults(decoded);
      if IsArray(decoded) && IsSet(decoded, "error") {
        FailedLineEmptiesAll(lines, i, decode);
        return [];
      }
    }
    assert lines[..|lines|] == lines;
  }

  lemma LineBatchesSnoc(lines: seq<string>, i: nat, decode: Decoder)
    requires i < |lines|
    ensures LineBatches(lines[..i + 1], decode) == LineBatches(lines[..i], decode) + LineBatch(lines[i], decode)
  {
    assert lines[..i + 1][..i] == lines[..i];
  }

  /** The batch of every line that carries one is among the stream's batches. */
  lemma {:induction false} LineBatchKept(lines: seq<string>, i: nat, decode: Decoder)
    requires i < |lines| && StreamLine(lines[i]).Some?
    ensures decode(StreamLine(lines[i]).value) in LineBatches(lines, decode)
    decreases |lines|
  {
    if i < |lines| - 1 {
      assert lines[..|lines| - 1][i] == lines[i];
      LineBatchKept(lines[..|lines| - 1], i, decode);
    }
  }

  /** One line whose batch reports an error empties the whole stream. */
  lemma FailedLineEmptiesAll(lines: seq<string>, i: nat, decode: Decoder)
    requires i < |lines| && StreamLine(lines[i]).Some? && Failed(decode(StreamLine(lines[i]).value))
    ensures Merged(LineBatches(lines, decode)) == []
  {
    LineBatchKept(lines, i, decode);
    AnyFailedIff(LineBatches(lines, decode));
  }

  lemma AnyFailedSnoc(batches: seq<Json>, batch: Json)
    ensures AnyFailed(batches + [batch]) == (AnyFailed(batches) || Failed(batch))
  {
    assert (batches + [batch])[..|batches|] == batches;
  }

  lemma AllResultsSnoc(batches: seq<Json>, batch: Json)
    ensures AllResults(batches + [batch]) == AllResults(batches) + BatchResults(batch)
  {
    assert (batches + [batch])[..|batches|] == batches;
  }

  /** The batches of consecutive pieces of a stream are those of each piece in turn. */
  lemma {:induction false} LineBatchesAppend(xs: seq<string>, ys: seq<string>, decode: Decoder)
    ensures LineBatches(xs + ys, decode) == LineBatches(xs, decode) + LineBatches(ys, decode)
    decreases |ys|
  {
    if ys != [] {
      var ys' := ys[..|ys| - 1];
      assert (xs + ys)[..|xs + ys| - 1] == xs + ys';
      assert (xs + ys)[|xs + ys| - 1] == ys[|ys| - 1];
      LineBatchesAppend(xs, ys', decode);
    } else {
      assert xs + ys == xs;
    }
  }

  /** Empty lines, "0", "[" and "]" anywhere in a stream change nothing. */
  lemma FillerLineIgnored(xs: seq<string>, line: string, ys: seq<string>, decode: Decoder)
    requires StreamLine(line).None?
    ensures LineBatches(xs + [line] + ys, decode) == LineBatches(xs + ys, decode)
  {
    var xs' := xs + [line];
    assert xs'[..|xs'| - 1] == xs && xs'[|xs'| - 1] == line;
    assert LineBatch(line, decode) == [];
    assert LineBatches(xs', decode) == LineBatches(xs, decode);
    LineBatchesAppend(xs', ys, decode);
    LineBatchesAppend(xs, ys, decode);
  }

  /** The results of consecutive runs of batches are those of each run in turn. */
  lemma {:induction false} AllResultsAppend(xs: seq<Json>, ys: seq<Json>)
    ensures AllResults(xs + ys) == AllResults(xs) + AllResults(ys)
    decreases |ys|
  {
    if ys != [] {
      var ys' := ys[..|ys| - 1];
      assert (xs + ys)[..|xs + ys| - 1] == xs + ys';
      assert (xs + ys)[|xs + ys| - 1] == ys[|ys| - 1];
      AllResultsAppend(xs, ys');
    } else {
      assert xs + ys == xs;
    }
  }

  /** A stream may be cut between batches anywhere: two runs of batches without an error
      yield the rows of each in turn, and an error in either empties the whole. */
  lemma MergedAppend(xs: seq<Json>, ys: seq<Json>)
    ensures Merged(xs + ys) == if AnyFailed(xs) || AnyFailed(ys) then [] else Merged(xs) + Merged(ys)
  {
    AllResultsAppend(xs, ys);
    AnyFailedAppend(xs, ys);
  }

  /** A report row as stored: the text columns keep the API's value (`Null` is SQL NULL),
      counts are truncated to integers, money is rounded to whole micros, conversions and
      ctr to 2 and 4 decimals. */
  datatype AdsRecord = AdsRecord(
    dataType: string,
    campaignId: Json,
    campaignName: Json,
    adGroupId: Json,
    adGroupName: Json,
    keyword: Json,
    matchType: Json,
    metrics: Metrics,
    status: Json,
    dateRange: Json,
    fetchedAt: int)

  datatype Metrics = Metrics(impressions: int, clicks: int, costMicros: int, conversions: real, ctr: real, averageCpc: int)

  /** `$m = $row['metrics'] ?? []` and the six metric columns computed from it. */
  function MetricsOf(row: Json): Metrics {
    Metrics(
      impressions := IntVal(Metric(row, "impressions")),
      clicks := IntVal(Metric(row, "clicks")),
      costMicros := RoundHalfAway(FloatVal(Metric(row, "costMicros"))),
      conversions := RoundTo(FloatVal(Metric(row, "conversions")), 100.0),
      ctr := RoundTo(FloatVal(Metric(row, "ctr")), 10000.0),
      averageCpc := RoundHalfAway(FloatVal(Metric(row, "averageCpc"))))
  }

  /** `$m[$name] ?? 0`. */
  function Metric(row: Json, name: string): Json {
    AtOr(row, [Key("metrics"), Key(name)], Num(0.0))
  }

  /** `$row[a][b]... ?? ''`: the value at the path, or "" when it is missing or null. */
  function TextAt(row: Json, path: seq<Step>): (r: Json)
    ensures r != Null
    ensures At(row, path).None? ==> r == Str("")
    ensures At(row, path).Some? ==> r == At(row, path).value
  {
    AtOr(row, path, Str(""))
  }

  /** The stored row for one result of a report. A report fills the columns it selects,
      with "" for a missing value, and leaves the others NULL. */
  function RecordOf(row: Json, report: AdsReport, now: int): AdsRecord
  {
    match report
    case Campaigns =>
      AdsRecord(report.Label(),
        TextAt(row, [Key("campaign"), Key("id")]), TextAt(row, [Key("campaign"), Key("name")]),
        Null, Null, Null, Null, MetricsOf(row),
        TextAt(row, [Key("campaign"), Key("status")]), Str("30d"), now)
    case Keywords =>
      AdsRecord(report.Label(),
        TextAt(row, [Key("campaign"), Key("id")]), TextAt(row, [Key("campaign"), Key("name")]),
        TextAt(row, [Key("adGroup"), Key("id")]), TextAt(row, [Key("adGroup"), Key("name")]),
        TextAt(row, [Key("adGroupCriterion"), Key("keyword"), Key("text")]),
        TextAt(row, [Key("adGroupCriterion"), Key("keyword"), Key("matchType")]),
        MetricsOf(row), TextAt(row, [Key("adGroupCriterion"), Key("status")]), Str("30d"), now)
    case SearchTerms =>
      AdsRecord(report.Label(),
        TextAt(row, [Key("campaign"), Key("id")]), TextAt(row, [Key("campaign"), Key("name")]),
        TextAt(row, [Key("adGroup"), Key("id")]), TextAt(row, [Key("adGroup"), Key("name")]),
        TextAt(row, [Key("searchTermView"), Key("searchTerm")]), Null,
        MetricsOf(row), Null, Str("30d"), now)
    case DailySpend =>
      AdsRecord(report.Label(), Null, Null, Null, Null, Null, Null,
        MetricsOf(row), Null, TextAt(row, [Key("segments"), Key("date")]), now)
  }

  /** Each report fills exactly the columns it selects and leaves the others NULL. */
  lemma RecordColumns(row: Json, report: AdsReport, now: int)
    ensures RecordOf(row, report, now).dataType == report.Label()
    ensures RecordOf(row, report, now).fetchedAt == now
    ensures RecordOf(row, report, now).metrics == MetricsOf(row)
    ensures RecordOf(row, report, now).dateRange != Null
    ensures report != DailySpend ==> RecordOf(row, report, now).dateRange == Str("30d")
    ensures RecordOf(row, report, now).campaignId == Null <==> report == DailySpend
    ensures RecordOf(row, report, now).campaignName == Null <==> report == DailySpend
    ensures RecordOf(row, report, now).adGroupId == Null <==> report == Campaigns || report == DailySpend
    ensures RecordOf(row, report, now).adGroupName == Null <==> report == Campaigns || report == DailySpend
    ensures RecordOf(row, report, now).keyword == Null <==> report == Campaigns || report == DailySpend
    ensures RecordOf(row, report, now).matchType == Null <==> report != Keywords
    ensures RecordOf(row, report, now).status == Null <==> report == SearchTerms || report == DailySpend
  {
  }

  /** Where each filled column is read from: the campaign for every report but the daily
      spend, the ad group for keywords and search terms, the criterion for keywords, the
      search term for search terms and the date segment for the daily spend. */
  lemma RecordSources(row: Json, report: AdsReport, now: int)
    ensures report != DailySpend ==>
      RecordOf(row, report, now).campaignId == TextAt(row, [Key("campaign"), Key("id")]) &&
      RecordOf(row, report, now).campaignName == TextAt(row, [Key("campaign"), Key("name")])
    ensures report == Keywords || report == SearchTerms ==>
      RecordOf(row, report, now).adGroupId == TextAt(row, [Key("adGroup"), Key("id")]) &&
      RecordOf(row, report, now).adGroupName == TextAt(row, [Key("adGroup"), Key("name")])
    ensures report == Campaigns ==> RecordOf(row, report, now).status == TextAt(row, [Key("campaign"), Key("status")])
    ensures report == Keywords ==>
      RecordOf(row, report, now).keyword == TextAt(row, [Key("adGroupCriterion"), Key("keyword"), Key("text")]) &&
      RecordOf(row, report, now).matchType == TextAt(row, [Key("adGroupCriterion"), Key("keyword"), Key("matchType")]) &&
      RecordOf(row, report, now).status == TextAt(row, [Key("adGroupCriterion"), Key("status")])
    ensures report == SearchTerms ==> RecordOf(row, report, now).keyword == TextAt(row, [Key("searchTermView"), Key("searchTerm")])
    ensures report == DailySpend ==> RecordOf(row, report, now).dateRange == TextAt(row, [Key("segments"), Key("date")])
  {
  }

  /** Each metric missing from a result is stored as zero, whatever the others are; a
      result without a `metrics` member is stored with every metric zero. */
  lemma MissingMetricsAreZero(row: Json)
    ensures At(row, [Key("metrics"), Key("impressions")]).None? ==> MetricsOf(row).impressions == 0
    ensures At(row, [Key("metrics"), Key("clicks")]).None? ==> MetricsOf(row).clicks == 0
    ensures At(row, [Key("metrics"), Key("costMicros")]).None? ==> MetricsOf(row).costMicros == 0
    ensures At(row, [Key("metrics"), Key("conversions")]).None? ==> MetricsOf(row).conversions == 0.0
    ensures At(row, [Key("metrics"), Key("ctr")]).None? ==> MetricsOf(row).ctr == 0.0
    ensures At(row, [Key("metrics"), Key("averageCpc")]).None? ==> MetricsOf(row).averageCpc == 0
    ensures Get(row, Key("metrics")).None? ==> MetricsOf(row) == Metrics(0, 0, 0, 0.0, 0.0, 0)
  {
    assert FloatVal(Num(0.0)) == 0.0;
    assert RoundHalfAway(0.0) == 0;
    assert IntVal(Num(0.0)) == 0;
    assert RoundTo(0.0, 100.0) == 0.0 && RoundTo(0.0, 10000.0) == 0.0;
  }

  /** The API sends 64-bit counts and micros as digit strings; they are stored exactly,
      floats being exact reals here (in PHP micros pass through a float, exact only up
      to 2^53). */
  lemma CountsReadExactly(row: Json, impressions: string, clicks: string, costMicros: string)
    requires forall i :: 0 <= i < |impressions| ==> IsDigit(impressions[i])
    requires forall i :: 0 <= i < |clicks| ==> IsDigit(clicks[i])
    requires forall i :: 0 <= i < |costMicros| ==> IsDigit(costMicros[i])
    requires At(row, [Key("metrics"), Key("impressions")]) == Some(Str(impressions))
    requires At(row, [Key("metrics"), Key("clicks")]) == Some(Str(clicks))
    requires At(row, [Key("metrics"), Key("costMicros")]) == Some(Str(costMicros))
    ensures MetricsOf(row).impressions == DigitsValue(impressions)
    ensures MetricsOf(row).clicks == DigitsValue(clicks)
    ensures MetricsOf(row).costMicros == DigitsValue(costMicros)
  {
    assert Metric(row, "impressions") == Str(impressions);
    assert Metric(row, "clicks") == Str(clicks);
    assert Metric(row, "costMicros") == Str(costMicros);
    DigitStringIsExact(impressions);
    DigitStringIsExact(clicks);
    DigitStringIsExact(costMicros);
  }

  /** The stored rows of one report, one per result in order. */
  function ReportRecords(rows: seq<Json>, report: AdsReport, now: int): seq<AdsRecord> {
    MapRows(rows, row => RecordOf(row, report, now))
  }

  lemma ReportRecordsAt(rows: seq<Json>, report: AdsReport, now: int)
    ensures |ReportRecords(rows, report, now)| == |rows|
    ensures forall i :: 0 <= i < |rows| ==> ReportRecords(rows, report, now)[i] == RecordOf(rows[i], report, now)
  {
  }

  /** The position of a stored row's report, read back from its `data_type`. */
  function TypeRank(r: AdsRecord): nat {
    match r.dataType
    case "campaign" => 0
    case "keyword" => 1
    case "search_term" => 2
    case _ => 3
  }

  lemma RecordRank(row: Json, report: AdsReport, now: int)
    ensures TypeRank(RecordOf(row, report, now)) == report.Rank()
  {
  }

  lemma ReportRecordsRank(rows: seq<Json>, report: AdsReport, now: int)
    ensures forall i :: 0 <= i < |rows| ==> TypeRank(ReportRecords(rows, report, now)[i]) == report.Rank()
  {
    ReportRecordsAt(rows, report, now);
    forall i | 0 <= i < |rows|
      ensures TypeRank(ReportRecords(rows, report, now)[i]) == report.Rank()
    {
      RecordRank(rows[i], report, now);
    }
  }

  /** The command's environment: the OAuth settings and the two Ads settings. */
  datatype AdsEnv = AdsEnv(
    clientId: Option<string>,
    clientSecret: Option<string>,
    refreshToken: Option<string>,
    developerToken: Option<string>,
    customerId: Option<string>)

  predicate HasOAuth(env: AdsEnv) {
    IsSetting(env.clientId) && IsSetting(env.clientSecret) && IsSetting(env.refreshToken)
  }

  predicate HasAdsSettings(env: AdsEnv) {
    IsSetting(env.developerToken) && IsSetting(env.customerId)
  }

  function RefreshForm(env: AdsEnv): OAuthRefresh {
    OAuthRefresh(env.clientId.GetOr(""), env.clientSecret.GetOr(""), env.refreshToken.GetOr(""))
  }

  /** The request of one report: the last `Days()` full days before today. */
  function ReportRequest(env: AdsEnv, token: Json, report: AdsReport, today: int): AdsRequest {
    AdsRequest(StripDashes(env.customerId.GetOr("")), token, env.developerToken.GetOr(""),
      GaqlQuery(report, RecentWindow(today, report.Days())))
  }

  function Results(api: AdsApi, decode: Decoder, env: AdsEnv, token: Json, report: AdsReport, today: int): seq<Json> {
    GaqlResults(api(ReportRequest(env, token, report, today)), decode)
  }

  /** The four reports' results as fetched. */
  datatype AdsResults = AdsResults(campaigns: seq<Json>, keywords: seq<Json>, searchTerms: seq<Json>, dailySpend: seq<Json>)

  function FetchReports(api: AdsApi, decode: Decoder, env: AdsEnv, token: Json, today: int): AdsResults {
    AdsResults(
      Results(api, decode, env, token, Campaigns, today),
      Results(api, decode, env, token, Keywords, today),
      Results(api, decode, env, token, SearchTerms, today),
      Results(api, decode, env, token, DailySpend, today))
  }

  /** What `google_ads_snapshots` holds after a successful run: the four reports' rows in turn. */
  function Snapshot(results: AdsResults, now: int): seq<AdsRecord> {
    ReportRecords(results.campaigns, Campaigns, now) + ReportRecords(results.keywords, Keywords, now)
      + ReportRecords(results.searchTerms, SearchTerms, now) + ReportRecords(results.dailySpend, DailySpend, now)
  }

  /** The table's rows are grouped campaign, keyword, search_term, daily_spend, as many as
      the four reports returned. */
  lemma SnapshotGrouped(results: AdsResults, now: int)
    ensures GroupedBy(Snapshot(results, now), TypeRank)
    ensures |Snapshot(results, now)|
         == |results.campaigns| + |results.keywords| + |results.searchTerms| + |results.dailySpend|
  {
    var a := ReportRecords(results.campaigns, Campaigns, now);
    var b := ReportRecords(results.keywords, Keywords, now);
    var c := ReportRecords(results.searchTerms, SearchTerms, now);
    var d := ReportRecords(results.dailySpend, DailySpend, now);
    ReportRecordsRank(results.campaigns, Campaigns, now);
    ReportRecordsRank(results.keywords, Keywords, now);
    ReportRecordsRank(results.searchTerms, SearchTerms, now);
    ReportRecordsRank(results.dailySpend, DailySpend, now);
    FourGroupsInTurn(a, b, c, d, TypeRank);
  }

  /** The `google_ads_snapshots` table: whether it exists, and its rows. */
  class AdsSnapshots {
    var present: bool
    var rows: seq<AdsRecord>

    constructor (present: bool, rows: seq<AdsRecord>)
      ensures this.present == present && this.rows == rows
    {
      this.present := present;
      this.rows := rows;
    }

    /** ensureSchema: creates the table only when it is missing. */
    method EnsureSchema()
      modifies this
      ensures present && rows == old(rows)
    {
      if !present {
        present := true;
      }
    }

    /** DELETE FROM google_ads_snapshots. */
    method Clear()
      modifies this
      ensures rows == [] && present == old(present)
    {
      rows := [];
    }

    /** One insert per stored row of a report, in order; returns how many were inserted. */
    method InsertRows(records: seq<AdsRecord>) returns (count: nat)
      modifies this
      ensures rows == old(rows) + records
      ensures count == |records| && present == old(present)
    {
      count := 0;
      for i := 0 to |records|
        invariant rows == old(rows) + records[..i]
        invariant count == i && present == old(present)
      {
        assert records[..i + 1] == records[..i] + [records[i]];
        rows := rows + [records[i]];
        count := count + 1;
      }
      assert records[..|records|] == records;
    }
  }

  /** The run's exit status, the requests it sent, and the number of rows it saved. */
  datatype Outcome = Outcome(code: ExitCode, calls: seq<Call<AdsRequest>>, totalRows: nat)

  /** execute: OAuth settings, Ads settings, token, schema, clear, then the four reports.
      Missing settings fail before any request and any change; a token response without
      an access token fails after that one request, before any change; otherwise the table
      holds exactly the four reports' rows. */
  method Execute(db: AdsSnapshots, env: AdsEnv, tokenEndpoint: TokenEndpoint, api: AdsApi, decode: Decoder, today: int, now: int)
    returns (outcome: Outcome)
    modifies db
    ensures !HasOAuth(env) || !HasAdsSettings(env) ==>
      outcome == Outcome(Failure, [], 0) && db.rows == old(db.rows) && db.present == old(db.present)
    ensures HasOAuth(env) && HasAdsSettings(env) && AccessToken(tokenEndpoint(RefreshForm(env))).None? ==>
      outcome == Outcome(Failure, [TokenCall(RefreshForm(env))], 0)
      && db.rows == old(db.rows) && db.present == old(db.present)
    ensures HasOAuth(env) && HasAdsSettings(env) && AccessToken(tokenEndpoint(RefreshForm(env))).Some? ==>
      var token := AccessToken(tokenEndpoint(RefreshForm(env))).value;
      && outcome.code == Success
      && outcome.calls == [TokenCall(RefreshForm(env)),
                           ReportCall(ReportRequest(env, token, Campaigns, today)),
                           ReportCall(ReportRequest(env, token, Keywords, today)),
                           ReportCall(ReportRequest(env, token, SearchTerms, today)),
                           ReportCall(ReportRequest(env, token, DailySpend, today))]
      && db.rows == Snapshot(FetchReports(api, decode, env, token, today), now)
      && outcome.totalRows == |db.rows|
      && db.present
  {
    if !IsSetting(env.clientId) || !IsSetting(env.clientSecret) || !IsSetting(env.refreshToken) {
      return Outcome(Failure, [], 0);
    }
    if !IsSetting(env.developerToken) || !IsSetting(env.customerId) {
      return Outcome(Failure, [], 0);
    }
    var form := RefreshForm(env);
    var tokenData := tokenEndpoint(form);
    var calls := [TokenCall(form)];
    var accessToken := AccessToken(tokenData);
    if accessToken.None? {
      return Outcome(Failure, calls, 0);
    }
    var token := accessToken.value;

    db.EnsureSchema();
    db.Clear();
    var totalRows := 0;

    var campaignsRequest := ReportRequest(env, token, Campaigns, today);
    var campaigns := RunGaqlQuery(api(campaignsRequest), decode);
    assert campaigns == Results(api, decode, env, token, Campaigns, today);
    var count := db.InsertRows(ReportRecords(campaigns, Campaigns, now));
    assert db.rows == ReportRecords(campaigns, Campaigns, now);
    totalRows := totalRows + count;

    var keywordsRequest := ReportRequest(env, token, Keywords, today);
    var keywords := RunGaqlQuery(api(keywordsRequest), decode);
    assert keywords == Results(api, decode, env, token, Keywords, today);
    count := db.InsertRows(ReportRecords(keywords, Keywords, now));
    totalRows := totalRows + count;

    var searchTermsRequest := ReportRequest(env, token, SearchTerms, today);
    var searchTerms := RunGaqlQuery(api(searchTermsRequest), decode);
    assert searchTerms == Results(api, decode, env, token, SearchTerms, today);
    count := db.InsertRows(ReportRecords(searchTerms, SearchTerms, now));
    totalRows := totalRows + count;

    var dailySpendRequest := ReportRequest(env, token, DailySpend, today);
    var dailySpend := RunGaqlQuery(api(dailySpendRequest), decode);
    assert dailySpend == Results(api, decode, env, token, DailySpend, today);
    count := db.InsertRows(ReportRecords(dailySpend, DailySpend, now));
    totalRows := totalRows + count;

    assert db.rows == Snapshot(FetchReports(api, decode, env, token, today), now);
    calls := [TokenCall(form), ReportCall(campaignsRequest), ReportCall(keywordsRequest),
              ReportCall(searchTermsRequest), ReportCall(dailySpendRequest)];
    outcome := Outcome(Success, calls, totalRows);
  }

  /** Every report covers whole days ending yesterday: 30 of them for campaigns, keywords
      and search terms, 90 for daily spend. Every request goes to the customer id without
      dashes. */
  lemma ReportWindows(env: AdsEnv, token: Json, report: AdsReport, today: int)
    ensures ReportRequest(env, token, report, today).query.window.end == today - 1
    ensures ReportRequest(env, token, report, today).query.window.end
          - ReportRequest(env, token, report, today).query.window.start + 1 == (if report == DailySpend then 90 else 30)
    ensures '-' !in ReportRequest(env, token, report, today).customerId
  {
  }
}
