/** `app:fetch-semrush`: appends one row to `semrush_snapshots` with the domain's organic
    keyword count and organic traffic, read from SEMrush's `domain_ranks` report. The
    report is two `;`-separated lines, column names then values. The HTTP request is a
    parameter returning the response text, or `None` when the API cannot be reached. */
module Semrush {
  import opened Base
  import opened PhpText
  import opened PhpJson
  import opened Ingest

  /** The only domain the command reports on. */
  const Domain: string := "doubledtrailers.com"

  /** The columns the request asks SEMrush to export. */
  const ExportColumns: seq<string> := ["Db", "Dn", "Rk", "Or", "Ot", "Oc", "Ad", "At", "Ac"]

  /** A `domain_ranks` request against the US database. */
  datatype SemrushRequest = SemrushRequest(key: string, domain: string, columns: seq<string>, database: string)

  type SemrushApi = SemrushRequest -> Option<string>

  /** `$_ENV['SEMRUSH_API_KEY']` is read without a check; an undefined key is sent empty. */
  function RequestFor(apiKey: Option<string>): (r: SemrushRequest)
    ensures r.domain == Domain && r.database == "us"
    ensures apiKey.Some? ==> r.key == apiKey.value
    ensures apiKey.None? ==> r.key == ""
  {
    SemrushRequest(apiKey.GetOr(""), Domain, ExportColumns, "us")
  }

  /** What PHP's CSV reader drops from the end of a line, and again from the end of every
      unquoted cell: one "\r\n", "\r" or "\n". */
  function DropLineEnd(s: string): (r: string)
    ensures s == r || s == r + "\r" || s == r + "\n" || s == r + "\r\n"
    ensures |s| >= 2 && s[|s| - 2..] == "\r\n" ==> s == r + "\r\n"
    ensures r == s <==> s == [] || (s[|s| - 1] != '\r' && s[|s| - 1] != '\n')
  {
    if |s| >= 2 && s[|s| - 2..] == "\r\n" then s[..|s| - 2]
    else if s != [] && (s[|s| - 1] == '\r' || s[|s| - 1] == '\n') then s[..|s| - 1]
    else s
  }

  /** The texts of the cells of a line without quotes: the line without its line end, cut
      at every `;`, each piece without its own line end. */
  function Fields(line: string): (fields: seq<string>)
    ensures |fields| == |Split(DropLineEnd(line), ';')| >= 1
    ensures forall i :: 0 <= i < |fields| ==> ';' !in fields[i]
    ensures forall i :: 0 <= i < |fields| ==> fields[i] == DropLineEnd(Split(DropLineEnd(line), ';')[i])
  {
    var parts := Split(DropLineEnd(line), ';');
    var fields := seq(|parts|, i requires 0 <= i < |parts| => DropLineEnd(parts[i]));
    assert forall i :: 0 <= i < |fields| ==> ';' !in fields[i] by {
      forall i | 0 <= i < |fields|
        ensures ';' !in fields[i]
      {
        DropLineEndKeepsOut(parts[i], ';');
      }
    }
    fields
  }

  /** Dropping a line end brings in no character. */
  lemma DropLineEndKeepsOut(s: string, c: char)
    requires c !in s
    ensures c !in DropLineEnd(s)
  {
    var r := DropLineEnd(s);
    assert r == s[..|r|];
  }

  /** `str_getcsv($line, ';')` for cells without quotes: a line that is empty once its line
      end is dropped is one null cell; any other line is one text cell per field. */
  function Cells(line: string): (cells: seq<Json>)
    ensures |cells| >= 1
    ensures DropLineEnd(line) == "" ==> cells == [Null]
    ensures DropLineEnd(line) != "" ==> |cells| == |Fields(line)|
    ensures DropLineEnd(line) != "" ==> forall i :: 0 <= i < |cells| ==> cells[i] == Str(Fields(line)[i])
  {
    if DropLineEnd(line) == "" then [Null]
    else
      var fields := Fields(line);
      seq(|fields|, i requires 0 <= i < |fields| => Str(fields[i]))
  }

  /** A line free of carriage returns and line feeds is cut at its `;`s and nothing more. */
  lemma PlainLineFields(line: string)
    requires '\r' !in line && '\n' !in line
    ensures Fields(line) == Split(line, ';')
  {
    NoLineEnd(line);
    var parts := Split(line, ';');
    PartsAvoid(parts, ';', '\r');
    PartsAvoid(parts, ';', '\n');
    forall i | 0 <= i < |parts|
      ensures DropLineEnd(parts[i]) == parts[i]
    {
      NoLineEnd(parts[i]);
    }
  }

  lemma NoLineEnd(s: string)
    requires '\r' !in s && '\n' !in s
    ensures DropLineEnd(s) == s
  {
    assert s != [] ==> s[|s| - 1] in s;
  }

  /** A line sent with a CR-LF ending, whose CR is left behind by the split on line feeds,
      reads exactly as the bare line. */
  lemma CrLineReadsAsBare(line: string)
    requires line == [] || (line[|line| - 1] != '\r' && line[|line| - 1] != '\n')
    ensures Cells(line + "\r") == Cells(line)
    ensures HeaderNames(line + "\r") == HeaderNames(line)
  {
    var s := line + "\r";
    assert s[|s| - 1] == '\r' && s[..|s| - 1] == line;
    assert DropLineEnd(s) == line;
    assert DropLineEnd(line) == line;
    assert Fields(s) == Fields(line);
  }

  /** `array_combine($headers, $values)`: each header names the value at its position. */
  function Combine(headers: seq<string>, values: seq<Json>): (ms: seq<Member>)
    requires |headers| == |values|
    ensures |ms| == |headers|
    ensures forall i :: 0 <= i < |ms| ==> ms[i] == Member(headers[i], values[i])
  {
    seq(|headers|, i requires 0 <= i < |headers| => Member(headers[i], values[i]))
  }

  /** How the response text reads: too few lines, a header count that differs from the
      value count (array_combine then throws), or the named values. */
  datatype Parse = TooFewLines | CountMismatch | Parsed(data: Json)

  /** The keys `array_combine` makes of a header line's cells: each cell's text, and ""
      for the null cell of an empty line. */
  function HeaderNames(line: string): (names: seq<string>)
    ensures |names| == |Cells(line)|
    ensures forall i :: 0 <= i < |names| ==>
      (Cells(line)[i] == Null && names[i] == "") || Cells(line)[i] == Str(names[i])
  {
    Fields(line)
  }

  /** Lines 0 and 1 of the trimmed response, split on `;` and paired by position. */
  function ParseResponse(response: string): (p: Parse)
    ensures |Split(Trim(response), '\n')| < 2 <==> p == TooFewLines
  {
    var lines := Split(Trim(response), '\n');
    if |lines| < 2 then TooFewLines
    else ParseLines(lines[0], lines[1])
  }

  function ParseLines(headerLine: string, valueLine: string): (p: Parse)
    ensures p != TooFewLines
    ensures p.Parsed? <==> |HeaderNames(headerLine)| == |Cells(valueLine)|
    ensures p.Parsed? ==> p.data == Object(Combine(HeaderNames(headerLine), Cells(valueLine)))
  {
    var headers := HeaderNames(headerLine);
    var values := Cells(valueLine);
    if |headers| != |values| then CountMismatch
    else Parsed(Object(Combine(headers, values)))
  }

  /** Whatever follows the second line of the response is never read: two responses whose
      first two lines agree read the same. */
  lemma {:induction false} LaterLinesIgnored(headerLine: string, valueLine: string, rest1: string, rest2: string)
    requires '\n' !in headerLine && '\n' !in valueLine
    requires headerLine != "" && !IsBlank(headerLine[0])
    requires |rest1| > 0 && !IsBlank(rest1[|rest1| - 1])
    requires |rest2| > 0 && !IsBlank(rest2[|rest2| - 1])
    ensures ParseResponse(headerLine + "\n" + valueLine + "\n" + rest1)
         == ParseResponse(headerLine + "\n" + valueLine + "\n" + rest2)
         == ParseLines(headerLine, valueLine)
  {
    ReadsFirstTwoLines(headerLine, valueLine, rest1);
    ReadsFirstTwoLines(headerLine, valueLine, rest2);
  }

  lemma ReadsFirstTwoLines(headerLine: string, valueLine: string, rest: string)
    requires '\n' !in headerLine && '\n' !in valueLine
    requires headerLine != "" && !IsBlank(headerLine[0])
    requires |rest| > 0 && !IsBlank(rest[|rest| - 1])
    ensures ParseResponse(headerLine + "\n" + valueLine + "\n" + rest) == ParseLines(headerLine, valueLine)
  {
    var s := headerLine + "\n" + valueLine + "\n" + rest;
    TrimNothing(s);
    assert s == headerLine + ['\n'] + (valueLine + ['\n'] + rest);
    SplitAtFirst(headerLine, '\n', valueLine + ['\n'] + rest);
    SplitAtFirst(valueLine, '\n', rest);
  }

  /** A string that neither starts nor ends with a blank is its own trim. */
  lemma TrimNothing(s: string)
    requires s != [] && !IsBlank(s[0]) && !IsBlank(s[|s| - 1])
    ensures Trim(s) == s
  {
    assert TrimStart(s) == s;
    assert TrimEnd(s) == s;
  }

  /** No separator survives in a string joined from pieces free of it with another one. */
  lemma {:induction false} JoinAvoids(parts: seq<string>, d: char, c: char)
    requires |parts| >= 1 && c != d
    requires forall i :: 0 <= i < |parts| ==> c !in parts[i]
    ensures c !in Join(parts, d)
    decreases |parts|
  {
    if |parts| > 1 {
      JoinAvoids(parts[1..], d, c);
    }
  }

  /** A character absent from a joined string is absent from every piece. */
  lemma {:induction false} PartsAvoid(parts: seq<string>, d: char, c: char)
    requires |parts| >= 1 && c !in Join(parts, d)
    ensures forall i :: 0 <= i < |parts| ==> c !in parts[i]
    decreases |parts|
  {
    if |parts| > 1 {
      assert Join(parts, d) == parts[0] + [d] + Join(parts[1..], d);
      PartsAvoid(parts[1..], d, c);
      forall i | 1 <= i < |parts|
        ensures c !in parts[i]
      {
        assert parts[i] == parts[1..][i - 1];
      }
    }
  }

  /** Splitting undoes joining when no piece contains the separator. */
  lemma {:induction false} SplitJoin(parts: seq<string>, d: char)
    requires |parts| >= 1
    requires forall i :: 0 <= i < |parts| ==> d !in parts[i]
    ensures Split(Join(parts, d), d) == parts
    decreases |parts|
  {
    if |parts| == 1 {
      SplitNoDelimiter(parts[0], d);
    } else {
      SplitJoin(parts[1..], d);
      SplitAtFirst(parts[0], d, Join(parts[1..], d));
      assert [parts[0]] + parts[1..] == parts;
    }
  }

  /** The report SEMrush sends for given column names and values. */
  function Report(headers: seq<string>, values: seq<string>): string
    requires |headers| >= 1 && |values| >= 1
  {
    Join(headers, ';') + "\n" + Join(values, ';')
  }

  /** Reading a well-formed report gives back every column under its own name. */
  lemma ReportRoundTrip(headers: seq<string>, values: seq<string>)
    requires |headers| == |values| >= 1
    requires forall i :: 0 <= i < |headers| ==> ';' !in headers[i] && '\n' !in headers[i] && '\r' !in headers[i]
    requires forall i :: 0 <= i < |values| ==> ';' !in values[i] && '\n' !in values[i] && '\r' !in values[i]
    requires headers[0] != "" && !IsBlank(headers[0][0])
    requires values[|values| - 1] != "" && !IsBlank(values[|values| - 1][|values[|values| - 1]| - 1])
    ensures ParseResponse(Report(headers, values)).Parsed?
    ensures ParseResponse(Report(headers, values)).data.Object?
    ensures |ParseResponse(Report(headers, values)).data.members| == |headers|
    ensures forall i :: 0 <= i < |headers| ==>
      ParseResponse(Report(headers, values)).data.members[i] == Member(headers[i], Str(values[i]))
  {
    var h := Join(headers, ';');
    var v := Join(values, ';');
    JoinAvoids(headers, ';', '\n');
    JoinAvoids(values, ';', '\n');
    JoinAvoids(headers, ';', '\r');
    JoinAvoids(values, ';', '\r');
    JoinStartsWith(headers, ';');
    JoinEndsWith(values, ';');
    ReadsTwoLines(h, v);
    assert Report(headers, values) == h + "\n" + v;
    SplitJoin(headers, ';');
    SplitJoin(values, ';');
    PlainLineFields(h);
    PlainLineFields(v);
    PairedCells(h, v, headers, values);
  }

  /** The same report sent with CR-LF line ends reads the same: the header line's CR is
      dropped by the CSV reader and the value line's by the trim. */
  lemma CrLfReportRoundTrip(headers: seq<string>, values: seq<string>)
    requires |headers| == |values| >= 1
    requires forall i :: 0 <= i < |headers| ==> ';' !in headers[i] && '\n' !in headers[i] && '\r' !in headers[i]
    requires forall i :: 0 <= i < |values| ==> ';' !in values[i] && '\n' !in values[i] && '\r' !in values[i]
    requires headers[0] != "" && !IsBlank(headers[0][0])
    requires values[|values| - 1] != "" && !IsBlank(values[|values| - 1][|values[|values| - 1]| - 1])
    ensures ParseResponse(Join(headers, ';') + "\r\n" + Join(values, ';') + "\r\n")
         == ParseResponse(Report(headers, values))
  {
    var h := Join(headers, ';');
    var v := Join(values, ';');
    JoinAvoids(headers, ';', '\n');
    JoinAvoids(values, ';', '\n');
    JoinAvoids(headers, ';', '\r');
    JoinStartsWith(headers, ';');
    JoinEndsWith(values, ';');
    CrLfLinesRead(h, v);
    ReadsTwoLines(h, v);
    assert Report(headers, values) == h + "\n" + v;
  }

  /** Two CR-LF terminated lines read as the bare lines. */
  lemma CrLfLinesRead(h: string, v: string)
    requires '\n' !in h && '\r' !in h && '\n' !in v
    requires h != "" && !IsBlank(h[0])
    requires v != "" && !IsBlank(v[|v| - 1])
    ensures ParseResponse(h + "\r\n" + v + "\r\n") == ParseLines(h, v)
  {
    CrLfLinesSplit(h, v);
    assert h[|h| - 1] in h;
    CrLineReadsAsBare(h);
  }

  /** The trim takes the value line's line end; the header line keeps its CR. */
  lemma CrLfLinesSplit(h: string, v: string)
    requires '\n' !in h && '\n' !in v
    requires h != "" && !IsBlank(h[0])
    requires v != "" && !IsBlank(v[|v| - 1])
    ensures ParseResponse(h + "\r\n" + v + "\r\n") == ParseLines(h + "\r", v)
  {
    var hr := h + "\r";
    assert hr[0] == h[0];
    assert '\n' !in hr;
    var s := h + "\r\n" + v + "\r\n";
    assert s == (hr + "\n" + v) + "\r\n";
    TrimDropsLineEnd(hr + "\n" + v);
    ReadsTwoLines(hr, v);
  }

  /** A trailing CR-LF is trimmed away from a text that has nothing else to trim. */
  lemma TrimDropsLineEnd(s: string)
    requires s != [] && !IsBlank(s[0]) && !IsBlank(s[|s| - 1])
    ensures Trim(s + "\r\n") == s
  {
    var t := s + "\r\n";
    assert t[0] == s[0];
    assert TrimStart(t) == t;
    assert t[..|s|] == s;
    assert TrimEnd(t) == s;
  }

  /** Two lines whose cells are known pair up cell by cell. */
  lemma PairedCells(h: string, v: string, headers: seq<string>, values: seq<string>)
    requires Fields(h) == headers && Fields(v) == values
    requires DropLineEnd(v) != "" && |headers| == |values|
    ensures ParseLines(h, v).Parsed?
    ensures |ParseLines(h, v).data.members| == |headers|
    ensures forall i :: 0 <= i < |headers| ==> ParseLines(h, v).data.members[i] == Member(headers[i], Str(values[i]))
  {
  }

  /** A response of exactly two lines, with nothing to trim, reads as those two lines. */
  lemma ReadsTwoLines(h: string, v: string)
    requires '\n' !in h && '\n' !in v
    requires h != "" && !IsBlank(h[0])
    requires v != "" && !IsBlank(v[|v| - 1])
    ensures ParseResponse(h + "\n" + v) == ParseLines(h, v)
  {
    var s := h + "\n" + v;
    assert s[0] == h[0] && s[|s| - 1] == v[|v| - 1];
    TrimNothing(s);
    assert s == h + ['\n'] + v;
    SplitAtFirst(h, '\n', v);
    SplitNoDelimiter(v, '\n');
  }

  lemma JoinStartsWith(parts: seq<string>, d: char)
    requires |parts| >= 1 && parts[0] != ""
    ensures Join(parts, d) != "" && Join(parts, d)[0] == parts[0][0]
  {
  }

  lemma {:induction false} JoinEndsWith(parts: seq<string>, d: char)
    requires |parts| >= 1 && parts[|parts| - 1] != ""
    ensures var s := Join(parts, d); s != "" && s[|s| - 1] == parts[|parts| - 1][|parts[|parts| - 1]| - 1]
    decreases |parts|
  {
    if |parts| > 1 {
      JoinEndsWith(parts[1..], d);
    }
  }

  /** A `semrush_snapshots` row. The counts are stored as the report's text, or 0. */
  datatype SemrushRecord = SemrushRecord(domain: string, organicKeywords: Json, organicTraffic: Json, fetchedAt: int)

  /** The insert: a column the report does not have, or whose cell is null, stores 0. */
  function RecordOf(data: Json, now: int): (r: SemrushRecord)
    ensures r.domain == Domain && r.fetchedAt == now
    ensures Get(data, Key("Organic Keywords")).None? ==> r.organicKeywords == Num(0.0)
    ensures Get(data, Key("Organic Keywords")).Some? ==> r.organicKeywords == Get(data, Key("Organic Keywords")).value
    ensures Get(data, Key("Organic Traffic")).None? ==> r.organicTraffic == Num(0.0)
    ensures Get(data, Key("Organic Traffic")).Some? ==> r.organicTraffic == Get(data, Key("Organic Traffic")).value
  {
    SemrushRecord(
      Domain,
      AtOr(data, [Key("Organic Keywords")], Num(0.0)),
      AtOr(data, [Key("Organic Traffic")], Num(0.0)),
      now)
  }

  /** The bounds of PostgreSQL's 32-bit INT. */
  const IntMin: int := -0x8000_0000
  const IntMax: int := 0x7fff_ffff

  /** The blanks PostgreSQL skips around an INT literal: space, tab, line feed, vertical
      tab, form feed and carriage return. */
  predicate IsPgSpace(c: char) {
    c == ' ' || c == '\t' || c == '\n' || c == '\r' || c as int == 11 || c as int == 12
  }

  /** The text less its leading and trailing PostgreSQL blanks. */
  function PgTrim(s: string): (r: string)
    ensures r == [] || (!IsPgSpace(r[0]) && !IsPgSpace(r[|r| - 1]))
    ensures forall c :: c in r ==> c in s
    ensures r == s <==> s == [] || (!IsPgSpace(s[0]) && !IsPgSpace(s[|s| - 1]))
    decreases |s|
  {
    if s != [] && IsPgSpace(s[0]) then PgTrim(s[1..])
    else if s != [] && IsPgSpace(s[|s| - 1]) then PgTrim(s[..|s| - 1])
    else s
  }

  /** How PostgreSQL reads a text into an INT column: blanks, an optional sign, one or more
      decimal digits, blanks, and a value within 32 bits; any other text is refused. */
  function PgInt(s: string): (r: Option<int>)
    ensures r.Some? ==> IntMin <= r.value <= IntMax
  {
    SignedValue(PgTrim(s))
  }

  /** The value of an optional sign followed by decimal digits, when it fits 32 bits. */
  function SignedValue(t: string): (r: Option<int>)
    ensures r.Some? ==> IntMin <= r.value <= IntMax
  {
    if t != [] && t[0] == '-' then
      match DigitsOnly(t[1..])
      case None => None
      case Some(n) => if n <= -IntMin then Some(-(n as int)) else None
    else
      var digits := if t != [] && t[0] == '+' then t[1..] else t;
      match DigitsOnly(digits)
      case None => None
      case Some(n) => if n <= IntMax then Some(n) else None
  }

  /** The value of one or more decimal digits and nothing else. */
  function DigitsOnly(ds: string): (r: Option<nat>)
    ensures r.Some? <==> ds != [] && forall i :: 0 <= i < |ds| ==> IsDigit(ds[i])
    ensures r.Some? ==> r.value == DigitsValue(ds)
  {
    if ds == [] || DigitRun(ds) < |ds| then None else Some(DigitsValue(ds))
  }

  /** Whether the INT column takes a stored count: the default 0 is bound as a number, a
      report cell as its text. */
  predicate StoresAsInt(j: Json) {
    match j
    case Num(x) => x == x.Floor as real && IntMin <= x.Floor <= IntMax
    case Str(s) => PgInt(s).Some?
    case _ => false
  }

  /** Whether PostgreSQL accepts the row: both counts fit their INT columns. */
  predicate Insertable(r: SemrushRecord) {
    StoresAsInt(r.organicKeywords) && StoresAsInt(r.organicTraffic)
  }

  /** A cell of decimal digits within 32 bits is stored as its value. */
  lemma DigitCellIsStored(ds: string)
    requires ds != [] && forall i :: 0 <= i < |ds| ==> IsDigit(ds[i])
    requires DigitsValue(ds) <= IntMax
    ensures PgInt(ds) == Some(DigitsValue(ds))
  {
    assert !IsPgSpace(ds[0]) && !IsPgSpace(ds[|ds| - 1]);
    assert PgTrim(ds) == ds;
    assert DigitsOnly(ds) == Some(DigitsValue(ds));
  }

  /** With a minus sign in front, such a cell is stored as the negated value. */
  lemma NegatedDigitCellIsStored(ds: string)
    requires ds != [] && forall i :: 0 <= i < |ds| ==> IsDigit(ds[i])
    requires DigitsValue(ds) <= IntMax
    ensures PgInt(['-'] + ds) == Some(-(DigitsValue(ds) as int))
  {
    var m := ['-'] + ds;
    assert m[|m| - 1] == ds[|ds| - 1];
    assert !IsPgSpace(m[0]) && !IsPgSpace(m[|m| - 1]);
    assert PgTrim(m) == m;
    assert m[1..] == ds;
    assert DigitsOnly(m[1..]) == Some(DigitsValue(ds));
    MinusSignNegates(m, DigitsValue(ds));
  }

  /** A minus sign before digits negates their value. */
  lemma MinusSignNegates(t: string, n: nat)
    requires t != [] && t[0] == '-' && DigitsOnly(t[1..]) == Some(n) && n <= IntMax
    ensures SignedValue(t) == Some(-(n as int))
  {
  }

  /** A cell without a single digit, such as the empty cell, is refused by the INT column. */
  lemma DigitlessCellIsRefused(s: string)
    requires forall i :: 0 <= i < |s| ==> !IsDigit(s[i])
    ensures PgInt(s) == None
  {
    var t := PgTrim(s);
    var digits := if t != [] && (t[0] == '-' || t[0] == '+') then t[1..] else t;
    if digits != [] {
      assert digits[0] in t;
      assert !IsDigit(digits[0]);
    }
  }

  /** An object whose members pair the header names with the value cells stores the cell
      of the last `Organic Keywords` column. */
  lemma StoredFromPairedCells(data: Json, headers: seq<string>, values: seq<string>, k: nat, now: int)
    requires data.Object? && |data.members| == |headers| == |values|
    requires forall i :: 0 <= i < |headers| ==> data.members[i] == Member(headers[i], Str(values[i]))
    requires k < |headers| && headers[k] == "Organic Keywords"
    requires forall i :: k < i < |headers| ==> headers[i] != "Organic Keywords"
    ensures RecordOf(data, now).organicKeywords == Str(values[k])
  {
    assert data == Object(Combine(headers, seq(|values|, i requires 0 <= i < |values| => Str(values[i]))));
    StoredFromItsColumn(headers, values, k, now);
  }

  /** A well-formed report stores the keyword cell of its last `Organic Keywords` column. */
  lemma ReportStoresItsKeywordCell(headers: seq<string>, values: seq<string>, k: nat, now: int)
    requires |headers| == |values| >= 1
    requires forall i :: 0 <= i < |headers| ==> ';' !in headers[i] && '\n' !in headers[i] && '\r' !in headers[i]
    requires forall i :: 0 <= i < |values| ==> ';' !in values[i] && '\n' !in values[i] && '\r' !in values[i]
    requires headers[0] != "" && !IsBlank(headers[0][0])
    requires values[|values| - 1] != "" && !IsBlank(values[|values| - 1][|values[|values| - 1]| - 1])
    requires k < |headers| && headers[k] == "Organic Keywords"
    requires forall i :: k < i < |headers| ==> headers[i] != "Organic Keywords"
    ensures ParseResponse(Report(headers, values)).Parsed?
    ensures RecordOf(ParseResponse(Report(headers, values)).data, now).organicKeywords == Str(values[k])
  {
    ReportRoundTrip(headers, values);
    StoredFromPairedCells(ParseResponse(Report(headers, values)).data, headers, values, k, now);
  }

  /** A well-formed report whose keyword cell holds no digit parses, but PostgreSQL
      refuses the row it makes. */
  lemma DigitlessCountIsRefused(headers: seq<string>, values: seq<string>, k: nat, now: int)
    requires |headers| == |values| >= 1
    requires forall i :: 0 <= i < |headers| ==> ';' !in headers[i] && '\n' !in headers[i] && '\r' !in headers[i]
    requires forall i :: 0 <= i < |values| ==> ';' !in values[i] && '\n' !in values[i] && '\r' !in values[i]
    requires headers[0] != "" && !IsBlank(headers[0][0])
    requires values[|values| - 1] != "" && !IsBlank(values[|values| - 1][|values[|values| - 1]| - 1])
    requires k < |headers| && headers[k] == "Organic Keywords"
    requires forall i :: k < i < |headers| ==> headers[i] != "Organic Keywords"
    requires forall i :: 0 <= i < |values[k]| ==> !IsDigit(values[k][i])
    ensures ParseResponse(Report(headers, values)).Parsed?
    ensures !Insertable(RecordOf(ParseResponse(Report(headers, values)).data, now))
  {
    ReportStoresItsKeywordCell(headers, values, k, now);
    DigitlessCellIsRefused(values[k]);
  }

  /** A report such as `Organic Keywords;Organic Traffic` over `;5`, whose keyword cell is
      empty, is such a report. */
  lemma EmptyCountIsRefused(traffic: string, now: int)
    requires traffic != [] && forall i :: 0 <= i < |traffic| ==> IsDigit(traffic[i])
    ensures ParseResponse(Report(["Organic Keywords", "Organic Traffic"], ["", traffic])).Parsed?
    ensures !Insertable(RecordOf(ParseResponse(Report(["Organic Keywords", "Organic Traffic"], ["", traffic])).data, now))
  {
    var headers := ["Organic Keywords", "Organic Traffic"];
    var values := ["", traffic];
    assert forall i :: 0 <= i < |headers| ==> ';' !in headers[i] && '\n' !in headers[i] && '\r' !in headers[i];
    assert forall i :: 0 <= i < |values| ==> ';' !in values[i] && '\n' !in values[i] && '\r' !in values[i];
    assert !IsBlank(headers[0][0]) && !IsBlank(values[1][|traffic| - 1]);
    DigitlessCountIsRefused(headers, values, 0, now);
  }

  /** The last column of a given name is the one stored; a report that names its columns
      once stores each count from its own column. */
  lemma StoredFromItsColumn(headers: seq<string>, values: seq<string>, k: nat, now: int)
    requires |headers| == |values| && k < |headers|
    requires headers[k] == "Organic Keywords"
    requires forall i :: k < i < |headers| ==> headers[i] != "Organic Keywords"
    ensures RecordOf(Object(Combine(headers, seq(|values|, i requires 0 <= i < |values| => Str(values[i])))), now).organicKeywords
         == Str(values[k])
  {
    var ms := Combine(headers, seq(|values|, i requires 0 <= i < |values| => Str(values[i])));
    assert ms[k].key == "Organic Keywords";
    assert LastIndexOf(ms, "Organic Keywords") == k;
  }

  /** The table, which the command only ever appends to. */
  class SemrushSnapshots {
    var rows: seq<SemrushRecord>

    constructor (rows: seq<SemrushRecord>)
      ensures this.rows == rows
    {
      this.rows := rows;
    }

    method Insert(r: SemrushRecord)
      modifies this
      ensures rows == old(rows) + [r]
    {
      rows := rows + [r];
    }
  }

  /** `ORDER BY fetched_at DESC LIMIT 1` may return `r`: no row was fetched later. */
  ghost predicate IsLatest(rows: seq<SemrushRecord>, r: SemrushRecord) {
    r in rows && forall i :: 0 <= i < |rows| ==> rows[i].fetchedAt <= r.fetchedAt
  }

  /** A run later than every stored row leaves its own row as the only latest one, so the
      chat prompt reads the newest figures. */
  lemma AppendedRowIsLatest(rows: seq<SemrushRecord>, r: SemrushRecord)
    requires forall i :: 0 <= i < |rows| ==> rows[i].fetchedAt < r.fetchedAt
    ensures IsLatest(rows + [r], r)
    ensures forall s :: IsLatest(rows + [r], s) ==> s == r
  {
    var all := rows + [r];
    assert all[|rows|] == r;
    forall s | IsLatest(all, s)
      ensures s == r
    {
      var j :| 0 <= j < |all| && all[j] == s;
      assert s.fetchedAt >= r.fetchedAt;
      if j < |rows| {
        assert all[j] == rows[j];
      }
    }
  }

  /** How a run ended. */
  datatype Status = Unreachable | UnexpectedFormat | CombineError | InsertRefused | Inserted(record: SemrushRecord)

  /** execute: one request, then at most one appended row. An unreachable API, a response
      of fewer than two lines and a header count that differs from the value count all
      fail without touching the table, and so does a count PostgreSQL's INT columns refuse;
      otherwise exactly one row is appended. */
  method Execute(db: SemrushSnapshots, apiKey: Option<string>, api: SemrushApi, now: int)
    returns (code: ExitCode, request: SemrushRequest, status: Status)
    modifies db
    ensures request == RequestFor(apiKey)
    ensures code == Success <==> status.Inserted?
    ensures api(request).None? ==> status == Unreachable && db.rows == old(db.rows)
    ensures api(request).Some? ==>
      match ParseResponse(api(request).value)
      case TooFewLines => status == UnexpectedFormat && db.rows == old(db.rows)
      case CountMismatch => status == CombineError && db.rows == old(db.rows)
      case Parsed(data) =>
        if Insertable(RecordOf(data, now)) then
          status == Inserted(RecordOf(data, now)) && db.rows == old(db.rows) + [RecordOf(data, now)]
        else status == InsertRefused && db.rows == old(db.rows)
  {
    request := RequestFor(apiKey);
    var response := api(request);
    if response.None? {
      return Failure, request, Unreachable;
    }
    var lines := Split(Trim(response.value), '\n');
    if |lines| < 2 {
      return Failure, request, UnexpectedFormat;
    }
    var headers := HeaderNames(lines[0]);
    var values := Cells(lines[1]);
    if |headers| != |values| {
      return Failure, request, CombineError;
    }
    var data := Object(Combine(headers, values));
    var record := RecordOf(data, now);
    if !Insertable(record) {
      return Failure, request, InsertRefused;
    }
    db.Insert(record);
    code, status := Success, Inserted(record);
  }
}
