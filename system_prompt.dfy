/** `buildSystemPrompt`: the text the chat endpoint sends as the assistant's system prompt.
    It is assembled from the latest SEMrush snapshot, the top Search Console queries, the
    top GA4 pages, the open tasks and the rechecks falling due. Database values arrive as
    text; the two conversions the prompt applies to numbers and dates (PHP's float-to-string
    and the recheck date's text) are parameters. */
module SystemPrompt {
  import opened Base
  import opened PhpText
  import PhpJson
  import opened Tasks

  /** The SEMrush columns the chat endpoint reads; a NULL column is `None`. */
  datatype SemrushRow = SemrushRow(organicKeywords: Option<string>, organicTraffic: Option<string>, fetchedAt: Option<string>)

  /** A `gsc_snapshots` row as the chat endpoint selects it. */
  datatype QueryRow = QueryRow(query: string, page: string, clicks: string, impressions: string, position: real)

  /** A `ga4_snapshots` row as the chat endpoint selects it. */
  datatype PageRow = PageRow(pagePath: string, sessions: string, pageviews: string, conversions: string)

  /** How PHP renders a float in a string, and how a recheck date reads as text. */
  datatype Render = Render(number: real -> string, day: int -> string)

  /** Everything the prompt is built from. `rulesFile` is the content of
      `system-prompt.txt`, `None` when that file does not exist. */
  datatype PromptInput = PromptInput(
    semrush: Option<SemrushRow>,
    topQueries: seq<QueryRow>,
    topPages: seq<PageRow>,
    userName: string,
    userRole: string,
    activeTasks: seq<Task>,
    pendingRechecks: seq<Task>,
    dateText: string,
    rulesFile: Option<string>)

  /** At most this many query lines and page lines are written. */
  const MaxSummaryRows: nat := 20

  const Intro: string := "You are Logiri, an SEO intelligence assistant built specifically for Double D Trailers (doubledtrailers.com)."
  const TaskHeader: string := "\n\nACTIVE TASKS IN SYSTEM:\n"
  const RecheckHeader: string := "\n\nPENDING VERIFICATION RECHECKS:\n"

  /** `array_slice($xs, 0, $n)`. */
  function Take<T>(xs: seq<T>, n: nat): (r: seq<T>)
    ensures |r| == Min(n, |xs|)
    ensures r == xs[..|r|]
  {
    if |xs| <= n then xs else xs[..n]
  }

  /** The texts of `xs`, each followed by a line feed: what a `foreach` appending
      `... . "\n"` to an initially empty string leaves. */
  function Lines<T>(xs: seq<T>, text: T -> string): string
    decreases |xs|
  {
    if xs == [] then "" else text(xs[0]) + "\n" + Lines(xs[1..], text)
  }

  /** One more iteration of such a loop appends one more line. */
  lemma {:induction false} LinesAppend<T>(xs: seq<T>, x: T, text: T -> string)
    ensures Lines(xs + [x], text) == Lines(xs, text) + text(x) + "\n"
    decreases |xs|
  {
    if xs == [] {
      assert ([x])[1..] == [];
    } else {
      assert (xs + [x])[1..] == xs[1..] + [x];
      LinesAppend(xs[1..], x, text);
    }
  }

  /** Exploding the result on line feeds gives back one line per element, in order, and a
      final empty piece, as long as no text holds a line feed of its own. */
  lemma {:induction false} LinesSplit<T>(xs: seq<T>, text: T -> string)
    requires forall i :: 0 <= i < |xs| ==> '\n' !in text(xs[i])
    ensures Split(Lines(xs, text), '\n') == seq(|xs|, i requires 0 <= i < |xs| => text(xs[i])) + [""]
    decreases |xs|
  {
    if xs == [] {
      assert Split("", '\n') == [""];
    } else {
      LinesSplit(xs[1..], text);
      assert text(xs[0]) + "\n" + Lines(xs[1..], text) == text(xs[0]) + ['\n'] + Lines(xs[1..], text);
      SplitAtFirst(text(xs[0]), '\n', Lines(xs[1..], text));
      assert seq(|xs|, i requires 0 <= i < |xs| => text(xs[i]))
          == [text(xs[0])] + seq(|xs[1..]|, i requires 0 <= i < |xs[1..]| => text(xs[1..][i]));
    }
  }

  /** One query line, without its line feed; the position is rounded to one decimal. */
  function QueryText(row: QueryRow, render: Render): string {
    "- \"" + row.query + "\" | Page: " + row.page + " | Clicks: " + row.clicks
      + " | Impressions: " + row.impressions + " | Position: " + render.number(PhpJson.RoundTo(row.position, 10.0))
  }

  /** One page line, without its line feed. */
  function PageText(row: PageRow): string {
    "- " + row.pagePath + " | Sessions: " + row.sessions + " | Pageviews: " + row.pageviews
      + " | Conversions: " + row.conversions
  }

  /** `" | Time: logged/est h"`, present only for a positive estimate; null hours read as 0. */
  function TimeInfo(t: Task, render: Render): (r: string)
    ensures r == "" <==> t.estimatedHours.GetOr(0.0) <= 0.0
  {
    var logged := t.loggedHours.GetOr(0.0);
    var est := t.estimatedHours.GetOr(0.0);
    if est > 0.0 then " | Time: " + render.number(logged) + "/" + render.number(est) + "h" else ""
  }

  /** One active-task line, without its line feed. */
  function TaskText(t: Task, render: Render): string {
    "- [" + Upper(t.priority) + TaskRest(t, render)
  }

  /** The assignee as the prompt names it: "Unassigned" when NULL, the stored text
      (empty or not) otherwise. */
  function AssigneeText(t: Task): (r: string)
    ensures t.assignedTo.None? ==> r == "Unassigned"
    ensures t.assignedTo.Some? ==> r == t.assignedTo.value
  {
    t.assignedTo.GetOr("Unassigned")
  }

  /** The recheck type as the prompt names it: "general" when NULL, the stored text
      otherwise. */
  function RecheckTypeText(t: Task): (r: string)
    ensures t.recheckType.None? ==> r == "general"
    ensures t.recheckType.Some? ==> r == t.recheckType.value
  {
    t.recheckType.GetOr("general")
  }

  /** The task line after its priority: title, assignee, status, and the time spent when
      an estimate is set. */
  function TaskRest(t: Task, render: Render): string {
    "] " + t.title + " | Assigned: " + AssigneeText(t) + " | Status: " + t.status + TimeInfo(t, render)
  }

  /** One recheck line, without its line feed; a NULL date prints as nothing. */
  function RecheckText(t: Task, render: Render): string {
    "- Task: " + t.title + " | Recheck due: " + (if t.recheckDate.Some? then render.day(t.recheckDate.value) else "")
      + " | Type: " + RecheckTypeText(t) + " | Assigned: " + AssigneeText(t)
  }

  /** The line texts as functions of a row, for a fixed rendering. */
  function QueryTextOf(render: Render): QueryRow -> string {
    r => QueryText(r, render)
  }

  function TaskTextOf(render: Render): Task -> string {
    t => TaskText(t, render)
  }

  function RecheckTextOf(render: Render): Task -> string {
    t => RecheckText(t, render)
  }

  function QuerySummary(rows: seq<QueryRow>, render: Render): string {
    Lines(Take(rows, MaxSummaryRows), QueryTextOf(render))
  }

  function PageSummary(rows: seq<PageRow>): string {
    Lines(Take(rows, MaxSummaryRows), PageText)
  }

  /** The task section: empty without tasks, otherwise its header and one line per task. */
  function TaskContext(tasks: seq<Task>, render: Render): (r: string)
    ensures r == "" <==> tasks == []
    ensures tasks != [] ==> TaskHeader <= r
  {
    if tasks == [] then ""
    else
      var r := TaskHeader + Lines(tasks, TaskTextOf(render));
      r
  }

  /** The recheck section: empty without rechecks, otherwise its header and one line each. */
  function RecheckContext(rechecks: seq<Task>, render: Render): (r: string)
    ensures r == "" <==> rechecks == []
    ensures rechecks != [] ==> RecheckHeader <= r
  {
    if rechecks == [] then ""
    else
      var r := RecheckHeader + Lines(rechecks, RecheckTextOf(render));
      r
  }

  /** A SEMrush figure, "N/A" when there is no snapshot or the column is NULL. */
  function SemrushField(semrush: Option<SemrushRow>, field: SemrushRow -> Option<string>): (r: string)
    ensures semrush.None? ==> r == "N/A"
    ensures semrush.Some? && field(semrush.value).Some? ==> r == field(semrush.value).value
    ensures semrush.Some? && field(semrush.value).None? ==> r == "N/A"
  {
    if semrush.Some? then field(semrush.value).GetOr("N/A") else "N/A"
  }

  /** The greeting, date, user and data-snapshot part that precedes the summaries. */
  function Preamble(input: PromptInput): (r: string)
    ensures Intro <= r
  {
    PrefixOfAppend(Intro, PreambleRest(input));
    Intro + PreambleRest(input)
  }

  function PreambleRest(input: PromptInput): string {
    " You help the internal team identify and act on SEO issues using real data from SEMrush, Google Search Console, and Google Analytics 4."
      + "\n\nToday is " + input.dateText + "."
      + "\n\nCURRENT USER: " + input.userName + " | Role: " + input.userRole
      + "\nPersonalize your response for this user. Address them by name. Prioritize tasks relevant to their role."
      + "\n\nCURRENT DATA SNAPSHOT:"
      + "\nSEMrush Overview:"
      + "\n- Organic Keywords: " + SemrushField(input.semrush, (s: SemrushRow) => s.organicKeywords)
      + "\n- Organic Traffic: " + SemrushField(input.semrush, (s: SemrushRow) => s.organicTraffic)
      + "\n- Last updated: " + SemrushField(input.semrush, (s: SemrushRow) => s.fetchedAt)
  }

  /** Everything between the preamble and the rules file: the two summaries under their
      headings, the task and recheck sections, and the blank line before the rules. */
  function Sections(input: PromptInput, render: Render): string {
    "\n\nTop GSC Queries (last 28 days):\n" + QuerySummary(input.topQueries, render)
      + "\nTop GA4 Pages (last 28 days):\n" + PageSummary(input.topPages)
      + TaskContext(input.activeTasks, render)
      + RecheckContext(input.pendingRechecks, render)
      + "\n\n"
  }

  /** The whole prompt: it opens with the assistant's introduction and closes with the
      static rules file (nothing when that file is absent). */
  function Prompt(input: PromptInput, render: Render): (r: string)
    ensures Intro <= r
    ensures EndsWith(r, input.rulesFile.GetOr(""))
  {
    var body := Preamble(input) + Sections(input, render);
    var rules := input.rulesFile.GetOr("");
    PrefixOfConcat(Intro, Preamble(input), Sections(input, render));
    PrefixOfConcat(Intro, body, rules);
    ConcatEndsWith(body, rules);
    body + rules
  }

  predicate EndsWith(s: string, suffix: string) {
    |suffix| <= |s| && s[|s| - |suffix|..] == suffix
  }

  lemma ConcatEndsWith(b: string, c: string)
    ensures EndsWith(b + c, c)
  {
    assert (b + c)[|b|..] == c;
  }

  lemma PrefixOfAppend(a: string, b: string)
    ensures a <= a + b
  {
    assert (a + b)[..|a|] == a;
  }

  lemma PrefixOfConcat(a: string, b: string, c: string)
    requires a <= b
    ensures a <= b + c
  {
    assert (b + c)[..|b|] == b;
  }

  /** `$acc .= text . "\n"` for every element, as the source's `foreach` loops do. */
  method AppendLines<T>(acc: string, xs: seq<T>, text: T -> string) returns (r: string)
    ensures r == acc + Lines(xs, text)
  {
    r := acc;
    var i := 0;
    while i < |xs|
      invariant 0 <= i <= |xs|
      invariant r == acc + Lines(xs[..i], text)
    {
      LinesAppend(xs[..i], xs[i], text);
      assert xs[..i + 1] == xs[..i] + [xs[i]];
      r := r + text(xs[i]) + "\n";
      i := i + 1;
    }
    assert xs[..|xs|] == xs;
  }

  /** The four loops of buildSystemPrompt fill the query, page, task and recheck sections. */
  method BuildSections(input: PromptInput, render: Render) returns (sections: string)
    ensures sections == Sections(input, render)
  {
    var querySummary := AppendLines("", Take(input.topQueries, MaxSummaryRows), QueryTextOf(render));
    var pageSummary := AppendLines("", Take(input.topPages, MaxSummaryRows), PageText);
    var taskContext := "";
    if input.activeTasks != [] {
      taskContext := AppendLines(TaskHeader, input.activeTasks, TaskTextOf(render));
    }
    var recheckContext := "";
    if input.pendingRechecks != [] {
      recheckContext := AppendLines(RecheckHeader, input.pendingRechecks, RecheckTextOf(render));
    }
    assert querySummary == QuerySummary(input.topQueries, render);
    assert pageSummary == PageSummary(input.topPages);
    sections := "\n\nTop GSC Queries (last 28 days):\n" + querySummary;
    sections := sections + "\nTop GA4 Pages (last 28 days):\n" + pageSummary;
    sections := sections + taskContext;
    sections := sections + recheckContext;
    sections := sections + "\n\n";
  }

  /** buildSystemPrompt: the preamble, the sections and the rules file, concatenated. */
  method BuildSystemPrompt(input: PromptInput, render: Render) returns (prompt: string)
    ensures prompt == Prompt(input, render)
  {
    var sections := BuildSections(input, render);
    var staticRules := if input.rulesFile.Some? then input.rulesFile.value else "";
    assert staticRules == input.rulesFile.GetOr("");
    prompt := Preamble(input) + sections + staticRules;
  }

  /** The query summary has one line per row for at most the first 20 rows, each line the
      row's text, when no field and no rendered position holds a line feed. */
  lemma QuerySummaryLines(rows: seq<QueryRow>, render: Render)
    requires forall i :: 0 <= i < |rows| ==> '\n' !in QueryText(rows[i], render)
    ensures |Split(QuerySummary(rows, render), '\n')| == Min(MaxSummaryRows, |rows|) + 1
    ensures forall i :: 0 <= i < Min(MaxSummaryRows, |rows|) ==>
      Split(QuerySummary(rows, render), '\n')[i] == QueryText(rows[i], render)
  {
    var top := Take(rows, MaxSummaryRows);
    LinesSplit(top, QueryTextOf(render));
  }

  /** Likewise the page summary: at most 20 lines, one per leading row. */
  lemma PageSummaryLines(rows: seq<PageRow>)
    requires forall i :: 0 <= i < |rows| ==> '\n' !in PageText(rows[i])
    ensures |Split(PageSummary(rows), '\n')| == Min(MaxSummaryRows, |rows|) + 1
    ensures forall i :: 0 <= i < Min(MaxSummaryRows, |rows|) ==> Split(PageSummary(rows), '\n')[i] == PageText(rows[i])
  {
    LinesSplit(Take(rows, MaxSummaryRows), PageText);
  }

  /** Rows past the twentieth never reach the prompt. */
  lemma RowsPastTwentyIgnored(rows: seq<QueryRow>, more: seq<QueryRow>, pages: seq<PageRow>, morePages: seq<PageRow>, render: Render)
    requires |rows| >= MaxSummaryRows && |pages| >= MaxSummaryRows
    ensures QuerySummary(rows + more, render) == QuerySummary(rows, render)
    ensures PageSummary(pages + morePages) == PageSummary(pages)
  {
    assert Take(rows + more, MaxSummaryRows) == Take(rows, MaxSummaryRows);
    assert Take(pages + morePages, MaxSummaryRows) == Take(pages, MaxSummaryRows);
  }

  /** A task line opens with the priority upper-cased in brackets. */
  lemma TaskLineShape(t: Task, render: Render)
    ensures "- [" <= TaskText(t, render)
    ensures |TaskText(t, render)| >= 3 + |t.priority|
    ensures TaskText(t, render)[3..3 + |t.priority|] == Upper(t.priority)
    ensures forall k :: 3 <= k < 3 + |t.priority| ==> !('a' <= TaskText(t, render)[k] <= 'z')
  {
    var u := Upper(t.priority);
    var rest := TaskRest(t, render);
    assert TaskText(t, render) == "- [" + u + rest;
    SliceOfConcat("- [", u, rest);
  }

  /** The middle of a three-part concatenation is its middle part. */
  lemma SliceOfConcat(a: string, b: string, c: string)
    ensures (a + b + c)[..|a|] == a
    ensures (a + b + c)[|a|..|a| + |b|] == b
  {
  }
}
