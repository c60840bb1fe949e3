/** What the four snapshot commands share: reading credentials from the environment, the
    OAuth refresh-token exchange, report date windows as day numbers, and the rows of a
    decoded API response. */
module Ingest {
  import opened Base
  import opened PhpText
  import opened PhpJson

  /** A console command's exit status. */
  datatype ExitCode = Success | Failure

  /** `$_ENV[$name] ?? ''` followed by `if (!$value)`: a variable counts as set only when
      it is defined and neither "" nor "0". */
  predicate IsSetting(v: Option<string>) {
    v.Some? && IsTruthyText(v.value)
  }

  /** The form posted to the OAuth token endpoint. */
  datatype OAuthRefresh = OAuthRefresh(clientId: string, clientSecret: string, refreshToken: string)

  /** The token endpoint as the commands see it: the decoded response to a refresh. */
  type TokenEndpoint = OAuthRefresh -> Json

  /** `isset($tokenData['access_token'])`, and the token when it is set. */
  function AccessToken(tokenData: Json): (token: Option<Json>)
    ensures token.Some? <==> IsSet(tokenData, "access_token")
    ensures token.Some? ==> token.value != Null
  {
    Get(tokenData, Key("access_token"))
  }

  /** An outbound request in a command's trace: the token exchange or a report request. */
  datatype Call<R> = TokenCall(form: OAuthRefresh) | ReportCall(request: R)

  /** A report's inclusive date range, in day numbers. */
  datatype Window = Window(start: int, end: int)

  /** The `days` days that end `offset + 1` days before `today`:
      `-(offset + days) days` to `-(offset + 1) days`. */
  function DateWindow(today: int, days: int, offset: int): (w: Window)
    ensures w.end == today - (offset + 1) && w.start == today - (offset + days)
    ensures w.end - w.start + 1 == days
  {
    Window(today - (offset + days), today - (offset + 1))
  }

  /** `-{days} days` to `-1 day`: the last `days` full days before today. */
  function RecentWindow(today: int, days: int): (w: Window)
    ensures w.end == today - 1 && w.start == today - days
    ensures days >= 1 ==> w.start <= w.end < today
  {
    DateWindow(today, days, 0)
  }

  /** `$data[$key] ?? []` read as a list of rows; a missing or null member is no rows. */
  function ListField(data: Json, key: string): (rows: seq<Json>)
    ensures Get(data, Key(key)).None? ==> rows == []
    ensures Get(data, Key(key)).Some? && Get(data, Key(key)).value.List? ==> rows == Get(data, Key(key)).value.items
  {
    match Get(data, Key(key))
    case Some(List(xs)) => xs
    case _ => []
  }

  /** The rows of a report, `$data['rows'] ?? []`. */
  function ReportRows(data: Json): seq<Json> {
    ListField(data, "rows")
  }

  /** A table's rows appear grouped, the groups in ascending order of `group`: what a run
      that inserts one report after another leaves behind. */
  ghost predicate GroupedBy<T>(rows: seq<T>, group: T -> nat) {
    forall i, j :: 0 <= i < j < |rows| ==> group(rows[i]) <= group(rows[j])
  }

  ghost predicate GroupsAtMost<T>(rows: seq<T>, group: T -> nat, k: nat) {
    forall i :: 0 <= i < |rows| ==> group(rows[i]) <= k
  }

  /** Appending the rows of one later group keeps the grouping. */
  lemma AppendGroup<T>(xs: seq<T>, ys: seq<T>, group: T -> nat, k: nat)
    requires GroupedBy(xs, group) && GroupsAtMost(xs, group, k)
    requires forall i :: 0 <= i < |ys| ==> group(ys[i]) == k
    ensures GroupedBy(xs + ys, group) && GroupsAtMost(xs + ys, group, k)
    ensures GroupsAtMost(xs + ys, group, k + 1)
  {
  }

  /** Four reports inserted in turn, each of one group: 0, then 1, 2 and 3. */
  lemma FourGroupsInTurn<T>(a: seq<T>, b: seq<T>, c: seq<T>, d: seq<T>, group: T -> nat)
    requires forall i :: 0 <= i < |a| ==> group(a[i]) == 0
    requires forall i :: 0 <= i < |b| ==> group(b[i]) == 1
    requires forall i :: 0 <= i < |c| ==> group(c[i]) == 2
    requires forall i :: 0 <= i < |d| ==> group(d[i]) == 3
    ensures GroupedBy(a + b + c + d, group)
  {
    AppendGroup([], a, group, 0);
    assert [] + a == a;
    AppendGroup(a, b, group, 1);
    AppendGroup(a + b, c, group, 2);
    AppendGroup(a + b + c, d, group, 3);
  }

  /** `f` applied to each row, in order. */
  function MapRows<T, R>(rows: seq<T>, f: T -> R): (rs: seq<R>)
    ensures |rs| == |rows|
    ensures forall i :: 0 <= i < |rows| ==> rs[i] == f(rows[i])
  {
    seq(|rows|, i requires 0 <= i < |rows| => f(rows[i]))
  }
}
