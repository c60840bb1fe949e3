/** Decoded JSON as PHP sees it after `json_decode($text, true)`, with the lookups, casts
    and truthiness the commands and the controller apply to it. Decoding itself is not
    modelled: wherever the source decodes text, the model takes the decoder as a
    parameter of type `string -> Json` that yields `Null` for text that does not parse. */
module PhpJson {
  import opened Base
  import PhpText

  /** Objects keep their members in document order, duplicates included. */
  datatype Json =
    | Null
    | Bool(b: bool)
    | Num(n: real)
    | Str(s: string)
    | List(items: seq<Json>)
    | Object(members: seq<Member>)

  datatype Member = Member(key: string, value: Json)

  /** One subscript of a PHP access path: `['rows']` or `[0]`. */
  datatype Step = Key(name: string) | Index(i: nat)

  /** The value stored under `key`; `json_decode` keeps the last of duplicate keys. */
  function Lookup(ms: seq<Member>, key: string): (r: Option<Json>)
    ensures r.Some? <==> exists i :: 0 <= i < |ms| && ms[i].key == key
    ensures r.Some? ==> ms[LastIndexOf(ms, key)].value == r.value
  {
    if ms == [] then None
    else if ms[|ms| - 1].key == key then Some(ms[|ms| - 1].value)
    else
      var r := Lookup(ms[..|ms| - 1], key);
      assert forall i :: 0 <= i < |ms| - 1 ==> ms[..|ms| - 1][i] == ms[i];
      r
  }

  /** The position of the last member named `key`. */
  function LastIndexOf(ms: seq<Member>, key: string): (i: nat)
    requires exists i :: 0 <= i < |ms| && ms[i].key == key
    ensures i < |ms| && ms[i].key == key
    ensures forall k :: i < k < |ms| ==> ms[k].key != key
  {
    if ms[|ms| - 1].key == key then |ms| - 1
    else
      assert forall i :: 0 <= i < |ms| - 1 ==> ms[..|ms| - 1][i] == ms[i];
      LastIndexOf(ms[..|ms| - 1], key)
  }

  /** One subscript under PHP's `??`: a missing key, an out-of-range index, a subscript
      on a scalar, and a stored `null` all count as absent. */
  function Get(j: Json, step: Step): (r: Option<Json>)
    ensures r.Some? ==> r.value != Null
  {
    match (j, step)
    case (Object(ms), Key(k)) =>
      var v := Lookup(ms, k);
      if v.Some? && v.value != Null then v else None
    case (List(xs), Index(i)) =>
      if i < |xs| && xs[i] != Null then Some(xs[i]) else None
    case _ => None
  }

  /** `$j[s1][s2]... ?? <absent>`. */
  function At(j: Json, path: seq<Step>): (r: Option<Json>)
    ensures r.Some? ==> r.value != Null
    decreases |path|
  {
    if path == [] then (if j == Null then None else Some(j))
    else
      match Get(j, path[0])
      case None => None
      case Some(v) => At(v, path[1..])
  }

  /** `$j[s1][s2]... ?? $default`. */
  function AtOr(j: Json, path: seq<Step>, default: Json): (r: Json)
    ensures At(j, path).None? ==> r == default
    ensures At(j, path).Some? ==> r == At(j, path).value
  {
    At(j, path).GetOr(default)
  }

  /** `isset($j[$key])`. */
  predicate IsSet(j: Json, key: string) {
    Get(j, Key(key)).Some?
  }

  /** `is_array($j)`: decoded lists and objects are PHP arrays. */
  predicate IsArray(j: Json) {
    j.List? || j.Object?
  }

  /** The values a `foreach` visits: the items of a list, the member values of an object,
      nothing for a scalar. */
  function Elements(j: Json): (r: seq<Json>)
    ensures j.List? ==> r == j.items
    ensures j.Object? ==> |r| == |j.members|
    ensures !IsArray(j) ==> r == []
  {
    match j
    case List(xs) => xs
    case Object(ms) => seq(|ms|, i requires 0 <= i < |ms| => ms[i].value)
    case _ => []
  }

  /** PHP truthiness (`if ($x)`, `$x ? a : b`). */
  predicate Truthy(j: Json) {
    match j
    case Null => false
    case Bool(b) => b
    case Num(n) => n != 0.0
    case Str(s) => PhpText.IsTruthyText(s)
    case List(xs) => xs != []
    case Object(ms) => ms != []
  }

  /** (int) on a float: truncation toward zero. */
  function Trunc(x: real): int {
    if x >= 0.0 then x.Floor else -((-x).Floor)
  }

  lemma TruncTowardZero(x: real)
    ensures x >= 0.0 ==> Trunc(x) as real <= x < Trunc(x) as real + 1.0
    ensures x < 0.0 ==> Trunc(x) as real - 1.0 < x <= Trunc(x) as real
  {
  }

  /** round($x): to the nearest integer, halves away from zero. */
  function RoundHalfAway(x: real): int {
    if x >= 0.0 then (x + 0.5).Floor else -((-x + 0.5).Floor)
  }

  lemma RoundHalfAwayNearest(x: real)
    ensures RoundHalfAway(x) as real - 0.5 <= x <= RoundHalfAway(x) as real + 0.5
  {
  }

  /** round($x, $digits) on exact reals, where `scale` is 10 to the power $digits. */
  function RoundTo(x: real, scale: real): real
    requires scale > 0.0
  {
    RoundHalfAway(x * scale) as real / scale
  }

  /** floatval($j) / (float) $j. */
  function FloatVal(j: Json): real {
    match j
    case Null => 0.0
    case Bool(b) => if b then 1.0 else 0.0
    case Num(n) => n
    case Str(s) => PhpText.NumericPrefix(s)
    case List(xs) => if xs == [] then 0.0 else 1.0
    case Object(ms) => if ms == [] then 0.0 else 1.0
  }

  /** intval($j) / (int) $j: the float value truncated toward zero. */
  function IntVal(j: Json): int {
    Trunc(FloatVal(j))
  }

  /** Integer metrics sent as digit strings (as the Google APIs send 64-bit counts) are
      read back exactly, by intval and by (int) round((float) ...) alike. This rests on
      floats being exact reals here: in PHP the float path is exact only up to 2^53, and
      intval only up to 2^63 - 1. */
  lemma DigitStringIsExact(s: string)
    requires forall i :: 0 <= i < |s| ==> PhpText.IsDigit(s[i])
    ensures IntVal(Str(s)) == PhpText.DigitsValue(s)
    ensures RoundHalfAway(FloatVal(Str(s))) == PhpText.DigitsValue(s)
  {
    PhpText.DigitStringValue(s);
  }
}
