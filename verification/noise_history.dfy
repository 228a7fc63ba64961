/** The non-rendering logic of the history list: which readings are shown and in
    what order, the relative-time label of each, and the category dot. */
module NoiseHistory {

  import opened Outcomes
  import NoiseClassifier

  type Category = NoiseClassifier.Category

  datatype NoiseReading = NoiseReading(
    decibels: real,
    category: Category,
    timestampMs: int,
    description: Option<string>)

  const DEFAULT_MAX_READINGS: int := 10

  // ---------------------------------------------------------------------------
  // Selection

  /** `Array.prototype.slice(start)` for an integer start: a negative start counts
      from the end, and either kind is clamped to the array. */
  function JsSliceFrom<T>(xs: seq<T>, start: int): (r: seq<T>)
    ensures start < 0 ==> r == xs[if -start <= |xs| then |xs| + start else 0..]
    ensures 0 <= start ==> r == xs[if start <= |xs| then start else |xs|..]
  {
    var from := if start < 0 then (if |xs| + start < 0 then 0 else |xs| + start)
                else (if start <= |xs| then start else |xs|);
    xs[from..]
  }

  function Reverse<T>(xs: seq<T>): (r: seq<T>)
    ensures |r| == |xs|
    ensures forall i :: 0 <= i < |xs| ==> r[i] == xs[|xs| - 1 - i]
    decreases |xs|
  {
    if |xs| == 0 then [] else [xs[|xs| - 1]] + Reverse(xs[..|xs| - 1])
  }

  /** The display list `readings.slice(-maxReadings).reverse()`, with the prop's
      default of 10 when it is not given. */
  function DisplayReadings(readings: seq<NoiseReading>, maxReadings: Option<int>): (r: seq<NoiseReading>)
    ensures |r| <= |readings|
    ensures forall i :: 0 <= i < |r| ==> r[i] == readings[|readings| - 1 - i]
  {
    var m := if maxReadings.Some? then maxReadings.value else DEFAULT_MAX_READINGS;
    Reverse(JsSliceFrom(readings, -m))
  }

  /** A positive limit shows the last `min(limit, n)` readings, newest first. */
  lemma DisplayShowsNewestFirst(readings: seq<NoiseReading>, limit: int)
    requires 0 < limit
    ensures var shown := DisplayReadings(readings, Some(limit));
      && |shown| == (if limit <= |readings| then limit else |readings|)
      && forall i :: 0 <= i < |shown| ==> shown[i] == readings[|readings| - 1 - i]
  {
  }

  /** With no limit given, at most ten readings are shown. */
  lemma DefaultShowsTen(readings: seq<NoiseReading>)
    ensures DisplayReadings(readings, None) == DisplayReadings(readings, Some(10))
    ensures |DisplayReadings(readings, None)| == if |readings| < 10 then |readings| else 10
  {
  }

  /** A limit of 0 is `slice(-0)`, which is `slice(0)`: every reading is shown. */
  lemma ZeroLimitShowsAll(readings: seq<NoiseReading>)
    ensures DisplayReadings(readings, Some(0)) == Reverse(readings)
  {
  }

  /** A negative limit `-k` becomes `slice(k)`, which hides the k oldest readings. */
  lemma NegativeLimitDropsOldest(readings: seq<NoiseReading>, k: int)
    requires 0 < k <= |readings|
    ensures DisplayReadings(readings, Some(-k)) == Reverse(readings[k..])
  {
  }

  // ---------------------------------------------------------------------------
  // The list or the empty state

  datatype HistoryView =
    | EmptyState(message: string, hint: string)
    | ReadingList(title: string, items: seq<NoiseReading>)

  function NoiseHistoryView(readings: seq<NoiseReading>, maxReadings: Option<int>): (v: HistoryView)
    ensures v.EmptyState? <==> |DisplayReadings(readings, maxReadings)| == 0
    ensures v.ReadingList? ==> v.items == DisplayReadings(readings, maxReadings)
  {
    var shown := DisplayReadings(readings, maxReadings);
    if |shown| == 0 then EmptyState("No readings yet", "Start monitoring to see history")
    else ReadingList("Recent Readings", shown)
  }

  /** No readings give the empty state, which renders no title. */
  lemma NoReadingsShowEmptyState(maxReadings: Option<int>)
    ensures NoiseHistoryView([], maxReadings).EmptyState?
  {
  }

  /** Any reading with a non-negative (or default) limit gives the titled list. */
  lemma SomeReadingsShowList(readings: seq<NoiseReading>, maxReadings: Option<int>)
    requires 0 < |readings|
    requires maxReadings.None? || 0 <= maxReadings.value
    ensures NoiseHistoryView(readings, maxReadings).ReadingList?
    ensures NoiseHistoryView(readings, maxReadings).title == "Recent Readings"
  {
  }

  // ---------------------------------------------------------------------------
  // Relative time

  datatype TimeLabel =
    | SecondsAgo(seconds: int)
    | MinutesAgo(minutes: int)
    | HoursAgo(hours: int)
    /** `toLocaleTimeString()`, outside the model. */
    | ClockTime

  /** `formatTimestamp` from `now - timestamp` in milliseconds. `Math.floor` of a
      quotient by a positive divisor is Dafny's `/` on integers. */
  function FormatTimestamp(diffMs: int): (t: TimeLabel)
    ensures var s := diffMs / 1000;
      && (t.SecondsAgo? <==> s < 60)
      && (t.SecondsAgo? ==> t.seconds * 1000 <= diffMs < t.seconds * 1000 + 1000)
      && (t.MinutesAgo? <==> 60 <= s < 3600)
      && (t.MinutesAgo? ==> 1 <= t.minutes < 60 && t.minutes * 60 <= s < t.minutes * 60 + 60)
      && (t.HoursAgo? <==> 3600 <= s < 86400)
      && (t.HoursAgo? ==> 1 <= t.hours < 24 && t.hours * 3600 <= s < t.hours * 3600 + 3600)
      && (t.ClockTime? <==> 86400 <= s)
  {
    var seconds := diffMs / 1000;
    if seconds < 60 then SecondsAgo(seconds)
    else
      var minutes := seconds / 60;
      if minutes < 60 then MinutesAgo(minutes)
      else
        var hours := minutes / 60;
        NestedFloor(seconds);
        if hours < 24 then HoursAgo(hours) else ClockTime
  }

  /** floor(floor(s / 60) / 60) is floor(s / 3600). */
  lemma NestedFloor(s: int)
    ensures s / 60 / 60 == s / 3600
  {
    var m := s / 60;
    var h := m / 60;
    assert m * 60 <= s < m * 60 + 60;
    assert h * 60 <= m < h * 60 + 60;
    assert h * 3600 <= s < h * 3600 + 3600;
  }

  /** A reading from the future reads as a negative number of seconds. */
  lemma FutureReadingIsNegative()
    ensures FormatTimestamp(-5000) == SecondsAgo(-5)
    ensures Render(FormatTimestamp(-5000)) == Some("-5s ago")
  {
    assert DigitChar(5) == '5';
    assert IntToString(-5) == "-5";
    assert IntToString(-5) + "s ago" == "-5s ago";
  }

  /** The decimal digits of `n`. */
  function NatToString(n: nat): (s: string)
    ensures 0 < |s|
    ensures forall i :: 0 <= i < |s| ==> '0' <= s[i] <= '9'
  {
    if n < 10 then [DigitChar(n)] else NatToString(n / 10) + [DigitChar(n % 10)]
  }

  function DigitChar(d: nat): (c: char)
    requires d < 10
    ensures '0' <= c <= '9'
  {
    (d + '0' as int) as char
  }

  /** Template-literal interpolation of an integer. */
  function IntToString(n: int): string {
    if n < 0 then "-" + NatToString(-n) else NatToString(n)
  }

  /** The value of a string of decimal digits. */
  function ParseNat(s: string): nat
    requires forall i :: 0 <= i < |s| ==> '0' <= s[i] <= '9'
    decreases |s|
  {
    if |s| == 0 then 0 else 10 * ParseNat(s[..|s| - 1]) + (s[|s| - 1] as int - '0' as int)
  }

  lemma {:induction false} ParseNatToString(n: nat)
    ensures ParseNat(NatToString(n)) == n
  {
    if n >= 10 {
      var s := NatToString(n);
      assert s[..|s| - 1] == NatToString(n / 10);
      ParseNatToString(n / 10);
    }
  }

  /** The label's text; `None` for the locale clock time. */
  function Render(t: TimeLabel): (r: Option<string>)
    ensures r.None? <==> t.ClockTime?
  {
    match t
    case SecondsAgo(n) => Some(IntToString(n) + "s ago")
    case MinutesAgo(n) => Some(IntToString(n) + "m ago")
    case HoursAgo(n) => Some(IntToString(n) + "h ago")
    case ClockTime => None
  }

  // ---------------------------------------------------------------------------
  // Category dot

  function CategoryDot(category: Category): string {
    match category
    case Quiet => "\U{1F7E2}"
    case Normal => "\U{1F7E1}"
    case Noisy => "\U{1F534}"
  }

  /** Every category has a dot, and no two categories share one. */
  lemma CategoryDotsDistinct(a: Category, b: Category)
    ensures |CategoryDot(a)| == 1
    ensures CategoryDot(a) == CategoryDot(b) <==> a == b
  {
  }
}
