/**
 * The display and ordering helpers of the front end: relative time,
 * labels, truncation, colour and icon lookups, priority colours,
 * coordinate checks, sorting by priority and grouping by category.
 */
module Helpers {
  import opened Common
  import opened Text

  // ---------------------------------------------------------------------------
  // Relative time. The elapsed time is given as whole seconds (now - then,
  // already floored); Dafny's `/` by a positive divisor is Math.floor of the
  // quotient, also for negative (future) values.
  // ---------------------------------------------------------------------------

  type Positive = x: int | x > 0 witness 1

  datatype Interval = Interval(unit: string, seconds: Positive)

  /** The unit table that timeAgo walks, largest unit first. */
  const Intervals: seq<Interval> := [
    Interval("year", 31536000),
    Interval("month", 2592000),
    Interval("week", 604800),
    Interval("day", 86400),
    Interval("hour", 3600),
    Interval("minute", 60)
  ]

  /** "<count> <unit>[s] ago". */
  function Ago(count: nat, unit: string, plural: bool): string {
    NatToString(count) + " " + unit + (if plural then "s" else "") + " ago"
  }

  /**
   * The answer of timeAgo from table entry `i` on: the first unit whose
   * floored count is at least 1, pluralised when the count exceeds 1, and
   * "Just now" when no unit qualifies.
   */
  function FirstBucket(seconds: int, i: nat): string
    requires i <= |Intervals|
    decreases |Intervals| - i
  {
    if i == |Intervals| then "Just now"
    else
      var count := seconds / Intervals[i].seconds;
      if count >= 1 then Ago(count, Intervals[i].unit, count > 1)
      else FirstBucket(seconds, i + 1)
  }

  /** timeAgo: walks the unit table and returns at the first unit that fits. */
  method TimeAgo(seconds: int) returns (r: string)
    ensures r == FirstBucket(seconds, 0)
  {
    var i := 0;
    while i < |Intervals|
      invariant 0 <= i <= |Intervals|
      invariant FirstBucket(seconds, i) == FirstBucket(seconds, 0)
    {
      var count := seconds / Intervals[i].seconds;
      if count >= 1 {
        return Ago(count, Intervals[i].unit, count > 1);
      }
      i := i + 1;
    }
    return "Just now";
  }

  /** The bucket timeAgo picks, range by range. */
  lemma TimeAgoBuckets(seconds: int)
    ensures seconds < 60 ==> FirstBucket(seconds, 0) == "Just now"
    ensures 60 <= seconds < 3600 ==>
      FirstBucket(seconds, 0) == Ago(seconds / 60, "minute", seconds / 60 > 1)
    ensures 3600 <= seconds < 86400 ==>
      FirstBucket(seconds, 0) == Ago(seconds / 3600, "hour", seconds / 3600 > 1)
    ensures 86400 <= seconds < 604800 ==>
      FirstBucket(seconds, 0) == Ago(seconds / 86400, "day", seconds / 86400 > 1)
    ensures 604800 <= seconds < 2592000 ==>
      FirstBucket(seconds, 0) == Ago(seconds / 604800, "week", seconds / 604800 > 1)
    ensures 2592000 <= seconds < 31536000 ==>
      FirstBucket(seconds, 0) == Ago(seconds / 2592000, "month", seconds / 2592000 > 1)
    ensures 31536000 <= seconds ==>
      FirstBucket(seconds, 0) == Ago(seconds / 31536000, "year", seconds / 31536000 > 1)
  {
    assert FirstBucket(seconds, 6) == "Just now";
    assert FirstBucket(seconds, 5) == if seconds / 60 >= 1 then Ago(seconds / 60, "minute", seconds / 60 > 1) else FirstBucket(seconds, 6);
    assert FirstBucket(seconds, 4) == if seconds / 3600 >= 1 then Ago(seconds / 3600, "hour", seconds / 3600 > 1) else FirstBucket(seconds, 5);
    assert FirstBucket(seconds, 3) == if seconds / 86400 >= 1 then Ago(seconds / 86400, "day", seconds / 86400 > 1) else FirstBucket(seconds, 4);
    assert FirstBucket(seconds, 2) == if seconds / 604800 >= 1 then Ago(seconds / 604800, "week", seconds / 604800 > 1) else FirstBucket(seconds, 3);
    assert FirstBucket(seconds, 1) == if seconds / 2592000 >= 1 then Ago(seconds / 2592000, "month", seconds / 2592000 > 1) else FirstBucket(seconds, 2);
    assert FirstBucket(seconds, 0) == if seconds / 31536000 >= 1 then Ago(seconds / 31536000, "year", seconds / 31536000 > 1) else FirstBucket(seconds, 1);
  }

  /**
   * getRelativeTime: minutes, hours and days are floored in turn from the
   * seconds; weeks, months and years are whole days divided by 7, 30 and 365.
   */
  function RelativeTime(seconds: int): (r: string)
    ensures seconds < 60 ==> r == "Just now"
  {
    var mins := seconds / 60;
    var hours := mins / 60;
    var days := hours / 24;
    if seconds < 60 then "Just now"
    else if mins < 60 then Ago(mins, "minute", mins != 1)
    else if hours < 24 then Ago(hours, "hour", hours != 1)
    else if days < 7 then Ago(days, "day", days != 1)
    else if days < 30 then Ago(days / 7, "week", days / 7 != 1)
    else if days < 365 then Ago(days / 30, "month", days / 30 != 1)
    else Ago(days / 365, "year", days / 365 != 1)
  }

  /** The two relative-time helpers render every elapsed time the same way. */
  lemma TimeAgoMatchesRelativeTime(seconds: int)
    ensures FirstBucket(seconds, 0) == RelativeTime(seconds)
  {
    TimeAgoBuckets(seconds);
    var mins := seconds / 60;
    var hours := mins / 60;
    var days := hours / 24;
    assert hours == seconds / 3600;
    assert days == seconds / 86400;
    assert days / 7 == seconds / 604800;
    assert days / 30 == seconds / 2592000;
    assert days / 365 == seconds / 31536000;
  }

  // ---------------------------------------------------------------------------
  // Colour and icon tables with their fallbacks.
  // ---------------------------------------------------------------------------

  const SeverityColors: map<string, string> := map[
    "critical" := "bg-red-100 text-red-800",
    "moderate" := "bg-yellow-100 text-yellow-800",
    "minor" := "bg-green-100 text-green-800"
  ]

  const StatusColors: map<string, string> := map[
    "reported" := "bg-blue-100 text-blue-800",
    "in_progress" := "bg-purple-100 text-purple-800",
    "resolved" := "bg-green-100 text-green-800",
    "rejected" := "bg-gray-100 text-gray-800"
  ]

  const CategoryIcons: map<string, string> := map[
    "pothole" := "\U{1F573}\U{FE0F}",
    "garbage" := "\U{1F5D1}\U{FE0F}",
    "broken_light" := "\U{1F4A1}",
    "water_leakage" := "\U{1F4A7}",
    "graffiti" := "\U{1F3A8}",
    "other" := "\U{2753}"
  ]

  const SeverityEmojis: map<string, string> := map[
    "critical" := "\U{1F534}",
    "moderate" := "\U{1F7E1}",
    "minor" := "\U{1F7E2}"
  ]
  const UnknownSeverityEmoji := "\U{26AA}"

  const StatusEmojis: map<string, string> := map[
    "reported" := "\U{1F4CB}",
    "in_progress" := "\U{23F3}",
    "resolved" := "\U{2705}",
    "rejected" := "\U{274C}"
  ]
  const UnknownStatusEmoji := "\U{2753}"

  /** getSeverityColor: a mapped severity's colour, else the moderate colour. */
  function GetSeverityColor(severity: string): (color: string)
    ensures severity in SeverityColors ==> color == SeverityColors[severity]
    ensures severity !in SeverityColors ==> color == SeverityColors["moderate"]
    ensures color in SeverityColors.Values
  {
    LookupOr(SeverityColors, severity, SeverityColors["moderate"])
  }

  /** getStatusColor: a mapped status's colour, else the reported colour. */
  function GetStatusColor(status: string): (color: string)
    ensures status in StatusColors ==> color == StatusColors[status]
    ensures status !in StatusColors ==> color == StatusColors["reported"]
    ensures color in StatusColors.Values
  {
    LookupOr(StatusColors, status, StatusColors["reported"])
  }

  /** getCategoryIcon: a mapped category's icon, else the 'other' icon. */
  function GetCategoryIcon(category: string): (icon: string)
    ensures category in CategoryIcons ==> icon == CategoryIcons[category]
    ensures category !in CategoryIcons ==> icon == CategoryIcons["other"]
    ensures icon in CategoryIcons.Values
  {
    LookupOr(CategoryIcons, category, CategoryIcons["other"])
  }

  /** getSeverityEmoji: a mapped severity's emoji, else a white circle. */
  function GetSeverityEmoji(severity: string): (emoji: string)
    ensures severity in SeverityEmojis ==> emoji == SeverityEmojis[severity]
    ensures severity !in SeverityEmojis ==> emoji == UnknownSeverityEmoji
    ensures emoji != ""
  {
    LookupOr(SeverityEmojis, severity, UnknownSeverityEmoji)
  }

  /** getStatusEmoji: a mapped status's emoji, else a question mark. */
  function GetStatusEmoji(status: string): (emoji: string)
    ensures status in StatusEmojis ==> emoji == StatusEmojis[status]
    ensures status !in StatusEmojis ==> emoji == UnknownStatusEmoji
    ensures emoji != ""
  {
    LookupOr(StatusEmojis, status, UnknownStatusEmoji)
  }

  // ---------------------------------------------------------------------------
  // Labels: "broken_light" becomes "Broken Light".
  // ---------------------------------------------------------------------------

  /** toUpperCase on one character, for the ASCII letters. */
  function Upper(c: char): char {
    if 'a' <= c <= 'z' then (c as int - 32) as char else c
  }

  /** `word.charAt(0).toUpperCase() + word.slice(1)`. */
  function Capitalize(word: string): string {
    if word == [] then [] else [Upper(word[0])] + word[1..]
  }

  function CapitalizeAll(words: seq<string>): (r: seq<string>)
    ensures |r| == |words|
  {
    if words == [] then [] else [Capitalize(words[0])] + CapitalizeAll(words[1..])
  }

  /**
   * Character `i` of a label: an underscore becomes a space, the first
   * character and every character after an underscore are upper-cased, the
   * rest are kept.
   */
  function LabelChar(s: string, i: nat): char
    requires i < |s|
  {
    if s[i] == '_' then ' '
    else if i == 0 || s[i - 1] == '_' then Upper(s[i])
    else s[i]
  }

  /** The label computed left to right; `atStart` says a word begins here. */
  function LabelFrom(s: string, atStart: bool): (r: string)
    ensures |r| == |s|
    decreases |s|
  {
    if s == [] then []
    else if s[0] == '_' then [' '] + LabelFrom(s[1..], true)
    else [if atStart then Upper(s[0]) else s[0]] + LabelFrom(s[1..], false)
  }

  lemma {:induction false} LabelFromAt(s: string, atStart: bool, i: nat)
    requires i < |s|
    ensures LabelFrom(s, atStart)[i] ==
      if s[i] == '_' then ' '
      else if (i == 0 && atStart) || (i > 0 && s[i - 1] == '_') then Upper(s[i])
      else s[i]
    decreases |s|
  {
    if i > 0 {
      LabelFromAt(s[1..], s[0] == '_', i - 1);
    }
  }

  /** Split, capitalise every part and join: the same as the left-to-right label. */
  lemma {:induction false} SplitCapitalizeJoin(s: string)
    ensures Join(CapitalizeAll(Split(s, '_')), " ") == LabelFrom(s, true)
    ensures Join([Split(s, '_')[0]] + CapitalizeAll(Split(s, '_')[1..]), " ") == LabelFrom(s, false)
    decreases |s|
  {
    if s != [] {
      var t := Split(s[1..], '_');
      SplitCapitalizeJoin(s[1..]);
      if s[0] == '_' {
        assert Split(s, '_') == [""] + t;
        assert ([""] + t)[1..] == t;
        assert CapitalizeAll([""] + t) == [""] + CapitalizeAll(t);
        assert ([""] + CapitalizeAll(t))[1..] == CapitalizeAll(t);
        assert Join([""] + CapitalizeAll(t), " ") == " " + Join(CapitalizeAll(t), " ");
      } else {
        var first := [s[0]] + t[0];
        assert Split(s, '_') == [first] + t[1..];
        assert ([first] + t[1..])[1..] == t[1..];
        assert CapitalizeAll([first] + t[1..]) == [[Upper(s[0])] + t[0]] + CapitalizeAll(t[1..]);
        assert CapitalizeAll(t) == [Capitalize(t[0])] + CapitalizeAll(t[1..]);
        JoinFirstPart([Upper(s[0])], t[0], CapitalizeAll(t[1..]), " ");
        JoinFirstPart([s[0]], t[0], CapitalizeAll(t[1..]), " ");
      }
    }
  }

  lemma LabelChars(s: string)
    ensures forall i :: 0 <= i < |s| ==> LabelFrom(s, true)[i] == LabelChar(s, i)
  {
    forall i | 0 <= i < |s|
      ensures LabelFrom(s, true)[i] == LabelChar(s, i)
    {
      LabelFromAt(s, true, i);
    }
  }

  /**
   * formatCategory: "Unknown" for a missing or empty category; otherwise
   * the category split on "_", each word capitalised, joined with spaces.
   */
  function FormatCategory(category: string): (r: string)
    ensures category == "" ==> r == "Unknown"
    ensures category != "" ==> |r| == |category|
    ensures category != "" ==> forall i :: 0 <= i < |category| ==> r[i] == LabelChar(category, i)
  {
    if category == "" then "Unknown"
    else
      SplitCapitalizeJoin(category);
      LabelChars(category);
      Join(CapitalizeAll(Split(category, '_')), " ")
  }

  /** formatStatus: the same transformation as formatCategory. */
  function FormatStatus(status: string): (r: string)
    ensures r == FormatCategory(status)
  {
    if status == "" then "Unknown"
    else Join(CapitalizeAll(Split(status, '_')), " ")
  }

  // ---------------------------------------------------------------------------
  // Truncation.
  // ---------------------------------------------------------------------------

  const DefaultMaxLength := 100

  /**
   * truncateText: an empty text, or one of at most maxLength characters,
   * comes back unchanged; a longer one is cut to its first maxLength
   * characters (none when maxLength is negative) followed by "...".
   */
  function TruncateText(text: string, maxLength: int): (r: string)
    ensures text == "" || |text| <= maxLength ==> r == text
    ensures text != "" && |text| > maxLength ==>
      |r| == (if maxLength < 0 then 0 else maxLength) + 3 &&
      r[|r| - 3..] == "..." &&
      StartsWith(text, r[..|r| - 3])
  {
    if text == "" || |text| <= maxLength then text
    else
      var keep := if maxLength < 0 then 0 else maxLength;
      assert (text[..keep] + "...")[..keep] == text[..keep];
      text[..keep] + "..."
  }

  /** Truncating an already truncated text changes nothing. */
  lemma TruncateTextIdempotent(text: string, maxLength: int)
    ensures TruncateText(TruncateText(text, maxLength), maxLength) == TruncateText(text, maxLength)
  {
    var once := TruncateText(text, maxLength);
    if text != "" && |text| > maxLength {
      var keep := if maxLength < 0 then 0 else maxLength;
      assert once[..keep] == text[..keep];
    }
  }

  /**
   * `truncateText(text)` with the default length: a text of at most 100
   * characters is kept whole, a longer one becomes exactly 103 characters
   * ending in "...".
   */
  lemma DefaultTruncation(text: string)
    ensures |text| <= DefaultMaxLength ==> TruncateText(text, DefaultMaxLength) == text
    ensures |text| > DefaultMaxLength ==>
      var r := TruncateText(text, DefaultMaxLength);
      |r| == 103 && r[..100] == text[..100] && r[100..] == "..."
  {
  }

  // ---------------------------------------------------------------------------
  // Priority colours and coordinates.
  // ---------------------------------------------------------------------------

  const PriorityRed := "#ef4444"
  const PriorityOrange := "#f59e0b"
  const PriorityYellow := "#eab308"
  const PriorityGreen := "#10b981"

  /** getPriorityColor: red from 80, orange from 60, yellow from 40, green below. */
  function GetPriorityColor(priority: real): (color: string)
    ensures color == PriorityRed <==> priority >= 80.0
    ensures color == PriorityOrange <==> 60.0 <= priority < 80.0
    ensures color == PriorityYellow <==> 40.0 <= priority < 60.0
    ensures color == PriorityGreen <==> priority < 40.0
  {
    if priority >= 80.0 then PriorityRed
    else if priority >= 60.0 then PriorityOrange
    else if priority >= 40.0 then PriorityYellow
    else PriorityGreen
  }

  /** The urgency a priority colour stands for, green lowest. */
  function ColorRank(color: string): nat {
    if color == PriorityRed then 3
    else if color == PriorityOrange then 2
    else if color == PriorityYellow then 1
    else 0
  }

  /** A higher priority never gets a less urgent colour. */
  lemma PriorityColorMonotonic(p: real, q: real)
    requires p <= q
    ensures ColorRank(GetPriorityColor(p)) <= ColorRank(GetPriorityColor(q))
  {
  }

  /**
   * isValidCoordinates: both values are numbers (None stands for a value
   * of another type), latitude within [-90, 90] and longitude within
   * [-180, 180].
   */
  function IsValidCoordinates(lat: Option<real>, lng: Option<real>): (valid: bool)
    ensures valid <==>
      (lat.Some? && lng.Some? && -90.0 <= lat.value <= 90.0 && -180.0 <= lng.value <= 180.0)
  {
    match (lat, lng)
    case (Some(a), Some(b)) => -90.0 <= a <= 90.0 && -180.0 <= b <= 180.0
    case _ => false
  }

  // ---------------------------------------------------------------------------
  // Sorting by priority.
  // ---------------------------------------------------------------------------

  const DefaultOrder := "desc"

  /** `issue.priority || 0`. */
  function PriorityOf(issue: Issue): real {
    match issue.priority
    case Some(p) => p
    case None => 0.0
  }

  /** x may precede y: non-increasing priority when descending, non-decreasing otherwise. */
  predicate InOrder(x: Issue, y: Issue, descending: bool) {
    if descending then PriorityOf(x) >= PriorityOf(y) else PriorityOf(x) <= PriorityOf(y)
  }

  predicate SortedByPriority(s: seq<Issue>, descending: bool) {
    forall i, j :: 0 <= i < j < |s| ==> InOrder(s[i], s[j], descending)
  }

  /** The issues of priority v, in the order they appear in s. */
  function WithPriority(s: seq<Issue>, v: real): seq<Issue>
    decreases |s|
  {
    if s == [] then []
    else (if PriorityOf(s[0]) == v then [s[0]] else []) + WithPriority(s[1..], v)
  }

  /** Issues of equal priority appear in the same relative order in s and t. */
  ghost predicate TiesInSameOrder(s: seq<Issue>, t: seq<Issue>) {
    forall v :: WithPriority(s, v) == WithPriority(t, v)
  }

  lemma {:induction false} WithPriorityAppend(s: seq<Issue>, t: seq<Issue>, v: real)
    ensures WithPriority(s + t, v) == WithPriority(s, v) + WithPriority(t, v)
    decreases |s|
  {
    if s == [] {
      assert s + t == t;
    } else {
      assert (s + t)[0] == s[0];
      assert (s + t)[1..] == s[1..] + t;
      WithPriorityAppend(s[1..], t, v);
    }
  }

  /** Swapping two neighbours of different priority keeps the order among every priority's issues. */
  lemma SwapKeepsTies(s: seq<Issue>, j: nat, v: real)
    requires 0 < j < |s| && PriorityOf(s[j - 1]) != PriorityOf(s[j])
    ensures WithPriority(s[..j - 1] + [s[j], s[j - 1]] + s[j + 1..], v) == WithPriority(s, v)
  {
    var p, x, y, q := s[..j - 1], s[j - 1], s[j], s[j + 1..];
    assert s == p + ([x, y] + q);
    WithPriorityAppend(p, [x, y] + q, v);
    WithPriorityAppend([x, y], q, v);
    WithPriorityAppend(p, [y, x] + q, v);
    WithPriorityAppend([y, x], q, v);
    PairSwapTies(x, y, v);
    assert s[..j - 1] + [s[j], s[j - 1]] + s[j + 1..] == p + ([y, x] + q);
  }

  /** Two issues of different priority cannot both have priority v. */
  lemma PairSwapTies(x: Issue, y: Issue, v: real)
    requires PriorityOf(x) != PriorityOf(y)
    ensures WithPriority([x, y], v) == WithPriority([y, x], v)
  {
    assert [x, y][1..] == [y] && [y, x][1..] == [x];
    assert [y][1..] == [] && [x][1..] == [];
  }

  /** A stable sort of two issues of equal priority returns them as given. */
  lemma StableOnTwoTies(x: Issue, y: Issue, s: seq<Issue>)
    requires PriorityOf(x) == PriorityOf(y)
    requires multiset(s) == multiset([x, y]) && TiesInSameOrder(s, [x, y])
    ensures s == [x, y]
  {
    var v := PriorityOf(x);
    assert |s| == |multiset(s)| == 2;
    assert s[0] in multiset(s) && s[1] in multiset(s);
    assert PriorityOf(s[0]) == v && PriorityOf(s[1]) == v;
    assert s[1..][1..] == [] && [x, y][1..][1..] == [];
    assert WithPriority(s[1..], v) == [s[1]];
    assert WithPriority([x, y][1..], v) == [y];
    assert WithPriority(s, v) == [s[0], s[1]];
    assert WithPriority([x, y], v) == [x, y];
  }

  /**
   * sortByPriority: copies the issues into a fresh array and sorts the copy
   * in place; "desc" orders by non-increasing priority, any other order by
   * non-decreasing priority. The input sequence is a value and is untouched.
   */
  method SortByPriority(issues: seq<Issue>, order: string) returns (sorted: seq<Issue>)
    ensures multiset(sorted) == multiset(issues)
    ensures SortedByPriority(sorted, order == "desc")
    ensures TiesInSameOrder(sorted, issues)
  {
    var descending := order == "desc";
    var a := new Issue[|issues|](k requires 0 <= k < |issues| => issues[k]);
    assert a[..] == issues;
    var n := 0;
    while n < a.Length
      invariant 0 <= n <= a.Length
      invariant multiset(a[..]) == multiset(issues)
      invariant forall p, q :: 0 <= p < q < n ==> InOrder(a[p], a[q], descending)
      invariant TiesInSameOrder(a[..], issues)
    {
      InsertAt(a, n, descending);
      n := n + 1;
    }
    sorted := a[..];
  }

  /** `sortByPriority(issues)` with the default order: highest priority first, ties in input order. */
  method SortByPriorityDefault(issues: seq<Issue>) returns (sorted: seq<Issue>)
    ensures multiset(sorted) == multiset(issues)
    ensures SortedByPriority(sorted, true)
    ensures TiesInSameOrder(sorted, issues)
  {
    sorted := SortByPriority(issues, DefaultOrder);
  }

  /** Swaps two adjacent elements of the array being sorted. */
  method SwapAdjacent(a: array<Issue>, j: nat)
    requires 0 < j < a.Length
    modifies a
    ensures a[j - 1] == old(a[j]) && a[j] == old(a[j - 1])
    ensures forall k :: 0 <= k < a.Length && k != j - 1 && k != j ==> a[k] == old(a[k])
    ensures multiset(a[..]) == old(multiset(a[..]))
  {
    a[j - 1], a[j] := a[j], a[j - 1];
  }

  /**
   * One insertion step: moves a[n] left past every element it must precede,
   * so that the prefix a[..n + 1] is ordered.
   */
  method InsertAt(a: array<Issue>, n: nat, descending: bool)
    requires n < a.Length
    requires forall p, q :: 0 <= p < q < n ==> InOrder(a[p], a[q], descending)
    modifies a
    ensures multiset(a[..]) == old(multiset(a[..]))
    ensures forall p, q :: 0 <= p < q <= n ==> InOrder(a[p], a[q], descending)
    ensures TiesInSameOrder(a[..], old(a[..]))
  {
    var j := n;
    while j > 0 && !InOrder(a[j - 1], a[j], descending)
      invariant 0 <= j <= n
      invariant multiset(a[..]) == old(multiset(a[..]))
      invariant forall p, q :: 0 <= p < q <= n && p != j && q != j ==> InOrder(a[p], a[q], descending)
      invariant forall q :: j < q <= n ==> InOrder(a[j], a[q], descending)
      invariant TiesInSameOrder(a[..], old(a[..]))
    {
      ghost var before := a[..];
      SwapAdjacent(a, j);
      assert a[..] == before[..j - 1] + [before[j], before[j - 1]] + before[j + 1..];
      forall v ensures WithPriority(a[..], v) == WithPriority(before, v) {
        SwapKeepsTies(before, j, v);
      }
      j := j - 1;
    }
  }

  // ---------------------------------------------------------------------------
  // Grouping by category.
  // ---------------------------------------------------------------------------

  /** `issue.category || 'other'`. */
  function GroupKey(issue: Issue): string {
    if issue.category == "" then "other" else issue.category
  }

  /** The issues whose group key is `key`, in input order. */
  function InGroup(issues: seq<Issue>, key: string): seq<Issue>
    decreases |issues|
  {
    if issues == [] then []
    else
      var last := issues[|issues| - 1];
      InGroup(issues[..|issues| - 1], key) + (if GroupKey(last) == key then [last] else [])
  }

  /** A group holds exactly the issues with its key. */
  lemma {:induction false} InGroupMembers(issues: seq<Issue>, key: string)
    ensures forall x :: x in InGroup(issues, key) <==> x in issues && GroupKey(x) == key
    decreases |issues|
  {
    if issues != [] {
      var init := issues[..|issues| - 1];
      InGroupMembers(init, key);
      assert issues == init + [issues[|issues| - 1]];
    }
  }

  /** Every issue belongs to the group of its own key and to no other group. */
  lemma EveryIssueInOneGroup(issues: seq<Issue>, x: Issue, key: string)
    requires x in issues
    ensures x in InGroup(issues, GroupKey(x))
    ensures key != GroupKey(x) ==> x !in InGroup(issues, key)
  {
    InGroupMembers(issues, GroupKey(x));
    InGroupMembers(issues, key);
  }

  /**
   * groupByCategory: one accumulator entry per key that occurs, each holding
   * that key's issues in input order.
   */
  method GroupByCategory(issues: seq<Issue>) returns (groups: map<string, seq<Issue>>)
    ensures forall k :: k in groups <==> exists i :: 0 <= i < |issues| && GroupKey(issues[i]) == k
    ensures forall k :: k in groups ==> groups[k] == InGroup(issues, k)
  {
    groups := map[];
    for i := 0 to |issues|
      invariant forall k :: k in groups <==> exists j :: 0 <= j < i && GroupKey(issues[j]) == k
      invariant forall k :: k in groups ==> groups[k] == InGroup(issues[..i], k)
      invariant forall k :: k !in groups ==> InGroup(issues[..i], k) == []
    {
      var key := GroupKey(issues[i]);
      if key !in groups {
        groups := groups[key := []];
      }
      groups := groups[key := groups[key] + [issues[i]]];
      assert issues[..i + 1][..i] == issues[..i];
    }
    assert issues[..|issues|] == issues;
  }
}
