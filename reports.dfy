/** The reports screen's bar chart: one bar per pod, in name order, with the pod's
    balance as its height and its progress colour. */
module Reports {
  import opened Data
  import opened PodProgress

  /** The UTF-16 code units of one character, as a Kotlin `String` stores it: the
      character itself below 0x10000, otherwise its surrogate pair. */
  function Units(c: char): (u: seq<int>)
    ensures c as int < 0x10000 ==> u == [c as int]
    ensures c as int >= 0x10000 ==> |u| == 2 && 0xD800 <= u[0] < 0xDC00 && 0xDC00 <= u[1] < 0xE000
    ensures c as int >= 0x10000 ==> c as int == 0x10000 + (u[0] - 0xD800) * 0x400 + (u[1] - 0xDC00)
  {
    var n := c as int;
    assert n >= 0x10000 ==> n - 0x10000 == (n - 0x10000) / 0x400 * 0x400 + (n - 0x10000) % 0x400;
    if n < 0x10000 then [n]
    else [0xD800 + (n - 0x10000) / 0x400, 0xDC00 + (n - 0x10000) % 0x400]
  }

  /** The UTF-16 encoding of a string, unit by unit. */
  function Utf16(s: string): seq<int> {
    if s == [] then [] else Units(s[0]) + Utf16(s[1..])
  }

  /** Lexicographic order on code-unit sequences, a proper prefix first: what Kotlin's
      `String.compareTo(other) <= 0` decides. */
  predicate UnitsLe(a: seq<int>, b: seq<int>) {
    if a == [] then true
    else if b == [] then false
    else if a[0] != b[0] then a[0] < b[0]
    else UnitsLe(a[1..], b[1..])
  }

  /** A rank for each character that orders characters as their UTF-16 units do:
      characters below 0xD800 first, then the characters stored as surrogate pairs, then
      the characters from 0xE000 to 0xFFFF. */
  function Utf16Key(c: char): int {
    var n := c as int;
    if n < 0xD800 then n
    else if n >= 0x10000 then n - 0x10000 + 0xD800
    else n + 0x110000
  }

  /** Name order, character by character through `Utf16Key`, a proper prefix first;
      `NameLeIsUtf16Order` shows it is the code-unit order. */
  predicate NameLe(a: string, b: string) {
    if a == [] then true
    else if b == [] then false
    else if a[0] != b[0] then Utf16Key(a[0]) < Utf16Key(b[0])
    else NameLe(a[1..], b[1..])
  }

  lemma {:induction false} UnitsLeSamePrefix(u: seq<int>, x: seq<int>, y: seq<int>)
    ensures UnitsLe(u + x, u + y) == UnitsLe(x, y)
  {
    if u == [] {
      assert u + x == x && u + y == y;
    } else {
      assert (u + x)[1..] == u[1..] + x && (u + y)[1..] == u[1..] + y;
      UnitsLeSamePrefix(u[1..], x, y);
    }
  }

  /** Two different characters: their units decide the comparison, the same way as
      their ranks do. */
  lemma UnitsOrderMatchesKey(c: char, d: char, x: seq<int>, y: seq<int>)
    requires c != d
    ensures UnitsLe(Units(c) + x, Units(d) + y) <==> Utf16Key(c) < Utf16Key(d)
  {
    var u, v := Units(c), Units(d);
    var cu, dv := u + x, v + y;
    assert cu[0] == u[0] && dv[0] == v[0];
    var a, b := c as int - 0x10000, d as int - 0x10000;
    if u[0] == v[0] {
      assert a >= 0 && b >= 0 && a / 0x400 == b / 0x400;
      assert cu[1..][0] == u[1] && dv[1..][0] == v[1];
      assert a == a / 0x400 * 0x400 + a % 0x400;
      assert b == b / 0x400 * 0x400 + b % 0x400;
    } else if a >= 0 && b >= 0 {
      assert a == a / 0x400 * 0x400 + a % 0x400;
      assert b == b / 0x400 * 0x400 + b % 0x400;
    }
  }

  /** `NameLe` is the comparison of the two names' UTF-16 code units. */
  lemma {:induction false} NameLeIsUtf16Order(a: string, b: string)
    ensures NameLe(a, b) <==> UnitsLe(Utf16(a), Utf16(b))
  {
    if a != [] && b != [] {
      if a[0] == b[0] {
        NameLeIsUtf16Order(a[1..], b[1..]);
        UnitsLeSamePrefix(Units(a[0]), Utf16(a[1..]), Utf16(b[1..]));
      } else {
        UnitsOrderMatchesKey(a[0], b[0], Utf16(a[1..]), Utf16(b[1..]));
      }
    }
  }

  lemma {:induction false} NameLeTotal(a: string, b: string)
    ensures NameLe(a, b) || NameLe(b, a)
  {
    if a != [] && b != [] && a[0] == b[0] {
      NameLeTotal(a[1..], b[1..]);
    }
  }

  lemma {:induction false} NameLeTransitive(a: string, b: string, c: string)
    requires NameLe(a, b) && NameLe(b, c)
    ensures NameLe(a, c)
  {
    if a != [] && b != [] && c != [] && a[0] == b[0] && b[0] == c[0] {
      NameLeTransitive(a[1..], b[1..], c[1..]);
    }
  }

  /** The order is not code-point order: a character above 0xFFFF (here U+1F600, stored
      as 0xD83D 0xDE00) sorts before one in 0xE000..0xFFFF (here U+FF04). */
  lemma SurrogatesSortBeforeHighBmp()
    ensures Utf16("\U{1F600}") == [0xD83D, 0xDE00] && Utf16("\U{FF04}") == [0xFF04]
    ensures NameLe("\U{1F600}", "\U{FF04}") && !NameLe("\U{FF04}", "\U{1F600}")
    ensures "\U{1F600}"[0] as int > "\U{FF04}"[0] as int
  {
    assert Utf16("\U{1F600}") == [0xD83D, 0xDE00];
    assert Utf16("\U{FF04}") == [0xFF04];
  }

  ghost predicate SortedByName(pods: seq<Pod>) {
    forall i, j | 0 <= i < j < |pods| :: NameLe(pods[i].name, pods[j].name)
  }

  /** Every pod in `pods` has a name not smaller than `name`. */
  ghost predicate NamesFrom(name: string, pods: seq<Pod>) {
    forall j | 0 <= j < |pods| :: NameLe(name, pods[j].name)
  }

  /** Places `p` before the first pod whose name is not smaller than its own. */
  function InsertByName(p: Pod, sorted: seq<Pod>): (r: seq<Pod>)
    ensures |r| == |sorted| + 1
    ensures multiset(r) == multiset(sorted) + multiset{p}
  {
    if sorted == [] then [p]
    else if NameLe(p.name, sorted[0].name) then [p] + sorted
    else
      assert sorted == [sorted[0]] + sorted[1..];
      [sorted[0]] + InsertByName(p, sorted[1..])
  }

  lemma {:induction false} InsertKeepsLowerBound(name: string, p: Pod, sorted: seq<Pod>)
    requires NameLe(name, p.name) && NamesFrom(name, sorted)
    ensures NamesFrom(name, InsertByName(p, sorted))
  {
    if sorted != [] && !NameLe(p.name, sorted[0].name) {
      InsertKeepsLowerBound(name, p, sorted[1..]);
    }
  }

  /** Inserting into a name-ordered list keeps it name-ordered. */
  lemma {:induction false} InsertKeepsSorted(p: Pod, sorted: seq<Pod>)
    requires SortedByName(sorted)
    ensures SortedByName(InsertByName(p, sorted))
  {
    if sorted == [] {
    } else if NameLe(p.name, sorted[0].name) {
      forall j | 0 < j < |sorted| ensures NameLe(p.name, sorted[j].name) {
        NameLeTransitive(p.name, sorted[0].name, sorted[j].name);
      }
    } else {
      var first := sorted[0];
      var rest := InsertByName(p, sorted[1..]);
      InsertKeepsSorted(p, sorted[1..]);
      NameLeTotal(p.name, first.name);
      assert NamesFrom(first.name, sorted[1..]) by {
        forall j | 0 <= j < |sorted[1..]| ensures NameLe(first.name, sorted[1..][j].name) {
          assert sorted[1..][j] == sorted[j + 1];
        }
      }
      InsertKeepsLowerBound(first.name, p, sorted[1..]);
      var r := [first] + rest;
      forall i, j | 0 <= i < j < |r| ensures NameLe(r[i].name, r[j].name) {
        if i > 0 {
          assert r[i] == rest[i - 1] && r[j] == rest[j - 1];
        } else {
          assert r[j] == rest[j - 1];
        }
      }
    }
  }

  /** `pods.sortedBy { it.name }`: the same pods, ordered by name. */
  function SortByName(pods: seq<Pod>): (r: seq<Pod>)
    ensures |r| == |pods|
    ensures SortedByName(r)
    ensures multiset(r) == multiset(pods)
  {
    if pods == [] then []
    else
      assert pods == [pods[0]] + pods[1..];
      var rest := SortByName(pods[1..]);
      InsertKeepsSorted(pods[0], rest);
      InsertByName(pods[0], rest)
  }

  /** `BarEntry(index, pod.balance)`: x is the bar's position, y its height. */
  datatype BarEntry = BarEntry(x: int, y: int)

  /** What the chart shows: nothing (cleared) or the three parallel lists. */
  datatype Chart = Cleared | Bars(entries: seq<BarEntry>, labels: seq<string>, colours: seq<Colour>)

  /** The chart's three parallel lists for `pods`: one entry, label and colour per pod,
      in name order; entry i stands at x = i with the i-th pod's balance as its height. */
  ghost predicate ChartOf(pods: seq<Pod>, entries: seq<BarEntry>, labels: seq<string>, colours: seq<Colour>) {
    var sorted := SortByName(pods);
    && |entries| == |labels| == |colours| == |pods|
    && forall i | 0 <= i < |sorted| ::
         && entries[i] == BarEntry(i, sorted[i].balance)
         && labels[i] == sorted[i].name
         && colours[i] == ColourFor(ReportProgress(sorted[i]))
  }

  /** `setupBarChart`: walks the pods in name order, appending one entry, one label and
      one colour per pod. */
  method SetupBarChart(pods: seq<Pod>) returns (entries: seq<BarEntry>, labels: seq<string>, colours: seq<Colour>)
    ensures ChartOf(pods, entries, labels, colours)
  {
    entries, labels, colours := [], [], [];
    var index := 0;
    var sortedPods := SortByName(pods);
    while index < |sortedPods|
      invariant 0 <= index <= |sortedPods|
      invariant |entries| == |labels| == |colours| == index
      invariant forall i | 0 <= i < index ::
        && entries[i] == BarEntry(i, sortedPods[i].balance)
        && labels[i] == sortedPods[i].name
        && colours[i] == ColourFor(ReportProgress(sortedPods[i]))
    {
      var pod := sortedPods[index];
      entries := entries + [BarEntry(index, pod.balance)];
      labels := labels + [pod.name];
      var progress := if pod.startingBalance > 0 then Progress(pod.balance, pod.startingBalance) else 0;
      colours := colours + [ColourFor(progress)];
      index := index + 1;
    }
  }

  /** The pods listener of the reports screen: an absent or empty snapshot clears the
      chart; otherwise the chart is rebuilt from the snapshot's pods. */
  method OnPodUpdates(snapshot: Option<seq<Pod>>) returns (chart: Chart)
    ensures snapshot.None? || snapshot.value == [] <==> chart == Cleared
    ensures chart.Bars? ==> ChartOf(snapshot.value, chart.entries, chart.labels, chart.colours)
  {
    if snapshot.Some? && snapshot.value != [] {
      var entries, labels, colours := SetupBarChart(snapshot.value);
      chart := Bars(entries, labels, colours);
    } else {
      chart := Cleared;
    }
  }
}
