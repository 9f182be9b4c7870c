/**
 * The `[shutterpress_download_history]` shortcode: ten downloads per
 * page, newest first, grouped under a date heading, with a page
 * navigation window of two pages either side of the current one.
 *
 * A log's day is `dayOf(download_time)`, a day number, so that comparing
 * two `Y-m-d` strings is comparing two day numbers; `today` is the
 * current day and `fmt` renders a day for the heading.
 */
module DownloadHistory {
  import opened Common
  import opened Quotas

  const PerPage: nat := 10

  // Pagination.

  /** `max(1, intval($_GET['download_page'] ?? 1))`: no upper bound. */
  function CurrentPage(get: map<string, string>): (p: nat)
    ensures p >= 1
    ensures "download_page" !in get ==> p == 1
    ensures "download_page" in get && IntVal(get["download_page"]) >= 1 ==> p == IntVal(get["download_page"])
    ensures "download_page" in get && IntVal(get["download_page"]) < 1 ==> p == 1
  {
    IntValOfIntToString(1);
    assert IntToString(1) == "1";
    Max(1, IntVal(if "download_page" in get then get["download_page"] else "1"))
  }

  function TotalPages(total: nat): (n: nat)
    ensures (n - 1) * PerPage < total <= n * PerPage || (total == 0 && n == 0)
  {
    CeilDiv(total, PerPage)
  }

  /** The rows of page `p` of the user's logs (already newest first): `LIMIT 10 OFFSET (p-1)*10`. */
  function PageRows(ordered: seq<LogRow>, p: nat): (r: seq<LogRow>)
    requires p >= 1
    ensures |r| <= PerPage
    ensures (p - 1) * PerPage < |ordered| ==> r == ordered[(p - 1) * PerPage..Min(p * PerPage, |ordered|)]
    ensures (p - 1) * PerPage >= |ordered| ==> r == []
  {
    var offset := (p - 1) * PerPage;
    if offset >= |ordered| then [] else ordered[offset..Min(offset + PerPage, |ordered|)]
  }

  /** "Showing a-b": 1-based positions of the first and last row of the page. */
  function Showing(p: nat, total: nat): (nat, int)
    requires p >= 1
  {
    ((p - 1) * PerPage + 1, Min(p * PerPage, total))
  }

  /**
   * On every page up to the last, "Showing a-b" names exactly the rows
   * the page lists; past the last page the list is empty, so the page
   * shows the "No Downloads Yet" card even to a user with downloads.
   */
  lemma ShowingMatchesRows(ordered: seq<LogRow>, p: nat)
    requires p >= 1
    ensures p <= TotalPages(|ordered|) ==>
      var (a, b) := Showing(p, |ordered|);
      PageRows(ordered, p) != [] && PageRows(ordered, p) == ordered[a - 1..b]
    ensures p > TotalPages(|ordered|) ==> PageRows(ordered, p) == []
  {
    var n := TotalPages(|ordered|);
    if p <= n {
      MulLe(p - 1, n - 1, PerPage);
    } else {
      MulLe(n, p - 1, PerPage);
    }
  }

  lemma MulLe(a: nat, b: nat, c: nat)
    requires a <= b
    ensures a * c <= b * c
  {
  }

  /** One element of the page navigation. */
  datatype NavItem = Prev(page: nat) | Link(page: nat) | CurrentPageNum(page: nat) | Dots | Next(page: nat)

  /** The items showing a page number (Previous and Next show none). */
  predicate Numbered(item: NavItem) {
    item.Link? || item.CurrentPageNum?
  }

  /** The page number `q` in the window: plain text for the current page, a link otherwise. */
  function WindowItem(q: nat, p: nat): NavItem {
    if q == p then CurrentPageNum(q) else Link(q)
  }

  /** The items for pages `lo..hi`, in order. */
  function Window(lo: nat, hi: int, p: nat): (r: seq<NavItem>)
    decreases hi - lo
    ensures |r| == if lo <= hi then hi - lo + 1 else 0
  {
    if hi < lo then [] else Window(lo, hi - 1, p) + [WindowItem(hi, p)]
  }

  /** Previous, then the first page and dots when the window starts after them. */
  function NavHead(p: nat, start: int): seq<NavItem> {
    (if p > 1 then [Prev(p - 1)] else [])
    + (if start > 1 then [Link(1)] + (if start > 2 then [Dots] else []) else [])
  }

  /** Dots and the last page when the window ends before them, then Next. */
  function NavTail(p: nat, n: nat, end: int): seq<NavItem> {
    (if end < n then (if end < n - 1 then [Dots] else []) + [Link(n)] else [])
    + (if p < n then [Next(p + 1)] else [])
  }

  /**
   * The navigation of page `p` of `n`: the head, the window `max(1, p-2)
   * .. min(n, p+2)` and the tail.
   */
  function Nav(p: nat, n: nat): seq<NavItem>
    requires 1 <= p <= n
  {
    NavHead(p, Max(1, p - 2)) + Window(Max(1, p - 2), Min(n, p + 2), p) + NavTail(p, n, Min(n, p + 2))
  }

  /** Previous, the first page and the dots before the window, appended in turn. */
  method AppendHead(p: nat, start: int) returns (items: seq<NavItem>)
    ensures items == NavHead(p, start)
  {
    items := [];
    if p > 1 {
      items := items + [Prev(p - 1)];
    }
    if start > 1 {
      items := items + [Link(1)];
      if start > 2 {
        items := items + [Dots];
      }
    }
  }

  /** The page-number loop: one item per page of the window. */
  method AppendWindow(items: seq<NavItem>, start: nat, end: int, p: nat) returns (r: seq<NavItem>)
    ensures r == items + Window(start, end, p)
  {
    r := items;
    var i := start;
    while i <= end
      invariant start <= i && (i <= end + 1 || i == start)
      invariant r == items + Window(start, i - 1, p)
      decreases end + 1 - i
    {
      if i == p {
        r := r + [CurrentPageNum(i)];
      } else {
        r := r + [Link(i)];
      }
      i := i + 1;
    }
  }

  /** The dots and the last page after the window, then Next, appended in turn. */
  method AppendTail(items: seq<NavItem>, p: nat, n: nat, end: int) returns (r: seq<NavItem>)
    ensures r == items + NavTail(p, n, end)
  {
    r := items;
    ghost var tail: seq<NavItem> := [];
    if end < n {
      if end < n - 1 {
        r, tail := r + [Dots], [Dots];
      }
      r, tail := r + [Link(n)], tail + [Link(n)];
    }
    if p < n {
      r, tail := r + [Next(p + 1)], tail + [Next(p + 1)];
    }
    assert tail == NavTail(p, n, end);
  }

  /** The navigation of page `p` of `n`, built as the render code appends it. */
  method PageNav(p: nat, n: nat) returns (items: seq<NavItem>)
    requires 1 <= p <= n
    ensures items == Nav(p, n)
  {
    var start := Max(1, p - 2);
    var end := Min(n, p + 2);
    items := AppendHead(p, start);
    items := AppendWindow(items, start, end, p);
    items := AppendTail(items, p, n, end);
  }

  /** The page numbers shown, in order. */
  function Numbers(items: seq<NavItem>): seq<nat> {
    if items == [] then []
    else Numbers(items[..|items| - 1]) + (if Numbered(items[|items| - 1]) then [items[|items| - 1].page] else [])
  }

  lemma {:induction false} NumbersAppend(a: seq<NavItem>, b: seq<NavItem>)
    ensures Numbers(a + b) == Numbers(a) + Numbers(b)
  {
    if b != [] {
      var c := b[..|b| - 1];
      NumbersAppend(a, c);
      assert (a + b)[..|a + b| - 1] == a + c;
    } else {
      assert a + b == a;
    }
  }

  function Range(lo: nat, hi: int): (r: seq<nat>)
    decreases hi - lo
    ensures |r| == if lo <= hi then hi - lo + 1 else 0
    ensures forall k :: 0 <= k < |r| ==> r[k] == lo + k
  {
    if hi < lo then [] else Range(lo, hi - 1) + [hi]
  }

  lemma NumbersSnoc(items: seq<NavItem>, x: NavItem)
    ensures Numbers(items + [x]) == Numbers(items) + (if Numbered(x) then [x.page] else [])
  {
    assert (items + [x])[..|items|] == items;
  }

  lemma {:induction false} NumbersOfWindow(lo: nat, hi: int, p: nat)
    decreases hi - lo
    ensures Numbers(Window(lo, hi, p)) == Range(lo, hi)
  {
    if hi >= lo {
      NumbersOfWindow(lo, hi - 1, p);
      NumbersSnoc(Window(lo, hi - 1, p), WindowItem(hi, p));
    }
  }

  /** The window's k-th item is that of page `lo + k`. */
  lemma {:induction false} WindowAt(lo: nat, hi: int, p: nat, k: nat)
    requires lo + k <= hi
    decreases hi - lo
    ensures Window(lo, hi, p)[k] == WindowItem(lo + k, p)
  {
    if lo + k < hi {
      WindowAt(lo, hi - 1, p, k);
      assert Window(lo, hi, p) == Window(lo, hi - 1, p) + [WindowItem(hi, p)];
    }
  }

  predicate Increasing(s: seq<nat>) {
    forall i, j :: 0 <= i < j < |s| ==> s[i] < s[j]
  }

  lemma NumbersOfHead(p: nat, start: int)
    ensures Numbers(NavHead(p, start)) == if start > 1 then [1] else []
  {
    var a := if p > 1 then [Prev(p - 1)] else [];
    var b := if start > 1 then [Link(1)] + (if start > 2 then [Dots] else []) else [];
    NumbersAppend(a, b);
    if p > 1 {
      assert a[..0] == [];
    }
    if start > 2 {
      assert b[..1] == [Link(1)] && [Link(1)][..0] == [];
    } else if start > 1 {
      assert b[..0] == [];
    }
  }

  lemma NumbersOfTail(p: nat, n: nat, end: int)
    ensures Numbers(NavTail(p, n, end)) == if end < n then [n] else []
  {
    var c := if end < n then (if end < n - 1 then [Dots] else []) + [Link(n)] else [];
    var d := if p < n then [Next(p + 1)] else [];
    NumbersAppend(c, d);
    if p < n {
      assert d[..0] == [];
    }
    if end < n - 1 {
      assert c[..1] == [Dots] && [Dots][..0] == [];
    } else if end < n {
      assert c[..0] == [];
    }
  }

  /**
   * The numbered items are the first page when the window starts after
   * it, every page of the window, and the last page when the window ends
   * before it.
   */
  lemma NavNumbers(p: nat, n: nat)
    requires 1 <= p <= n
    ensures var start, end := Max(1, p - 2), Min(n, p + 2);
      Numbers(Nav(p, n)) == (if start > 1 then [1] else []) + Range(start, end) + (if end < n then [n] else [])
  {
    var start, end := Max(1, p - 2), Min(n, p + 2);
    var h, w, t := NavHead(p, start), Window(start, end, p), NavTail(p, n, end);
    NumbersAppend(h + w, t);
    NumbersAppend(h, w);
    NumbersOfHead(p, start);
    NumbersOfWindow(start, end, p);
    NumbersOfTail(p, n, end);
  }

  /** The first page when the window starts after it, the window, and the last page when the window ends before it. */
  function Span(start: nat, end: nat, n: nat): seq<nat> {
    (if start > 1 then [1] else []) + Range(start, end) + (if end < n then [n] else [])
  }

  lemma SpanIncreasing(start: nat, end: nat, n: nat)
    requires 1 <= start <= end <= n
    ensures Increasing(Span(start, end, n))
  {
    var nums := Span(start, end, n);
    var r := Range(start, end);
    var pre := if start > 1 then [1] else [];
    var post := if end < n then [n] else [];
    assert nums == pre + r + post;
    forall i, j | 0 <= i < j < |nums|
      ensures nums[i] < nums[j]
    {
      if i >= |pre| && j < |pre| + |r| {
        assert nums[i] == r[i - |pre|] && nums[j] == r[j - |pre|];
      } else if i < |pre| && j < |pre| + |r| {
        assert nums[j] == r[j - |pre|];
      } else if i >= |pre| && i < |pre| + |r| {
        assert nums[i] == r[i - |pre|];
      }
    }
  }

  lemma SpanSound(start: nat, end: nat, n: nat, q: nat)
    requires 1 <= start <= end <= n && q in Span(start, end, n)
    ensures 1 <= q <= n && (q == 1 || q == n || start <= q <= end)
  {
    var nums := Span(start, end, n);
    var r := Range(start, end);
    var pre := if start > 1 then [1] else [];
    var post := if end < n then [n] else [];
    assert nums == pre + r + post;
    var i :| 0 <= i < |nums| && nums[i] == q;
    if |pre| <= i < |pre| + |r| {
      assert nums[i] == r[i - |pre|];
    }
  }

  lemma SpanComplete(start: nat, end: nat, n: nat, q: nat)
    requires 1 <= start <= end <= n && 1 <= q <= n && (q == 1 || q == n || start <= q <= end)
    ensures q in Span(start, end, n)
  {
    var nums := Span(start, end, n);
    var r := Range(start, end);
    var pre := if start > 1 then [1] else [];
    var post := if end < n then [n] else [];
    assert nums == pre + r + post;
    if start <= q <= end {
      assert nums[|pre| + q - start] == r[q - start];
    } else if q == 1 {
      assert nums[0] == 1;
    } else {
      assert nums[|nums| - 1] == n;
    }
  }

  lemma SpanPages(start: nat, end: nat, n: nat)
    requires 1 <= start <= end <= n
    ensures Increasing(Span(start, end, n))
    ensures forall q :: q in Span(start, end, n) <==> (1 <= q <= n && (q == 1 || q == n || start <= q <= end))
  {
    SpanIncreasing(start, end, n);
    forall q | q in Span(start, end, n)
      ensures 1 <= q <= n && (q == 1 || q == n || start <= q <= end)
    {
      SpanSound(start, end, n, q);
    }
    forall q: nat | 1 <= q <= n && (q == 1 || q == n || start <= q <= end)
      ensures q in Span(start, end, n)
    {
      SpanComplete(start, end, n, q);
    }
  }

  /**
   * Each page number is shown at most once, in increasing order; the
   * pages shown are exactly the first, the last and those within two of
   * the current one.
   */
  lemma NavPages(p: nat, n: nat)
    requires 1 <= p <= n
    ensures Increasing(Numbers(Nav(p, n)))
    ensures forall q :: q in Numbers(Nav(p, n)) <==> (1 <= q <= n && (q == 1 || q == n || p - 2 <= q <= p + 2))
  {
    NavNumbers(p, n);
    SpanPages(Max(1, p - 2), Min(n, p + 2), n);
  }

  lemma HeadItems(p: nat, start: int)
    requires p >= 1
    ensures Prev(p - 1) in NavHead(p, start) <==> p > 1
    ensures forall it :: it in NavHead(p, start) ==> !it.Next? && !it.CurrentPageNum? && (it.Link? ==> it.page == 1 && start > 1)
    ensures multiset(NavHead(p, start))[Dots] == if start > 2 then 1 else 0
  {
  }

  lemma TailItems(p: nat, n: nat, end: int)
    ensures Next(p + 1) in NavTail(p, n, end) <==> p < n
    ensures forall it :: it in NavTail(p, n, end) ==> !it.Prev? && !it.CurrentPageNum? && (it.Link? ==> it.page == n && end < n)
    ensures multiset(NavTail(p, n, end))[Dots] == if end < n - 1 then 1 else 0
  {
  }

  lemma WindowItems(start: nat, end: int, p: nat)
    requires start <= p <= end
    ensures CurrentPageNum(p) in Window(start, end, p)
    ensures forall it :: it in Window(start, end, p) ==> (it.Link? || it.CurrentPageNum?) && (it.CurrentPageNum? <==> it.page == p)
    ensures multiset(Window(start, end, p))[Dots] == 0
  {
    var w := Window(start, end, p);
    WindowAt(start, end, p, p - start);
    forall it | it in w
      ensures (it.Link? || it.CurrentPageNum?) && (it.CurrentPageNum? <==> it.page == p)
    {
      var k :| 0 <= k < |w| && w[k] == it;
      WindowAt(start, end, p, k);
    }
    assert Dots !in w;
  }

  /** Previous appears exactly when there is a previous page. */
  lemma NavPrev(p: nat, n: nat)
    requires 1 <= p <= n
    ensures Prev(p - 1) in Nav(p, n) <==> p > 1
  {
    var start, end := Max(1, p - 2), Min(n, p + 2);
    var h, w, t := NavHead(p, start), Window(start, end, p), NavTail(p, n, end);
    HeadItems(p, start);
    WindowItems(start, end, p);
    TailItems(p, n, end);
    assert Nav(p, n) == h + w + t;
    assert Prev(p - 1) !in w && Prev(p - 1) !in t;
  }

  /** Next appears exactly when there is a next page. */
  lemma NavNext(p: nat, n: nat)
    requires 1 <= p <= n
    ensures Next(p + 1) in Nav(p, n) <==> p < n
  {
    var start, end := Max(1, p - 2), Min(n, p + 2);
    var h, w, t := NavHead(p, start), Window(start, end, p), NavTail(p, n, end);
    HeadItems(p, start);
    WindowItems(start, end, p);
    TailItems(p, n, end);
    assert Nav(p, n) == h + w + t;
    assert Next(p + 1) !in h && Next(p + 1) !in w;
  }

  /** The current page appears, as plain text, and is the only page shown as plain text. */
  lemma NavCurrent(p: nat, n: nat)
    requires 1 <= p <= n
    ensures CurrentPageNum(p) in Nav(p, n)
    ensures forall it :: it in Nav(p, n) && Numbered(it) ==> (it.CurrentPageNum? <==> it.page == p)
  {
    var start, end := Max(1, p - 2), Min(n, p + 2);
    var h, w, t := NavHead(p, start), Window(start, end, p), NavTail(p, n, end);
    HeadItems(p, start);
    WindowItems(start, end, p);
    TailItems(p, n, end);
    var items := Nav(p, n);
    assert items == h + w + t;
    forall it | it in items && Numbered(it)
      ensures it.CurrentPageNum? <==> it.page == p
    {
      if it in h {
        assert it.Link? && it.page == 1 && p > 3;
      } else if it in t {
        assert it.Link? && it.page == n && p + 2 < n;
      } else {
        assert it in w;
      }
    }
  }

  /** Dots appear before the window iff it starts after page 2, and after it iff it ends before page n-1. */
  lemma NavDots(p: nat, n: nat)
    requires 1 <= p <= n
    ensures multiset(Nav(p, n))[Dots] == (if Max(1, p - 2) > 2 then 1 else 0) + (if Min(n, p + 2) < n - 1 then 1 else 0)
  {
    var start, end := Max(1, p - 2), Min(n, p + 2);
    var h, w, t := NavHead(p, start), Window(start, end, p), NavTail(p, n, end);
    HeadItems(p, start);
    WindowItems(start, end, p);
    TailItems(p, n, end);
    assert Nav(p, n) == h + w + t;
    assert multiset(Nav(p, n)) == multiset(h) + multiset(w) + multiset(t);
  }

  // Date groups.

  /** Consecutive logs of the same day, under that day's heading. */
  datatype Group = Group(day: int, logs: seq<LogRow>)

  function Flatten(groups: seq<Group>): seq<LogRow> {
    if groups == [] then [] else Flatten(groups[..|groups| - 1]) + groups[|groups| - 1].logs
  }

  /** Each group is non-empty and of one day, and neighbouring groups are of different days. */
  predicate WellGrouped(groups: seq<Group>, dayOf: int -> int) {
    && (forall g :: 0 <= g < |groups| ==> groups[g].logs != [])
    && (forall g, k :: 0 <= g < |groups| && 0 <= k < |groups[g].logs| ==> dayOf(groups[g].logs[k].downloadTime) == groups[g].day)
    && (forall g :: 0 < g < |groups| ==> groups[g - 1].day != groups[g].day)
  }

  lemma FlattenSnoc(groups: seq<Group>, last: Group)
    ensures Flatten(groups + [last]) == Flatten(groups) + last.logs
  {
    var g := groups + [last];
    assert g[..|g| - 1] == groups;
  }

  /** Appending a non-empty group of one day, other than the last group's, keeps the grouping well formed. */
  lemma {:induction false} WellGroupedSnoc(groups: seq<Group>, last: Group, dayOf: int -> int)
    requires WellGrouped(groups, dayOf) && last.logs != []
    requires forall k :: 0 <= k < |last.logs| ==> dayOf(last.logs[k].downloadTime) == last.day
    requires groups != [] ==> groups[|groups| - 1].day != last.day
    ensures WellGrouped(groups + [last], dayOf)
  {
    var g := groups + [last];
    forall i | 0 <= i < |g|
      ensures g[i].logs != []
      ensures forall k :: 0 <= k < |g[i].logs| ==> dayOf(g[i].logs[k].downloadTime) == g[i].day
    {
      if i < |groups| {
        assert g[i] == groups[i];
      }
    }
    forall i | 0 < i < |g|
      ensures g[i - 1].day != g[i].day
    {
      assert g[i - 1] == groups[i - 1];
      if i < |groups| {
        assert g[i] == groups[i];
      }
    }
  }

  /** A prefix of a well formed grouping is well formed, and its last group is of one day. */
  lemma {:induction false} WellGroupedInit(init: seq<Group>, last: Group, dayOf: int -> int)
    requires WellGrouped(init + [last], dayOf)
    ensures WellGrouped(init, dayOf) && last.logs != []
    ensures forall k :: 0 <= k < |last.logs| ==> dayOf(last.logs[k].downloadTime) == last.day
    ensures init != [] ==> init[|init| - 1].day != last.day
  {
    var g := init + [last];
    assert g[|init|] == last;
    forall i | 0 <= i < |init|
      ensures init[i] == g[i]
    {
    }
  }

  /** A log of a day other than the last group's opens a new group. */
  lemma OpenGroup(groups: seq<Group>, log: LogRow, day: int, dayOf: int -> int)
    requires WellGrouped(groups, dayOf) && day == dayOf(log.downloadTime)
    requires groups != [] ==> groups[|groups| - 1].day != day
    ensures Flatten(groups + [Group(day, [log])]) == Flatten(groups) + [log]
    ensures WellGrouped(groups + [Group(day, [log])], dayOf)
  {
    FlattenSnoc(groups, Group(day, [log]));
    WellGroupedSnoc(groups, Group(day, [log]), dayOf);
  }

  /** A log of the last group's day joins that group. */
  lemma ExtendGroup(init: seq<Group>, last: Group, log: LogRow, dayOf: int -> int)
    requires WellGrouped(init + [last], dayOf)
    requires last.day == dayOf(log.downloadTime)
    ensures Flatten(init + [Group(last.day, last.logs + [log])]) == Flatten(init + [last]) + [log]
    ensures WellGrouped(init + [Group(last.day, last.logs + [log])], dayOf)
  {
    FlattenSnoc(init, last);
    FlattenSnoc(init, Group(last.day, last.logs + [log]));
    WellGroupedInit(init, last, dayOf);
    var logs := last.logs + [log];
    forall k | 0 <= k < |logs|
      ensures dayOf(logs[k].downloadTime) == last.day
    {
      if k < |last.logs| {
        assert logs[k] == last.logs[k];
      }
    }
    WellGroupedSnoc(init, Group(last.day, logs), dayOf);
  }

  /**
   * The render loop: it keeps the day of the group it is in and opens a
   * new group whenever a log's day differs from it. The groups are the
   * page's logs, in order, cut wherever the day changes.
   */
  method GroupByDay(logs: seq<LogRow>, dayOf: int -> int) returns (groups: seq<Group>)
    ensures Flatten(groups) == logs
    ensures WellGrouped(groups, dayOf)
  {
    groups := [];
    var current: Option<int> := None;
    for i := 0 to |logs|
      invariant Flatten(groups) == logs[..i]
      invariant WellGrouped(groups, dayOf)
      invariant groups == [] <==> current.None?
      invariant current.Some? ==> current.value == groups[|groups| - 1].day
    {
      var day := dayOf(logs[i].downloadTime);
      assert logs[..i + 1] == logs[..i] + [logs[i]];
      if current != Some(day) {
        OpenGroup(groups, logs[i], day, dayOf);
        groups := groups + [Group(day, [logs[i]])];
        current := Some(day);
      } else {
        var init, last := groups[..|groups| - 1], groups[|groups| - 1];
        assert groups == init + [last];
        ExtendGroup(init, last, logs[i], dayOf);
        groups := init + [Group(last.day, last.logs + [logs[i]])];
      }
    }
    assert logs[..|logs|] == logs;
  }

  /** The heading of a day's group. */
  function DayLabel(day: int, today: int, fmt: int -> string): (heading: string)
    ensures day == today ==> heading == "Today"
    ensures day == today - 1 ==> heading == "Yesterday"
    ensures day != today && day != today - 1 ==> heading == fmt(day)
  {
    if day == today then "Today" else if day == today - 1 then "Yesterday" else fmt(day)
  }

  /**
   * As long as a formatted date is never the word "Today" or "Yesterday",
   * the heading names today's group and yesterday's group and no other, and
   * two days with the same heading are the same day when `fmt` tells days
   * apart.
   */
  lemma DayLabelIdentifiesDay(day: int, other: int, today: int, fmt: int -> string)
    requires forall d :: fmt(d) != "Today" && fmt(d) != "Yesterday"
    requires forall d, e :: fmt(d) == fmt(e) ==> d == e
    ensures DayLabel(day, today, fmt) == "Today" <==> day == today
    ensures DayLabel(day, today, fmt) == "Yesterday" <==> day == today - 1
    ensures DayLabel(day, today, fmt) == DayLabel(other, today, fmt) ==> day == other
  {
    assert "Today" != "Yesterday";
  }

  /** The icon and its colour for a download type, compared in lower case. */
  function TypeIcon(downloadType: string): (r: (string, string))
    ensures ToLower(downloadType) == "free" ==> r == ("dashicons-download", "#28a745")
    ensures ToLower(downloadType) == "subscription" ==> r == ("dashicons-star-filled", "#007cba")
    ensures ToLower(downloadType) == "premium" ==> r == ("dashicons-cart", "#dc3545")
    ensures ToLower(downloadType) !in {"free", "subscription", "premium"} ==> r == ("dashicons-download", "#6c757d")
  {
    var t := ToLower(downloadType);
    if t == "free" then ("dashicons-download", "#28a745")
    else if t == "subscription" then ("dashicons-star-filled", "#007cba")
    else if t == "premium" then ("dashicons-cart", "#dc3545")
    else ("dashicons-download", "#6c757d")
  }

  /**
   * The icon's colour tells the download type apart, whatever its case:
   * the three known types each have a colour of their own, and grey is
   * left for every other type.
   */
  lemma TypeColourIdentifiesType(a: string, b: string)
    ensures TypeIcon(a).1 == "#6c757d" <==> ToLower(a) !in {"free", "subscription", "premium"}
    ensures TypeIcon(a).1 == TypeIcon(b).1 && ToLower(a) in {"free", "subscription", "premium"} ==>
      ToLower(a) == ToLower(b)
    ensures ToLower(a) == ToLower(b) ==> TypeIcon(a) == TypeIcon(b)
  {
  }

  // The page.

  datatype Pagination = Pagination(showing: (nat, int), total: nat, nav: seq<NavItem>)

  datatype Page =
    | LoginRequired
    | NoDownloads(total: nat)
    | Downloads(total: nat, pageOf: Option<(nat, nat)>, groups: seq<Group>, pagination: Option<Pagination>)

  /**
   * The shortcode's output for the user's logs `ordered` (newest first):
   * the page of rows grouped by day, with "Page p of n" and the
   * navigation only when there is more than one page.
   */
  method RenderHistory(loggedIn: bool, get: map<string, string>, ordered: seq<LogRow>, dayOf: int -> int) returns (page: Page)
    ensures !loggedIn <==> page.LoginRequired?
    ensures loggedIn ==> (page.NoDownloads? <==> PageRows(ordered, CurrentPage(get)) == [])
    ensures page.Downloads? ==> Flatten(page.groups) == PageRows(ordered, CurrentPage(get)) && WellGrouped(page.groups, dayOf)
    ensures page.Downloads? ==> (page.pagination.Some? <==> TotalPages(|ordered|) > 1)
    ensures page.Downloads? && page.pagination.Some? ==>
      page.pagination.value.nav == Nav(CurrentPage(get), TotalPages(|ordered|))
      && page.pagination.value.showing == Showing(CurrentPage(get), |ordered|)
  {
    if !loggedIn {
      return LoginRequired;
    }
    var p := CurrentPage(get);
    var total := |ordered|;
    var n := TotalPages(total);
    var logs := PageRows(ordered, p);
    if logs == [] {
      return NoDownloads(total);
    }
    ShowingMatchesRows(ordered, p);
    var groups := GroupByDay(logs, dayOf);
    var pagination: Option<Pagination> := None;
    if n > 1 {
      var nav := PageNav(p, n);
      pagination := Some(Pagination(Showing(p, total), total, nav));
    }
    page := Downloads(total, if n > 1 then Some((p, n)) else None, groups, pagination);
  }
}
