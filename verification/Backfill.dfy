/**
  Backfilling candles from the exchange's REST pages (backfill_candles.py): the dry-run plan, the paging
  loop, and exactly when the loop does what the plan announces.

  Times are milliseconds; a bar is identified by its start. The exchange is a function from a requested
  range to the bar starts it answers, oldest first as fetch_klines_page sorts them.
 */
module Backfill {

  datatype Result<T> = Ok(value: T) | UnsupportedInterval | LimitOutOfRange | EndNotLater

  const MAX_LIMIT := 1000

  predicate Supported(minutes: int) {
    minutes in {1, 15, 30, 60, 240, 1440}
  }

  function Checked<T>(minutes: int, limit: int, startMs: int, endMs: int, value: T): Result<T> {
    if !Supported(minutes) then UnsupportedInterval
    else if limit < 1 || limit > MAX_LIMIT then LimitOutOfRange
    else if endMs <= startMs then EndNotLater
    else Ok(value)
  }

  function IntervalMs(minutes: int): int {
    minutes * 60 * 1000
  }

  function CeilDiv(a: int, b: int): int
    requires b > 0
  {
    (a + b - 1) / b
  }

  datatype Plan = Plan(expectedBars: int, expectedPages: int)

  /** The window is counted in whole seconds. */
  function PlanOf(minutes: int, limit: int, startMs: int, endMs: int): Result<Plan> {
    if minutes <= 0 || limit <= 0 then Checked(minutes, limit, startMs, endMs, Plan(0, 0))
    else
      var bars := CeilDiv((endMs - startMs) / 1000, minutes * 60);
      Checked(minutes, limit, startMs, endMs, Plan(bars, CeilDiv(bars, limit)))
  }

  // ----- Bars -----

  predicate Ascending(s: seq<int>) {
    forall i, j :: 0 <= i < j < |s| ==> s[i] < s[j]
  }

  predicate Within(s: seq<int>, lo: int, hi: int) {
    forall x :: x in s ==> lo <= x <= hi
  }

  /** Every answer is ascending and inside the requested range; it may well be empty or have gaps. */
  ghost predicate InRange(exchange: (int, int) -> seq<int>) {
    forall lo, hi :: Ascending(exchange(lo, hi)) && Within(exchange(lo, hi), lo, hi)
  }

  /** A range of at most limit bars is answered with every bar in it. */
  ghost predicate Complete(exchange: (int, int) -> seq<int>, interval: int, limit: int)
    requires interval > 0
  {
    forall lo, hi, x :: hi - lo <= interval * (limit - 1) ==>
      (x in exchange(lo, hi) <==> lo <= x <= hi && x % interval == 0)
  }

  /** The n bars from start on. */
  function Grid(start: int, interval: int, n: nat): seq<int> {
    seq(n, i => start + i * interval)
  }

  lemma {:induction false} SameMembersSameOrder(a: seq<int>, b: seq<int>)
    requires Ascending(a) && Ascending(b)
    requires forall x :: x in a <==> x in b
    ensures a == b
  {
    assert a != [] ==> a[0] in a && a[0] in b;
    assert b != [] ==> b[0] in b && b[0] in a;
    if a != [] {
      assert a[0] == b[0];
      forall x
        ensures x in a[1..] <==> x in b[1..]
      {
        assert x in a[1..] ==> x in a && x != a[0];
        assert x in b[1..] ==> x in b && x != b[0];
      }
      SameMembersSameOrder(a[1..], b[1..]);
    }
  }

  /** Floor division is what lies between. */
  lemma DivIs(a: int, b: int, q: int)
    requires b > 0 && q * b <= a < (q + 1) * b
    ensures a / b == q
  {
    var r := a / b;
    assert r * b <= a < (r + 1) * b;
    TimesKeepsOrder(r + 1, q, b);
    TimesKeepsOrder(q + 1, r, b);
  }

  lemma TimesKeepsOrder(x: int, y: int, d: int)
    requires d > 0
    ensures x <= y <==> x * d <= y * d
  {
  }

  /** The bars from an aligned start to a later bound. */
  lemma GridMembers(start: int, interval: int, until: int, x: int)
    requires interval > 0 && start % interval == 0 && start <= until
    ensures x in Grid(start, interval, (until - start) / interval + 1) <==> start <= x <= until && x % interval == 0
    ensures Ascending(Grid(start, interval, (until - start) / interval + 1))
  {
    var n := (until - start) / interval + 1;
    var g := Grid(start, interval, n);
    if start <= x <= until && x % interval == 0 {
      var i := x / interval - start / interval;
      GridIndex(start, interval, until, x);
      assert g[i] == x;
    }
    if x in g {
      var i :| 0 <= i < n && g[i] == x;
      GridPoint(start, interval, until, i);
    }
    forall i, j | 0 <= i < j < n
      ensures g[i] < g[j]
    {
      TimesKeepsOrder(j, i, interval);
    }
  }

  lemma GridIndex(start: int, interval: int, until: int, x: int)
    requires interval > 0 && start % interval == 0 && x % interval == 0 && start <= x <= until
    ensures var i := x / interval - start / interval;
      x == start + i * interval && 0 <= i <= (until - start) / interval
  {
    var i := x / interval - start / interval;
    assert x == x / interval * interval && start == start / interval * interval;
    assert x - start == i * interval;
    DivMonotone(x - start, until - start, interval);
    DivIs(x - start, interval, i);
  }

  lemma DivMonotone(a: int, b: int, d: int)
    requires d > 0 && 0 <= a <= b
    ensures 0 <= a / d <= b / d
  {
    TimesKeepsOrder(b / d + 1, a / d, d);
    assert a / d * d <= a && b < (b / d + 1) * d;
    TimesKeepsOrder(0, a / d, d);
    TimesKeepsOrder(1, a / d + 1, d);
  }

  lemma GridPoint(start: int, interval: int, until: int, i: int)
    requires interval > 0 && start % interval == 0 && start <= until && 0 <= i <= (until - start) / interval
    ensures start <= start + i * interval <= until && (start + i * interval) % interval == 0
  {
    assert i * interval <= (until - start) / interval * interval;
    MultipleStays(start, interval, i);
  }

  lemma MultipleStays(start: int, interval: int, i: int)
    requires interval > 0 && start % interval == 0
    ensures (start + i * interval) % interval == 0
  {
    var q := start / interval + i;
    assert start + i * interval == q * interval;
    DivIs(q * interval, interval, q);
  }

  // ----- The loop -----

  datatype Report = Report(pages: nat, upserted: seq<int>)

  /** The newest bar of a page. */
  function Last(s: seq<int>): (m: int)
    requires s != []
    ensures m in s && (forall x :: x in s ==> x <= m)
  {
    if |s| == 1 then s[0]
    else
      var before := Last(s[..|s| - 1]);
      assert forall x :: x in s ==> x in s[..|s| - 1] || x == s[|s| - 1];
      if before >= s[|s| - 1] then before else s[|s| - 1]
  }

  /** Where a page that starts at lo ends. */
  function PageEnd(lo: int, interval: int, limit: int, until: int): int {
    var approx := lo + interval * (limit - 1);
    if approx <= until then approx else until
  }

  lemma AscendingGrows(done: seq<int>, page: seq<int>, lo: int)
    requires Ascending(done) && Ascending(page)
    requires forall x :: x in done ==> x < lo
    requires forall x :: x in page ==> lo <= x
    ensures Ascending(done + page)
  {
    forall i, j | 0 <= i < j < |done + page|
      ensures (done + page)[i] < (done + page)[j]
    {
      if i < |done| <= j {
        assert done[i] in done && page[j - |done|] in page;
      }
    }
  }

  /** Nothing of an answer lies past the bound, so the filter keeps all of it. */
  function Filtered(page: seq<int>, until: int): seq<int> {
    if page == [] then []
    else (if page[0] <= until then [page[0]] else []) + Filtered(page[1..], until)
  }

  lemma {:induction false} FilterKeepsAll(page: seq<int>, until: int)
    requires forall x :: x in page ==> x <= until
    ensures Filtered(page, until) == page
  {
    if page != [] {
      assert page[0] in page && forall x :: x in page[1..] ==> x in page;
      FilterKeepsAll(page[1..], until);
    }
  }

  ghost predicate OnGrid(bars: seq<int>, interval: int)
    requires interval > 0
  {
    forall x :: x in bars ==> x % interval == 0
  }

  /** Every bar from start up to a point, and no later than the bound, has been written. */
  ghost predicate Covered(upserted: seq<int>, start: int, upTo: int, until: int, interval: int)
    requires interval > 0
  {
    forall x :: start <= x < upTo && x <= until && x % interval == 0 ==> x in upserted
  }

  /** One page of a complete exchange covers its range; its newest bar decides where the next one starts. */
  lemma PageCovers(
    exchange: (int, int) -> seq<int>, upserted: seq<int>, start: int, lo: int, until: int, interval: int, limit: int)
    requires interval > 0 && limit >= 1 && InRange(exchange) && Complete(exchange, interval, limit)
    requires lo % interval == 0 && lo <= until && Covered(upserted, start, lo, until, interval)
    ensures var page := exchange(lo, PageEnd(lo, interval, limit, until));
      && page != [] && OnGrid(page, interval)
      && Covered(upserted + page, start, Last(page) + interval, until, interval)
      && (Last(page) + interval) % interval == 0
      && (Last(page) + interval <= until ==> Last(page) + interval == lo + interval * limit)
      && Last(page) + interval <= lo + interval * limit
  {
    var hi := PageEnd(lo, interval, limit, until);
    var page := exchange(lo, hi);
    assert interval * limit == interval * (limit - 1) + interval;
    assert 0 <= interval * (limit - 1);
    assert lo in page;
    var last := Last(page);
    NextMultiple(last, interval);
    MultipleStays(lo, interval, limit - 1);
    assert (limit - 1) * interval == interval * (limit - 1);
    if hi == lo + interval * (limit - 1) {
      assert hi in page;
    }
    assert last + interval <= hi ==> last + interval in page;
    forall x | start <= x < last + interval && x <= until && x % interval == 0
      ensures x in upserted + page
    {
      if x >= lo {
        if x > last {
          NoMultipleBetween(last, x, interval);
        }
        assert x in page;
      }
    }
  }

  lemma NextMultiple(x: int, d: int)
    requires d > 0
    ensures x % d == 0 ==> (x + d) % d == 0
  {
    if x % d == 0 {
      MultipleStays(x, d, 1);
    }
  }

  lemma NoMultipleBetween(a: int, x: int, d: int)
    requires d > 0 && a % d == 0 && x % d == 0
    ensures !(a < x < a + d)
  {
    var p, q := a / d, x / d;
    assert a == p * d && x == q * d;
    TimesKeepsOrder(p + 1, q, d);
    TimesKeepsOrder(q, p, d);
  }

  /** The bar that a time falls into. */
  function BarOf(t: int, interval: int): int
    requires interval > 0
  {
    t - t % interval
  }

  /** The first bar that starts at a time or later. */
  function FirstBar(t: int, interval: int): int
    requires interval > 0
  {
    if t % interval == 0 then t else BarOf(t, interval) + interval
  }

  /** The loop has written everything before start: by full pages while it runs, or all there is. */
  ghost predicate Reached(
    upserted: seq<int>, startMs: int, start: int, until: int, interval: int, limit: int, pages: nat)
    requires interval > 0
  {
    var base := BarOf(startMs, interval);
    && start % interval == 0 && OnGrid(upserted, interval) && Covered(upserted, startMs, start, until, interval)
    && (start <= until ==> start == base + pages * (interval * limit))
    && (start > until ==>
          pages >= 1 && (pages - 1) * (interval * limit) <= until - base < pages * (interval * limit))
  }

  /** Every write is in the window and before start, and they are in order. */
  ghost predicate Written(upserted: seq<int>, startMs: int, start: int, until: int) {
    Ascending(upserted) && forall x :: x in upserted ==> startMs <= x < start && x <= until
  }

  /** The loop's progress, also before the first page of an unaligned start. */
  ghost predicate Paged(
    upserted: seq<int>, startMs: int, start: int, until: int, interval: int, limit: int, pages: nat)
    requires interval > 0
  {
    if startMs % interval != 0 && pages == 0 then start == startMs && upserted == []
    else
      && Reached(upserted, startMs, start, until, interval, limit, pages)
      && (startMs % interval == 0 || (limit > 1 && FirstBar(startMs, interval) <= until))
  }

  lemma NothingReached(startMs: int, until: int, interval: int, limit: int)
    requires interval > 0 && startMs <= until
    ensures Paged([], startMs, startMs, until, interval, limit, 0)
  {
  }

  lemma PageReaches(
    exchange: (int, int) -> seq<int>, upserted: seq<int>, startMs: int, start: int, until: int, interval: int,
    limit: int, pages: nat)
    requires interval > 0 && limit >= 1 && InRange(exchange) && Complete(exchange, interval, limit)
    requires Reached(upserted, startMs, start, until, interval, limit, pages) && start <= until
    ensures var page := exchange(start, PageEnd(start, interval, limit, until));
      page != [] && Reached(upserted + page, startMs, Last(page) + interval, until, interval, limit, pages + 1)
  {
    hide Covered, Complete, InRange, PageEnd, BarOf;
    PageCovers(exchange, upserted, startMs, start, until, interval, limit);
    assert (pages + 1) * (interval * limit) == pages * (interval * limit) + interval * limit;
  }

  /**
    The page of an unaligned start is empty when it is one bar wide or no bar is left, and otherwise
    reaches as far as the page of the bar that the start falls into.
   */
  lemma FirstPage(exchange: (int, int) -> seq<int>, startMs: int, until: int, interval: int, limit: int)
    requires interval > 0 && limit >= 1 && InRange(exchange) && Complete(exchange, interval, limit)
    requires startMs % interval != 0 && startMs <= until
    ensures var page := exchange(startMs, PageEnd(startMs, interval, limit, until));
      && (page == [] <==> limit == 1 || FirstBar(startMs, interval) > until)
      && (page != [] ==> Reached(page, startMs, Last(page) + interval, until, interval, limit, 1))
  {
    var page := exchange(startMs, PageEnd(startMs, interval, limit, until));
    BarIsAligned(startMs, interval);
    TimesKeepsOrder(1, limit, interval);
    if page == [] {
      FirstPageIsEmpty(page, startMs, until, interval, limit);
    } else {
      FirstPageReaches(page, startMs, until, interval, limit);
    }
  }

  lemma BarIsAligned(t: int, interval: int)
    requires interval > 0
    ensures var base := BarOf(t, interval);
      && base % interval == 0 && (base + interval) % interval == 0
      && base <= t < base + interval && (t % interval != 0 ==> base < t)
      && FirstBar(t, interval) % interval == 0
  {
    assert BarOf(t, interval) == t / interval * interval;
    DivIs(t / interval * interval, interval, t / interval);
    NextMultiple(BarOf(t, interval), interval);
  }

  /** The page holds the bars of its range. */
  ghost predicate IsPage(page: seq<int>, lo: int, hi: int, interval: int)
    requires interval > 0
  {
    forall x :: x in page <==> lo <= x <= hi && x % interval == 0
  }

  lemma FirstPageIsEmpty(page: seq<int>, startMs: int, until: int, interval: int, limit: int)
    requires interval > 0 && limit >= 1 && startMs % interval != 0
    requires page == [] && IsPage(page, startMs, PageEnd(startMs, interval, limit, until), interval)
    ensures limit == 1 || FirstBar(startMs, interval) > until
  {
    BarIsAligned(startMs, interval);
    TimesKeepsOrder(1, limit - 1, interval);
    assert BarOf(startMs, interval) + interval !in page;
  }

  lemma FirstPageReaches(page: seq<int>, startMs: int, until: int, interval: int, limit: int)
    requires interval > 0 && limit >= 1 && startMs % interval != 0 && startMs <= until
    requires page != [] && IsPage(page, startMs, PageEnd(startMs, interval, limit, until), interval)
    ensures limit > 1 && FirstBar(startMs, interval) <= until
    ensures Reached(page, startMs, Last(page) + interval, until, interval, limit, 1)
  {
    var base, hi, last := BarOf(startMs, interval), PageEnd(startMs, interval, limit, until), Last(page);
    BarIsAligned(startMs, interval);
    NextMultiple(last, interval);
    NoMultipleBetween(base, last, interval);
    assert base + interval <= last <= hi;
    TopOfFirstPage(page, startMs, base, until, interval, limit);
    forall x | startMs <= x < last + interval && x <= until && x % interval == 0
      ensures x in page
    {
      NoMultipleBetween(last, x, interval);
    }
  }

  /** The newest bar of the page is as far from the base as a page is wide, or the newest there is. */
  lemma TopOfFirstPage(page: seq<int>, startMs: int, base: int, until: int, interval: int, limit: int)
    requires interval > 0 && limit >= 1 && base % interval == 0 && base < startMs < base + interval
    requires page != [] && IsPage(page, startMs, PageEnd(startMs, interval, limit, until), interval)
    requires base + interval <= Last(page)
    ensures limit > 1 && Last(page) <= base + interval * (limit - 1)
    ensures Last(page) + interval <= until ==> Last(page) == base + interval * (limit - 1)
  {
    var hi, last, top := PageEnd(startMs, interval, limit, until), Last(page), base + interval * (limit - 1);
    MultipleStays(base, interval, limit - 1);
    assert (limit - 1) * interval == interval * (limit - 1);
    TimesKeepsOrder(1, limit - 1, interval);
    NoMultipleBetween(top, last, interval);
    NextMultiple(last, interval);
    if last + interval <= until {
      assert last + interval !in page;
      if hi != until {
        assert top in page;
      }
    }
  }

  /**
    What a run against a complete exchange reports. From an unaligned start, pages of one bar end with an
    empty first page; wider ones reach as far as from the bar that the start falls into.
   */
  function RunReport(startMs: int, until: int, interval: int, limit: int): Report
    requires interval > 0 && limit >= 1 && startMs <= until
  {
    var first := FirstBar(startMs, interval);
    if startMs % interval != 0 && (limit == 1 || first > until) then Report(1, [])
    else
      Pages(startMs, until, interval, limit);
      Report((until - BarOf(startMs, interval)) / (interval * limit) + 1,
             Grid(first, interval, (until - first) / interval + 1))
  }

  lemma Pages(startMs: int, until: int, interval: int, limit: int)
    requires interval > 0 && limit >= 1 && startMs <= until
    ensures interval * limit > 0 && (until - BarOf(startMs, interval)) / (interval * limit) >= 0
    ensures FirstBar(startMs, interval) <= until ==> (until - FirstBar(startMs, interval)) / interval >= 0
  {
    TimesKeepsOrder(1, limit, interval);
    BarIsAligned(startMs, interval);
    DivMonotone(0, until - BarOf(startMs, interval), interval * limit);
    if FirstBar(startMs, interval) <= until {
      DivMonotone(0, until - FirstBar(startMs, interval), interval);
    }
  }

  lemma ReachedTheEnd(
    upserted: seq<int>, startMs: int, start: int, until: int, interval: int, limit: int, pages: nat)
    requires interval > 0 && limit >= 1 && startMs <= until < start
    requires startMs % interval == 0 || (limit > 1 && FirstBar(startMs, interval) <= until)
    requires Reached(upserted, startMs, start, until, interval, limit, pages)
    requires Ascending(upserted) && Within(upserted, startMs, until)
    ensures Report(pages, upserted) == RunReport(startMs, until, interval, limit)
  {
    hide Grid;
    var first := FirstBar(startMs, interval);
    BarIsAligned(startMs, interval);
    Pages(startMs, until, interval, limit);
    DivIs(until - BarOf(startMs, interval), interval * limit, pages - 1);
    var all := Grid(first, interval, (until - first) / interval + 1);
    forall x
      ensures x in upserted <==> x in all
    {
      GridMembers(first, interval, until, x);
      if x in upserted && first != startMs {
        NoMultipleBetween(BarOf(startMs, interval), x, interval);
      }
    }
    GridMembers(first, interval, until, first);
    SameMembersSameOrder(upserted, all);
  }

  /** How many bars a complete exchange and an aligned start yield: a window of one bar or less yields none. */
  function BarsRead(minutes: int, windowMs: int): nat
    requires Supported(minutes)
  {
    if windowMs <= IntervalMs(minutes) then 0 else windowMs / IntervalMs(minutes)
  }

  function PagesRead(minutes: int, limit: int, windowMs: int): int
    requires Supported(minutes) && limit >= 1
  {
    CeilDiv(BarsRead(minutes, windowMs), limit)
  }

  /** Dividing by the interval and then by the limit is dividing by the span of a page. */
  lemma DivTwice(a: int, b: int, c: int)
    requires b > 0 && c > 0
    ensures b * c > 0 && a / b / c == a / (b * c)
  {
    var p, q := a / b, a / b / c;
    assert p * b <= a < (p + 1) * b && q * c <= p < (q + 1) * c;
    TimesKeepsOrder(q * c, p, b);
    TimesKeepsOrder(p + 1, (q + 1) * c, b);
    assert q * c * b == q * (b * c) && (q + 1) * c * b == (q + 1) * (b * c);
    TimesKeepsOrder(1, c, b);
    DivIs(a, b * c, q);
  }

  lemma DivShift(a: int, b: int)
    requires b > 0
    ensures (a - b) / b == a / b - 1 && (a + b) / b == a / b + 1
  {
    var q := a / b;
    assert q * b <= a < (q + 1) * b;
    assert (q - 1) * b == q * b - b && (q + 1) * b == q * b + b && (q + 2) * b == q * b + b + b;
    DivIs(a - b, b, q - 1);
    DivIs(a + b, b, q + 1);
  }

  /** What the loop counts, in bars and in pages. */
  lemma PagesOfBars(minutes: int, limit: int, windowMs: int)
    requires Supported(minutes) && limit >= 1 && windowMs > IntervalMs(minutes)
    ensures var interval := IntervalMs(minutes);
      && BarsRead(minutes, windowMs) == (windowMs - interval) / interval + 1
      && interval * limit > 0
      && PagesRead(minutes, limit, windowMs) == (windowMs - interval) / (interval * limit) + 1
  {
    var interval := IntervalMs(minutes);
    DivShift(windowMs, interval);
    DivTwice(windowMs - interval, interval, limit);
    DivShift(windowMs / interval - 1, limit);
    DivMonotone(interval, windowMs, interval);
    DivIs(interval, interval, 1);
  }

  /** One more bar needs one more page exactly when the pages so far are full. */
  lemma OneMoreBar(bars: nat, limit: int)
    requires limit >= 1
    ensures CeilDiv(bars + 1, limit) == CeilDiv(bars, limit) <==> bars % limit != 0
    ensures CeilDiv(bars, limit) <= CeilDiv(bars + 1, limit)
  {
    PagesFor(bars, limit, bars / limit, bars % limit);
  }

  lemma PagesFor(bars: int, limit: int, q: int, r: int)
    requires limit >= 1 && bars == q * limit + r && 0 <= r < limit
    ensures CeilDiv(bars + 1, limit) == q + 1 && CeilDiv(bars, limit) == if r == 0 then q else q + 1
  {
    assert (q + 1) * limit == q * limit + limit && (q + 2) * limit == q * limit + limit + limit;
    DivIs(bars + limit, limit, q + 1);
    DivIs(bars + limit - 1, limit, if r == 0 then q else q + 1);
  }

  /** The plan's bars: those of the window, and one more for a remainder of a second or longer. */
  lemma PlannedBars(minutes: int, windowMs: int)
    requires Supported(minutes) && windowMs > 0
    ensures var interval := IntervalMs(minutes);
      CeilDiv(windowMs / 1000, minutes * 60) ==
        windowMs / interval + (if windowMs % interval < 1000 then 0 else 1)
  {
    var interval, perBar := IntervalMs(minutes), minutes * 60;
    var q, r := windowMs / interval, windowMs % interval;
    assert windowMs == q * interval + r && interval == perBar * 1000;
    CeilOfSeconds(windowMs, perBar, q, r);
  }

  lemma CeilOfSeconds(windowMs: int, perBar: int, q: int, r: int)
    requires perBar > 0 && windowMs == q * (perBar * 1000) + r && 0 <= r < perBar * 1000
    ensures CeilDiv(windowMs / 1000, perBar) == q + (if r < 1000 then 0 else 1)
  {
    assert q * (perBar * 1000) == q * perBar * 1000;
    var seconds := q * perBar + r / 1000;
    DivIs(windowMs, 1000, seconds);
    assert (q + 1) * perBar == q * perBar + perBar && (q + 2) * perBar == q * perBar + perBar + perBar;
    DivIs(seconds + perBar - 1, perBar, if r < 1000 then q else q + 1);
  }

  lemma FewBars(limit: int)
    requires limit >= 1
    ensures CeilDiv(0, limit) == 0 && CeilDiv(1, limit) == 1
  {
    DivIs(limit - 1, limit, 0);
    DivIs(limit, limit, 1);
  }

  /**
    The plan announces what the run does exactly when the window is longer than one bar and either holds
    whole bars (to the second) or leaves its last page room; or when it is shorter than a second. Bars
    agree exactly when the window holds whole bars, and more than one.
   */
  lemma PlanMatchesRun(minutes: int, limit: int, startMs: int, endMs: int)
    requires Supported(minutes) && 1 <= limit <= MAX_LIMIT && startMs < endMs
    ensures var window, interval := endMs - startMs, IntervalMs(minutes);
      var plan := PlanOf(minutes, limit, startMs, endMs);
      && plan.Ok?
      && (plan.value.expectedPages == PagesRead(minutes, limit, window) <==>
            window < 1000
            || (window > interval && (window % interval < 1000 || window / interval % limit != 0)))
      && (plan.value.expectedBars == BarsRead(minutes, window) <==>
            window < 1000 || (window > interval && window % interval < 1000))
  {
    hide CeilDiv;
    var window, interval := endMs - startMs, IntervalMs(minutes);
    var q := window / interval;
    PlannedBars(minutes, window);
    FewBars(limit);
    if window > interval {
      DivMonotone(interval, window, interval);
      DivIs(interval, interval, 1);
      OneMoreBar(q, limit);
    } else if window == interval {
      DivIs(window, interval, 1);
    } else {
      DivIs(window, interval, 0);
    }
  }

  /** In particular for two or more whole bars; for a single bar the plan says one page and the run reads none. */
  lemma WholeBars(minutes: int, limit: int, startMs: int, bars: nat)
    requires Supported(minutes) && 1 <= limit <= MAX_LIMIT && bars >= 1
    ensures var plan := PlanOf(minutes, limit, startMs, startMs + bars * IntervalMs(minutes));
      && plan == Ok(Plan(bars, CeilDiv(bars, limit)))
      && (bars >= 2 ==> BarsRead(minutes, bars * IntervalMs(minutes)) == bars)
      && (bars == 1 ==> plan.value.expectedPages == 1 && PagesRead(minutes, limit, bars * IntervalMs(minutes)) == 0)
  {
    hide CeilDiv;
    var interval := IntervalMs(minutes);
    TimesKeepsOrder(bars, 1, interval);
    TimesKeepsOrder(bars, 0, interval);
    TimesKeepsOrder(1, bars, interval);
    DivIs(bars * interval, interval, bars);
    PlannedBars(minutes, bars * interval);
    FewBars(limit);
  }

  /** A page either brings the loop on, or was the empty first page of an unaligned start. */
  lemma PageIsRead(
    exchange: (int, int) -> seq<int>, upserted: seq<int>, startMs: int, start: int, until: int, interval: int,
    limit: int, pages: nat)
    requires interval > 0 && limit >= 1 && InRange(exchange) && Complete(exchange, interval, limit)
    requires Paged(upserted, startMs, start, until, interval, limit, pages) && startMs <= until && start <= until
    ensures var page := exchange(start, PageEnd(start, interval, limit, until));
      if page == [] then Report(pages + 1, upserted) == RunReport(startMs, until, interval, limit)
      else Paged(upserted + page, startMs, Last(page) + interval, until, interval, limit, pages + 1)
  {
    hide Reached, InRange, Complete, PageEnd, FirstBar, Grid;
    var page := exchange(start, PageEnd(start, interval, limit, until));
    if startMs % interval != 0 && pages == 0 {
      FirstPage(exchange, startMs, until, interval, limit);
      assert upserted + page == page;
    } else {
      PageReaches(exchange, upserted, startMs, start, until, interval, limit, pages);
    }
  }

  lemma AllPagesRead(
    upserted: seq<int>, startMs: int, start: int, until: int, interval: int, limit: int, pages: nat)
    requires interval > 0 && limit >= 1 && startMs <= until < start
    requires Paged(upserted, startMs, start, until, interval, limit, pages)
    requires Ascending(upserted) && Within(upserted, startMs, until)
    ensures Report(pages, upserted) == RunReport(startMs, until, interval, limit)
  {
    hide Reached, RunReport, FirstBar, Ascending, Within;
    ReachedTheEnd(upserted, startMs, start, until, interval, limit, pages);
  }

  /** The plan refuses what the run refuses, with the same error. */
  lemma PlanIsChecked(minutes: int, limit: int, startMs: int, endMs: int)
    ensures var plan := PlanOf(minutes, limit, startMs, endMs);
      && (!Supported(minutes) ==> plan == UnsupportedInterval)
      && (Supported(minutes) && (limit < 1 || limit > MAX_LIMIT) ==> plan == LimitOutOfRange)
      && (Supported(minutes) && 1 <= limit <= MAX_LIMIT ==> (plan == EndNotLater <==> endMs <= startMs))
  {
    hide CeilDiv;
  }

  /**
    An explicit window [startMs, endMs). Whatever a well-behaved exchange leaves out, every write is in the
    window and no bar is written twice. From a complete exchange, pages and writes are those of RunReport;
    for an aligned start these are the bars up to endMs - interval, in order, in as few pages as possible.
   */
  method BackfillInterval(minutes: int, limit: int, startMs: int, endMs: int, exchange: (int, int) -> seq<int>)
    returns (r: Result<Report>)
    requires InRange(exchange)
    ensures r.Ok? <==> Supported(minutes) && 1 <= limit <= MAX_LIMIT && startMs < endMs
    ensures !Supported(minutes) ==> r == UnsupportedInterval
    ensures Supported(minutes) && (limit < 1 || limit > MAX_LIMIT) ==> r == LimitOutOfRange
    ensures Supported(minutes) && 1 <= limit <= MAX_LIMIT && endMs <= startMs ==> r == EndNotLater
    ensures r.Ok? ==> Ascending(r.value.upserted) && Within(r.value.upserted, startMs, endMs - IntervalMs(minutes))
    ensures r.Ok? && startMs + IntervalMs(minutes) >= endMs ==> r.value == Report(0, [])
    ensures r.Ok? && Complete(exchange, IntervalMs(minutes), limit) ==>
      && (startMs + IntervalMs(minutes) < endMs ==>
            r.value == RunReport(startMs, endMs - IntervalMs(minutes), IntervalMs(minutes), limit))
      && (startMs % IntervalMs(minutes) == 0 ==>
            && r.value.upserted == Grid(startMs, IntervalMs(minutes), BarsRead(minutes, endMs - startMs))
            && r.value.pages == PagesRead(minutes, limit, endMs - startMs))
  {
    if !Supported(minutes) {
      return UnsupportedInterval;
    }
    if limit < 1 || limit > MAX_LIMIT {
      return LimitOutOfRange;
    }
    if endMs <= startMs {
      return EndNotLater;
    }
    var interval := IntervalMs(minutes);
    var until := endMs - interval;
    if startMs >= until {
      return Ok(Report(0, []));
    }
    TimesKeepsOrder(1, limit, interval);
    PagesOfBars(minutes, limit, endMs - startMs);
    var report := PageThrough(interval, limit, startMs, until, exchange);
    return Ok(report);
  }

  method PageThrough(interval: int, limit: int, startMs: int, until: int, exchange: (int, int) -> seq<int>)
    returns (r: Report)
    requires InRange(exchange) && interval > 0 && limit >= 1 && startMs <= until
    ensures Ascending(r.upserted) && Within(r.upserted, startMs, until)
    ensures Complete(exchange, interval, limit) ==> r == RunReport(startMs, until, interval, limit)
  {
    hide Complete, Paged, RunReport, InRange, PageEnd, Written, Ascending, Within, Filtered;
    var start, pages, upserted := startMs, 0, [];
    ghost var complete := Complete(exchange, interval, limit);
    NothingWritten(startMs, until);
    NothingReached(startMs, until, interval, limit);
    while start <= until
      invariant startMs <= start
      invariant Written(upserted, startMs, start, until)
      invariant complete ==> Paged(upserted, startMs, start, until, interval, limit, pages)
      decreases until - start
    {
      var end := PageEnd(start, interval, limit, until);
      var klines := exchange(start, end);
      pages := pages + 1;
      PageIsInRange(exchange, start, interval, limit, until);
      if complete {
        PageIsRead(exchange, upserted, startMs, start, until, interval, limit, pages - 1);
      }
      if |klines| == 0 {
        break;
      }
      PageIsWritten(upserted, klines, startMs, start, until, interval);
      upserted := upserted + Filtered(klines, until);
      var lastStart := Last(klines);
      start := lastStart + interval;
      if lastStart >= until {
        break;
      }
    }
    r := Report(pages, upserted);
    WrittenInOrder(upserted, startMs, start, until);
    if complete && start > until {
      AllPagesRead(upserted, startMs, start, until, interval, limit, pages);
    }
  }

  lemma PageIsInRange(exchange: (int, int) -> seq<int>, lo: int, interval: int, limit: int, until: int)
    requires InRange(exchange) && lo <= until
    ensures var page := exchange(lo, PageEnd(lo, interval, limit, until));
      Ascending(page) && Within(page, lo, until)
  {
  }

  lemma NothingWritten(startMs: int, until: int)
    ensures Written([], startMs, startMs, until)
  {
  }

  lemma PageIsWritten(upserted: seq<int>, page: seq<int>, startMs: int, lo: int, until: int, interval: int)
    requires Written(upserted, startMs, lo, until) && Ascending(page) && Within(page, lo, until) && page != []
    requires interval > 0 && startMs <= lo
    ensures Filtered(page, until) == page && lo <= Last(page) <= until
    ensures Written(upserted + page, startMs, Last(page) + interval, until)
  {
    FilterKeepsAll(page, until);
    AscendingGrows(upserted, page, lo);
  }

  lemma WrittenInOrder(upserted: seq<int>, startMs: int, start: int, until: int)
    requires Written(upserted, startMs, start, until)
    ensures Ascending(upserted) && Within(upserted, startMs, until)
  {
  }
}
