/** `generate_monthly_planner`: the page list of one month's planner, its
    numbering, the bookmark table and the link pass that keeps only links
    whose destination is in that table. */
module Generator {
  import opened Calendar
  import opened Lists
  import opened DataProcessor
  import opened Pages

  // ------------------------------------------------------------ week starts

  function FirstDay(y: Year, m: Month): Date
  {
    YMD(y, m, 1)
  }

  function LastDay(y: Year, m: Month): Date
  {
    YMD(y, m, DaysInMonth(y, m))
  }

  /** How many weekly pages the month gets: the rows of its Monday-first
      grid. */
  function WeekCount(y: Year, m: Month): nat
  {
    (Weekday(FirstDay(y, m)) + DaysInMonth(y, m) + 6) / 7
  }

  /** The start of the `k`-th weekly page: `k` weeks after the Monday on or
      before the 1st. */
  ghost function WeekStart(y: Year, m: Month, k: nat): Date
  {
    WeekdayOfOrdinal(FirstDay(y, m));
    FromOrdinal(Ordinal(FirstDay(y, m)) - Weekday(FirstDay(y, m)) + 7 * k)
  }

  /** The starts of the month's weekly pages. */
  ghost function WeekStarts(y: Year, m: Month): (w: seq<Date>)
    ensures |w| == WeekCount(y, m)
  {
    Tabulate(WeekStartOf(y, m), WeekCount(y, m))
  }

  ghost function WeekStartOf(y: Year, m: Month): nat -> Date
  {
    (k: nat) => WeekStart(y, m, k)
  }

  /** The `k`-th start lies `7k` days after the Monday that starts the
      grid's first row. */
  lemma WeekStartOrdinal(y: Year, m: Month, k: nat)
    ensures Ordinal(WeekStart(y, m, k)) == Ordinal(FirstDay(y, m)) - Weekday(FirstDay(y, m)) + 7 * k
    ensures Weekday(WeekStart(y, m, k)) == 0
  {
    var o := Ordinal(FirstDay(y, m));
    var w := Weekday(FirstDay(y, m));
    WeekdayOfOrdinal(FirstDay(y, m));
    DivMod7(o - w + 7 * k + 6, (o + 6) / 7 + k, 0);
  }

  /** The first start is the Monday on or before the 1st. */
  lemma FirstWeekStart(y: Year, m: Month)
    ensures WeekStart(y, m, 0) == MondayOnOrBefore(FirstDay(y, m))
  {
    WeekStartOrdinal(y, m, 0);
    OrdinalInjective(WeekStart(y, m, 0), MondayOnOrBefore(FirstDay(y, m)));
  }

  /** `k` weeks after the grid's first Monday is still in the month's grid
      exactly when `k` is below the week count. */
  lemma WeekCountBound(w: int, n: int, k: nat)
    requires 0 <= w < 7 && n >= 1
    ensures 7 * k <= w + n - 1 <==> k < (w + n + 6) / 7
  {
    var q := (w + n + 6) / 7;
    DivMod7(w + n + 6, q, (w + n + 6) % 7);
  }

  /** A start is not after the month's last day exactly when it is one of
      the week starts. */
  lemma WeekStartInMonth(y: Year, m: Month, k: nat)
    ensures NotAfter(WeekStart(y, m, k), LastDay(y, m)) <==> k < WeekCount(y, m)
  {
    WeekStartOrdinal(y, m, k);
    assert Ordinal(LastDay(y, m)) == Ordinal(FirstDay(y, m)) + DaysInMonth(y, m) - 1;
    WeekCountBound(Weekday(FirstDay(y, m)), DaysInMonth(y, m), k);
  }

  /** Moving a week start by seven days gives the next week start. */
  lemma WeekStartNext(y: Year, m: Month, k: nat)
    ensures AddDays(WeekStart(y, m, k), 7) == WeekStart(y, m, k + 1)
  {
    WeekStartOrdinal(y, m, k);
    WeekStartOrdinal(y, m, k + 1);
    OrdinalInjective(AddDays(WeekStart(y, m, k), 7), WeekStart(y, m, k + 1));
  }

  /** There is one weekly page per row of the month's `monthcalendar`
      grid. */
  lemma WeekCountIsGridRows(y: Year, m: Month)
    ensures |WeekStarts(y, m)| == |MonthCalendar(y, m)|
  {
  }

  /** Week starts: the first is the Monday on or before the 1st, each is a
      Monday seven days after the one before, none is after the month's
      last day. */
  lemma WeekStartsShape(y: Year, m: Month)
    ensures var w := WeekStarts(y, m);
            |w| >= 1 && w[0] == MondayOnOrBefore(FirstDay(y, m))
            && (forall i :: 0 <= i < |w| ==> Weekday(w[i]) == 0 && NotAfter(w[i], LastDay(y, m)))
            && (forall i :: 0 < i < |w| ==> Ordinal(w[i]) == Ordinal(w[i - 1]) + 7)
  {
    var w := WeekStarts(y, m);
    TabulateAt(WeekStartOf(y, m), |w|);
    assert |w| >= 1 by { WeekStartInMonth(y, m, 0); }
    FirstWeekStart(y, m);
    forall i | 0 <= i < |w|
      ensures Weekday(w[i]) == 0 && NotAfter(w[i], LastDay(y, m))
      ensures i > 0 ==> Ordinal(w[i]) == Ordinal(w[i - 1]) + 7
    {
      WeekStartFacts(y, m, i);
    }
  }

  /** The start after the last one would be after the month's last day. */
  lemma WeekStartsEnd(y: Year, m: Month)
    ensures var w := WeekStarts(y, m);
            |w| >= 1 && !NotAfter(AddDays(w[|w| - 1], 7), LastDay(y, m))
  {
    var w := WeekStarts(y, m);
    WeekStartInMonth(y, m, 0);
    TabulateAt(WeekStartOf(y, m), |w|);
    WeekStartNext(y, m, |w| - 1);
    WeekStartInMonth(y, m, |w|);
  }

  lemma WeekStartFacts(y: Year, m: Month, i: nat)
    ensures Weekday(WeekStart(y, m, i)) == 0
    ensures NotAfter(WeekStart(y, m, i), LastDay(y, m)) <==> i < WeekCount(y, m)
    ensures i > 0 ==> Ordinal(WeekStart(y, m, i)) == Ordinal(WeekStart(y, m, i - 1)) + 7
  {
    WeekStartInMonth(y, m, i);
    WeekStartOrdinal(y, m, i);
    if i > 0 {
      WeekStartOrdinal(y, m, i - 1);
    }
  }

  /** The two loops of `generate_monthly_planner` that step back to a
      Monday and then collect a start every seven days up to the last day. */
  method EnumerateWeekStarts(y: Year, m: Month) returns (starts: seq<Date>)
    ensures starts == WeekStarts(y, m)
  {
    var firstDay: Date := YMD(y, m, 1);
    var lastDay: Date := YMD(y, m, DaysInMonth(y, m));
    var current := WalkBackToMonday(firstDay);
    starts := [];
    ghost var k: nat := 0;
    FirstWeekStart(y, m);
    while NotAfter(current, lastDay)
      invariant k <= WeekCount(y, m)
      invariant current == WeekStart(y, m, k)
      invariant starts == Tabulate(WeekStartOf(y, m), k)
      decreases WeekCount(y, m) - k
    {
      WeekStartInMonth(y, m, k);
      starts := starts + [current];
      WeekStartNext(y, m, k);
      current := AddDays(current, 7);
      k := k + 1;
    }
    WeekStartInMonth(y, m, k);
  }

  // -------------------------------------------------------------- page list

  function WeeklyEvents(src: Sources, weekStart: Date): seq<EventView>
  {
    Map(EventViewOf, src.eventsBetween(weekStart, WeekEnd(weekStart)))
  }

  function DailyEvents(src: Sources, d: Date): seq<EventView>
  {
    Map(EventViewOf, src.eventsForDay(d))
  }

  function TasksOfDay(src: Sources, d: Date): seq<TaskView>
  {
    DailyTasks(src.tasksForDay(d), src.eventsForDay(d))
  }

  function HeadlinesOfDay(src: Sources, d: Date): seq<DayHeadline>
  {
    DayHeadlines(src.eventsForDay(d))
  }

  /** A weekly page's data: its week start and the week's events. */
  datatype WeekData = WeekData(start: Date, events: seq<EventView>)

  /** A day's data: the date, its events, its tasks and its headlines. */
  datatype DayData = DayData(date: Date, events: seq<EventView>, tasks: seq<TaskView>,
                             headlines: seq<DayHeadline>)

  function WeekDataOf(src: Sources): Date -> WeekData
  {
    (ws: Date) => WeekData(ws, WeeklyEvents(src, ws))
  }

  function DayDataOf(src: Sources): Date -> DayData
  {
    (d: Date) => DayData(d, DailyEvents(src, d), TasksOfDay(src, d), HeadlinesOfDay(src, d))
  }

  /** The first `n` days of month `m`. */
  function DaysUpTo(y: Year, m: Month, n: nat): (r: seq<Date>)
    requires n <= DaysInMonth(y, m)
    ensures |r| == n
  {
    if n == 0 then [] else DaysUpTo(y, m, n - 1) + [YMD(y, m, n)]
  }

  lemma {:induction false} DaysUpToAt(y: Year, m: Month, n: nat)
    requires n <= DaysInMonth(y, m)
    ensures forall i :: 0 <= i < n ==> DaysUpTo(y, m, n)[i] == YMD(y, m, i + 1)
  {
    if n > 0 {
      DaysUpToAt(y, m, n - 1);
    }
  }

  /** The data of the weekly pages of month `m`. */
  ghost function Weeks(src: Sources, y: Year, m: Month): (w: seq<WeekData>)
    ensures |w| == WeekCount(y, m)
  {
    Map(WeekDataOf(src), WeekStarts(y, m))
  }

  /** The data of the day pages of month `m`. */
  function Days(src: Sources, y: Year, m: Month): (d: seq<DayData>)
    ensures |d| == DaysInMonth(y, m)
  {
    Map(DayDataOf(src), DaysUpTo(y, m, DaysInMonth(y, m)))
  }

  /** Four yearly pages, the monthly page, the weekly pages, two pages per
      day and ten notes pages. */
  ghost function PageCount(y: Year, m: Month): nat
  {
    4 + 1 + WeekCount(y, m) + 2 * DaysInMonth(y, m) + 10
  }

  /** Position of the first day page. */
  ghost function DaysFrom(y: Year, m: Month): nat
  {
    5 + WeekCount(y, m)
  }

  /** Position of the first notes page. */
  ghost function NotesFrom(y: Year, m: Month): nat
  {
    DaysFrom(y, m) + 2 * DaysInMonth(y, m)
  }

  /** The page at position `j` (from 0) of a planner for month `m` whose
      yearly pages show `items`, whose weekly pages show `weeks` and whose
      day pages show `days`. */
  function KindAt(y: Year, m: Month, items: seq<HeadlineItem>, weeks: seq<WeekData>,
                  days: seq<DayData>, j: nat): PageKind
  {
    if j < 4 then YearlyOverviewPage(y, j + 1, 3 * j + 1, Some(m), items)
    else if j == 4 then MonthlyOverviewPage(y, m)
    else if j < 5 + |weeks| then WeeklyPage(weeks[j - 5].start, weeks[j - 5].events)
    else if j < 5 + |weeks| + 2 * |days| then DayPageAt(days, j - 5 - |weeks|)
    else NotesPage(j - 5 - |weeks| - 2 * |days| + 1)
  }

  /** The page at offset `k` among the day pages: even offsets are schedule
      pages, odd offsets tasks pages, two per day. */
  function DayPageAt(days: seq<DayData>, k: nat): PageKind
    requires k < 2 * |days|
  {
    var d := days[k / 2];
    if k % 2 == 0 then DailySchedulePage(d.date, d.events)
    else DailyTasksPage(d.date, d.tasks, d.headlines)
  }

  function KindOf(y: Year, m: Month, items: seq<HeadlineItem>, weeks: seq<WeekData>,
                  days: seq<DayData>): nat -> PageKind
  {
    (j: nat) => KindAt(y, m, items, weeks, days, j)
  }

  /** The pages of such a planner, in the order they are appended. */
  function PlannerKinds(y: Year, m: Month, items: seq<HeadlineItem>, weeks: seq<WeekData>,
                        days: seq<DayData>): (kinds: seq<PageKind>)
    ensures |kinds| == 15 + |weeks| + 2 * |days|
  {
    Tabulate(KindOf(y, m, items, weeks, days), 15 + |weeks| + 2 * |days|)
  }

  /** The pages of the planner for month `m`, with the data the data
      processor supplies. */
  ghost function DocumentKinds(src: Sources, y: Year, m: Month): (kinds: seq<PageKind>)
    ensures |kinds| == PageCount(y, m)
  {
    PlannerKinds(y, m, YearlyItems(src, y), Weeks(src, y, m), Days(src, y, m))
  }

  lemma KindsAt(y: Year, m: Month, items: seq<HeadlineItem>, weeks: seq<WeekData>,
                days: seq<DayData>, j: nat)
    requires j < 15 + |weeks| + 2 * |days|
    ensures PlannerKinds(y, m, items, weeks, days)[j] == KindAt(y, m, items, weeks, days, j)
  {
    TabulateAt(KindOf(y, m, items, weeks, days), 15 + |weeks| + 2 * |days|);
  }

  lemma YearlyKind(y: Year, m: Month, items: seq<HeadlineItem>, weeks: seq<WeekData>,
                   days: seq<DayData>, i: nat)
    requires i < 4
    ensures PlannerKinds(y, m, items, weeks, days)[i]
         == YearlyOverviewPage(y, i + 1, 3 * i + 1, Some(m), items)
  {
    KindsAt(y, m, items, weeks, days, i);
  }

  lemma MonthlyKind(y: Year, m: Month, items: seq<HeadlineItem>, weeks: seq<WeekData>,
                    days: seq<DayData>)
    ensures PlannerKinds(y, m, items, weeks, days)[4] == MonthlyOverviewPage(y, m)
  {
    KindsAt(y, m, items, weeks, days, 4);
  }

  lemma WeeklyKind(y: Year, m: Month, items: seq<HeadlineItem>, weeks: seq<WeekData>,
                   days: seq<DayData>, i: nat)
    requires i < |weeks|
    ensures PlannerKinds(y, m, items, weeks, days)[5 + i]
         == WeeklyPage(weeks[i].start, weeks[i].events)
  {
    KindsAt(y, m, items, weeks, days, 5 + i);
  }

  lemma DayKindAt(y: Year, m: Month, items: seq<HeadlineItem>, weeks: seq<WeekData>,
                  days: seq<DayData>, k: nat)
    requires k < 2 * |days|
    ensures PlannerKinds(y, m, items, weeks, days)[5 + |weeks| + k] == DayPageAt(days, k)
  {
    KindsAt(y, m, items, weeks, days, 5 + |weeks| + k);
    assert 5 + |weeks| + k - 5 - |weeks| == k;
  }

  /** Day `i` (from 0) has its schedule page at offset `2 i` and its tasks
      page right after. */
  lemma DayPages(days: seq<DayData>, i: nat)
    requires i < |days|
    ensures DayPageAt(days, 2 * i) == DailySchedulePage(days[i].date, days[i].events)
    ensures DayPageAt(days, 2 * i + 1)
         == DailyTasksPage(days[i].date, days[i].tasks, days[i].headlines)
  {
    assert (2 * i) / 2 == i && (2 * i) % 2 == 0;
    assert (2 * i + 1) / 2 == i && (2 * i + 1) % 2 == 1;
  }

  lemma NotesKind(y: Year, m: Month, items: seq<HeadlineItem>, weeks: seq<WeekData>,
                  days: seq<DayData>, i: nat)
    requires i < 10
    ensures PlannerKinds(y, m, items, weeks, days)[5 + |weeks| + 2 * |days| + i] == NotesPage(i + 1)
  {
    KindsAt(y, m, items, weeks, days, 5 + |weeks| + 2 * |days| + i);
  }

  // ---------------------------------------------------------- page objects

  predicate Distinct(pages: seq<PlannerPage>)
  {
    forall i, j :: 0 <= i < j < |pages| ==> pages[i] != pages[j]
  }

  /** The pages built so far are distinct, hold the first kinds of `kinds`,
      and have no page number and no links yet. */
  ghost predicate Unrendered(pages: seq<PlannerPage>, kinds: seq<PageKind>)
    reads pages
  {
    |pages| <= |kinds| && Distinct(pages)
    && forall j :: 0 <= j < |pages| ==>
         pages[j].kind == kinds[j] && pages[j].pageNumber == None && pages[j].links == []
  }

  /** `pages.append(…)` of a newly constructed page. */
  method AddPage(pages: seq<PlannerPage>, ghost kinds: seq<PageKind>, kind: PageKind)
    returns (more: seq<PlannerPage>)
    requires Unrendered(pages, kinds) && |pages| < |kinds| && kind == kinds[|pages|]
    ensures Unrendered(more, kinds) && |more| == |pages| + 1
    ensures more == pages + [more[|pages|]] && fresh(more[|pages|])
  {
    var page := new PlannerPage(kind);
    more := pages + [page];
  }

  /** The four yearly pages, with start months 1, 4, 7 and 10 and month
      `m` marked as the current one, all showing the year's items. */
  method AddYearlyPages(src: Sources, y: Year, m: Month, pages: seq<PlannerPage>,
                        ghost kinds: seq<PageKind>) returns (more: seq<PlannerPage>)
    requires Unrendered(pages, kinds) && |pages| == 0 && |kinds| >= 4
    requires forall i :: 0 <= i < 4 ==>
               kinds[i] == YearlyOverviewPage(y, i + 1, 3 * i + 1, Some(m), YearlyItems(src, y))
    ensures Unrendered(more, kinds) && |more| == 4
    ensures forall p :: p in more ==> fresh(p)
  {
    more := pages;
    var yearlyItems := GetYearlyOverviewItems(src, y);
    for i := 0 to 4
      invariant Unrendered(more, kinds) && |more| == i
      invariant forall p :: p in more ==> fresh(p)
    {
      var startMonth := i * 3 + 1;
      more := AddPage(more, kinds, YearlyOverviewPage(y, i + 1, startMonth, Some(m), yearlyItems));
    }
  }

  /** The weekly page of the week starting on `weekStart`, with the events
      of that week. */
  method AddWeeklyPage(src: Sources, weekStart: Date, pages: seq<PlannerPage>,
                       ghost kinds: seq<PageKind>, ghost week: WeekData, ghost at: nat)
    returns (more: seq<PlannerPage>)
    requires Unrendered(pages, kinds) && |pages| == at && at < |kinds|
    requires week == WeekData(weekStart, WeeklyEvents(src, weekStart))
    requires kinds[at] == WeeklyPage(week.start, week.events)
    ensures Unrendered(more, kinds) && |more| == |pages| + 1
    ensures forall p :: p in more ==> p in pages || fresh(p)
  {
    var weeklyEvents := GetWeeklyEvents(src, weekStart);
    more := AddPage(pages, kinds, WeeklyPage(weekStart, weeklyEvents));
  }

  /** One weekly page per week start; `weeks` is the data those pages show. */
  method AddWeeklyPages(src: Sources, weekStarts: seq<Date>, pages: seq<PlannerPage>,
                        ghost kinds: seq<PageKind>, ghost weeks: seq<WeekData>)
    returns (more: seq<PlannerPage>)
    requires Unrendered(pages, kinds) && |pages| == 5 && |kinds| >= 5 + |weeks|
    requires |weeks| == |weekStarts|
    requires forall i :: 0 <= i < |weeks| ==>
               weeks[i] == WeekData(weekStarts[i], WeeklyEvents(src, weekStarts[i]))
    requires forall i :: 0 <= i < |weeks| ==> kinds[5 + i] == WeeklyPage(weeks[i].start, weeks[i].events)
    ensures Unrendered(more, kinds) && |more| == 5 + |weeks|
    ensures forall p :: p in more ==> p in pages || fresh(p)
  {
    more := pages;
    for i := 0 to |weekStarts|
      invariant Unrendered(more, kinds) && |more| == 5 + i
      invariant forall p :: p in more ==> p in pages || fresh(p)
    {
      more := AddWeeklyPage(src, weekStarts[i], more, kinds, weeks[i], 5 + i);
    }
  }

  /** The schedule page and then the tasks page of day `d`, each with the
      data it shows. */
  method AddDayPair(src: Sources, d: Date, pages: seq<PlannerPage>, ghost kinds: seq<PageKind>,
                    ghost day: DayData, ghost at: nat)
    returns (more: seq<PlannerPage>)
    requires Unrendered(pages, kinds) && |pages| == at && at + 1 < |kinds|
    requires day == DayDataOf(src)(d)
    requires kinds[at] == DailySchedulePage(day.date, day.events)
    requires kinds[at + 1] == DailyTasksPage(day.date, day.tasks, day.headlines)
    ensures Unrendered(more, kinds) && |more| == |pages| + 2
    ensures forall p :: p in more ==> p in pages || fresh(p)
  {
    var dailyEvents := GetDailyEvents(src, d);
    var dailyTasks := GetDailyTasks(src, d);
    var headlineEvents := GetHeadlineEventsForDay(src, d);
    more := AddPage(pages, kinds, DailySchedulePage(d, dailyEvents));
    more := AddPage(more, kinds, DailyTasksPage(d, dailyTasks, headlineEvents));
  }

  /** The two pages of the `i`-th day of the month, as `AddDayPair` needs them. */
  lemma DayPairKinds(src: Sources, y: Year, m: Month, kinds: seq<PageKind>,
                     days: seq<DayData>, from: nat, i: nat)
    requires i < |days| == DaysInMonth(y, m) && from + 2 * |days| <= |kinds|
    requires forall i :: 0 <= i < |days| ==> days[i] == DayDataOf(src)(YMD(y, m, i + 1))
    requires forall k :: 0 <= k < 2 * |days| ==> kinds[from + k] == DayPageAt(days, k)
    ensures days[i] == DayDataOf(src)(YMD(y, m, i + 1))
    ensures kinds[from + 2 * i] == DailySchedulePage(days[i].date, days[i].events)
    ensures kinds[from + 2 * i + 1] == DailyTasksPage(days[i].date, days[i].tasks, days[i].headlines)
  {
    DayPages(days, i);
    assert kinds[from + 2 * i] == DayPageAt(days, 2 * i);
    assert kinds[from + (2 * i + 1)] == DayPageAt(days, 2 * i + 1);
  }

  /** For each day of the month, its schedule page and then its tasks page;
      `days` is the data those pages show. */
  method AddDayPages(src: Sources, y: Year, m: Month, pages: seq<PlannerPage>,
                     ghost kinds: seq<PageKind>, ghost days: seq<DayData>, ghost from: nat)
    returns (more: seq<PlannerPage>)
    requires Unrendered(pages, kinds) && |pages| == from && from + 2 * |days| <= |kinds|
    requires |days| == DaysInMonth(y, m)
    requires forall i :: 0 <= i < |days| ==> days[i] == DayDataOf(src)(YMD(y, m, i + 1))
    requires forall k :: 0 <= k < 2 * |days| ==> kinds[from + k] == DayPageAt(days, k)
    ensures Unrendered(more, kinds) && |more| == |pages| + 2 * |days|
    ensures forall p :: p in more ==> p in pages || fresh(p)
  {
    more := pages;
    var daysInMonth := DaysInMonth(y, m);
    for day := 1 to daysInMonth + 1
      invariant Unrendered(more, kinds) && |more| == |pages| + 2 * (day - 1)
      invariant forall p :: p in more ==> p in pages || fresh(p)
    {
      var dayDate: Date := YMD(y, m, day);
      DayPairKinds(src, y, m, kinds, days, from, day - 1);
      more := AddDayPair(src, dayDate, more, kinds, days[day - 1], from + 2 * (day - 1));
    }
  }

  /** The ten notes pages, numbered 1 to 10. */
  method AddNotesPages(pages: seq<PlannerPage>, ghost kinds: seq<PageKind>, ghost from: nat)
    returns (more: seq<PlannerPage>)
    requires Unrendered(pages, kinds) && |pages| == from && from + 10 == |kinds|
    requires forall j :: from <= j < from + 10 ==> kinds[j] == NotesPage(j - from + 1)
    ensures Unrendered(more, kinds) && |more| == |kinds|
    ensures forall p :: p in more ==> p in pages || fresh(p)
  {
    more := pages;
    for i := 0 to 10
      invariant Unrendered(more, kinds) && |more| == |pages| + i
      invariant forall p :: p in more ==> p in pages || fresh(p)
    {
      more := AddPage(more, kinds, NotesPage(i + 1));
    }
  }

  /** A planner's page list, section by section. */
  lemma Sections(y: Year, m: Month, items: seq<HeadlineItem>, weeks: seq<WeekData>,
                 days: seq<DayData>)
    requires |weeks| == WeekCount(y, m) && |days| == DaysInMonth(y, m)
    ensures forall i :: 0 <= i < 4 ==>
              PlannerKinds(y, m, items, weeks, days)[i]
              == YearlyOverviewPage(y, i + 1, 3 * i + 1, Some(m), items)
    ensures PlannerKinds(y, m, items, weeks, days)[4] == MonthlyOverviewPage(y, m)
    ensures forall i :: 0 <= i < |weeks| ==>
              PlannerKinds(y, m, items, weeks, days)[5 + i]
              == WeeklyPage(weeks[i].start, weeks[i].events)
    ensures forall k :: 0 <= k < 2 * |days| ==>
              PlannerKinds(y, m, items, weeks, days)[DaysFrom(y, m) + k] == DayPageAt(days, k)
    ensures forall j :: NotesFrom(y, m) <= j < NotesFrom(y, m) + 10 ==>
              PlannerKinds(y, m, items, weeks, days)[j] == NotesPage(j - NotesFrom(y, m) + 1)
  {
    forall i | 0 <= i < 4 {
      YearlyKind(y, m, items, weeks, days, i);
    }
    MonthlyKind(y, m, items, weeks, days);
    forall i | 0 <= i < |weeks| {
      WeeklyKind(y, m, items, weeks, days, i);
    }
    forall k | 0 <= k < 2 * |days| {
      DayKindAt(y, m, items, weeks, days, k);
    }
    forall j | NotesFrom(y, m) <= j < NotesFrom(y, m) + 10 {
      KindsAt(y, m, items, weeks, days, j);
    }
  }

  /** The data of the weekly pages, week by week. */
  lemma WeekDataAt(src: Sources, weekStarts: seq<Date>)
    ensures forall i :: 0 <= i < |weekStarts| ==>
              Map(WeekDataOf(src), weekStarts)[i]
              == WeekData(weekStarts[i], WeeklyEvents(src, weekStarts[i]))
  {
  }

  /** The data of the day pages, day by day. */
  lemma DaysAre(src: Sources, y: Year, m: Month)
    ensures forall i :: 0 <= i < DaysInMonth(y, m) ==>
              Days(src, y, m)[i] == DayDataOf(src)(YMD(y, m, i + 1))
  {
    DaysUpToAt(y, m, DaysInMonth(y, m));
  }

  /** The pages before the day pages: four yearly pages, the monthly page
      and one weekly page per week start. */
  method AddFrontPages(src: Sources, y: Year, m: Month, weekStarts: seq<Date>,
                       ghost kinds: seq<PageKind>, ghost weeks: seq<WeekData>)
    returns (pages: seq<PlannerPage>)
    requires |kinds| >= 5 + |weeks|
    requires forall i :: 0 <= i < 4 ==>
               kinds[i] == YearlyOverviewPage(y, i + 1, 3 * i + 1, Some(m), YearlyItems(src, y))
    requires kinds[4] == MonthlyOverviewPage(y, m)
    requires |weeks| == |weekStarts|
    requires forall i :: 0 <= i < |weeks| ==>
               weeks[i] == WeekData(weekStarts[i], WeeklyEvents(src, weekStarts[i]))
    requires forall i :: 0 <= i < |weeks| ==> kinds[5 + i] == WeeklyPage(weeks[i].start, weeks[i].events)
    ensures Unrendered(pages, kinds) && |pages| == 5 + |weeks|
    ensures forall p :: p in pages ==> fresh(p)
  {
    pages := AddYearlyPages(src, y, m, [], kinds);
    pages := AddPage(pages, kinds, MonthlyOverviewPage(y, m));
    assert forall p :: p in pages ==> fresh(p);
    pages := AddWeeklyPages(src, weekStarts, pages, kinds, weeks);
  }

  /** The pages from the day pages on: two per day, then ten notes pages. */
  method AddBackPages(src: Sources, y: Year, m: Month, pages: seq<PlannerPage>,
                      ghost kinds: seq<PageKind>, ghost days: seq<DayData>)
    returns (more: seq<PlannerPage>)
    requires Unrendered(pages, kinds) && |pages| == DaysFrom(y, m) && |kinds| == NotesFrom(y, m) + 10
    requires days == Days(src, y, m)
    requires forall k :: 0 <= k < 2 * |days| ==> kinds[DaysFrom(y, m) + k] == DayPageAt(days, k)
    requires forall j :: NotesFrom(y, m) <= j < NotesFrom(y, m) + 10 ==>
               kinds[j] == NotesPage(j - NotesFrom(y, m) + 1)
    ensures Unrendered(more, kinds) && |more| == |kinds|
    ensures forall p :: p in more ==> p in pages || fresh(p)
  {
    DaysAre(src, y, m);
    more := AddDayPages(src, y, m, pages, kinds, days, DaysFrom(y, m));
    more := AddNotesPages(more, kinds, NotesFrom(y, m));
  }

  /** The part of `generate_monthly_planner` that builds `pages`: the yearly
      pages, the monthly page, the weekly pages, the day pages and the
      notes pages, in that order. */
  method BuildPages(src: Sources, y: Year, m: Month) returns (pages: seq<PlannerPage>)
    ensures Unrendered(pages, DocumentKinds(src, y, m)) && |pages| == PageCount(y, m)
    ensures forall p :: p in pages ==> fresh(p)
  {
    var weekStarts := EnumerateWeekStarts(y, m);
    ghost var items, weeks, days := YearlyItems(src, y), Map(WeekDataOf(src), weekStarts), Days(src, y, m);
    ghost var kinds := PlannerKinds(y, m, items, weeks, days);
    assert kinds == DocumentKinds(src, y, m);
    WeekDataAt(src, weekStarts);
    Sections(y, m, items, weeks, days);
    pages := AddFrontPages(src, y, m, weekStarts, kinds, weeks);
    pages := AddBackPages(src, y, m, pages, kinds, days);
  }

  // ------------------------------------------------------------- numbering

  /** Every page is numbered with its position counted from 1; kinds as in
      `kinds`, no links yet. */
  ghost predicate Numbered(pages: seq<PlannerPage>, kinds: seq<PageKind>)
    reads pages
  {
    |pages| == |kinds| && Distinct(pages)
    && forall j :: 0 <= j < |pages| ==>
         pages[j].kind == kinds[j] && pages[j].pageNumber == Some(j + 1) && pages[j].links == []
  }

  /** The numbering loop of `generate_monthly_planner`. */
  method NumberPages(pages: seq<PlannerPage>, ghost kinds: seq<PageKind>)
    requires Unrendered(pages, kinds) && |pages| == |kinds|
    modifies set p | p in pages
    ensures Numbered(pages, kinds)
  {
    for i := 0 to |pages|
      invariant forall j :: 0 <= j < |pages| ==> pages[j].links == [] && pages[j].kind == kinds[j]
      invariant forall j :: 0 <= j < i ==> pages[j].pageNumber == Some(j + 1)
    {
      pages[i].pageNumber := Some(i + 1);
    }
  }

  // ---------------------------------------------------------- bookmark map

  /** The dictionary built from the bookmark names and numbers of pages of
      kinds `kinds` numbered from 1; a later page with the same name
      overwrites an earlier one. */
  function BookmarkMap(kinds: seq<PageKind>): map<Anchor, nat>
  {
    LastPositions(Map(BookmarkOf, kinds))
  }

  /** The dictionary comprehension of `generate_monthly_planner`. */
  method BuildBookmarkMap(pages: seq<PlannerPage>, ghost kinds: seq<PageKind>)
    returns (bookmarks: map<Anchor, nat>)
    requires Numbered(pages, kinds)
    ensures bookmarks == BookmarkMap(kinds)
  {
    bookmarks := map[];
    for i := 0 to |pages|
      invariant bookmarks == LastPositions(Map(BookmarkOf, kinds[..i]))
    {
      var page := pages[i];
      assert kinds[..i + 1][..i] == kinds[..i];
      ghost var names := Map(BookmarkOf, kinds[..i + 1]);
      assert names[..i] == Map(BookmarkOf, kinds[..i]);
      bookmarks := bookmarks[page.bookmarkName := page.pageNumber.value];
    }
    assert kinds[..|pages|] == kinds;
  }

  /** A name is a key exactly when some page carries it. */
  lemma BookmarkMapKeys(kinds: seq<PageKind>, a: Anchor)
    ensures a in BookmarkMap(kinds) <==> exists j :: 0 <= j < |kinds| && BookmarkOf(kinds[j]) == a
  {
    var names := Map(BookmarkOf, kinds);
    LastPositionsKeys(names, a);
    if a in names {
      var j :| 0 <= j < |names| && names[j] == a;
    }
  }

  /** A key maps to the number of the last page that carries it. */
  lemma BookmarkMapLastWins(kinds: seq<PageKind>, a: Anchor)
    requires a in BookmarkMap(kinds)
    ensures var n := BookmarkMap(kinds)[a];
            1 <= n <= |kinds| && BookmarkOf(kinds[n - 1]) == a
            && forall j :: n <= j < |kinds| ==> BookmarkOf(kinds[j]) != a
  {
    LastPositionsValue(Map(BookmarkOf, kinds), a);
  }

  /** The page at position `p` is the last one with its name, so the name
      leads to its number `p + 1`. */
  lemma BookmarkAt(kinds: seq<PageKind>, p: nat)
    requires p < |kinds|
    requires forall j :: p < j < |kinds| ==> BookmarkOf(kinds[j]) != BookmarkOf(kinds[p])
    ensures BookmarkOf(kinds[p]) in BookmarkMap(kinds)
    ensures BookmarkMap(kinds)[BookmarkOf(kinds[p])] == p + 1
  {
    BookmarkMapKeys(kinds, BookmarkOf(kinds[p]));
    BookmarkMapLastWins(kinds, BookmarkOf(kinds[p]));
  }

  // ------------------------------------------------------------ link pass

  /** `c.linkAbsolute('', dest, rect)` for a link. */
  function LinkOp(l: Link): DrawOp
  {
    LinkAbsolute(l.dest, l.rect)
  }

  /** The link's destination is a key of the bookmark map. */
  function Resolvable(bookmarks: map<Anchor, nat>): Link -> bool
  {
    (l: Link) => l.dest in bookmarks
  }

  /** The annotations the link loop draws for `links`: those whose
      destination is a known bookmark, in order. */
  function ResolvedLinkOps(bookmarks: map<Anchor, nat>, links: seq<Link>): seq<DrawOp>
  {
    FilterMap(Resolvable(bookmarks), LinkOp, links)
  }

  /** The link loop keeps exactly the links to known bookmarks, in their
      order, and drops the others. */
  lemma ResolvedLinkOpsAre(bookmarks: map<Anchor, nat>, links: seq<Link>)
    ensures ResolvedLinkOps(bookmarks, links) == Map(LinkOp, Filter(Resolvable(bookmarks), links))
    ensures forall l :: l in Filter(Resolvable(bookmarks), links) <==> l in links && l.dest in bookmarks
  {
    FilterMapIsMapOfFilter(Resolvable(bookmarks), LinkOp, links);
    forall l
      ensures l in Filter(Resolvable(bookmarks), links) <==> l in links && l.dest in bookmarks
    {
      FilterMembership(Resolvable(bookmarks), links, l);
    }
  }

  /** The inner link loop of `generate_monthly_planner`. */
  method EmitLinks(c: Canvas, links: seq<Link>, bookmarks: map<Anchor, nat>)
    modifies c`ops
    ensures c.ops == old(c.ops) + ResolvedLinkOps(bookmarks, links)
  {
    for i := 0 to |links|
      invariant c.ops == old(c.ops) + FilterMap(Resolvable(bookmarks), LinkOp, links[..i])
    {
      var link := links[i];
      FilterMapStep(Resolvable(bookmarks), LinkOp, links, i);
      if link.dest in bookmarks {
        var destPage := bookmarks[link.dest];
        c.Draw(LinkAbsolute(link.dest, link.rect));
        AppendAssoc(old(c.ops), FilterMap(Resolvable(bookmarks), LinkOp, links[..i]), [LinkOp(link)]);
      }
    }
    assert links[..|links|] == links;
  }

  // -------------------------------------------------------------- rendering

  /** What one page leaves on the canvas: its drawing, the annotations of
      its resolvable links and the page break. */
  ghost function PageOutput(bookmarks: map<Anchor, nat>, kind: PageKind): seq<DrawOp>
  {
    PageOps(kind) + ResolvedLinkOps(bookmarks, PageLinks(kind)) + [ShowPage]
  }

  /** What the render loop leaves on the canvas for pages of kinds `kinds`. */
  ghost function DocumentOps(bookmarks: map<Anchor, nat>, kinds: seq<PageKind>): seq<DrawOp>
  {
    if kinds == [] then []
    else DocumentOps(bookmarks, kinds[..|kinds| - 1]) + PageOutput(bookmarks, kinds[|kinds| - 1])
  }

  /** Rendering one more page appends that page's output. */
  lemma DocumentOpsSnoc(bookmarks: map<Anchor, nat>, kinds: seq<PageKind>, i: nat)
    requires i < |kinds|
    ensures DocumentOps(bookmarks, kinds[..i + 1])
         == DocumentOps(bookmarks, kinds[..i]) + PageOutput(bookmarks, kinds[i])
  {
    assert kinds[..i + 1][..i] == kinds[..i];
  }

  /** One iteration of the render loop: `render`, the links, `showPage`. */
  method RenderPage(c: Canvas, page: PlannerPage, bookmarks: map<Anchor, nat>)
    requires page.links == []
    modifies page`links, c`ops
    ensures page.links == PageLinks(page.kind)
    ensures c.ops == old(c.ops) + PageOutput(bookmarks, page.kind)
  {
    page.Render(c);
    ghost var drawn := c.ops;
    EmitLinks(c, page.links, bookmarks);
    c.Draw(ShowPage);
    AppendAssoc(old(c.ops), PageOps(page.kind), ResolvedLinkOps(bookmarks, page.links));
    AppendAssoc(old(c.ops), PageOps(page.kind) + ResolvedLinkOps(bookmarks, page.links), [ShowPage]);
  }

  /** The first `i` pages are rendered: numbered, with the links their kind
      asks for; the others are numbered and have no links yet. */
  ghost predicate RenderedUpTo(pages: seq<PlannerPage>, kinds: seq<PageKind>, i: nat)
    reads pages
  {
    |pages| == |kinds| && Distinct(pages)
    && forall j :: 0 <= j < |pages| ==>
         pages[j].kind == kinds[j] && pages[j].pageNumber == Some(j + 1)
         && pages[j].links == (if j < i then PageLinks(kinds[j]) else [])
  }

  /** The render loop's step for page `i`. */
  method RenderNext(c: Canvas, pages: seq<PlannerPage>, ghost kinds: seq<PageKind>,
                    bookmarks: map<Anchor, nat>, i: nat)
    requires RenderedUpTo(pages, kinds, i) && i < |pages|
    modifies c`ops, pages[i]
    ensures RenderedUpTo(pages, kinds, i + 1)
    ensures c.ops == old(c.ops) + PageOutput(bookmarks, kinds[i])
  {
    var page := pages[i];
    RenderPage(c, page, bookmarks);
    forall j | 0 <= j < |pages| && j != i
      ensures pages[j].links == old(pages[j].links)
    {
      assert pages[j] != page;
    }
  }

  /** The render loop of `generate_monthly_planner`. */
  method RenderPages(c: Canvas, pages: seq<PlannerPage>, ghost kinds: seq<PageKind>,
                     bookmarks: map<Anchor, nat>)
    requires Numbered(pages, kinds)
    modifies c`ops, set p | p in pages
    ensures c.ops == old(c.ops) + DocumentOps(bookmarks, kinds)
    ensures forall j :: 0 <= j < |pages| ==>
              pages[j].pageNumber == Some(j + 1) && pages[j].links == PageLinks(kinds[j])
  {
    for i := 0 to |pages|
      invariant c.ops == old(c.ops) + DocumentOps(bookmarks, kinds[..i])
      invariant RenderedUpTo(pages, kinds, i)
    {
      RenderNext(c, pages, kinds, bookmarks, i);
      DocumentOpsSnoc(bookmarks, kinds, i);
      AppendAssoc(old(c.ops), DocumentOps(bookmarks, kinds[..i]), PageOutput(bookmarks, kinds[i]));
    }
    assert kinds[..|pages|] == kinds;
  }

  /** The second half of `generate_monthly_planner`: number the pages,
      collect the bookmark map, then render every page onto the canvas. */
  method NumberAndRender(c: Canvas, pages: seq<PlannerPage>, ghost kinds: seq<PageKind>)
    requires Unrendered(pages, kinds) && |pages| == |kinds|
    modifies c`ops, set p | p in pages
    ensures forall j :: 0 <= j < |pages| ==>
              pages[j].kind == kinds[j] && pages[j].pageNumber == Some(j + 1)
              && pages[j].links == PageLinks(pages[j].kind)
    ensures c.ops == old(c.ops) + DocumentOps(BookmarkMap(kinds), kinds)
  {
    NumberPages(pages, kinds);
    var bookmarkToPage := BuildBookmarkMap(pages, kinds);
    RenderPages(c, pages, kinds, bookmarkToPage);
  }

  /** `generate_monthly_planner` without the file name and the final save:
      the pages in order, numbered from 1, and the canvas holding, page by
      page, each drawing, its resolvable links and a page break. */
  method GenerateMonthlyPlanner(src: Sources, year: Year, month: Month)
    returns (c: Canvas, pages: seq<PlannerPage>)
    ensures |pages| == PageCount(year, month) && Distinct(pages)
    ensures forall j :: 0 <= j < |pages| ==>
              pages[j].kind == DocumentKinds(src, year, month)[j]
              && pages[j].pageNumber == Some(j + 1)
              && pages[j].links == PageLinks(pages[j].kind)
    ensures c.ops == DocumentOps(BookmarkMap(DocumentKinds(src, year, month)),
                                 DocumentKinds(src, year, month))
  {
    c := new Canvas();
    pages := BuildPages(src, year, month);
    NumberAndRender(c, pages, DocumentKinds(src, year, month));
  }

  // ------------------------------------------------- where the links lead

  /** Page data of the shape the generator builds: one week per row of the
      month's grid, starting at the week starts, and one day per day of the
      month, in order. */
  ghost predicate Shaped(y: Year, m: Month, weeks: seq<WeekData>, days: seq<DayData>)
  {
    |weeks| == WeekCount(y, m) && |days| == DaysInMonth(y, m)
    && (forall i :: 0 <= i < |weeks| ==> weeks[i].start == WeekStart(y, m, i))
    && (forall i :: 0 <= i < |days| ==> days[i].date == YMD(y, m, i + 1))
  }

  /** Which section of the page list carries which kind of bookmark name. */
  lemma AnchorAt(y: Year, m: Month, items: seq<HeadlineItem>, weeks: seq<WeekData>,
                 days: seq<DayData>, j: nat)
    requires j < 15 + |weeks| + 2 * |days|
    ensures var a := BookmarkOf(PlannerKinds(y, m, items, weeks, days)[j]);
            (a.YearAnchor? <==> j < 4) && (a.MonthAnchor? <==> j == 4)
            && (a.WeekAnchor? <==> 5 <= j < 5 + |weeks|)
            && (a.DayAnchor? <==> 5 + |weeks| <= j < 5 + |weeks| + 2 * |days|)
            && (a.NotesAnchor? <==> 5 + |weeks| + 2 * |days| <= j)
  {
    KindsAt(y, m, items, weeks, days, j);
    BookmarkKinds(PlannerKinds(y, m, items, weeks, days)[j]);
  }

  /** 'notes' leads to the last page, the tenth notes page. */
  lemma NotesBookmark(y: Year, m: Month, items: seq<HeadlineItem>, weeks: seq<WeekData>,
                      days: seq<DayData>)
    ensures var kinds := PlannerKinds(y, m, items, weeks, days);
            NotesAnchor in BookmarkMap(kinds) && BookmarkMap(kinds)[NotesAnchor] == |kinds|
  {
    var kinds := PlannerKinds(y, m, items, weeks, days);
    NotesKind(y, m, items, weeks, days, 9);
    BookmarkAt(kinds, |kinds| - 1);
  }

  /** The month's name leads to the monthly page, page 5. */
  lemma MonthBookmark(y: Year, m: Month, items: seq<HeadlineItem>, weeks: seq<WeekData>,
                      days: seq<DayData>)
    ensures var kinds := PlannerKinds(y, m, items, weeks, days);
            MonthAnchor(y, m) in BookmarkMap(kinds) && BookmarkMap(kinds)[MonthAnchor(y, m)] == 5
  {
    var kinds := PlannerKinds(y, m, items, weeks, days);
    MonthlyKind(y, m, items, weeks, days);
    forall j | 4 < j < |kinds|
      ensures BookmarkOf(kinds[j]) != BookmarkOf(kinds[4])
    {
      AnchorAt(y, m, items, weeks, days, j);
    }
    BookmarkAt(kinds, 4);
  }

  /** The name of quarter `q` leads to the `q`-th yearly page, page `q`. */
  lemma YearBookmark(y: Year, m: Month, items: seq<HeadlineItem>, weeks: seq<WeekData>,
                     days: seq<DayData>, q: nat)
    requires 1 <= q <= 4
    ensures var kinds := PlannerKinds(y, m, items, weeks, days);
            YearAnchor(y, q) in BookmarkMap(kinds) && BookmarkMap(kinds)[YearAnchor(y, q)] == q
  {
    var kinds := PlannerKinds(y, m, items, weeks, days);
    YearlyKind(y, m, items, weeks, days, q - 1);
    forall j | q - 1 < j < |kinds|
      ensures BookmarkOf(kinds[j]) != BookmarkOf(kinds[q - 1])
    {
      AnchorAt(y, m, items, weeks, days, j);
      if j < 4 {
        YearlyKind(y, m, items, weeks, days, j);
      }
    }
    BookmarkAt(kinds, q - 1);
  }

  /** The position among the day pages of section `s` of day `v`. */
  function DayOffset(v: nat, s: Section): nat
    requires v >= 1
  {
    2 * (v - 1) + (if s == Schedule then 0 else 1)
  }

  /** Both pages of a day ask for the header links of that day. */
  lemma DayPageLinks(days: seq<DayData>, k: nat)
    requires k < 2 * |days|
    ensures PageLinks(DayPageAt(days, k)) == HeaderLinks(days[k / 2].date)
  {
  }

  /** The schedule and tasks names of day `v` lead to that day's two pages. */
  lemma DayBookmark(y: Year, m: Month, items: seq<HeadlineItem>, weeks: seq<WeekData>,
                    days: seq<DayData>, v: nat, s: Section)
    requires Shaped(y, m, weeks, days) && 1 <= v <= DaysInMonth(y, m)
    ensures var kinds := PlannerKinds(y, m, items, weeks, days);
            DayAnchor(YMD(y, m, v), s) in BookmarkMap(kinds)
            && BookmarkMap(kinds)[DayAnchor(YMD(y, m, v), s)] == DaysFrom(y, m) + DayOffset(v, s) + 1
  {
    var kinds := PlannerKinds(y, m, items, weeks, days);
    var k := DayOffset(v, s);
    DayPages(days, v - 1);
    DayKindAt(y, m, items, weeks, days, k);
    var p := 5 + |weeks| + k;
    assert BookmarkOf(kinds[p]) == DayAnchor(YMD(y, m, v), s);
    forall j | p < j < |kinds|
      ensures BookmarkOf(kinds[j]) != BookmarkOf(kinds[p])
    {
      if j < 5 + |weeks| + 2 * |days| {
        var k' := j - 5 - |weeks|;
        DayKindAt(y, m, items, weeks, days, k');
        assert 5 + |weeks| + k' == j;
        assert k' / 2 + 1 > v || (k' / 2 + 1 == v && k' % 2 == 1 && s == Schedule);
      } else {
        AnchorAt(y, m, items, weeks, days, j);
      }
    }
    BookmarkAt(kinds, p);
  }

  /** A yearly page's links are the schedule links of the current month's
      days, and each leads to a page. */
  lemma YearlyLinksResolve(y: Year, m: Month, items: seq<HeadlineItem>, weeks: seq<WeekData>,
                           days: seq<DayData>, i: nat, l: Link)
    requires Shaped(y, m, weeks, days) && i < 4
    requires l in PageLinks(PlannerKinds(y, m, items, weeks, days)[i])
    ensures l.dest in BookmarkMap(PlannerKinds(y, m, items, weeks, days))
  {
    YearlyKind(y, m, items, weeks, days, i);
    var start := 3 * i + 1;
    YearlyLinksOnlyCurrentMonth(y, start, Some(m));
    if start <= m < start + YearColumnCount(start) {
      YearlyLinksCoverCurrentMonth(y, start, m);
      var links := YearColumnsLinks(y, start, Some(m));
      var n :| 0 <= n < |links| && links[n] == l;
      DayBookmark(y, m, items, weeks, days, n + 1, Schedule);
    }
  }

  /** The monthly page's day links each lead to that day's schedule page. */
  lemma MonthlyLinksResolve(y: Year, m: Month, items: seq<HeadlineItem>, weeks: seq<WeekData>,
                            days: seq<DayData>, l: Link)
    requires Shaped(y, m, weeks, days)
    requires l in MonthDayLinks(y, m, DaysInMonth(y, m))
    ensures l.dest in BookmarkMap(PlannerKinds(y, m, items, weeks, days))
  {
    var links := MonthDayLinks(y, m, DaysInMonth(y, m));
    MonthDayLinksAt(y, m, DaysInMonth(y, m));
    var n :| 0 <= n < |links| && links[n] == l;
    DayBookmark(y, m, items, weeks, days, n + 1, Schedule);
  }

  /** The header links of a day page lead to the monthly page, the yearly
      page of the month's quarter and the notes. */
  lemma HeaderLinksResolve(y: Year, m: Month, items: seq<HeadlineItem>, weeks: seq<WeekData>,
                           days: seq<DayData>, k: nat, l: Link)
    requires Shaped(y, m, weeks, days) && k < 2 * |days|
    requires l in PageLinks(PlannerKinds(y, m, items, weeks, days)[5 + |weeks| + k])
    ensures l.dest in BookmarkMap(PlannerKinds(y, m, items, weeks, days))
  {
    DayKindAt(y, m, items, weeks, days, k);
    DayPageLinks(days, k);
    HeaderLinksOfMonthResolve(y, m, items, weeks, days, days[k / 2].date, l);
  }

  /** The header links of a day of month `m` lead to pages. */
  lemma HeaderLinksOfMonthResolve(y: Year, m: Month, items: seq<HeadlineItem>, weeks: seq<WeekData>,
                                  days: seq<DayData>, d: Date, l: Link)
    requires d.year == y && d.month == m && l in HeaderLinks(d)
    ensures l.dest in BookmarkMap(PlannerKinds(y, m, items, weeks, days))
  {
    MonthBookmark(y, m, items, weeks, days);
    YearBookmark(y, m, items, weeks, days, Quarter(m));
    NotesBookmark(y, m, items, weeks, days);
  }

  /** A weekly page's one link, to `notes`, resolves. */
  lemma WeeklyLinksResolve(y: Year, m: Month, items: seq<HeadlineItem>, weeks: seq<WeekData>,
                           days: seq<DayData>, j: nat, l: Link)
    requires 5 <= j < 5 + |weeks|
    requires l in PageLinks(PlannerKinds(y, m, items, weeks, days)[j])
    ensures l.dest in BookmarkMap(PlannerKinds(y, m, items, weeks, days))
  {
    var kinds := PlannerKinds(y, m, items, weeks, days);
    WeeklyKind(y, m, items, weeks, days, j - 5);
    assert kinds[j] == WeeklyPage(weeks[j - 5].start, weeks[j - 5].events);
    assert l.dest == NotesAnchor;
    NotesBookmark(y, m, items, weeks, days);
  }

  /** The header links of a day page resolve. */
  lemma DayPageLinksResolve(y: Year, m: Month, items: seq<HeadlineItem>, weeks: seq<WeekData>,
                            days: seq<DayData>, j: nat, l: Link)
    requires Shaped(y, m, weeks, days) && 5 + |weeks| <= j < 5 + |weeks| + 2 * |days|
    requires l in PageLinks(PlannerKinds(y, m, items, weeks, days)[j])
    ensures l.dest in BookmarkMap(PlannerKinds(y, m, items, weeks, days))
  {
    assert 5 + |weeks| + (j - 5 - |weeks|) == j;
    HeaderLinksResolve(y, m, items, weeks, days, j - 5 - |weeks|, l);
  }

  lemma OtherPagesResolve(y: Year, m: Month, items: seq<HeadlineItem>, weeks: seq<WeekData>,
                          days: seq<DayData>, j: nat, l: Link)
    requires Shaped(y, m, weeks, days) && j < 15 + |weeks| + 2 * |days| && j != 4
    requires l in PageLinks(PlannerKinds(y, m, items, weeks, days)[j])
    ensures l.dest in BookmarkMap(PlannerKinds(y, m, items, weeks, days))
  {
    if j < 4 {
      YearlyLinksResolve(y, m, items, weeks, days, j, l);
    } else if j < 5 + |weeks| {
      WeeklyLinksResolve(y, m, items, weeks, days, j, l);
    } else if j < 5 + |weeks| + 2 * |days| {
      DayPageLinksResolve(y, m, items, weeks, days, j, l);
    } else {
      KindsAt(y, m, items, weeks, days, j);
    }
  }

  /** Every link whose destination is not a week name leads to a page. */
  lemma PlannerLinksResolve(y: Year, m: Month, items: seq<HeadlineItem>, weeks: seq<WeekData>,
                            days: seq<DayData>, j: nat, l: Link)
    requires Shaped(y, m, weeks, days) && j < 15 + |weeks| + 2 * |days|
    requires l in PageLinks(PlannerKinds(y, m, items, weeks, days)[j]) && !l.dest.WeekAnchor?
    ensures l.dest in BookmarkMap(PlannerKinds(y, m, items, weeks, days))
  {
    if j == 4 {
      MonthlyKind(y, m, items, weeks, days);
      if l in MonthDayLinks(y, m, DaysInMonth(y, m)) {
        MonthlyLinksResolve(y, m, items, weeks, days, l);
      }
    } else {
      OtherPagesResolve(y, m, items, weeks, days, j, l);
    }
  }

  /** The first weekly page is named after the first week start. */
  lemma FirstWeeklyPageName(y: Year, m: Month, items: seq<HeadlineItem>, weeks: seq<WeekData>,
                            days: seq<DayData>)
    requires Shaped(y, m, weeks, days)
    ensures BookmarkOf(PlannerKinds(y, m, items, weeks, days)[5])
         == WeekAnchor(WeekStart(y, m, 0).year, IsoWeek(WeekStart(y, m, 0)))
  {
    WeekStartInMonth(y, m, 0);
    WeekStartOrdinal(y, m, 0);
    WeeklyKind(y, m, items, weeks, days, 0);
  }

  /** When January 1 falls on a Tuesday to Thursday, the first weekly page
      is named week 1 of the previous year. */
  lemma JanuaryFirstPage(y: Year, items: seq<HeadlineItem>, weeks: seq<WeekData>, days: seq<DayData>)
    requires Shaped(y, 1, weeks, days) && 1 <= Weekday(FirstDay(y, 1)) <= 3
    ensures y >= 2 && BookmarkOf(PlannerKinds(y, 1, items, weeks, days)[5]) == WeekAnchor(y - 1, 1)
  {
    var w := WeekStart(y, 1, 0);
    JanuaryFirstWeekStartYear(y);
    JanuaryWeekNumbers(y, 0);
    assert w.year == y - 1 && IsoWeek(w) == 1;
    FirstWeeklyPageName(y, 1, items, weeks, days);
  }

  /** The monthly page's day links all survive the link pass. */
  lemma MonthlyLinksDrawn(y: Year, m: Month, items: seq<HeadlineItem>, weeks: seq<WeekData>,
                          days: seq<DayData>)
    requires Shaped(y, m, weeks, days)
    ensures var kinds := PlannerKinds(y, m, items, weeks, days);
            var bookmarks := BookmarkMap(kinds);
            ResolvedLinkOps(bookmarks, PageLinks(kinds[4]))
            == ResolvedLinkOps(bookmarks, MonthBadgeLinks(y, m))
               + Map(LinkOp, MonthDayLinks(y, m, DaysInMonth(y, m)))
  {
    var kinds := PlannerKinds(y, m, items, weeks, days);
    var bookmarks := BookmarkMap(kinds);
    var dayLinks := MonthDayLinks(y, m, DaysInMonth(y, m));
    MonthlyKind(y, m, items, weeks, days);
    assert PageLinks(kinds[4]) == MonthBadgeLinks(y, m) + dayLinks;
    forall l | l in dayLinks
      ensures l.dest in bookmarks
    {
      MonthlyLinksResolve(y, m, items, weeks, days, l);
    }
    AllResolvedDrawn(bookmarks, dayLinks);
    ResolvedLinkOpsConcat(bookmarks, MonthBadgeLinks(y, m), dayLinks);
  }

  /** Outside January the first week start lies in the month's own year. */
  lemma FirstWeekStartYear(y: Year, m: Month)
    requires m != 1
    ensures WeekCount(y, m) >= 1 && WeekStart(y, m, 0).year == y
  {
    WeekStartOrdinal(y, m, 0);
    OrdinalWithinYear(FirstDay(y, m));
    DaysBeforeMonthMonotone(y, 1, m);
    YearOfOrdinal(WeekStart(y, m, 0), y);
    WeekStartInMonth(y, m, 0);
  }

  /** Outside January the week badge leads to the first weekly page: the
      Monday it names lies in the month's own year. */
  lemma BadgeResolves(y: Year, m: Month, items: seq<HeadlineItem>, weeks: seq<WeekData>,
                      days: seq<DayData>, l: Link)
    requires Shaped(y, m, weeks, days) && m != 1 && l in MonthBadgeLinks(y, m)
    ensures l.dest in BookmarkMap(PlannerKinds(y, m, items, weeks, days))
  {
    var kinds := PlannerKinds(y, m, items, weeks, days);
    FirstWeekStart(y, m);
    FirstWeekStartYear(y, m);
    WeeklyKind(y, m, items, weeks, days, 0);
    var w := WeekStart(y, m, 0);
    assert l.dest == WeekAnchor(y, IsoWeek(w));
    assert weeks[0].start == w;
    assert BookmarkOf(kinds[5]) == WeekAnchor(w.year, IsoWeek(w));
    BookmarkMapKeys(kinds, l.dest);
  }

  /** In January, when the 1st is not a Monday, the week badge leads
      nowhere: it names the first week start with the month's year, while
      that page is named with the previous year. */
  lemma JanuaryBadgeUnresolvable(y: Year, items: seq<HeadlineItem>, weeks: seq<WeekData>,
                                 days: seq<DayData>)
    requires Shaped(y, 1, weeks, days) && Weekday(FirstDay(y, 1)) != 0
    ensures |MonthBadgeLinks(y, 1)| == 1
    ensures MonthBadgeLinks(y, 1)[0].dest !in BookmarkMap(PlannerKinds(y, 1, items, weeks, days))
  {
    var kinds := PlannerKinds(y, 1, items, weeks, days);
    var a := WeekAnchor(y, IsoWeek(WeekStart(y, 1, 0)));
    FirstWeekStart(y, 1);
    assert MonthBadgeLinks(y, 1)[0].dest == a;
    forall j | 0 <= j < |kinds|
      ensures BookmarkOf(kinds[j]) != a
    {
      AnchorAt(y, 1, items, weeks, days, j);
      if 5 <= j < 5 + |weeks| {
        WeeklyKind(y, 1, items, weeks, days, j - 5);
        assert 5 + (j - 5) == j;
        JanuaryBadgeNameUnused(y, j - 5);
      }
    }
    BookmarkMapKeys(kinds, a);
  }

  /** In January, when the 1st is not a Monday, the first week start falls
      in the previous year. */
  lemma JanuaryFirstWeekStartYear(y: Year)
    requires Weekday(FirstDay(y, 1)) != 0
    ensures y >= 2 && WeekStart(y, 1, 0).year == y - 1
  {
    WeekStartOrdinal(y, 1, 0);
    assert Ordinal(FirstDay(y, 1)) == DaysBeforeYear(y) + 1;
    DaysBeforeYearStep(y - 1);
    YearOfOrdinal(WeekStart(y, 1, 0), y - 1);
  }

  /** The other January week starts fall in the month's own year. */
  lemma JanuaryLaterWeekStartYear(y: Year, k: nat)
    requires 0 < k < WeekCount(y, 1)
    ensures WeekStart(y, 1, k).year == y
  {
    var wd := Weekday(FirstDay(y, 1));
    WeekStartOrdinal(y, 1, k);
    assert Ordinal(FirstDay(y, 1)) == DaysBeforeYear(y) + 1;
    DivMod7(wd + 37, (wd + 37) / 7, (wd + 37) % 7);
    assert k <= 5;
    DaysBeforeYearStep(y);
    YearOfOrdinal(WeekStart(y, 1, k), y);
  }

  /** The week numbers of the January week starts: when the 1st falls on
      Tuesday to Thursday, the first start opens ISO week 1 and start `k`
      opens week `k + 1`; when it falls on Friday to Sunday, the first start
      is in week 52 or 53 of the previous year and start `k` opens week
      `k`. */
  lemma JanuaryWeekNumbers(y: Year, k: nat)
    requires Weekday(FirstDay(y, 1)) != 0 && k < WeekCount(y, 1)
    ensures Weekday(FirstDay(y, 1)) <= 3 ==>
              IsoWeek(WeekStart(y, 1, k)) == k + 1
    ensures Weekday(FirstDay(y, 1)) > 3 ==>
              (k == 0 ==> IsoWeek(WeekStart(y, 1, k)) >= 52)
              && (k > 0 ==> IsoWeek(WeekStart(y, 1, k)) == k)
  {
    var w := WeekStart(y, 1, k);
    WeekStartOrdinal(y, 1, k);
    IsoWeek1MondayFromJanuary1(y);
    if k == 0 {
      JanuaryFirstWeekStartYear(y);
      IsoWeekAtYearEnd(w, y);
    } else if Weekday(FirstDay(y, 1)) <= 3 {
      JanuaryLaterWeekStartYear(y, k);
      IsoWeekAfterWeek1(w, y, k);
    } else {
      JanuaryLaterWeekStartYear(y, k);
      IsoWeekAfterWeek1(w, y, k - 1);
    }
  }

  /** No January week start carries the week name the January badge asks
      for, when the 1st is not a Monday: the first start is named with the
      previous year, the others with other week numbers than the first. */
  lemma JanuaryBadgeNameUnused(y: Year, k: nat)
    requires Weekday(FirstDay(y, 1)) != 0 && k < WeekCount(y, 1)
    ensures WeekAnchor(WeekStart(y, 1, k).year, IsoWeek(WeekStart(y, 1, k)))
         != WeekAnchor(y, IsoWeek(WeekStart(y, 1, 0)))
  {
    if k == 0 {
      JanuaryFirstWeekStartYear(y);
    } else {
      JanuaryWeekNumbers(y, k);
      JanuaryWeekNumbers(y, 0);
    }
  }

  /** Links that all lead to a page are all drawn, in order. */
  lemma AllResolvedDrawn(bookmarks: map<Anchor, nat>, links: seq<Link>)
    requires forall l :: l in links ==> l.dest in bookmarks
    ensures ResolvedLinkOps(bookmarks, links) == Map(LinkOp, links)
  {
    ResolvedLinkOpsAre(bookmarks, links);
    FilterKeepsAll(Resolvable(bookmarks), links);
  }

  /** The link pass over two runs of links handles each run in turn. */
  lemma ResolvedLinkOpsConcat(bookmarks: map<Anchor, nat>, xs: seq<Link>, ys: seq<Link>)
    ensures ResolvedLinkOps(bookmarks, xs + ys)
         == ResolvedLinkOps(bookmarks, xs) + ResolvedLinkOps(bookmarks, ys)
  {
    ResolvedLinkOpsAre(bookmarks, xs + ys);
    ResolvedLinkOpsAre(bookmarks, xs);
    ResolvedLinkOpsAre(bookmarks, ys);
    FilterConcat(Resolvable(bookmarks), xs, ys);
    MapConcat(LinkOp, Filter(Resolvable(bookmarks), xs), Filter(Resolvable(bookmarks), ys));
  }

  // ------------------------------------------------------ the month's planner

  /** The weekly pages' data starts at the week starts. */
  lemma WeeksStart(src: Sources, y: Year, m: Month)
    ensures forall i :: 0 <= i < WeekCount(y, m) ==> Weeks(src, y, m)[i].start == WeekStart(y, m, i)
  {
    WeekDataAt(src, WeekStarts(y, m));
    TabulateAt(WeekStartOf(y, m), WeekCount(y, m));
  }

  /** The day pages' data follows the days of the month. */
  lemma DaysFollow(src: Sources, y: Year, m: Month)
    ensures forall i :: 0 <= i < DaysInMonth(y, m) ==> Days(src, y, m)[i].date == YMD(y, m, i + 1)
  {
    DaysAre(src, y, m);
  }

  /** The page data `generate_monthly_planner` collects has the shape the
      lemmas above ask for. */
  lemma DocumentShaped(src: Sources, y: Year, m: Month)
    ensures Shaped(y, m, Weeks(src, y, m), Days(src, y, m))
  {
    WeeksStart(src, y, m);
    DaysFollow(src, y, m);
  }

  /** 'notes' is a key of the bookmark map and leads to the last page, the
      tenth notes page, although only the first notes page draws it. */
  lemma NotesMapsToLastPage(src: Sources, y: Year, m: Month)
    ensures var bookmarks := BookmarkMap(DocumentKinds(src, y, m));
            NotesAnchor in bookmarks && bookmarks[NotesAnchor] == PageCount(y, m)
  {
    NotesBookmark(y, m, YearlyItems(src, y), Weeks(src, y, m), Days(src, y, m));
  }

  /** The month's name leads to page 5, the monthly page; the name of
      quarter `q` leads to page `q`, that quarter's yearly page. */
  lemma OverviewBookmarks(src: Sources, y: Year, m: Month, q: nat)
    requires 1 <= q <= 4
    ensures var bookmarks := BookmarkMap(DocumentKinds(src, y, m));
            MonthAnchor(y, m) in bookmarks && bookmarks[MonthAnchor(y, m)] == 5
            && YearAnchor(y, q) in bookmarks && bookmarks[YearAnchor(y, q)] == q
  {
    MonthBookmark(y, m, YearlyItems(src, y), Weeks(src, y, m), Days(src, y, m));
    YearBookmark(y, m, YearlyItems(src, y), Weeks(src, y, m), Days(src, y, m), q);
  }

  /** Every day of the month has both its names in the bookmark map: the
      schedule name leads to the day's schedule page and the tasks name to
      the page after it. */
  lemma DayBookmarksResolve(src: Sources, y: Year, m: Month, v: nat, s: Section)
    requires 1 <= v <= DaysInMonth(y, m)
    ensures var bookmarks := BookmarkMap(DocumentKinds(src, y, m));
            DayAnchor(YMD(y, m, v), s) in bookmarks
            && bookmarks[DayAnchor(YMD(y, m, v), s)] == DaysFrom(y, m) + DayOffset(v, s) + 1
  {
    DocumentShaped(src, y, m);
    DayBookmark(y, m, YearlyItems(src, y), Weeks(src, y, m), Days(src, y, m), v, s);
  }

  /** Every link of the planner whose destination is not a week name is
      drawn: its destination is a key of the bookmark map. */
  lemma DocumentLinksResolve(src: Sources, y: Year, m: Month, j: nat, l: Link)
    requires j < PageCount(y, m)
    requires l in PageLinks(DocumentKinds(src, y, m)[j]) && !l.dest.WeekAnchor?
    ensures l.dest in BookmarkMap(DocumentKinds(src, y, m))
  {
    DocumentShaped(src, y, m);
    PlannerLinksResolve(y, m, YearlyItems(src, y), Weeks(src, y, m), Days(src, y, m), j, l);
  }

  /** Every page but the monthly one gets all the links it asks for. */
  lemma OtherPagesDrawAllLinks(src: Sources, y: Year, m: Month, j: nat)
    requires j < PageCount(y, m) && j != 4
    ensures var kinds := DocumentKinds(src, y, m);
            ResolvedLinkOps(BookmarkMap(kinds), PageLinks(kinds[j])) == Map(LinkOp, PageLinks(kinds[j]))
  {
    var kinds := DocumentKinds(src, y, m);
    DocumentShaped(src, y, m);
    forall l | l in PageLinks(kinds[j])
      ensures l.dest in BookmarkMap(kinds)
    {
      OtherPagesResolve(y, m, YearlyItems(src, y), Weeks(src, y, m), Days(src, y, m), j, l);
    }
    AllResolvedDrawn(BookmarkMap(kinds), PageLinks(kinds[j]));
  }

  /** The monthly page gets all its day links; whether it gets its week
      badge link depends on the badge alone. */
  lemma MonthlyPageDrawsDayLinks(src: Sources, y: Year, m: Month)
    ensures var kinds := DocumentKinds(src, y, m);
            var bookmarks := BookmarkMap(kinds);
            ResolvedLinkOps(bookmarks, PageLinks(kinds[4]))
            == ResolvedLinkOps(bookmarks, MonthBadgeLinks(y, m))
               + Map(LinkOp, MonthDayLinks(y, m, DaysInMonth(y, m)))
  {
    DocumentShaped(src, y, m);
    MonthlyLinksDrawn(y, m, YearlyItems(src, y), Weeks(src, y, m), Days(src, y, m));
  }

  /** Outside January the week badge is drawn as well, so the monthly page
      gets every link it asks for. */
  lemma MonthBadgeResolves(src: Sources, y: Year, m: Month)
    requires m != 1
    ensures var kinds := DocumentKinds(src, y, m);
            ResolvedLinkOps(BookmarkMap(kinds), MonthBadgeLinks(y, m)) == Map(LinkOp, MonthBadgeLinks(y, m))
  {
    var kinds := DocumentKinds(src, y, m);
    DocumentShaped(src, y, m);
    forall l | l in MonthBadgeLinks(y, m)
      ensures l.dest in BookmarkMap(kinds)
    {
      BadgeResolves(y, m, YearlyItems(src, y), Weeks(src, y, m), Days(src, y, m), l);
    }
    AllResolvedDrawn(BookmarkMap(kinds), MonthBadgeLinks(y, m));
  }

  /** In January, when the 1st is not a Monday, the week badge asks for a
      week name no page carries, so the link pass drops it and the monthly
      page gets only its day links. */
  lemma JanuaryBadgeUnresolved(src: Sources, y: Year)
    requires Weekday(FirstDay(y, 1)) != 0
    ensures var kinds := DocumentKinds(src, y, 1);
            |MonthBadgeLinks(y, 1)| == 1
            && MonthBadgeLinks(y, 1)[0].dest !in BookmarkMap(kinds)
            && ResolvedLinkOps(BookmarkMap(kinds), MonthBadgeLinks(y, 1)) == []
  {
    var kinds := DocumentKinds(src, y, 1);
    var badge := MonthBadgeLinks(y, 1);
    DocumentShaped(src, y, 1);
    JanuaryBadgeUnresolvable(y, YearlyItems(src, y), Weeks(src, y, 1), Days(src, y, 1));
    assert badge == [badge[0]];
    ResolvedLinkOpsAre(BookmarkMap(kinds), badge);
  }

  /** When January 1 falls on a Tuesday to Thursday, the January badge
      asks for week 1 of the month's year. */
  lemma JanuaryBadgeAsks(y: Year)
    requires 1 <= Weekday(FirstDay(y, 1)) <= 3
    ensures MonthBadgeLinks(y, 1) == [Link(WeekBadgeArea(0), WeekAnchor(y, 1))]
  {
    FirstWeekStart(y, 1);
    JanuaryWeekNumbers(y, 0);
    var monday := MondayOnOrBefore(FirstDay(y, 1));
    assert IsoWeek(monday) == 1;
    assert MonthBadgeLinks(y, 1) == [Link(WeekBadgeArea(0), WeekAnchor(y, IsoWeek(monday)))];
  }

  /** When January 1 falls on a Tuesday to Thursday, the first weekly page
      of the January planner is named week 1 of the previous year. */
  lemma JanuaryFirstPageName(src: Sources, y: Year)
    requires 1 <= Weekday(FirstDay(y, 1)) <= 3
    ensures y >= 2
    ensures BookmarkOf(DocumentKinds(src, y, 1)[5]) == WeekAnchor(y - 1, 1)
  {
    JanuaryFirstWeekStartYear(y);
    DocumentShaped(src, y, 1);
    JanuaryFirstPage(y, YearlyItems(src, y), Weeks(src, y, 1), Days(src, y, 1));
  }

  /** January 2026 starts on a Thursday. Its badge asks for week 1 of 2026,
      while the first weekly page, the week of Monday 29 December 2025, is
      named week 1 of 2025, so the badge is dropped. */
  lemma January2026Badge(src: Sources)
    ensures MonthBadgeLinks(2026, 1) == [Link(WeekBadgeArea(0), WeekAnchor(2026, 1))]
    ensures BookmarkOf(DocumentKinds(src, 2026, 1)[5]) == WeekAnchor(2025, 1)
    ensures WeekAnchor(2026, 1) !in BookmarkMap(DocumentKinds(src, 2026, 1))
  {
    assert Weekday(FirstDay(2026, 1)) == 3;
    JanuaryBadgeAsks(2026);
    JanuaryFirstPageName(src, 2026);
    JanuaryBadgeUnresolved(src, 2026);
  }
}
