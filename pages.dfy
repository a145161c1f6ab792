/** The planner's pages: every page has a symbolic bookmark name, a page
    number that stays unset until the document is assembled, and a list of
    link requests that grows while the page renders. Rendering records on a
    canvas what the page places where, on the page's integer grid; the
    floating-point coordinates, fonts and colours are not modelled, and a
    link's rectangle is the grid cell it covers. */
module Pages {
  import opened Text
  import opened Calendar
  import opened Lists
  import opened DataProcessor

  // ------------------------------------------------------------- bookmarks

  /** The two pages of a day. */
  datatype Section = Schedule | Tasks

  /** A bookmark name, kept as the fields it is formatted from. `Name`
      formats it, and `NameInjective` shows that two anchors share a name
      only when they are equal, so a table keyed by anchors answers every
      lookup exactly as one keyed by the formatted names. */
  datatype Anchor =
    | YearAnchor(year: nat, page: nat)
    | MonthAnchor(year: nat, month: nat)
    | WeekAnchor(year: nat, week: nat)
    | DayAnchor(date: Date, section: Section)
    | NotesAnchor

  function SectionName(s: Section): string
  {
    match s
    case Schedule => "schedule"
    case Tasks => "tasks"
  }

  /** `f'year_{year}_page{page_num}'`. */
  function YearName(y: nat, n: nat): string
  {
    "year_" + Str(y) + "_page" + Str(n)
  }

  /** `f'month_{year}_{month:02d}'`. */
  function MonthName(y: nat, m: nat): string
  {
    "month_" + Str(y) + "_" + Pad2(m)
  }

  /** `f'week_{year}_W{week_num:02d}'`. */
  function WeekName(y: nat, w: nat): string
  {
    "week_" + Str(y) + "_W" + Pad2(w)
  }

  /** `f'day_{y}_{m:02d}_{d:02d}_{section}'`. */
  function DayName(d: Date, section: Section): string
  {
    "day_" + Str(d.year) + "_" + Pad2(d.month) + "_" + Pad2(d.day) + "_" + SectionName(section)
  }

  /** The bookmark name of an anchor, as the pages format it. */
  function Name(a: Anchor): (r: string)
    ensures |r| > 0 && r[0] == match a
      case YearAnchor(_, _) => 'y'
      case MonthAnchor(_, _) => 'm'
      case WeekAnchor(_, _) => 'w'
      case DayAnchor(_, _) => 'd'
      case NotesAnchor => 'n'
  {
    match a
    case YearAnchor(y, n) => YearName(y, n)
    case MonthAnchor(y, m) => MonthName(y, m)
    case WeekAnchor(y, w) => WeekName(y, w)
    case DayAnchor(d, section) => DayName(d, section)
    case NotesAnchor => "notes"
  }

  /** The fields of a name, each followed by its `_` delimiter. */
  lemma DayNameShape(y: string, m: string, d: string, section: string)
    ensures "day_" + y + "_" + m + "_" + d + "_" + section
         == "day_" + (y + ['_'] + (m + ['_'] + (d + ['_'] + section)))
  {
  }

  lemma MonthNameShape(y: string, m: string)
    ensures "month_" + y + "_" + m == "month_" + (y + ['_'] + m)
  {
  }

  lemma PrefixedNameShape(p: string, y: string, q: string, w: string)
    ensures p + y + q + w == p + (y + [q[0]] + (q[1..] + w))
    requires |q| > 0
  {
    assert q == [q[0]] + q[1..];
  }

  /** Two day names are equal only for the same date and the same section:
      the schedule and the tasks page of a day never share a name, and no
      two days share one. */
  lemma DayNameInjective(a: Date, b: Date, s: Section, t: Section)
    requires DayName(a, s) == DayName(b, t)
    ensures a == b && s == t
  {
    var sa, sb := SectionName(s), SectionName(t);
    var da, db := Pad2(a.day) + ['_'] + sa, Pad2(b.day) + ['_'] + sb;
    var ma, mb := Pad2(a.month) + ['_'] + da, Pad2(b.month) + ['_'] + db;
    StrDigits(a.year);
    StrDigits(b.year);
    Pad2Digits(a.month);
    Pad2Digits(b.month);
    Pad2Digits(a.day);
    Pad2Digits(b.day);
    DayNameShape(Str(a.year), Pad2(a.month), Pad2(a.day), sa);
    DayNameShape(Str(b.year), Pad2(b.month), Pad2(b.day), sb);
    DropPrefix("day_", Str(a.year) + ['_'] + ma, Str(b.year) + ['_'] + mb);
    DelimitedSplit(Str(a.year), ma, Str(b.year), mb, '_');
    StrInjective(a.year, b.year);
    DelimitedSplit(Pad2(a.month), da, Pad2(b.month), db, '_');
    Pad2Injective(a.month, b.month);
    DelimitedSplit(Pad2(a.day), sa, Pad2(b.day), sb, '_');
    Pad2Injective(a.day, b.day);
  }

  /** A week name fixes both its year and its week number. */
  lemma WeekNameInjective(y1: nat, w1: nat, y2: nat, w2: nat)
    requires WeekName(y1, w1) == WeekName(y2, w2)
    ensures y1 == y2 && w1 == w2
  {
    StrDigits(y1);
    StrDigits(y2);
    PrefixedNameShape("week_", Str(y1), "_W", Pad2(w1));
    PrefixedNameShape("week_", Str(y2), "_W", Pad2(w2));
    DropPrefix("week_", Str(y1) + ['_'] + ("W" + Pad2(w1)), Str(y2) + ['_'] + ("W" + Pad2(w2)));
    DelimitedSplit(Str(y1), "W" + Pad2(w1), Str(y2), "W" + Pad2(w2), '_');
    StrInjective(y1, y2);
    DropPrefix("W", Pad2(w1), Pad2(w2));
    Pad2Injective(w1, w2);
  }

  /** A month name fixes both its year and its month. */
  lemma MonthNameInjective(y1: nat, m1: nat, y2: nat, m2: nat)
    requires MonthName(y1, m1) == MonthName(y2, m2)
    ensures y1 == y2 && m1 == m2
  {
    StrDigits(y1);
    StrDigits(y2);
    MonthNameShape(Str(y1), Pad2(m1));
    MonthNameShape(Str(y2), Pad2(m2));
    DropPrefix("month_", Str(y1) + ['_'] + Pad2(m1), Str(y2) + ['_'] + Pad2(m2));
    DelimitedSplit(Str(y1), Pad2(m1), Str(y2), Pad2(m2), '_');
    StrInjective(y1, y2);
    Pad2Injective(m1, m2);
  }

  /** A yearly page name fixes both its year and its page number. */
  lemma YearNameInjective(y1: nat, n1: nat, y2: nat, n2: nat)
    requires YearName(y1, n1) == YearName(y2, n2)
    ensures y1 == y2 && n1 == n2
  {
    StrDigits(y1);
    StrDigits(y2);
    PrefixedNameShape("year_", Str(y1), "_page", Str(n1));
    PrefixedNameShape("year_", Str(y2), "_page", Str(n2));
    DropPrefix("year_", Str(y1) + ['_'] + ("page" + Str(n1)), Str(y2) + ['_'] + ("page" + Str(n2)));
    DelimitedSplit(Str(y1), "page" + Str(n1), Str(y2), "page" + Str(n2), '_');
    StrInjective(y1, y2);
    DropPrefix("page", Str(n1), Str(n2));
    StrInjective(n1, n2);
  }

  /** Different anchors have different names: names of different page
      classes differ in their first character, and within a class the
      numbers are delimited and written without ambiguity. */
  lemma NameInjective(a: Anchor, b: Anchor)
    ensures Name(a) == Name(b) ==> a == b
  {
    if Name(a) == Name(b) {
      match a
      case YearAnchor(y, n) => YearNameInjective(y, n, b.year, b.page);
      case MonthAnchor(y, m) => MonthNameInjective(y, m, b.year, b.month);
      case WeekAnchor(y, w) => WeekNameInjective(y, w, b.year, b.week);
      case DayAnchor(d, section) => DayNameInjective(d, b.date, section, b.section);
      case NotesAnchor =>
    }
  }

  // ---------------------------------------------------------------- layout

  /** `((month - 1) // 3) + 1`: the yearly page that shows a month. */
  function Quarter(m: Month): (q: nat)
    ensures 1 <= q <= 4
    ensures QuarterStart(q) <= m <= QuarterStart(q) + 2
  {
    (m - 1) / 3 + 1
  }

  /** The first month of yearly page `q`, `i * 3 + 1` for `q = i + 1`. */
  function QuarterStart(q: nat): nat
    requires q >= 1
  {
    3 * (q - 1) + 1
  }

  /** `row_idx` of a day in a yearly month column: its offset from the
      Monday-aligned top of the column. It fits the 37 rows, and the row's
      weekday label (`day_labels[row % 7]`) is the day's weekday. */
  function YearRowIndex(y: Year, m: Month, day: nat): (row: nat)
    requires 1 <= day <= DaysInMonth(y, m)
    ensures row <= 36
    ensures row % 7 == Weekday(YMD(y, m, day))
  {
    WeekdayInMonth(y, m, day);
    (day - 1) + Weekday(YMD(y, m, 1))
  }

  /** A yearly item text longer than 20 characters is cut to 19 and marked
      with `..`. */
  function TruncateYearItem(s: string): (r: string)
    ensures |s| > 20 ==> |r| == 21 && r[..19] == s[..19] && r[19..] == ".."
    ensures |s| <= 20 ==> r == s
  {
    if |s| > 20 then s[..19] + ".." else s
  }

  /** A weekly event label longer than 15 characters is cut to 12 and marked
      with `...`, keeping it at 15. */
  function TruncateWeekLabel(s: string): (r: string)
    ensures |s| > 15 ==> |r| == 15 && r[..12] == s[..12] && r[12..] == "..."
    ensures |s| <= 15 ==> r == s
  {
    if |s| > 15 then s[..12] + "..." else s
  }

  /** `start_row` of a weekly event: the half-hour slot, counted from 05:00,
      that holds the start time. Starts from 05:00 to 22:59 fall in slots
      0 to 35. */
  function StartRow(hour: int, minute: int): (row: int)
    ensures 0 <= minute < 60 ==> 30 * row <= (hour * 60 + minute) - 300 < 30 * row + 30
    ensures 5 <= hour < 23 && 0 <= minute < 60 ==> 0 <= row <= 35
  {
    (hour - 5) * 2 + (if minute >= 30 then 1 else 0)
  }

  /** `duration_minutes`: end minus start, on the clock, in minutes. */
  function DurationMinutes(e: EventView): int
  {
    (e.end.hour * 60 + e.end.minute) - (e.start.hour * 60 + e.start.minute)
  }

  function Min(a: int, b: int): int { if a <= b then a else b }

  const MaxHeadlines := 2
  const MaxTasks := 8

  // ---------------------------------------------------------- page records

  /** The region of a page a link covers. */
  datatype Rect =
    | YearDayCell(column: nat, row: nat)
    | WeekBadgeArea(week: nat)
    | MonthDayCell(week: nat, column: nat)
    | HeaderMonth
    | HeaderYear
    | NotesButton

  /** An entry of `links`: `{'rect': …, 'dest': …}`. */
  datatype Link = Link(rect: Rect, dest: Anchor)

  /** What a canvas records: bookmarks, the placed texts and blocks that
      carry layout decisions, link annotations and page breaks. */
  datatype DrawOp =
    | BookmarkPage(name: Anchor)
    | YearDay(column: nat, row: nat, day: nat, weekend: bool, linked: bool)
    | YearItem(column: nat, row: nat, text: string)
    | YearWeekNumber(column: nat, row: nat, isoWeek: int)
    | WeekBadgeText(isoWeek: int)
    | MonthDayNumber(week: nat, column: nat, day: nat)
    | WeekEventBlock(dayColumn: int, startRow: int, durationMinutes: int, text: string)
    | DayEventBlock(offsetMinutes: int, durationMinutes: int, text: string)
    | HeadlineLine(index: nat, text: string)
    | TaskLine(index: nat, text: string)
    | LinkAbsolute(dest: Anchor, rect: Rect)
    | ShowPage

  /** The six page classes, with what their constructors receive. */
  datatype PageKind =
    | YearlyOverviewPage(year: Year, pageNum: nat, startMonth: Month, currentMonth: Option<nat>,
                         items: seq<HeadlineItem>)
    | MonthlyOverviewPage(year: Year, month: Month)
    | WeeklyPage(weekStart: Date, events: seq<EventView>)
    | DailySchedulePage(date: Date, events: seq<EventView>)
    | DailyTasksPage(date: Date, tasks: seq<TaskView>, headlines: seq<DayHeadline>)
    | NotesPage(pageNum: nat)

  /** The bookmark name each constructor gives its page. A weekly page is
      named after its start date's calendar year and that date's ISO week. */
  function BookmarkOf(kind: PageKind): Anchor
  {
    match kind
    case YearlyOverviewPage(y, n, _, _, _) => YearAnchor(y, n)
    case MonthlyOverviewPage(y, m) => MonthAnchor(y, m)
    case WeeklyPage(ws, _) => WeekAnchor(ws.year, IsoWeek(ws))
    case DailySchedulePage(d, _) => DayAnchor(d, Schedule)
    case DailyTasksPage(d, _, _) => DayAnchor(d, Tasks)
    case NotesPage(_) => NotesAnchor
  }

  /** Each kind of page carries its own kind of bookmark name: yearly pages
      `year_…`, the monthly page `month_…`, weekly pages `week_…`, day pages
      `day_…`, notes pages `notes`. */
  lemma BookmarkKinds(kind: PageKind)
    ensures BookmarkOf(kind).YearAnchor? <==> kind.YearlyOverviewPage?
    ensures BookmarkOf(kind).MonthAnchor? <==> kind.MonthlyOverviewPage?
    ensures BookmarkOf(kind).WeekAnchor? <==> kind.WeeklyPage?
    ensures BookmarkOf(kind).DayAnchor? <==> kind.DailySchedulePage? || kind.DailyTasksPage?
    ensures BookmarkOf(kind).NotesAnchor? <==> kind.NotesPage?
  {
  }

  // ------------------------------------------------------- yearly overview

  /** Number of month columns: three, fewer when the page would run past
      December. */
  function YearColumnCount(startMonth: Month): nat
  {
    if startMonth <= 10 then 3 else 13 - startMonth
  }

  /** What the column of month `m` places for one day. */
  function YearDayOps(col: nat, y: Year, m: Month, current: Option<nat>, items: seq<HeadlineItem>,
                      day: nat): seq<DrawOp>
    requires 1 <= day <= DaysInMonth(y, m)
  {
    var d: Date := YMD(y, m, day);
    var row := YearRowIndex(y, m, day);
    var onDay := Filter(OnDate(d), items);
    [YearDay(col, row, day, Weekday(d) >= 5, current == Some(m))]
      + (if onDay != [] then [YearItem(col, row, TruncateYearItem(onDay[0].text))] else [])
      + (if Weekday(d) == 0 then [YearWeekNumber(col, row, IsoWeek(d))] else [])
  }

  /** The link of one day of the column of month `m`: there is one only in
      the current month. */
  function YearDayLinks(col: nat, y: Year, m: Month, current: Option<nat>, day: nat): seq<Link>
    requires 1 <= day <= DaysInMonth(y, m)
  {
    if current == Some(m) then [Link(YearDayCell(col, YearRowIndex(y, m, day)), DayAnchor(YMD(y, m, day), Schedule))]
    else []
  }

  /** The pieces the column of month `m` places, day `i + 1` at index `i`. */
  function YearDayOpsList(col: nat, y: Year, m: Month, current: Option<nat>, items: seq<HeadlineItem>)
    : (r: seq<seq<DrawOp>>)
    ensures |r| == DaysInMonth(y, m)
  {
    seq(DaysInMonth(y, m), i requires 0 <= i < DaysInMonth(y, m) => YearDayOps(col, y, m, current, items, i + 1))
  }

  function YearDayLinksList(col: nat, y: Year, m: Month, current: Option<nat>): (r: seq<seq<Link>>)
    ensures |r| == DaysInMonth(y, m)
  {
    seq(DaysInMonth(y, m), i requires 0 <= i < DaysInMonth(y, m) => YearDayLinks(col, y, m, current, i + 1))
  }

  /** Everything the column of month `m` places, day by day. */
  function YearColumnOps(col: nat, y: Year, m: Month, current: Option<nat>, items: seq<HeadlineItem>)
    : seq<DrawOp>
  {
    Flatten(YearDayOpsList(col, y, m, current, items))
  }

  /** The links the column of month `m` requests, day by day. */
  function YearColumnLinks(col: nat, y: Year, m: Month, current: Option<nat>): seq<Link>
  {
    Flatten(YearDayLinksList(col, y, m, current))
  }

  /** In the current month, a column has one link per day, in day order,
      each to that day's schedule page; in any other month, none. */
  lemma YearColumnLinksShape(col: nat, y: Year, m: Month, current: Option<nat>)
    ensures current == Some(m) ==> |YearColumnLinks(col, y, m, current)| == DaysInMonth(y, m)
    ensures current == Some(m) ==> forall i :: 0 <= i < DaysInMonth(y, m) ==>
              YearColumnLinks(col, y, m, current)[i]
                == Link(YearDayCell(col, YearRowIndex(y, m, i + 1)), DayAnchor(YMD(y, m, i + 1), Schedule))
    ensures current != Some(m) ==> YearColumnLinks(col, y, m, current) == []
  {
    var xss := YearDayLinksList(col, y, m, current);
    if current == Some(m) {
      FlattenSingletons(xss);
    } else {
      FlattenAllEmpty(xss);
    }
  }

  /** The columns of a yearly page starting at `startMonth`, column `j`
      showing month `startMonth + j`. */
  function YearColumnOpsList(y: Year, startMonth: Month, current: Option<nat>, items: seq<HeadlineItem>)
    : (r: seq<seq<DrawOp>>)
    ensures |r| == YearColumnCount(startMonth)
  {
    seq(YearColumnCount(startMonth), j requires 0 <= j < YearColumnCount(startMonth) =>
      YearColumnOps(j, y, startMonth + j, current, items))
  }

  function YearColumnLinksList(y: Year, startMonth: Month, current: Option<nat>): (r: seq<seq<Link>>)
    ensures |r| == YearColumnCount(startMonth)
  {
    seq(YearColumnCount(startMonth), j requires 0 <= j < YearColumnCount(startMonth) =>
      YearColumnLinks(j, y, startMonth + j, current))
  }

  /** Drawing column `i` after the first `i` columns gives the first
      `i + 1`. */
  lemma YearColumnStep(opsBase: seq<DrawOp>, linkBase: seq<Link>, y: Year, startMonth: Month, current: Option<nat>,
                       items: seq<HeadlineItem>, i: nat, m: Month)
    requires i < YearColumnCount(startMonth) && m == startMonth + i
    ensures opsBase + Flatten(YearColumnOpsList(y, startMonth, current, items)[..i])
              + YearColumnOps(i, y, m, current, items)
            == opsBase + Flatten(YearColumnOpsList(y, startMonth, current, items)[..i + 1])
    ensures linkBase + Flatten(YearColumnLinksList(y, startMonth, current)[..i])
              + YearColumnLinks(i, y, m, current)
            == linkBase + Flatten(YearColumnLinksList(y, startMonth, current)[..i + 1])
  {
    var columnOps := YearColumnOpsList(y, startMonth, current, items);
    var columnLinks := YearColumnLinksList(y, startMonth, current);
    assert columnOps[i] == YearColumnOps(i, y, m, current, items);
    assert columnLinks[i] == YearColumnLinks(i, y, m, current);
    FlattenAppendStep(opsBase, columnOps, i);
    FlattenAppendStep(linkBase, columnLinks, i);
  }

  function YearColumnsOps(y: Year, startMonth: Month, current: Option<nat>, items: seq<HeadlineItem>): seq<DrawOp>
  {
    Flatten(YearColumnOpsList(y, startMonth, current, items))
  }

  function YearColumnsLinks(y: Year, startMonth: Month, current: Option<nat>): seq<Link>
  {
    Flatten(YearColumnLinksList(y, startMonth, current))
  }

  /** A yearly page links only the days of the current month, and only when
      that month is one of its columns. */
  lemma YearlyLinksOnlyCurrentMonth(y: Year, startMonth: Month, current: Option<nat>)
    ensures current.Some? && startMonth <= current.value < startMonth + YearColumnCount(startMonth) ==>
              YearColumnsLinks(y, startMonth, current)
                == YearColumnLinks(current.value - startMonth, y, current.value, current)
    ensures !(current.Some? && startMonth <= current.value < startMonth + YearColumnCount(startMonth)) ==>
              YearColumnsLinks(y, startMonth, current) == []
  {
    var xss := YearColumnLinksList(y, startMonth, current);
    forall j | 0 <= j < |xss| && current != Some(startMonth + j)
      ensures xss[j] == []
    {
      YearColumnLinksShape(j, y, startMonth + j, current);
    }
    if current.Some? && startMonth <= current.value < startMonth + YearColumnCount(startMonth) {
      FlattenOnlyOne(xss, current.value - startMonth);
    } else {
      FlattenAllEmpty(xss);
    }
  }

  /** Every day of the current month, when it is on the page, gets one link
      to its schedule page, in day order. */
  lemma YearlyLinksCoverCurrentMonth(y: Year, startMonth: Month, m: Month)
    requires startMonth <= m < startMonth + YearColumnCount(startMonth)
    ensures |YearColumnsLinks(y, startMonth, Some(m))| == DaysInMonth(y, m)
    ensures forall i :: 0 <= i < DaysInMonth(y, m) ==>
              YearColumnsLinks(y, startMonth, Some(m))[i].dest == DayAnchor(YMD(y, m, i + 1), Schedule)
  {
    YearlyLinksOnlyCurrentMonth(y, startMonth, Some(m));
    YearColumnLinksShape(m - startMonth, y, m, Some(m));
  }

  /** The yearly page `q` of the generator (start month `3(q-1)+1`) shows
      the three months of that quarter. */
  lemma YearlyPageMonths(q: nat, m: Month)
    requires 1 <= q <= 4
    ensures QuarterStart(q) <= 10 && YearColumnCount(QuarterStart(q)) == 3
    ensures QuarterStart(q) <= m < QuarterStart(q) + 3 <==> Quarter(m) == q
  {
  }

  // ------------------------------------------------------ monthly overview

  /** How many days of a month sit at grid positions before `p`, the 1st
      being at position `first`. */
  function DaysPlaced(p: int, first: int, n: nat): (k: nat)
    ensures k <= n
  {
    if p <= first then 0 else if p >= first + n then n else p - first
  }

  /** The week badge: drawn only for a leading partial week, numbered by
      the ISO week of the Monday before the 1st. */
  ghost function MonthBadgeOps(y: Year, m: Month): seq<DrawOp>
  {
    var first: Date := YMD(y, m, 1);
    if Weekday(first) != 0 then [WeekBadgeText(IsoWeek(MondayOnOrBefore(first)))] else []
  }

  /** The badge links to the week bookmark of the page's own year, whatever
      year that Monday falls in. */
  ghost function MonthBadgeLinks(y: Year, m: Month): seq<Link>
  {
    var first: Date := YMD(y, m, 1);
    if Weekday(first) != 0 then [Link(WeekBadgeArea(0), WeekAnchor(y, IsoWeek(MondayOnOrBefore(first))))]
    else []
  }

  /** A month that starts on a Monday has no badge. */
  lemma MonthBadgeAbsent(y: Year, m: Month)
    requires Weekday(YMD(y, m, 1)) == 0
    ensures MonthBadgeOps(y, m) == [] && MonthBadgeLinks(y, m) == []
  {
  }

  /** Grid cell of day `v`: row and column of its position. */
  function DayCell(y: Year, m: Month, v: nat): Rect
    requires v >= 1
  {
    var p := Weekday(YMD(y, m, 1)) + v - 1;
    MonthDayCell(p / 7, p % 7)
  }

  /** The day numbers of days `1..k`, each in its cell. */
  function MonthDayOps(y: Year, m: Month, k: nat): seq<DrawOp>
    requires k <= DaysInMonth(y, m)
  {
    if k == 0 then []
    else
      var p := Weekday(YMD(y, m, 1)) + k - 1;
      MonthDayOps(y, m, k - 1) + [MonthDayNumber(p / 7, p % 7, k)]
  }

  /** The day links of days `1..k`, one per day in day order, each over the
      day's cell and to the day's schedule page. */
  function MonthDayLinks(y: Year, m: Month, k: nat): (r: seq<Link>)
    requires k <= DaysInMonth(y, m)
    ensures |r| == k
  {
    if k == 0 then [] else MonthDayLinks(y, m, k - 1) + [Link(DayCell(y, m, k), DayAnchor(YMD(y, m, k), Schedule))]
  }

  /** The `i`-th day link belongs to day `i + 1`. */
  lemma {:induction false} MonthDayLinksAt(y: Year, m: Month, k: nat)
    requires k <= DaysInMonth(y, m)
    ensures forall i :: 0 <= i < k ==>
              MonthDayLinks(y, m, k)[i] == Link(DayCell(y, m, i + 1), DayAnchor(YMD(y, m, i + 1), Schedule))
    decreases k
  {
    if k > 0 {
      MonthDayLinksAt(y, m, k - 1);
    }
  }

  /** Placing day `k` at grid row `w`, column `col` (its position counted
      from the 1st's weekday) extends both lists by that day. */
  lemma MonthDayStep(y: Year, m: Month, k: nat, w: int, col: int)
    requires 1 <= k <= DaysInMonth(y, m)
    requires 0 <= col < 7 && 7 * w + col == Weekday(YMD(y, m, 1)) + k - 1
    ensures MonthDayOps(y, m, k) == MonthDayOps(y, m, k - 1) + [MonthDayNumber(w, col, k)]
    ensures MonthDayLinks(y, m, k)
              == MonthDayLinks(y, m, k - 1) + [Link(MonthDayCell(w, col), DayAnchor(YMD(y, m, k), Schedule))]
  {
    DivMod7(7 * w + col, w, col);
  }

  /** Every day of the month has exactly one day link, and its cell is the
      one `monthcalendar` puts that day in. */
  lemma MonthlyLinksCoverDays(y: Year, m: Month, v: nat)
    requires 1 <= v <= DaysInMonth(y, m)
    ensures var r := MonthDayLinks(y, m, DaysInMonth(y, m));
            forall i :: 0 <= i < |r| ==> (r[i].dest == DayAnchor(YMD(y, m, v), Schedule) <==> i == v - 1)
    ensures var p := Weekday(YMD(y, m, 1)) + v - 1;
            DayCell(y, m, v) == MonthDayCell(p / 7, p % 7)
            && p / 7 < |MonthCalendar(y, m)| && MonthCalendar(y, m)[p / 7][p % 7] == v
  {
    MonthDayLinksAt(y, m, DaysInMonth(y, m));
    MonthCalendarHoldsDay(y, m, v);
  }

  // ------------------------------------------------------------ weekly page

  /** `_draw_events` of the weekly page draws a timed event that starts
      within the seven days of the week and between 05:00 and 22:59. */
  function ShownInWeek(weekStart: Date): EventView -> bool
  {
    (e: EventView) => !e.isAllDay && 0 <= Ordinal(e.start.date) - Ordinal(weekStart) < 7
                      && 5 <= e.start.hour < 23
  }

  function WeekEventBlockOf(weekStart: Date): EventView -> DrawOp
  {
    (e: EventView) => WeekEventBlock(Ordinal(e.start.date) - Ordinal(weekStart), StartRow(e.start.hour, e.start.minute),
                                     DurationMinutes(e), TruncateWeekLabel(e.labelText))
  }

  function WeekEventOps(weekStart: Date, events: seq<EventView>): seq<DrawOp>
  {
    FilterMap(ShownInWeek(weekStart), WeekEventBlockOf(weekStart), events)
  }

  /** The weekly page draws the shown events in input order, each in its
      day's column and in a half-hour row of the grid. */
  lemma WeekEventsPlaced(weekStart: Date, events: seq<EventView>, e: EventView)
    ensures WeekEventOps(weekStart, events) == Map(WeekEventBlockOf(weekStart), Filter(ShownInWeek(weekStart), events))
    ensures forall i :: 0 <= i < |WeekEventOps(weekStart, events)| ==>
              0 <= WeekEventOps(weekStart, events)[i].dayColumn < 7
              && 0 <= WeekEventOps(weekStart, events)[i].startRow <= 35
              && |WeekEventOps(weekStart, events)[i].text| <= 15
    ensures e in Filter(ShownInWeek(weekStart), events) <==>
              e in events && !e.isAllDay && 0 <= Ordinal(e.start.date) - Ordinal(weekStart) < 7
              && 5 <= e.start.hour < 23
  {
    FilterMapIsMapOfFilter(ShownInWeek(weekStart), WeekEventBlockOf(weekStart), events);
    FilterSatisfies(ShownInWeek(weekStart), events);
    FilterMembership(ShownInWeek(weekStart), events, e);
  }

  // ---------------------------------------------------------- daily pages

  /** The three links of both day headers: the month page, the yearly page
      of the date's quarter, the notes. */
  function HeaderLinks(d: Date): seq<Link>
  {
    [Link(HeaderMonth, MonthAnchor(d.year, d.month)),
     Link(HeaderYear, YearAnchor(d.year, Quarter(d.month))),
     Link(NotesButton, NotesAnchor)]
  }

  /** `_draw_events` of the schedule page draws a timed event that starts
      between 05:00 and 22:59. */
  function ShownOnDay(e: EventView): bool
  {
    !e.isAllDay && 5 <= e.start.hour < 23
  }

  /** An event block placed by its start's offset from 05:00 and sized by
      its duration, both in minutes. */
  function DayEventBlockOf(e: EventView): DrawOp
  {
    DayEventBlock((e.start.hour - 5) * 60 + e.start.minute, DurationMinutes(e), e.labelText)
  }

  function DayEventOps(events: seq<EventView>): seq<DrawOp>
  {
    FilterMap(ShownOnDay, DayEventBlockOf, events)
  }

  /** The schedule page draws the shown events in input order, each
      starting within the 18 hours of the grid. */
  lemma DayEventsPlaced(events: seq<EventView>, e: EventView)
    ensures DayEventOps(events) == Map(DayEventBlockOf, Filter(ShownOnDay, events))
    ensures forall i :: 0 <= i < |DayEventOps(events)| ==> 0 <= DayEventOps(events)[i].offsetMinutes < 18 * 60
    ensures e in Filter(ShownOnDay, events) <==> e in events && !e.isAllDay && 5 <= e.start.hour < 23
  {
    FilterMapIsMapOfFilter(ShownOnDay, DayEventBlockOf, events);
    FilterSatisfies(ShownOnDay, events);
    FilterMembership(ShownOnDay, events, e);
  }

  /** At most two headline lines: the first headlines, in order. */
  function HeadlineLines(headlines: seq<DayHeadline>): (r: seq<DrawOp>)
    ensures |r| == Min(|headlines|, MaxHeadlines)
    ensures forall i :: 0 <= i < |r| ==> r[i] == HeadlineLine(i, "- " + headlines[i].text)
  {
    seq(Min(|headlines|, MaxHeadlines), i requires 0 <= i < Min(|headlines|, MaxHeadlines) =>
      HeadlineLine(i, "- " + headlines[i].text))
  }

  /** At most eight task lines: the first tasks, in order, as check boxes. */
  function TaskLines(tasks: seq<TaskView>): (r: seq<DrawOp>)
    ensures |r| == Min(|tasks|, MaxTasks)
    ensures forall i :: 0 <= i < |r| ==> r[i] == TaskLine(i, "[ ] " + tasks[i].text)
  {
    seq(Min(|tasks|, MaxTasks), i requires 0 <= i < Min(|tasks|, MaxTasks) =>
      TaskLine(i, "[ ] " + tasks[i].text))
  }

  // ---------------------------------------------------- whole-page results

  /** Everything a page records on the canvas when it renders. */
  ghost function PageOps(kind: PageKind): seq<DrawOp>
  {
    match kind
    case YearlyOverviewPage(y, n, sm, cm, items) =>
      [BookmarkPage(BookmarkOf(kind))] + YearColumnsOps(y, sm, cm, items)
    case MonthlyOverviewPage(y, m) =>
      [BookmarkPage(BookmarkOf(kind))] + MonthBadgeOps(y, m) + MonthDayOps(y, m, DaysInMonth(y, m))
    case WeeklyPage(ws, events) =>
      [BookmarkPage(BookmarkOf(kind))] + WeekEventOps(ws, events)
    case DailySchedulePage(d, events) =>
      [BookmarkPage(BookmarkOf(kind))] + DayEventOps(events)
    case DailyTasksPage(d, tasks, headlines) =>
      [BookmarkPage(BookmarkOf(kind))] + HeadlineLines(headlines) + TaskLines(tasks)
    case NotesPage(n) =>
      if n == 1 then [BookmarkPage(NotesAnchor)] else []
  }

  /** Every link a page requests when it renders, in order. */
  ghost function PageLinks(kind: PageKind): seq<Link>
  {
    match kind
    case YearlyOverviewPage(y, _, sm, cm, _) => YearColumnsLinks(y, sm, cm)
    case MonthlyOverviewPage(y, m) => MonthBadgeLinks(y, m) + MonthDayLinks(y, m, DaysInMonth(y, m))
    case WeeklyPage(_, _) => [Link(NotesButton, NotesAnchor)]
    case DailySchedulePage(d, _) => HeaderLinks(d)
    case DailyTasksPage(d, _, _) => HeaderLinks(d)
    case NotesPage(_) => []
  }

  /** No operation in `ops` places a bookmark. */
  predicate NoBookmarks(ops: seq<DrawOp>)
  {
    forall i :: 0 <= i < |ops| ==> !ops[i].BookmarkPage?
  }

  lemma NoBookmarksConcat(a: seq<DrawOp>, b: seq<DrawOp>)
    requires NoBookmarks(a) && NoBookmarks(b)
    ensures NoBookmarks(a + b)
  {
  }

  /** A list that starts with `b` followed by bookmark-free operations has
      `b` as its only possible bookmark. */
  lemma LeadingBookmark(ops: seq<DrawOp>, b: DrawOp, rest: seq<DrawOp>)
    requires ops == [b] + rest && NoBookmarks(rest)
    ensures |ops| > 0 && ops[0] == b
    ensures forall i :: 0 < i < |ops| ==> !ops[i].BookmarkPage?
  {
    forall i | 0 < i < |ops| ensures !ops[i].BookmarkPage? {
      assert ops[i] == rest[i - 1];
    }
  }

  /** Only the first notes page places the `notes` bookmark; every other
      page places its own name, first, and nothing else is a bookmark. */
  lemma PageBookmarks(kind: PageKind)
    ensures kind.NotesPage? && kind.pageNum != 1 ==> PageOps(kind) == []
    ensures !(kind.NotesPage? && kind.pageNum != 1) ==> PageOps(kind)[0] == BookmarkPage(BookmarkOf(kind))
    ensures forall i :: 0 < i < |PageOps(kind)| ==> !PageOps(kind)[i].BookmarkPage?
  {
    var head := BookmarkPage(BookmarkOf(kind));
    match kind
    case YearlyOverviewPage(y, n, sm, cm, items) =>
      YearColumnsHaveNoBookmark(y, sm, cm, items);
      LeadingBookmark(PageOps(kind), head, YearColumnsOps(y, sm, cm, items));
    case MonthlyOverviewPage(y, m) =>
      var badge, days := MonthBadgeOps(y, m), MonthDayOps(y, m, DaysInMonth(y, m));
      MonthDaysHaveNoBookmark(y, m, DaysInMonth(y, m));
      assert NoBookmarks(badge);
      NoBookmarksConcat(badge, days);
      AppendAssoc([head], badge, days);
      LeadingBookmark(PageOps(kind), head, badge + days);
    case WeeklyPage(ws, events) =>
      FilterMapIsMapOfFilter(ShownInWeek(ws), WeekEventBlockOf(ws), events);
      assert NoBookmarks(WeekEventOps(ws, events));
      LeadingBookmark(PageOps(kind), head, WeekEventOps(ws, events));
    case DailySchedulePage(d, events) =>
      FilterMapIsMapOfFilter(ShownOnDay, DayEventBlockOf, events);
      assert NoBookmarks(DayEventOps(events));
      LeadingBookmark(PageOps(kind), head, DayEventOps(events));
    case DailyTasksPage(d, tasks, headlines) =>
      var lines, boxes := HeadlineLines(headlines), TaskLines(tasks);
      assert NoBookmarks(lines) && NoBookmarks(boxes);
      NoBookmarksConcat(lines, boxes);
      AppendAssoc([head], lines, boxes);
      LeadingBookmark(PageOps(kind), head, lines + boxes);
    case NotesPage(n) =>
  }

  lemma NoBookmarksFlatten(xss: seq<seq<DrawOp>>)
    requires forall i :: 0 <= i < |xss| ==> NoBookmarks(xss[i])
    ensures NoBookmarks(Flatten(xss))
  {
    FlattenMembers(xss, (op: DrawOp) => !op.BookmarkPage?);
  }

  lemma YearColumnHasNoBookmark(col: nat, y: Year, m: Month, cm: Option<nat>, items: seq<HeadlineItem>)
    ensures NoBookmarks(YearColumnOps(col, y, m, cm, items))
  {
    var days: seq<seq<DrawOp>> := YearDayOpsList(col, y, m, cm, items);
    forall i | 0 <= i < |days| ensures NoBookmarks(days[i]) {
      assert days[i] == YearDayOps(col, y, m, cm, items, i + 1);
    }
    NoBookmarksFlatten(days);
  }

  lemma YearColumnsHaveNoBookmark(y: Year, sm: Month, cm: Option<nat>, items: seq<HeadlineItem>)
    ensures NoBookmarks(YearColumnsOps(y, sm, cm, items))
  {
    var cols: seq<seq<DrawOp>> := YearColumnOpsList(y, sm, cm, items);
    forall j | 0 <= j < |cols| ensures NoBookmarks(cols[j]) {
      YearColumnHasNoBookmark(j, y, sm + j, cm, items);
    }
    NoBookmarksFlatten(cols);
  }

  lemma {:induction false} MonthDaysHaveNoBookmark(y: Year, m: Month, k: nat)
    requires k <= DaysInMonth(y, m)
    ensures NoBookmarks(MonthDayOps(y, m, k))
    decreases k
  {
    if k > 0 {
      MonthDaysHaveNoBookmark(y, m, k - 1);
    }
  }

  // ---------------------------------------------------------------- canvas

  /** The PDF canvas, as the sequence of what was placed on it. */
  class Canvas {
    var ops: seq<DrawOp>

    constructor ()
      ensures ops == []
    {
      ops := [];
    }

    method Draw(op: DrawOp)
      modifies this`ops
      ensures ops == old(ops) + [op]
    {
      ops := ops + [op];
    }
  }

  // ----------------------------------------------------------------- pages

  /** `PlannerPage` and its six subclasses: the kind holds what the
      subclass constructor stored. */
  class PlannerPage {
    const kind: PageKind
    const bookmarkName: Anchor := BookmarkOf(kind)
    var pageNumber: Option<nat>
    var links: seq<Link>

    /** A new page has its bookmark name, no page number and no links. */
    constructor (kind: PageKind)
      ensures this.kind == kind && bookmarkName == BookmarkOf(kind)
      ensures pageNumber == None && links == []
    {
      this.kind := kind;
      pageNumber := None;
      links := [];
    }

    /** `add_link`: one more link at the end; nothing else changes. */
    method AddLink(rect: Rect, dest: Anchor)
      modifies this`links
      ensures links == old(links) + [Link(rect, dest)]
    {
      links := links + [Link(rect, dest)];
    }

    /** `render`: the page's marks go on the canvas and its link requests
        onto `links`; the page number is untouched. */
    method Render(c: Canvas)
      modifies this`links, c`ops
      ensures links == old(links) + PageLinks(kind)
      ensures c.ops == old(c.ops) + PageOps(kind)
    {
      match kind
      case YearlyOverviewPage(y, n, sm, cm, items) =>
        RenderYearly(c);
      case MonthlyOverviewPage(y, m) =>
        RenderMonthly(c);
      case WeeklyPage(ws, events) =>
        RenderWeekly(c);
      case DailySchedulePage(d, events) =>
        RenderSchedule(c);
      case DailyTasksPage(d, tasks, headlines) =>
        RenderTasks(c);
      case NotesPage(n) =>
        if n == 1 {
          c.Draw(BookmarkPage(bookmarkName));
        }
    }

    /** `YearlyOverviewPage.render`. */
    method RenderYearly(c: Canvas)
      requires kind.YearlyOverviewPage?
      modifies this`links, c`ops
      ensures links == old(links) + PageLinks(kind)
      ensures c.ops == old(c.ops) + PageOps(kind)
    {
      var y, startMonth, current, items := kind.year, kind.startMonth, kind.currentMonth, kind.items;
      c.Draw(BookmarkPage(bookmarkName));
      DrawMonthColumns(c, y, startMonth, current, items);
      AppendAssoc(old(c.ops), [BookmarkPage(bookmarkName)], YearColumnsOps(y, startMonth, current, items));
    }

    /** The column loop of `YearlyOverviewPage.render`: three months, or up
        to December. */
    method DrawMonthColumns(c: Canvas, y: Year, startMonth: Month, current: Option<nat>, items: seq<HeadlineItem>)
      modifies this`links, c`ops
      ensures links == old(links) + YearColumnsLinks(y, startMonth, current)
      ensures c.ops == old(c.ops) + YearColumnsOps(y, startMonth, current, items)
    {
      var i := 0;
      while i < 3
        invariant i <= YearColumnCount(startMonth)
        invariant links == old(links) + Flatten(YearColumnLinksList(y, startMonth, current)[..i])
        invariant c.ops == old(c.ops) + Flatten(YearColumnOpsList(y, startMonth, current, items)[..i])
      {
        var monthIndex := startMonth + i - 1;
        if monthIndex >= 12 {
          break;
        }
        DrawColumnAt(c, y, startMonth, current, items, i, old(links), old(c.ops));
        i := i + 1;
      }
      FlattenWhole(YearColumnOpsList(y, startMonth, current, items));
      FlattenWhole(YearColumnLinksList(y, startMonth, current));
    }

    /** Column `i` of the loop of `YearlyOverviewPage.render`, drawn after the
        columns before it. */
    method DrawColumnAt(c: Canvas, y: Year, startMonth: Month, current: Option<nat>, items: seq<HeadlineItem>,
                        i: nat, ghost linkBase: seq<Link>, ghost opsBase: seq<DrawOp>)
      requires i < YearColumnCount(startMonth)
      requires links == linkBase + Flatten(YearColumnLinksList(y, startMonth, current)[..i])
      requires c.ops == opsBase + Flatten(YearColumnOpsList(y, startMonth, current, items)[..i])
      modifies this`links, c`ops
      ensures links == linkBase + Flatten(YearColumnLinksList(y, startMonth, current)[..i + 1])
      ensures c.ops == opsBase + Flatten(YearColumnOpsList(y, startMonth, current, items)[..i + 1])
    {
      DrawMonthColumn(c, i, y, startMonth + i, current, items);
      YearColumnStep(opsBase, linkBase, y, startMonth, current, items, i, startMonth + i);
    }

    /** `_draw_month_column`. */
    method DrawMonthColumn(c: Canvas, col: nat, y: Year, m: Month, current: Option<nat>, items: seq<HeadlineItem>)
      modifies this`links, c`ops
      ensures links == old(links) + YearColumnLinks(col, y, m, current)
      ensures c.ops == old(c.ops) + YearColumnOps(col, y, m, current, items)
    {
      ghost var dayOps := YearDayOpsList(col, y, m, current, items);
      ghost var dayLinks := YearDayLinksList(col, y, m, current);
      var numDays := DaysInMonth(y, m);
      for day := 1 to numDays + 1
        invariant links == old(links) + Flatten(dayLinks[..day - 1])
        invariant c.ops == old(c.ops) + Flatten(dayOps[..day - 1])
      {
        assert dayOps[day - 1] == YearDayOps(col, y, m, current, items, day);
        assert dayLinks[day - 1] == YearDayLinks(col, y, m, current, day);
        DrawYearDay(c, col, y, m, current, items, day);
        FlattenAppendStep(old(c.ops), dayOps, day - 1);
        FlattenAppendStep(old(links), dayLinks, day - 1);
      }
      FlattenWhole(dayOps);
      FlattenWhole(dayLinks);
    }

    /** One pass of the loop of `_draw_month_column`. */
    method DrawYearDay(c: Canvas, col: nat, y: Year, m: Month, current: Option<nat>, items: seq<HeadlineItem>,
                       day: nat)
      requires 1 <= day <= DaysInMonth(y, m)
      modifies this`links, c`ops
      ensures links == old(links) + YearDayLinks(col, y, m, current, day)
      ensures c.ops == old(c.ops) + YearDayOps(col, y, m, current, items, day)
    {
      var firstDay: Date := YMD(y, m, 1);
      var currentDate: Date := YMD(y, m, day);
      var weekday := Weekday(currentDate);
      var rowIdx := (day - 1) + Weekday(firstDay);
      c.Draw(YearDay(col, rowIdx, day, weekday >= 5, current == Some(m)));
      if current == Some(m) {
        AddLink(YearDayCell(col, rowIdx), DayAnchor(currentDate, Schedule));
      }
      var itemsForDay := Filter(OnDate(currentDate), items);
      ghost var cell := [YearDay(col, rowIdx, day, weekday >= 5, current == Some(m))];
      ghost var item := if itemsForDay != [] then [YearItem(col, rowIdx, TruncateYearItem(itemsForDay[0].text))] else [];
      ghost var weekNumber := if weekday == 0 then [YearWeekNumber(col, rowIdx, IsoWeek(currentDate))] else [];
      if itemsForDay != [] {
        c.Draw(YearItem(col, rowIdx, TruncateYearItem(itemsForDay[0].text)));
      }
      if weekday == 0 {
        c.Draw(YearWeekNumber(col, rowIdx, IsoWeek(currentDate)));
      }
      assert c.ops == old(c.ops) + cell + item + weekNumber;
      AppendAssoc(old(c.ops), cell, item);
      AppendAssoc(old(c.ops), cell + item, weekNumber);
    }

    /** `MonthlyOverviewPage.render`: row by row over `monthcalendar`, a
        badge for a leading partial week, then one number and one link per
        day. */
    method RenderMonthly(c: Canvas)
      requires kind.MonthlyOverviewPage?
      modifies this`links, c`ops
      ensures links == old(links) + PageLinks(kind)
      ensures c.ops == old(c.ops) + PageOps(kind)
    {
      c.Draw(BookmarkPage(bookmarkName));
      DrawMonthGrid(c, kind.year, kind.month);
      var y, m := kind.year, kind.month;
      AppendAssoc(old(c.ops), [BookmarkPage(bookmarkName)], MonthBadgeOps(y, m));
      AppendAssoc(old(c.ops), [BookmarkPage(bookmarkName)] + MonthBadgeOps(y, m), MonthDayOps(y, m, DaysInMonth(y, m)));
      AppendAssoc(old(links), MonthBadgeLinks(y, m), MonthDayLinks(y, m, DaysInMonth(y, m)));
    }

    /** The rows of `monthcalendar`: a badge for a leading partial week,
        then one number and one link per day. */
    method DrawMonthGrid(c: Canvas, y: Year, m: Month)
      modifies this`links, c`ops
      ensures links == old(links) + MonthBadgeLinks(y, m) + MonthDayLinks(y, m, DaysInMonth(y, m))
      ensures c.ops == old(c.ops) + MonthBadgeOps(y, m) + MonthDayOps(y, m, DaysInMonth(y, m))
    {
      ghost var first := Weekday(YMD(y, m, 1));
      ghost var n := DaysInMonth(y, m);
      ghost var linkBase := old(links) + MonthBadgeLinks(y, m);
      ghost var opsBase := old(c.ops) + MonthBadgeOps(y, m);
      var cal := MonthCalendar(y, m);
      for w := 0 to |cal|
        invariant w == 0 ==> links == old(links) && c.ops == old(c.ops)
        invariant w > 0 ==> links == linkBase + MonthDayLinks(y, m, DaysPlaced(7 * w, first, n))
        invariant w > 0 ==> c.ops == opsBase + MonthDayOps(y, m, DaysPlaced(7 * w, first, n))
      {
        var week := cal[w];
        if week[0] == 0 {
          DrawMonthBadge(c, y, m, week);
        } else if w == 0 {
          MonthBadgeAbsent(y, m);
        }
        if w == 0 {
          assert links == linkBase + MonthDayLinks(y, m, 0);
          assert c.ops == opsBase + MonthDayOps(y, m, 0);
        }
        DrawMonthWeek(c, y, m, w, week, linkBase, opsBase);
      }
      assert DaysPlaced(7 * |cal|, first, n) == n;
    }

    /** The badge of a leading partial week: the weekday loop finds the
        1st, which is walked back to its Monday. */
    method DrawMonthBadge(c: Canvas, y: Year, m: Month, week: seq<nat>)
      requires |MonthCalendar(y, m)| > 0 && week == MonthCalendar(y, m)[0] && week[0] == 0
      modifies this`links, c`ops
      ensures links == old(links) + MonthBadgeLinks(y, m)
      ensures c.ops == old(c.ops) + MonthBadgeOps(y, m)
    {
      ghost var first := Weekday(YMD(y, m, 1));
      assert first > 0;
      var k := 0;
      while week[k] == 0
        invariant k <= first
        decreases first - k
      {
        k := k + 1;
      }
      assert week[k] == 1;
      var firstDayOfWeek := WalkBackToMonday(YMD(y, m, week[k]));
      var weekNum := IsoWeek(firstDayOfWeek);
      c.Draw(WeekBadgeText(weekNum));
      AddLink(WeekBadgeArea(0), WeekAnchor(y, weekNum));
    }

    /** The day loop over one row of `monthcalendar`: every nonzero cell
        gets its number and a link to that day's schedule page. */
    method DrawMonthWeek(c: Canvas, y: Year, m: Month, w: nat, week: seq<nat>,
                         ghost linkBase: seq<Link>, ghost opsBase: seq<DrawOp>)
      requires w < |MonthCalendar(y, m)| && week == MonthCalendar(y, m)[w]
      requires links == linkBase + MonthDayLinks(y, m, DaysPlaced(7 * w, Weekday(YMD(y, m, 1)), DaysInMonth(y, m)))
      requires c.ops == opsBase + MonthDayOps(y, m, DaysPlaced(7 * w, Weekday(YMD(y, m, 1)), DaysInMonth(y, m)))
      modifies this`links, c`ops
      ensures links == linkBase + MonthDayLinks(y, m, DaysPlaced(7 * (w + 1), Weekday(YMD(y, m, 1)), DaysInMonth(y, m)))
      ensures c.ops == opsBase + MonthDayOps(y, m, DaysPlaced(7 * (w + 1), Weekday(YMD(y, m, 1)), DaysInMonth(y, m)))
    {
      ghost var first := Weekday(YMD(y, m, 1));
      ghost var n := DaysInMonth(y, m);
      ghost var placed := DaysPlaced(7 * w, first, n);
      for col := 0 to 7
        invariant placed == DaysPlaced(7 * w + col, first, n)
        invariant links == linkBase + MonthDayLinks(y, m, placed)
        invariant c.ops == opsBase + MonthDayOps(y, m, placed)
      {
        var day := week[col];
        if day != 0 {
          assert day == 7 * w + col - first + 1 == placed + 1;
          MonthDayStep(y, m, day, w, col);
          c.Draw(MonthDayNumber(w, col, day));
          AddLink(MonthDayCell(w, col), DayAnchor(YMD(y, m, day), Schedule));
          AppendAssoc(opsBase, MonthDayOps(y, m, placed), [MonthDayNumber(w, col, day)]);
          AppendAssoc(linkBase, MonthDayLinks(y, m, placed), [Link(MonthDayCell(w, col), DayAnchor(YMD(y, m, day), Schedule))]);
          placed := day;
        }
      }
    }

    /** `WeeklyPage.render` with `_draw_events`. */
    method RenderWeekly(c: Canvas)
      requires kind.WeeklyPage?
      modifies this`links, c`ops
      ensures links == old(links) + PageLinks(kind)
      ensures c.ops == old(c.ops) + PageOps(kind)
    {
      c.Draw(BookmarkPage(bookmarkName));
      AddLink(NotesButton, NotesAnchor);
      DrawWeekEvents(c, kind.weekStart, kind.events);
      AppendAssoc(old(c.ops), [BookmarkPage(bookmarkName)], WeekEventOps(kind.weekStart, kind.events));
    }

    /** `WeeklyPage._draw_events`: timed events of the week's seven days
        that start between 05:00 and 22:59. */
    method DrawWeekEvents(c: Canvas, weekStart: Date, events: seq<EventView>)
      modifies c`ops
      ensures c.ops == old(c.ops) + WeekEventOps(weekStart, events)
    {
      for i := 0 to |events|
        invariant c.ops == old(c.ops) + WeekEventOps(weekStart, events[..i])
      {
        FilterMapStep(ShownInWeek(weekStart), WeekEventBlockOf(weekStart), events, i);
        ghost var drawn := if ShownInWeek(weekStart)(events[i]) then [WeekEventBlockOf(weekStart)(events[i])] else [];
        DrawWeekEvent(c, weekStart, events[i]);
        AppendAssoc(old(c.ops), WeekEventOps(weekStart, events[..i]), drawn);
      }
      assert events[..|events|] == events;
    }

    /** One pass of the loop of `_draw_events`: an all-day event is
        skipped, a timed one is drawn when its day is in the week and it
        starts between 05:00 and 22:59. */
    method DrawWeekEvent(c: Canvas, weekStart: Date, event: EventView)
      modifies c`ops
      ensures c.ops == old(c.ops) + (if ShownInWeek(weekStart)(event) then [WeekEventBlockOf(weekStart)(event)] else [])
    {
      if event.isAllDay {
        return;
      }
      var daysFromStart: int := Ordinal(event.start.date) - Ordinal(weekStart);
      if 0 <= daysFromStart < 7 {
        var startHour: int := event.start.hour;
        var startMinute: int := event.start.minute;
        var endHour: int := event.end.hour;
        var endMinute: int := event.end.minute;
        if startHour >= 5 && startHour < 23 {
          var startRow := (startHour - 5) * 2 + (if startMinute >= 30 then 1 else 0);
          var durationMinutes := (endHour * 60 + endMinute) - (startHour * 60 + startMinute);
          var lbl := event.labelText;
          if |lbl| > 15 {
            lbl := lbl[..12] + "...";
          }
          c.Draw(WeekEventBlock(daysFromStart, startRow, durationMinutes, lbl));
        }
      }
    }

    /** `_draw_daily_header`, shared by both day pages. */
    method DrawDailyHeader(d: Date)
      modifies this`links
      ensures links == old(links) + HeaderLinks(d)
    {
      AddLink(HeaderMonth, MonthAnchor(d.year, d.month));
      var yearPageNum := Quarter(d.month);
      AddLink(HeaderYear, YearAnchor(d.year, yearPageNum));
      AddLink(NotesButton, NotesAnchor);
    }

    /** `DailySchedulePage.render` with `_draw_events`. */
    method RenderSchedule(c: Canvas)
      requires kind.DailySchedulePage?
      modifies this`links, c`ops
      ensures links == old(links) + PageLinks(kind)
      ensures c.ops == old(c.ops) + PageOps(kind)
    {
      c.Draw(BookmarkPage(bookmarkName));
      DrawDailyHeader(kind.date);
      DrawDayEvents(c, kind.events);
      AppendAssoc(old(c.ops), [BookmarkPage(bookmarkName)], DayEventOps(kind.events));
    }

    /** `DailySchedulePage._draw_events`: timed events that start between
        05:00 and 22:59. */
    method DrawDayEvents(c: Canvas, events: seq<EventView>)
      modifies c`ops
      ensures c.ops == old(c.ops) + DayEventOps(events)
    {
      for i := 0 to |events|
        invariant c.ops == old(c.ops) + DayEventOps(events[..i])
      {
        var event := events[i];
        FilterMapStep(ShownOnDay, DayEventBlockOf, events, i);
        if event.isAllDay {
          continue;
        }
        var startHour: int := event.start.hour;
        var startMinute: int := event.start.minute;
        var endHour: int := event.end.hour;
        var endMinute: int := event.end.minute;
        if startHour >= 5 && startHour < 23 {
          var offset := (startHour - 5) * 60 + startMinute;
          var duration := (endHour - startHour) * 60 + (endMinute - startMinute);
          c.Draw(DayEventBlock(offset, duration, event.labelText));
        }
      }
      assert events[..|events|] == events;
    }

    /** `DailyTasksPage.render`: the header, then at most two headlines and
        at most eight tasks. */
    method RenderTasks(c: Canvas)
      requires kind.DailyTasksPage?
      modifies this`links, c`ops
      ensures links == old(links) + PageLinks(kind)
      ensures c.ops == old(c.ops) + PageOps(kind)
    {
      c.Draw(BookmarkPage(bookmarkName));
      DrawDailyHeader(kind.date);
      DrawHeadlines(c, kind.headlines);
      DrawTasks(c, kind.tasks);
      AppendAssoc(old(c.ops), [BookmarkPage(bookmarkName)], HeadlineLines(kind.headlines));
      AppendAssoc(old(c.ops), [BookmarkPage(bookmarkName)] + HeadlineLines(kind.headlines), TaskLines(kind.tasks));
    }

    /** `_draw_headline_section`: at most two headlines; nothing when there
        are none. */
    method DrawHeadlines(c: Canvas, headlines: seq<DayHeadline>)
      modifies c`ops
      ensures c.ops == old(c.ops) + HeadlineLines(headlines)
    {
      if headlines != [] {
        var shown := headlines[..Min(|headlines|, MaxHeadlines)];
        for i := 0 to |shown|
          invariant c.ops == old(c.ops) + HeadlineLines(headlines)[..i]
        {
          c.Draw(HeadlineLine(i, "- " + shown[i].text));
          assert HeadlineLines(headlines)[..i + 1] == HeadlineLines(headlines)[..i] + [HeadlineLine(i, "- " + shown[i].text)];
        }
        assert HeadlineLines(headlines)[..|shown|] == HeadlineLines(headlines);
      }
    }

    /** `_draw_tasks_section`: the first eight tasks. */
    method DrawTasks(c: Canvas, tasks: seq<TaskView>)
      modifies c`ops
      ensures c.ops == old(c.ops) + TaskLines(tasks)
    {
      var shownTasks := tasks[..Min(|tasks|, MaxTasks)];
      for i := 0 to |shownTasks|
        invariant c.ops == old(c.ops) + TaskLines(tasks)[..i]
      {
        c.Draw(TaskLine(i, "[ ] " + shownTasks[i].text));
        assert TaskLines(tasks)[..i + 1] == TaskLines(tasks)[..i] + [TaskLine(i, "[ ] " + shownTasks[i].text)];
      }
      assert TaskLines(tasks)[..|shownTasks|] == TaskLines(tasks);
    }
  }
}
