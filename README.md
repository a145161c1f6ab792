# Planner composition engine, in Dafny

This project models the core of a generator for a paginated, cross-linked
personal planner (one PDF per month, for an e-ink tablet). The model has
three parts:

- **Data aggregation** (`data_processor.dfy`, module `DataProcessor`). Raw
  Todoist task records and Google Calendar event records become the lists
  the pages draw:
  - the tasks of a day, without the tasks that duplicate an event of that day;
  - the events of a day and of a week;
  - the headline events of a day;
  - the year's headline items, merged and sorted by date.

  The service queries are inputs (`Sources`): total functions from dates to
  record lists. A failed holiday query is `None`.
- **Pages** (`pages.dfy`, module `Pages`). `PlannerPage` is a class:
  - a bookmark name fixed by the constructor;
  - a page number that starts unset;
  - a `links` sequence that only grows, through `AddLink`.

  Rendering is a method per page type. Each one records the layout-relevant
  marks on a `Canvas` class (a sequence of draw operations) and requests
  links by bookmark name. Each method is proved against a specification
  function (`PageOps`, `PageLinks`) of the page's kind. The integer layout
  rules are functions with their properties:
  - the yearly grid row;
  - the weekly half-hour slot;
  - the 05:00–23:00 window;
  - label truncation;
  - the month-to-quarter map.
- **Document assembly and linking** (`cal_generator.dfy`, module `Generator`).
  This follows `generate_monthly_planner`:
  - the week-start loops;
  - the page list: 4 yearly pages, the monthly page, one weekly page per week
    start, a schedule and a tasks page per day, 10 notes pages;
  - numbering from 1;
  - the bookmark dictionary, where a later page with the same name wins;
  - the link pass, which keeps only links whose destination is a key.

  Lemmas say where every link leads. Day, month, quarter and notes links all
  resolve. The January week badge does not resolve when January 1 is not a
  Monday. The reason is that the badge is named with the monthly page's own
  year (pages.py:228), while the weekly page is named with its start date's
  year (pages.py:253). The model keeps this behaviour as written
  (`JanuaryBadgeUnresolved`, `January2026Badge`).

Supporting modules:

- `Calendar` (`calendar.dfy`) is the proleptic Gregorian calendar as Python's
  `datetime` and `calendar` see it:
  - day ordinals;
  - weekday with Monday = 0;
  - moving by days;
  - `monthcalendar`;
  - the ISO 8601 week number (ISO 8601:2004, section 3.2.2), computed with
    Python's `isocalendar` algorithm.
- `Text` (`text.dfy`) has decimal and zero-padded number rendering, ASCII
  case folding and character classes, `strip`, `join` and substring search.
- `Lists` (`lists.dfy`) has back-recursive map and filter, a flatten, a
  tabulate, and the last-occurrence dictionary.

Behaviour of the code worth knowing, which the model keeps:

- The weekly grid's slot is `start_row = 2*(hour-5) + (minute >= 30)`
  (pages.py:339), counted from 05:00, so an event at 14:00 starts in slot 18.
- All ten notes pages are named `notes` (pages.py:626). The bookmark
  dictionary keeps the last page with a name, so `notes` maps to the tenth
  notes page, while only the first notes page places the bookmark.
- A link is annotated with its bookmark name. The looked-up page number
  (`dest_page`, cal_generator.py:71) is computed and never used.

## Model

| member | source | states |
|---|---|---|
| DataProcessor.FormatTaskLabels | data_processor.py:12-23 | the loop's result is the labels' `@` tags joined by single spaces, time tags first |
| DataProcessor.LabelTagsPermutation | data_processor.py:17-23 | the tags are exactly the labels reordered (same multiset), time labels first, each group in input order |
| DataProcessor.LabelStringEmptyIff | data_processor.py:23 | the label string is empty exactly when there are no labels |
| Text.Strip | data_processor.py:27 | the `strip()` result is no longer than its input and neither starts nor ends with whitespace |
| Text.StripCutsOnlySpace | data_processor.py:27 | `strip()` cuts only whitespace: the result is a slice of the input, and everything before and after it is whitespace |
| Text.StripKeepsChars | data_processor.py:27 | every character of the `strip()` result is one of its input |
| DataProcessor.NormalizeText | data_processor.py:25-27 | the normalised text has no whitespace at either end |
| DataProcessor.NormalizeTextChars | data_processor.py:25-27 | the normalised text holds only word characters and whitespace, none upper-case (no punctuation) |
| DataProcessor.NormalizeTextIdempotent | data_processor.py:25-27 | normalising twice equals normalising once |
| DataProcessor.StripKeepsWords | data_processor.py:27 | stripping keeps every word character, in order |
| DataProcessor.NormalizeTextKeepsWords | data_processor.py:25-27 | the normalised text keeps every word character of the lower-cased text, in order; only punctuation and whitespace go |
| DataProcessor.IsTaskOnCalendar | data_processor.py:29-38 | true exactly when some event's normalised summary (missing reads as empty) equals the task's normalised content |
| DataProcessor.TaskViewText | data_processor.py:55-62 | priority defaults to 1; the text starts with the content and equals it exactly when the task has no labels |
| DataProcessor.FormatTask | data_processor.py:55-63 | the record built for a kept task is `TaskViewOf` of it |
| DataProcessor.DailyTasksKeeps | data_processor.py:53-54 | a task is kept exactly when it is an input task not on the day's calendar |
| DataProcessor.DailyTasksWithoutEvents | data_processor.py:47-65 | with no events every task is kept, in order |
| DataProcessor.GetDailyTasks | data_processor.py:47-65 | the result is the order-preserving filtered map `DailyTasks` of the day's tasks and events |
| DataProcessor.ParseEventTime | data_processor.py:40-45 | a `dateTime` is kept as is; a bare `date` is that date at 00:00 |
| DataProcessor.EventViewOf | data_processor.py:73-83 | all-day exactly when `start` is a bare date; label is the summary or `Untitled`; start and end parsed |
| DataProcessor.FormatEvents | data_processor.py:71-83 | one record per event, same length, record `i` built from event `i` |
| DataProcessor.GetDailyEvents | data_processor.py:67-85 | the day's events mapped one-for-one in input order |
| DataProcessor.WeekEnd | data_processor.py:89 | the week's end is six days after its start |
| DataProcessor.GetWeeklyEvents | data_processor.py:87-104 | the events from the week start to six days later, mapped one-for-one in input order |
| DataProcessor.DayHeadlinesSelect | data_processor.py:158-165 | every entry is of kind event and comes from a headline event; every headline event is listed |
| DataProcessor.GetHeadlineEventsForDay | data_processor.py:154-167 | the result is the order-preserving filter of the day's events on `@headline` in the lowercased description |
| DataProcessor.EventItemsInYear | data_processor.py:121-130 | every event item is of kind event and dated in the year |
| DataProcessor.EventItemsComplete | data_processor.py:121-130 | every headline event starting in the year is listed |
| DataProcessor.TaskItemsInYear | data_processor.py:140-149 | every task item is of kind task and due in the year |
| DataProcessor.TaskItemsComplete | data_processor.py:140-149 | every headline-labelled task due in the year is listed |
| DataProcessor.SortByDatePermutes | data_processor.py:151 | the sort loses and invents nothing (same multiset) |
| DataProcessor.SortByDateSorted | data_processor.py:151 | the sorted list's dates never decrease |
| DataProcessor.SortByDateStable | data_processor.py:151 | items with the same date keep their relative order |
| DataProcessor.YearlyItemsSorted | data_processor.py:119-152 | the yearly list is date-ordered and a permutation of the collected items |
| DataProcessor.YearlyItemsOnDate | data_processor.py:119-152 | on any date: the events, then the holidays, then the tasks, each in fetch order |
| DataProcessor.YearlyItemsWithoutHolidays | data_processor.py:112-115 | when the holiday query raises, no item is a holiday |
| DataProcessor.GetYearlyOverviewItems | data_processor.py:106-152 | the three loops and the sort give `YearlyItems`: events in range, every holiday, headline tasks due in range, sorted |
| Calendar.DaysInMonth | cal_generator.py:32 | a month has 28 to 31 days |
| Calendar.MonthLengths | cal_generator.py:32 | February has 29 days exactly in leap years and 28 otherwise; April, June, September and November have 30; exactly the other seven months have 31 |
| Calendar.DaysBeforeMonthStep | cal_generator.py:32 | the month lengths add up: each month starts where the previous one ends, and December ends at the year's length |
| Calendar.OrdinalInjective | data_processor.py:125 | two dates with the same ordinal are equal, so comparing ordinals is comparing dates |
| Calendar.WithinYearIff | data_processor.py:125 | a date lies between January 1 and December 31 exactly when its year is that year |
| Calendar.AddDays | cal_generator.py:41 | moving by `n` days moves the ordinal by `n` |
| Calendar.WeekdayAfter | cal_generator.py:35-36 | moving by `n` days moves the weekday by `n` modulo 7 |
| Calendar.WalkBackToMonday | pages.py:217-218 | the walk-back loop ends on the Monday on or before its start, at most six days earlier |
| Calendar.IsoWeekRange | pages.py:251 | every date's ISO week number is 1 to 53 |
| Calendar.IsoWeek1MondayHoldsJanuary4 | pages.py:251 | ISO week 1 starts on the Monday of the week holding January 4 |
| Calendar.IsoYearLength | pages.py:251 | consecutive ISO years are 52 or 53 weeks apart |
| Calendar.IsoWeekAtYearEnd | pages.py:220 | the Monday opening the next ISO year is in week 1; the Monday before is in week 52 or 53 |
| Calendar.MonthCalendar | pages.py:188 | `monthcalendar`: 4 to 6 Monday-first weeks of 7; a cell is non-zero exactly inside the month, numbered consecutively |
| Calendar.MonthCalendarHoldsDay | pages.py:209-242 | every day of the month sits at the row and column its offset from the 1st's weekday gives |
| Calendar.MonthCalendarColumnIsWeekday | pages.py:230 | a day's column in the grid is its weekday |
| Pages.YearNameInjective | pages.py:43 | `year_{y}_page{n}` fixes both `y` and `n` |
| Pages.MonthNameInjective | pages.py:169 | `month_{y}_{mm}` fixes both `y` and `mm` |
| Pages.WeekNameInjective | pages.py:253 | `week_{y}_W{ww}` fixes both `y` and `ww` |
| Pages.DayNameInjective | pages.py:366 | the day names fix the date and the section, so a day's schedule and tasks pages never share a name |
| Pages.NameInjective | cal_generator.py:63 | distinct bookmarks have distinct formatted names, so a dictionary keyed by names is one keyed by bookmarks |
| Pages.BookmarkKinds | pages.py:626 | each page class carries its own kind of name; every notes page is named `notes` |
| Pages.Quarter | pages.py:410 | `((m-1)//3)+1` lies in 1..4, and the month is among that yearly page's three months |
| Pages.YearlyPageMonths | cal_generator.py:25-27 | yearly page `q` shows three months, starting at `3(q-1)+1`; it holds month `m` exactly when `q` is `m`'s quarter |
| Pages.YearRowIndex | pages.py:126 | `row_idx` is at most 36, and row mod 7 is the day's weekday (its `day_labels` letter) |
| Pages.TruncateYearItem | pages.py:152-153 | a text longer than 20 becomes its first 19 characters plus `..` (length 21); shorter texts are unchanged |
| Pages.TruncateWeekLabel | pages.py:353-354 | a label longer than 15 becomes its first 12 characters plus `...` (length 15); shorter ones are unchanged |
| Pages.StartRow | pages.py:339 | the slot holds the start time in 30-minute steps from 05:00; starts from 05:00 to 22:59 give slots 0..35 |
| Pages.YearColumnLinksShape | pages.py:122-145 | in the current month a column has one link per day, in day order, to that day's schedule page; otherwise none |
| Pages.YearlyLinksOnlyCurrentMonth | pages.py:101-145 | a yearly page's links are exactly those of the current month's column, or none when that month is not shown |
| Pages.YearlyLinksCoverCurrentMonth | pages.py:141-145 | when the current month is shown, day `i+1` gets the `i`-th link, to its schedule page |
| Pages.MonthBadgeAbsent | pages.py:210-211 | a month starting on a Monday gets no week badge |
| Pages.MonthDayLinksAt | pages.py:230-242 | the monthly page's `i`-th day link covers day `i+1`'s cell and leads to its schedule page |
| Pages.MonthlyLinksCoverDays | pages.py:230-242 | each day has exactly one day link, in the cell where `monthcalendar` puts it |
| Pages.WeekEventsPlaced | pages.py:325-356 | drawn events are exactly the timed ones within the 7 days starting 05:00–22:59, in order, with column 0..6, slot 0..35 and label at most 15 |
| Pages.DayEventsPlaced | pages.py:455-481 | drawn events are exactly the timed ones starting 05:00–22:59, in order, within the 18-hour grid |
| Pages.HeadlineLines | pages.py:581-583 | at most two headline lines: the first headlines, in order |
| Pages.TaskLines | pages.py:608-620 | at most eight task lines: the first tasks, in order |
| Pages.PageBookmarks | pages.py:629-631 | each page places its own bookmark first and no other; notes pages after the first place none |
| Pages.PlannerPage.constructor | pages.py:23-26 | a new page has its bookmark name, no page number and no links |
| Pages.PlannerPage.AddLink | pages.py:28-33 | appends exactly one `{rect, dest}` entry; earlier entries and the page number are unchanged |
| Pages.PlannerPage.Render | pages.py:35-37 | links become old links plus `PageLinks(kind)`, the canvas gains `PageOps(kind)`, the page number is untouched |
| Pages.PlannerPage.RenderYearly | pages.py:50-114 | the bookmark, then the month columns, up to December |
| Pages.PlannerPage.DrawMonthColumns | pages.py:101-114 | the columns in order, stopping after December |
| Pages.PlannerPage.DrawMonthColumn | pages.py:116-163 | the days of the month in order, each with its marks and, in the current month, its link |
| Pages.PlannerPage.DrawYearDay | pages.py:122-163 | the day's cell, its link only in the current month, its first item truncated, the ISO week on Mondays |
| Pages.PlannerPage.RenderMonthly | pages.py:173-244 | the bookmark, the badge of a leading partial week, then each day's number and link |
| Pages.PlannerPage.DrawMonthGrid | pages.py:209-242 | the badge and the day cells and links, row by row over `monthcalendar` |
| Pages.PlannerPage.DrawMonthBadge | pages.py:212-228 | the badge's week number is the ISO week of the Monday before the 1st; its link names the page's own year |
| Pages.PlannerPage.DrawMonthWeek | pages.py:230-242 | every non-zero cell of a row gets its number and one schedule link |
| Pages.PlannerPage.RenderWeekly | pages.py:255-274 | the bookmark, a link to `notes`, then the events |
| Pages.PlannerPage.DrawWeekEvents | pages.py:321-356 | draws `WeekEventOps`, the visibility filter mapped to blocks in input order |
| Pages.PlannerPage.DrawWeekEvent | pages.py:325-356 | an event is drawn only when timed, within the 7 days and starting 05:00–22:59, at its slot with its duration |
| Pages.PlannerPage.DrawDailyHeader | pages.py:379-423 | exactly three links, in order: the month page, the quarter's yearly page, `notes` |
| Pages.PlannerPage.RenderSchedule | pages.py:368-377 | the bookmark, the header links, then the visible events |
| Pages.PlannerPage.DrawDayEvents | pages.py:451-481 | draws `DayEventOps`: timed events starting 05:00–22:59, in order, at their minute offset with their duration |
| Pages.PlannerPage.RenderTasks | pages.py:494-520 | the bookmark, the header links, at most two headlines, at most eight tasks |
| Pages.PlannerPage.DrawHeadlines | pages.py:568-583 | draws `HeadlineLines`, and nothing when there are no headlines |
| Pages.PlannerPage.DrawTasks | pages.py:599-620 | draws `TaskLines`, the first eight tasks |
| Generator.WeekStartsShape | cal_generator.py:34-41 | the first start is the Monday on or before the 1st; starts are Mondays, 7 days apart, none after the last day |
| Generator.WeekStartsEnd | cal_generator.py:39-41 | the start after the last one would fall after the month's last day |
| Generator.WeekCountIsGridRows | cal_generator.py:38-41 | there are as many week starts as rows in the month's `monthcalendar` |
| Generator.EnumerateWeekStarts | cal_generator.py:31-41 | the two loops produce exactly `WeekStarts` |
| Generator.AddYearlyPages | cal_generator.py:23-27 | four fresh yearly pages with start months 1, 4, 7, 10 and page numbers 1..4 |
| Generator.AddWeeklyPages | cal_generator.py:43-45 | one fresh weekly page per week start, with that week's events |
| Generator.AddDayPages | cal_generator.py:47-55 | for each day in order, its schedule page then its tasks page |
| Generator.AddNotesPages | cal_generator.py:57-58 | ten fresh notes pages numbered 1..10 |
| Generator.Sections | cal_generator.py:25-58 | the page list, section by section: yearly, monthly, weekly, day pairs, notes |
| Generator.BuildPages | cal_generator.py:21-58 | `4 + 1 + |week starts| + 2*days + 10` fresh, distinct, unnumbered, unlinked pages of the listed kinds |
| Generator.NumberPages | cal_generator.py:60-61 | page `j` gets number `j+1`, nothing else changes |
| Generator.BuildBookmarkMap | cal_generator.py:63 | the dictionary comprehension gives `BookmarkMap`, the last-occurrence map of the names |
| Generator.BookmarkMapKeys | cal_generator.py:63 | a name is a key exactly when some page carries it |
| Generator.BookmarkMapLastWins | cal_generator.py:63 | a name maps to the number of the last page carrying it |
| Generator.ResolvedLinkOpsAre | cal_generator.py:68-73 | the link pass keeps exactly the links whose destination is a key, in order, with rect and dest |
| Generator.EmitLinks | cal_generator.py:68-73 | the loop annotates exactly the resolvable links, in order, dropping the rest silently |
| Generator.RenderPage | cal_generator.py:65-75 | one page: its drawing, its resolvable links, the page break |
| Generator.RenderPages | cal_generator.py:65-75 | the canvas gains every page's output in page order; each page keeps its number and holds its links |
| Generator.GenerateMonthlyPlanner | cal_generator.py:13-77 | the pages in order, numbered from 1, with their links, and the canvas holding each page's drawing, resolvable links and page break |
| Generator.NotesMapsToLastPage | cal_generator.py:57-63 | `notes` maps to the last page, the tenth notes page |
| Generator.OverviewBookmarks | cal_generator.py:25-29 | the month's name maps to page 5; quarter `q`'s name maps to page `q` |
| Generator.DayBookmarksResolve | cal_generator.py:47-63 | both names of every day of the month are keys, mapping to that day's two pages |
| Generator.DocumentLinksResolve | cal_generator.py:63-73 | every link whose destination is not a week name resolves |
| Generator.OtherPagesDrawAllLinks | cal_generator.py:65-73 | every page except the monthly one gets every link it requests |
| Generator.MonthlyPageDrawsDayLinks | pages.py:240-242 | the monthly page gets all its day links |
| Generator.MonthBadgeResolves | pages.py:227-228 | outside January the week badge link resolves |
| Generator.JanuaryWeekNumbers | pages.py:251 | the ISO weeks of the January week starts, by the 1st's weekday |
| Generator.JanuaryBadgeAsks | pages.py:228 | when January 1 is a Tuesday to Thursday, the badge asks for week 1 of the month's year |
| Generator.JanuaryFirstPageName | pages.py:253 | then the first weekly page is named week 1 of the previous year |
| Generator.JanuaryBadgeUnresolved | pages.py:227-228 | when January 1 is not a Monday, the badge's destination is no key, so the link pass drops it |
| Generator.January2026Badge | pages.py:228 | January 2026: the badge asks for `week_2026_W01`, the first weekly page is `week_2025_W01`, the badge does not resolve |

## Left out

- Network and credentials: the Todoist and Google Calendar clients, OAuth tokens and the retry on 401 are not modelled. Their answers are the `Sources` inputs.
- Failing main queries: a failed task or event query raises in the source and ends the run. `Sources` are total functions, so only the holiday query's failure (`None`, read as no holidays) is modelled.
- Repeated queries: the source asks for a day's events three times. The model assumes each query gives the same answer every time.
- Parsing: `dateutil` parsing of dates and times, and time zones, are not modelled. Events and due dates arrive already parsed as dates and wall-clock times.
- Text semantics: `Lower`, `IsWordChar`, `IsSpace` and `Strip` use ASCII character classes. Python uses Unicode `str.lower`, `\w` and `\s`.
- Drawing: floating-point coordinates, `stringWidth` metrics, fonts, colours, grid lines, headings, time labels, the "Top 3 Priorities" and "Daily Summary" boxes and the notes dot grid are not modelled. A link's rectangle is the grid cell it covers, and only layout-relevant marks are recorded.
- PDF output: `linkAbsolute` internals, `canvas.save`, file naming, `os.makedirs`, printing and the loop over twelve months in `generate_full_year_planner` are not modelled.
- Remote sync: the SSH/SFTP transfer, device metadata files and service restart are not modelled, and neither are the exploratory scripts and configuration.
- DataProcessor.GetYearlyOverviewItems: the in-place `items.sort` is modelled as a stable insertion sort on the list value (`SortByDate`). Its result is proved sorted, a permutation and stable; the sort is not performed in place.
- Generator.EnumerateWeekStarts: years are unbounded here. Python's `date` stops at 9999, so for December 9999 the source raises `OverflowError` when it steps past the last week start, while the model returns the week list.
