/** The planner's data aggregation: raw Todoist task records and Google
    Calendar event records turned into the per-day, per-week and per-year
    lists the pages draw. The services' fetch calls are inputs (`Sources`);
    everything else is list filtering, mapping and one stable sort. */
module DataProcessor {
  import opened Text
  import opened Calendar
  import opened Lists

  datatype Option<T> = None | Some(value: T)

  type Hour = h: nat | h < 24
  type Minute = m: nat | m < 60

  /** A `datetime` as the pages read it: a date and a wall-clock time. */
  datatype Moment = Moment(date: Date, hour: Hour, minute: Minute)

  /** An event's `start` or `end` record: `{'date': …}` for an all-day event,
      `{'dateTime': …}` for a timed one, already parsed. */
  datatype EventTime = DateOnly(date: Date) | DateTime(at: Moment)

  /** A calendar event record; `summary` and `description` may be missing. */
  datatype RawEvent = RawEvent(summary: Option<string>, description: Option<string>,
                               start: EventTime, end: EventTime)

  /** A task record. `labels` and `priority` may be missing; `due` is the
      parsed due date when the record has a non-empty `due.date`. */
  datatype RawTask = RawTask(content: string, labels: Option<seq<string>>,
                             priority: Option<int>, due: Option<Date>)

  /** What the pages consume. */
  datatype TaskView = TaskView(text: string, priority: int)
  datatype EventView = EventView(labelText: string, start: Moment, end: Moment, isAllDay: bool)
  datatype ItemKind = EventItem | HolidayItem | TaskItem
  datatype HeadlineItem = HeadlineItem(date: Date, text: string, kind: ItemKind)
  datatype DayHeadline = DayHeadline(text: string, kind: ItemKind)

  /** The services the processor queries, as their answers: tasks due on a
      day, all open tasks, events of a day, events between two dates, and
      holidays between two dates (`None` when that query raises). */
  datatype Sources = Sources(
    tasksForDay: Date -> seq<RawTask>,
    allTasks: seq<RawTask>,
    eventsForDay: Date -> seq<RawEvent>,
    eventsBetween: (Date, Date) -> seq<RawEvent>,
    holidaysBetween: (Date, Date) -> Option<seq<RawEvent>>)

  function OrElse<T>(o: Option<T>, default: T): (r: T)
    ensures o.Some? ==> r == o.value
    ensures o.None? ==> r == default
  {
    if o.Some? then o.value else default
  }

  // ---------------------------------------------------------------- labels

  /** A duration label: one that mentions minutes or hours. */
  predicate IsTimeTag(lbl: string)
  {
    Contains(lbl, "min") || Contains(lbl, "hr")
  }

  predicate IsOtherTag(lbl: string)
  {
    !IsTimeTag(lbl)
  }

  function Tag(lbl: string): (t: string)
    ensures |t| == |lbl| + 1 && t[0] == '@' && t[1..] == lbl
  {
    "@" + lbl
  }

  /** The tags `format_task_labels` joins: time tags first, then the rest,
      each group in input order. */
  function LabelTags(labels: seq<string>): seq<string>
  {
    Map(Tag, Filter(IsTimeTag, labels)) + Map(Tag, Filter(IsOtherTag, labels))
  }

  function LabelString(labels: seq<string>): string
  {
    Join(" ", LabelTags(labels))
  }

  /** The tags are the labels, each prefixed with `@`, after a reordering
      that moves the time labels in front of the others: nothing is lost,
      nothing is added. */
  lemma LabelTagsPermutation(labels: seq<string>)
    ensures LabelTags(labels) == Map(Tag, Filter(IsTimeTag, labels) + Filter(IsOtherTag, labels))
    ensures multiset(Filter(IsTimeTag, labels) + Filter(IsOtherTag, labels)) == multiset(labels)
    ensures |LabelTags(labels)| == |labels|
  {
    var t, o := Filter(IsTimeTag, labels), Filter(IsOtherTag, labels);
    FilterSplit(IsTimeTag, IsOtherTag, labels);
    MapConcat(Tag, t, o);
    assert |multiset(t + o)| == |multiset(labels)|;
  }

  /** The label string is empty exactly when there are no labels. */
  lemma LabelStringEmptyIff(labels: seq<string>)
    ensures LabelString(labels) == "" <==> labels == []
  {
    var tags := LabelTags(labels);
    LabelTagsPermutation(labels);
    assert forall i :: 0 <= i < |tags| ==> tags[i][0] == '@';
    JoinEmptyIff(" ", tags);
  }

  /** `format_task_labels`: the loop that sorts labels into time tags and
      other tags, then joins them with single spaces. */
  method FormatTaskLabels(labels: seq<string>) returns (s: string)
    ensures s == LabelString(labels)
  {
    var timeTags: seq<string> := [];
    var otherTags: seq<string> := [];
    for i := 0 to |labels|
      invariant timeTags == Map(Tag, Filter(IsTimeTag, labels[..i]))
      invariant otherTags == Map(Tag, Filter(IsOtherTag, labels[..i]))
    {
      var lbl := labels[i];
      MapFilterStep(Tag, IsTimeTag, labels, i);
      MapFilterStep(Tag, IsOtherTag, labels, i);
      if IsTimeTag(lbl) {
        timeTags := timeTags + [Tag(lbl)];
      } else {
        otherTags := otherTags + [Tag(lbl)];
      }
    }
    assert labels[..|labels|] == labels;
    s := Join(" ", timeTags + otherTags);
  }

  // --------------------------------------------------------- normalisation

  predicate IsWordOrSpace(c: char)
  {
    IsWordChar(c) || IsSpace(c)
  }

  /** `normalize_text`: lower-case, drop every character that is neither a
      word character nor whitespace, strip the ends. */
  function NormalizeText(text: string): (r: string)
    ensures r == [] || (!IsSpace(r[0]) && !IsSpace(r[|r| - 1]))
  {
    Strip(Filter(IsWordOrSpace, Lower(text)))
  }

  /** The normalised text holds only lower-case word characters and
      whitespace. */
  lemma NormalizeTextChars(text: string)
    ensures forall i :: 0 <= i < |NormalizeText(text)| ==>
              IsWordOrSpace(NormalizeText(text)[i]) && !IsUpper(NormalizeText(text)[i])
  {
    var lowered := Lower(text);
    LowerHasNoUpper(text);
    var r := NormalizeText(text);
    forall i | 0 <= i < |r| ensures IsWordOrSpace(r[i]) && !IsUpper(r[i]) {
      assert r[i] in r;
      FilterMembership(IsWordOrSpace, lowered, r[i]);
    }
  }

  /** Normalising twice is normalising once. */
  lemma NormalizeTextIdempotent(text: string)
    ensures NormalizeText(NormalizeText(text)) == NormalizeText(text)
  {
    var r := NormalizeText(text);
    NormalizeTextChars(text);
    LowerIdentity(r);
    FilterKeepsAll(IsWordOrSpace, r);
    StripIdentity(r);
  }

  /** Cutting only whitespace from the ends keeps every word character, in
      order. */
  lemma SpaceFramedKeepsWords(s: string, r: string, a: nat)
    requires SpaceFramed(s, r, a)
    ensures Filter(IsWordChar, r) == Filter(IsWordChar, s)
  {
    FilterOfFramedSlice(IsWordChar, s, a, a + |r|);
  }

  /** Stripping keeps every word character, in order. */
  lemma StripKeepsWords(s: string)
    ensures Filter(IsWordChar, Strip(s)) == Filter(IsWordChar, s)
  {
    StripCutsOnlySpace(s);
    var a: nat :| a <= |s| && SpaceFramed(s, Strip(s), a);
    SpaceFramedKeepsWords(s, Strip(s), a);
  }

  /** Normalising keeps every word character of the lower-cased text, in
      order: only punctuation and whitespace are dropped or trimmed. */
  lemma NormalizeTextKeepsWords(text: string)
    ensures Filter(IsWordChar, NormalizeText(text)) == Filter(IsWordChar, Lower(text))
  {
    var lowered := Lower(text);
    StripKeepsWords(Filter(IsWordOrSpace, lowered));
    FilterAfterWeaker(IsWordChar, IsWordOrSpace, lowered);
  }

  // -------------------------------------------------- calendar duplicates

  function Summary(e: RawEvent, default: string): string
  {
    OrElse(e.summary, default)
  }

  /** A calendar event duplicates a task when their normalised texts agree
      (a missing summary reads as empty). */
  predicate SameText(task: RawTask, e: RawEvent)
  {
    NormalizeText(task.content) == NormalizeText(Summary(e, ""))
  }

  /** A task is already on the calendar when some event of the day has
      the same text. */
  predicate OnCalendar(task: RawTask, events: seq<RawEvent>)
  {
    exists i :: 0 <= i < |events| && SameText(task, events[i])
  }

  /** `is_task_on_calendar`: the scan that returns at the first event with
      the task's text. */
  method IsTaskOnCalendar(task: RawTask, events: seq<RawEvent>) returns (onCalendar: bool)
    ensures onCalendar <==> OnCalendar(task, events)
  {
    var taskContent := NormalizeText(task.content);
    for i := 0 to |events|
      invariant forall j :: 0 <= j < i ==> !SameText(task, events[j])
    {
      var eventSummary := NormalizeText(Summary(events[i], ""));
      if taskContent == eventSummary {
        assert SameText(task, events[i]);
        return true;
      }
      NoDuplicateYet(task, events, i);
    }
    return false;
  }

  /** One more event without the task's text extends the duplicate-free
      prefix of the scan. */
  lemma NoDuplicateYet(task: RawTask, events: seq<RawEvent>, i: nat)
    requires i < |events|
    requires forall j :: 0 <= j < i ==> !SameText(task, events[j])
    requires !SameText(task, events[i])
    ensures forall j :: 0 <= j < i + 1 ==> !SameText(task, events[j])
  {
  }

  function NotOnCalendar(events: seq<RawEvent>): RawTask -> bool
  {
    task => !OnCalendar(task, events)
  }

  /** The record `get_daily_tasks` builds for one kept task. */
  function TaskViewOf(task: RawTask): TaskView
  {
    var labelsStr := LabelString(OrElse(task.labels, []));
    TaskView(if labelsStr != "" then task.content + " " + labelsStr else task.content,
             OrElse(task.priority, 1))
  }

  /** A task's text starts with its content and is longer exactly when the
      task has labels; a missing priority reads as 1. */
  lemma TaskViewText(task: RawTask)
    ensures TaskViewOf(task).priority == OrElse(task.priority, 1)
    ensures task.content <= TaskViewOf(task).text
    ensures TaskViewOf(task).text == task.content <==> OrElse(task.labels, []) == []
  {
    LabelStringEmptyIff(OrElse(task.labels, []));
  }

  /** The tasks `get_daily_tasks` keeps, as records, in order. */
  function DailyTasks(tasks: seq<RawTask>, events: seq<RawEvent>): seq<TaskView>
  {
    FilterMap(NotOnCalendar(events), TaskViewOf, tasks)
  }

  /** A task is shown exactly when no event of the day has the same
      normalised text. */
  lemma DailyTasksKeeps(tasks: seq<RawTask>, events: seq<RawEvent>, task: RawTask)
    ensures task in Filter(NotOnCalendar(events), tasks) <==>
            task in tasks && !OnCalendar(task, events)
  {
    FilterMembership(NotOnCalendar(events), tasks, task);
  }

  /** With no events that day, every task is shown, in order. */
  lemma DailyTasksWithoutEvents(tasks: seq<RawTask>)
    ensures DailyTasks(tasks, []) == Map(TaskViewOf, tasks)
  {
    FilterMapIsMapOfFilter(NotOnCalendar([]), TaskViewOf, tasks);
    FilterKeepsAll(NotOnCalendar([]), tasks);
  }

  /** The body of `get_daily_tasks`'s loop for a kept task. */
  method FormatTask(task: RawTask) returns (view: TaskView)
    ensures view == TaskViewOf(task)
  {
    var labelsStr := FormatTaskLabels(OrElse(task.labels, []));
    var text := task.content;
    if labelsStr != "" {
      text := text + " " + labelsStr;
    }
    view := TaskView(text, OrElse(task.priority, 1));
  }

  /** `get_daily_tasks`. */
  method GetDailyTasks(src: Sources, date: Date) returns (formatted: seq<TaskView>)
    ensures formatted == DailyTasks(src.tasksForDay(date), src.eventsForDay(date))
  {
    var tasks := src.tasksForDay(date);
    var events := src.eventsForDay(date);
    formatted := [];
    for i := 0 to |tasks|
      invariant formatted == DailyTasks(tasks[..i], events)
    {
      var task := tasks[i];
      FilterMapStep(NotOnCalendar(events), TaskViewOf, tasks, i);
      var onCalendar := IsTaskOnCalendar(task, events);
      if !onCalendar {
        var view := FormatTask(task);
        formatted := formatted + [view];
      }
    }
    assert tasks[..|tasks|] == tasks;
  }

  // ---------------------------------------------------------------- events

  /** `parse_event_time`: a `dateTime` as is, a bare `date` at midnight. */
  function ParseEventTime(t: EventTime): (m: Moment)
    ensures m.date == (if t.DateOnly? then t.date else t.at.date)
    ensures t.DateOnly? ==> m.hour == 0 && m.minute == 0
    ensures t.DateTime? ==> m == t.at
  {
    match t
    case DateTime(at) => at
    case DateOnly(d) => Moment(d, 0, 0)
  }

  /** The record `get_daily_events` and `get_weekly_events` build for one
      event. */
  function EventViewOf(e: RawEvent): (v: EventView)
    ensures v.isAllDay <==> e.start.DateOnly?
    ensures e.summary.None? ==> v.labelText == "Untitled"
    ensures e.summary.Some? ==> v.labelText == e.summary.value
    ensures v.start == ParseEventTime(e.start) && v.end == ParseEventTime(e.end)
  {
    EventView(Summary(e, "Untitled"), ParseEventTime(e.start), ParseEventTime(e.end),
              e.start.DateOnly?)
  }

  /** The loop both event getters share: one record per event, in order. */
  method FormatEvents(events: seq<RawEvent>) returns (formatted: seq<EventView>)
    ensures |formatted| == |events|
    ensures forall i :: 0 <= i < |events| ==> formatted[i] == EventViewOf(events[i])
  {
    formatted := [];
    for i := 0 to |events|
      invariant |formatted| == i
      invariant forall j :: 0 <= j < i ==> formatted[j] == EventViewOf(events[j])
    {
      var e := events[i];
      var startTime := ParseEventTime(e.start);
      var endTime := ParseEventTime(e.end);
      var isAllDay := e.start.DateOnly?;
      formatted := formatted + [EventView(Summary(e, "Untitled"), startTime, endTime, isAllDay)];
    }
  }

  /** `get_daily_events`. */
  method GetDailyEvents(src: Sources, date: Date) returns (formatted: seq<EventView>)
    ensures formatted == Map(EventViewOf, src.eventsForDay(date))
  {
    formatted := FormatEvents(src.eventsForDay(date));
  }

  /** The last day of the week that starts on `weekStart`. */
  function WeekEnd(weekStart: Date): (d: Date)
    ensures Ordinal(d) == Ordinal(weekStart) + 6
  {
    AddDays(weekStart, 6)
  }

  /** `get_weekly_events`: the events of the seven days from `weekStart`. */
  method GetWeeklyEvents(src: Sources, weekStart: Date) returns (formatted: seq<EventView>)
    ensures formatted == Map(EventViewOf, src.eventsBetween(weekStart, WeekEnd(weekStart)))
  {
    var weekEnd := AddDays(weekStart, 6);
    formatted := FormatEvents(src.eventsBetween(weekStart, weekEnd));
  }

  // ------------------------------------------------------------- headlines

  function Description(e: RawEvent): string
  {
    OrElse(e.description, "")
  }

  /** An event is a headline when its description mentions `@headline`, in
      any letter case. */
  predicate IsHeadline(e: RawEvent)
  {
    Contains(Lower(Description(e)), "@headline")
  }

  function DayHeadlineOf(e: RawEvent): DayHeadline
  {
    DayHeadline(Summary(e, "Untitled"), EventItem)
  }

  function DayHeadlines(events: seq<RawEvent>): seq<DayHeadline>
  {
    FilterMap(IsHeadline, DayHeadlineOf, events)
  }

  /** `h` is the entry of some headline event of `events`. */
  predicate FromHeadline(events: seq<RawEvent>, h: DayHeadline)
  {
    exists k :: 0 <= k < |events| && IsHeadline(events[k]) && h == DayHeadlineOf(events[k])
  }

  /** The day's headlines are the headline events, each as an `event`
      entry titled by its summary: every headline event is listed, and
      every entry comes from a headline event of the day. */
  lemma DayHeadlinesSelect(events: seq<RawEvent>, e: RawEvent)
    ensures forall i :: 0 <= i < |DayHeadlines(events)| ==> DayHeadlines(events)[i].kind == EventItem
    ensures e in events && IsHeadline(e) ==> DayHeadlineOf(e) in DayHeadlines(events)
    ensures forall i :: 0 <= i < |DayHeadlines(events)| ==> FromHeadline(events, DayHeadlines(events)[i])
  {
    FilterMapIsMapOfFilter(IsHeadline, DayHeadlineOf, events);
    FilterMembership(IsHeadline, events, e);
    var kept := Filter(IsHeadline, events);
    FilterSatisfies(IsHeadline, events);
    if e in kept {
      var i :| 0 <= i < |kept| && kept[i] == e;
      assert DayHeadlines(events)[i] == DayHeadlineOf(e);
    }
    forall i | 0 <= i < |DayHeadlines(events)|
      ensures FromHeadline(events, DayHeadlines(events)[i])
    {
      assert kept[i] in kept;
      FilterMembership(IsHeadline, events, kept[i]);
      var k :| 0 <= k < |events| && events[k] == kept[i];
      assert DayHeadlines(events)[i] == DayHeadlineOf(events[k]);
    }
  }

  /** `get_headline_events_for_day`. */
  method GetHeadlineEventsForDay(src: Sources, date: Date) returns (headlines: seq<DayHeadline>)
    ensures headlines == DayHeadlines(src.eventsForDay(date))
  {
    var events := src.eventsForDay(date);
    headlines := [];
    for i := 0 to |events|
      invariant headlines == DayHeadlines(events[..i])
    {
      var e := events[i];
      FilterMapStep(IsHeadline, DayHeadlineOf, events, i);
      var description := OrElse(e.description, "");
      if Contains(Lower(description), "@headline") {
        headlines := headlines + [DayHeadline(Summary(e, "Untitled"), EventItem)];
      }
    }
    assert events[..|events|] == events;
  }

  // ------------------------------------------------------- yearly overview

  function StartDate(e: RawEvent): Date
  {
    ParseEventTime(e.start).date
  }

  /** `start_date <= d <= end_date` for January 1 and December 31. */
  predicate InYear(d: Date, year: nat)
    requires year >= 1
  {
    NotAfter(YMD(year, 1, 1), d) && NotAfter(d, YMD(year, 12, 31))
  }

  function IsYearHeadline(year: nat): RawEvent -> bool
    requires year >= 1
  {
    e => IsHeadline(e) && InYear(StartDate(e), year)
  }

  /** `'headline' in [label.lower() for label in labels]`. */
  predicate HasHeadlineLabel(task: RawTask)
  {
    var labels := OrElse(task.labels, []);
    exists i :: 0 <= i < |labels| && Lower(labels[i]) == "headline"
  }

  predicate IsYearHeadlineTask(task: RawTask, year: nat)
    requires year >= 1
  {
    HasHeadlineLabel(task) && task.due.Some? && InYear(task.due.value, year)
  }

  function EventItemOf(e: RawEvent): HeadlineItem
  {
    HeadlineItem(StartDate(e), Summary(e, "Untitled"), EventItem)
  }

  function HolidayItemOf(e: RawEvent): HeadlineItem
  {
    HeadlineItem(StartDate(e), Summary(e, "Holiday"), HolidayItem)
  }

  /** The headline events of the year, in fetch order. */
  function EventItems(events: seq<RawEvent>, year: nat): seq<HeadlineItem>
    requires year >= 1
  {
    FilterMap(IsYearHeadline(year), EventItemOf, events)
  }

  /** Every holiday, with no date check. */
  function HolidayItems(holidays: seq<RawEvent>): seq<HeadlineItem>
  {
    Map(HolidayItemOf, holidays)
  }

  /** The year's headline-labelled tasks with a due date, in fetch order. */
  function TaskItems(tasks: seq<RawTask>, year: nat): seq<HeadlineItem>
    requires year >= 1
    decreases |tasks|
  {
    if tasks == [] then []
    else
      var task := tasks[|tasks| - 1];
      TaskItems(tasks[..|tasks| - 1], year)
        + (if IsYearHeadlineTask(task, year) then [HeadlineItem(task.due.value, task.content, TaskItem)] else [])
  }

  lemma TaskItemsStep(tasks: seq<RawTask>, year: nat, i: nat)
    requires year >= 1 && i < |tasks|
    ensures TaskItems(tasks[..i + 1], year)
            == TaskItems(tasks[..i], year)
               + (if IsYearHeadlineTask(tasks[i], year) then [HeadlineItem(tasks[i].due.value, tasks[i].content, TaskItem)] else [])
  {
    assert tasks[..i + 1][..i] == tasks[..i];
  }

  /** Every headline event item is an `event` entry dated in the year. */
  lemma EventItemsInYear(events: seq<RawEvent>, year: nat)
    requires year >= 1
    ensures forall i :: 0 <= i < |EventItems(events, year)| ==>
              EventItems(events, year)[i].kind == EventItem && EventItems(events, year)[i].date.year == year
  {
    var p := IsYearHeadline(year);
    var kept := Filter(p, events);
    FilterMapIsMapOfFilter(p, EventItemOf, events);
    FilterSatisfies(p, events);
    forall i | 0 <= i < |kept| ensures StartDate(kept[i]).year == year {
      WithinYearIff(StartDate(kept[i]), year);
    }
  }

  /** Every headline event that starts in the year is listed. */
  lemma EventItemsComplete(events: seq<RawEvent>, year: nat, e: RawEvent)
    requires year >= 1
    requires e in events && IsHeadline(e) && StartDate(e).year == year
    ensures EventItemOf(e) in EventItems(events, year)
  {
    var p := IsYearHeadline(year);
    var kept := Filter(p, events);
    FilterMapIsMapOfFilter(p, EventItemOf, events);
    WithinYearIff(StartDate(e), year);
    FilterMembership(p, events, e);
    var i :| 0 <= i < |kept| && kept[i] == e;
    assert EventItems(events, year)[i] == EventItemOf(e);
  }

  /** Every task item is a `task` entry due in the year. */
  lemma {:induction false} TaskItemsInYear(tasks: seq<RawTask>, year: nat)
    requires year >= 1
    ensures forall i :: 0 <= i < |TaskItems(tasks, year)| ==>
              TaskItems(tasks, year)[i].kind == TaskItem && TaskItems(tasks, year)[i].date.year == year
    decreases |tasks|
  {
    if tasks != [] {
      var last := tasks[|tasks| - 1];
      TaskItemsInYear(tasks[..|tasks| - 1], year);
      if last.due.Some? {
        WithinYearIff(last.due.value, year);
      }
    }
  }

  /** Every headline-labelled task due in the year is listed. */
  lemma {:induction false} TaskItemsComplete(tasks: seq<RawTask>, year: nat, task: RawTask)
    requires year >= 1
    requires task in tasks && HasHeadlineLabel(task) && task.due.Some? && task.due.value.year == year
    ensures HeadlineItem(task.due.value, task.content, TaskItem) in TaskItems(tasks, year)
    decreases |tasks|
  {
    var init, last := tasks[..|tasks| - 1], tasks[|tasks| - 1];
    assert tasks == init + [last];
    WithinYearIff(task.due.value, year);
    if task != last {
      TaskItemsComplete(init, year, task);
    }
  }

  /** The dates of the yearly list never decrease. */
  predicate SortedByDate(s: seq<HeadlineItem>)
  {
    forall i, j :: 0 <= i < j < |s| ==> Ordinal(s[i].date) <= Ordinal(s[j].date)
  }

  /** `x` placed after every item of `s` dated no later than `x`. */
  function InsertByDate(x: HeadlineItem, s: seq<HeadlineItem>): seq<HeadlineItem>
    decreases |s|
  {
    if s == [] || Ordinal(s[|s| - 1].date) <= Ordinal(x.date) then s + [x]
    else InsertByDate(x, s[..|s| - 1]) + [s[|s| - 1]]
  }

  /** `items.sort(key=lambda x: x['date'])`, an insertion sort standing for
      Python's stable sort. */
  function SortByDate(s: seq<HeadlineItem>): seq<HeadlineItem>
    decreases |s|
  {
    if s == [] then []
    else InsertByDate(s[|s| - 1], SortByDate(s[..|s| - 1]))
  }

  /** Insertion adds `x` and loses nothing. */
  lemma {:induction false} InsertByDatePermutes(x: HeadlineItem, s: seq<HeadlineItem>)
    ensures multiset(InsertByDate(x, s)) == multiset(s) + multiset{x}
    decreases |s|
  {
    if s != [] && Ordinal(s[|s| - 1].date) > Ordinal(x.date) {
      var init, last := s[..|s| - 1], s[|s| - 1];
      assert s == init + [last];
      InsertByDatePermutes(x, init);
    }
  }

  /** The sort is a permutation. */
  lemma {:induction false} SortByDatePermutes(s: seq<HeadlineItem>)
    ensures multiset(SortByDate(s)) == multiset(s)
    decreases |s|
  {
    if s != [] {
      var init, last := s[..|s| - 1], s[|s| - 1];
      assert s == init + [last];
      SortByDatePermutes(init);
      InsertByDatePermutes(last, SortByDate(init));
    }
  }

  /** Appending an item dated no earlier than every item keeps the order. */
  lemma SortedSnoc(s: seq<HeadlineItem>, x: HeadlineItem)
    requires SortedByDate(s)
    requires forall i :: 0 <= i < |s| ==> Ordinal(s[i].date) <= Ordinal(x.date)
    ensures SortedByDate(s + [x])
  {
  }

  /** Insertion keeps a common upper bound on the dates. */
  lemma {:induction false} InsertByDateBounded(x: HeadlineItem, s: seq<HeadlineItem>, bound: int)
    requires forall i :: 0 <= i < |s| ==> Ordinal(s[i].date) <= bound
    requires Ordinal(x.date) <= bound
    ensures forall i :: 0 <= i < |InsertByDate(x, s)| ==> Ordinal(InsertByDate(x, s)[i].date) <= bound
    decreases |s|
  {
    if s != [] && Ordinal(s[|s| - 1].date) > Ordinal(x.date) {
      InsertByDateBounded(x, s[..|s| - 1], bound);
    }
  }

  lemma {:induction false} InsertByDateSorted(x: HeadlineItem, s: seq<HeadlineItem>)
    requires SortedByDate(s)
    ensures SortedByDate(InsertByDate(x, s))
    decreases |s|
  {
    if s != [] && Ordinal(s[|s| - 1].date) > Ordinal(x.date) {
      var init, last := s[..|s| - 1], s[|s| - 1];
      assert SortedByDate(init);
      InsertByDateSorted(x, init);
      InsertByDateBounded(x, init, Ordinal(last.date));
      SortedSnoc(InsertByDate(x, init), last);
    } else {
      SortedSnoc(s, x);
    }
  }

  lemma {:induction false} SortByDateSorted(s: seq<HeadlineItem>)
    ensures SortedByDate(SortByDate(s))
    decreases |s|
  {
    if s != [] {
      SortByDateSorted(s[..|s| - 1]);
      InsertByDateSorted(s[|s| - 1], SortByDate(s[..|s| - 1]));
    }
  }

  function OnDate(d: Date): HeadlineItem -> bool
  {
    (item: HeadlineItem) => item.date == d
  }

  /** Insertion keeps the relative order of the items of any one date: `x`
      lands after every earlier item with its own date. */
  lemma {:induction false} InsertByDateStable(x: HeadlineItem, s: seq<HeadlineItem>, d: Date)
    ensures Filter(OnDate(d), InsertByDate(x, s)) == Filter(OnDate(d), s + [x])
    decreases |s|
  {
    if s != [] && Ordinal(s[|s| - 1].date) > Ordinal(x.date) {
      var p := OnDate(d);
      var init, last := s[..|s| - 1], s[|s| - 1];
      assert s == init + [last];
      var xs: seq<HeadlineItem> := if p(x) then [x] else [];
      var ls: seq<HeadlineItem> := if p(last) then [last] else [];
      assert xs == [] || ls == [];
      calc {
        Filter(p, InsertByDate(x, s));
        { FilterSnoc(p, InsertByDate(x, init), last); }
        Filter(p, InsertByDate(x, init)) + ls;
        { InsertByDateStable(x, init, d); FilterSnoc(p, init, x); }
        Filter(p, init) + xs + ls;
        Filter(p, init) + ls + xs;
        { FilterSnoc(p, init, last); FilterSnoc(p, s, x); }
        Filter(p, s + [x]);
      }
    }
  }


  /** The sort is stable: the items of any one date keep their order. */
  lemma {:induction false} SortByDateStable(s: seq<HeadlineItem>, d: Date)
    ensures Filter(OnDate(d), SortByDate(s)) == Filter(OnDate(d), s)
    decreases |s|
  {
    if s != [] {
      var p := OnDate(d);
      var init, last := s[..|s| - 1], s[|s| - 1];
      var sorted := SortByDate(init);
      assert SortByDate(s) == InsertByDate(last, sorted);
      calc {
        Filter(p, InsertByDate(last, sorted));
        { InsertByDateStable(last, sorted, d); }
        Filter(p, sorted + [last]);
        { FilterSnoc(p, sorted, last); SortByDateStable(init, d); FilterSnoc(p, init, last); }
        Filter(p, init + [last]);
        { assert s == init + [last]; }
        Filter(p, s);
      }
    }
  }

  function YearStart(year: nat): Date
    requires year >= 1
  {
    YMD(year, 1, 1)
  }

  function YearEnd(year: nat): Date
    requires year >= 1
  {
    YMD(year, 12, 31)
  }

  /** The holiday query's answer; a query that raises counts as no
      holidays. */
  function Holidays(src: Sources, year: nat): seq<RawEvent>
    requires year >= 1
  {
    OrElse(src.holidaysBetween(YearStart(year), YearEnd(year)), [])
  }

  /** The yearly list before sorting: events, then holidays, then tasks. */
  function UnsortedYearlyItems(src: Sources, year: nat): seq<HeadlineItem>
    requires year >= 1
  {
    EventItems(src.eventsBetween(YearStart(year), YearEnd(year)), year)
      + HolidayItems(Holidays(src, year))
      + TaskItems(src.allTasks, year)
  }

  function YearlyItems(src: Sources, year: nat): seq<HeadlineItem>
    requires year >= 1
  {
    SortByDate(UnsortedYearlyItems(src, year))
  }

  /** The yearly list is in date order and holds exactly the collected
      items. */
  lemma YearlyItemsSorted(src: Sources, year: nat)
    requires year >= 1
    ensures SortedByDate(YearlyItems(src, year))
    ensures multiset(YearlyItems(src, year)) == multiset(UnsortedYearlyItems(src, year))
  {
    SortByDateSorted(UnsortedYearlyItems(src, year));
    SortByDatePermutes(UnsortedYearlyItems(src, year));
  }

  /** On any one date the list shows the headline events first, then the
      holidays, then the tasks, each group in fetch order. */
  lemma YearlyItemsOnDate(src: Sources, year: nat, d: Date)
    requires year >= 1
    ensures Filter(OnDate(d), YearlyItems(src, year))
         == Filter(OnDate(d), EventItems(src.eventsBetween(YearStart(year), YearEnd(year)), year))
          + Filter(OnDate(d), HolidayItems(Holidays(src, year)))
          + Filter(OnDate(d), TaskItems(src.allTasks, year))
  {
    var e := EventItems(src.eventsBetween(YearStart(year), YearEnd(year)), year);
    var h := HolidayItems(Holidays(src, year));
    var t := TaskItems(src.allTasks, year);
    SortByDateStable(e + h + t, d);
    FilterConcat(OnDate(d), e + h, t);
    FilterConcat(OnDate(d), e, h);
  }

  /** When the holiday query raises, the list has no holiday items. */
  lemma YearlyItemsWithoutHolidays(src: Sources, year: nat)
    requires year >= 1
    requires src.holidaysBetween(YearStart(year), YearEnd(year)).None?
    ensures forall i :: 0 <= i < |YearlyItems(src, year)| ==> YearlyItems(src, year)[i].kind != HolidayItem
  {
    var events := src.eventsBetween(YearStart(year), YearEnd(year));
    var e := EventItems(events, year);
    var t := TaskItems(src.allTasks, year);
    var u := UnsortedYearlyItems(src, year);
    EventItemsInYear(events, year);
    TaskItemsInYear(src.allTasks, year);
    assert u == e + t;
    forall i | 0 <= i < |u| ensures u[i].kind != HolidayItem {
      if i < |e| {
        assert u[i] == e[i];
      } else {
        assert u[i] == t[i - |e|];
      }
    }
    SortByDatePermutes(u);
    PermutationKeepsAll(u, YearlyItems(src, year), (item: HeadlineItem) => item.kind != HolidayItem);
  }

  /** `get_yearly_overview_items`. */
  method GetYearlyOverviewItems(src: Sources, year: nat) returns (items: seq<HeadlineItem>)
    requires year >= 1
    ensures items == YearlyItems(src, year)
  {
    var startDate: Date := YMD(year, 1, 1);
    var endDate: Date := YMD(year, 12, 31);
    var events := src.eventsBetween(startDate, endDate);
    var holidays: seq<RawEvent>;
    var answer := src.holidaysBetween(startDate, endDate);
    if answer.Some? {
      holidays := answer.value;
    } else {
      holidays := [];
    }
    var allTasks := src.allTasks;
    items := [];
    for i := 0 to |events|
      invariant items == EventItems(events[..i], year)
    {
      var e := events[i];
      FilterMapStep(IsYearHeadline(year), EventItemOf, events, i);
      var description := OrElse(e.description, "");
      if Contains(Lower(description), "@headline") {
        var eventDate := ParseEventTime(e.start).date;
        if NotAfter(startDate, eventDate) && NotAfter(eventDate, endDate) {
          items := items + [HeadlineItem(eventDate, Summary(e, "Untitled"), EventItem)];
        }
      }
    }
    assert events[..|events|] == events;
    ghost var eventItems := items;
    for i := 0 to |holidays|
      invariant items == eventItems + HolidayItems(holidays[..i])
    {
      var h := holidays[i];
      assert holidays[..i + 1] == holidays[..i] + [h];
      MapSnoc(HolidayItemOf, holidays[..i], h);
      var holidayDate := ParseEventTime(h.start).date;
      AppendAssoc(eventItems, HolidayItems(holidays[..i]), [HolidayItemOf(h)]);
      items := items + [HeadlineItem(holidayDate, Summary(h, "Holiday"), HolidayItem)];
    }
    assert holidays[..|holidays|] == holidays;
    ghost var eventAndHolidayItems := items;
    for i := 0 to |allTasks|
      invariant items == eventAndHolidayItems + TaskItems(allTasks[..i], year)
    {
      var task := allTasks[i];
      TaskItemsStep(allTasks, year, i);
      if HasHeadlineLabel(task) {
        if task.due.Some? {
          var taskDate := task.due.value;
          if NotAfter(startDate, taskDate) && NotAfter(taskDate, endDate) {
            AppendAssoc(eventAndHolidayItems, TaskItems(allTasks[..i], year), [HeadlineItem(taskDate, task.content, TaskItem)]);
            items := items + [HeadlineItem(taskDate, task.content, TaskItem)];
          }
        }
      }
    }
    assert allTasks[..|allTasks|] == allTasks;
    items := SortByDate(items);
  }
}
