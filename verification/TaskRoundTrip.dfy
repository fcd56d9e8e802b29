/** Writing a task list as markdown and reading it back: both readers see the list's own state, as
    long as no title breaks its line. */
module TaskRoundTrip {
  import opened Wrappers
  import opened Text
  import opened TaskLists
  import opened TaskParsers

  predicate OnOneLine(list: TaskList) {
    forall i :: 0 <= i < |list.items| ==> '\n' !in list.items[i].title
  }

  // ---------------------------------------------------------------- the lines of the markdown

  lemma {:induction false} LinesOfJoin(lines: seq<string>, last: string)
    requires forall i :: 0 <= i < |lines| ==> IsLine(lines[i])
    ensures Lines(Join(lines + [last], "\n")) == lines + Lines(last)
  {
    hide Lines, IsLine;
    if lines == [] {
      assert lines + [last] == [last];
    } else {
      var all := lines + [last];
      assert all[1..] == lines[1..] + [last];
      LinesOfJoin(lines[1..], last);
      LinesOfCons(lines[0], Join(all[1..], "\n"));
      assert lines == [lines[0]] + lines[1..];
    }
  }

  lemma ItemLineIsLine(item: TaskItem)
    requires IsTrimmed(item.title) && '\n' !in item.title
    ensures IsLine(ItemLine(item)) && ItemLine(item) != "" && Lines(ItemLine(item)) == [ItemLine(item)]
    ensures IsTrimmed(ShownTitle(item))
  {
    var line := ItemLine(item);
    assert line[|line| - 1] == ShownTitle(item)[|ShownTitle(item)| - 1];
    OneLine(line);
  }

  lemma OneLine(line: string)
    requires '\n' !in line && line != ""
    ensures Lines(line) == [line]
  {
    WholeLine(line);
  }

  lemma {:induction false} WholeLine(line: string)
    requires '\n' !in line
    ensures LineLength(line) == |line|
  {
    if line != "" {
      WholeLine(line[1..]);
    }
  }

  lemma {:induction false} ItemLineAt(items: seq<TaskItem>, i: nat)
    requires i < |items|
    ensures ItemLines(items)[i] == ItemLine(items[i])
  {
    if i < |items| - 1 {
      ItemLineAt(items[..|items| - 1], i);
    }
  }

  /** What the readers see of a list: its heading, its items, and the report below its own heading. */
  lemma LinesOfMarkdown(list: TaskList)
    requires Valid(list) && OnOneLine(list) && list.items != []
    ensures Lines(Markdown(list))
            == [LIST_HEADING] + ItemLines(list.items)
               + if list.report.Some? then ["", REPORT_HEADING] + Lines(list.report.value) else []
  {
    hide ItemLines, ItemLine, Lines, IsTrimmed, Join, IsLine;
    var items := ItemLines(list.items);
    HeadingsAreLines();
    forall i | 0 <= i < |items|
      ensures IsLine(items[i]) && Lines(items[i]) == [items[i]]
    {
      ItemLineAt(list.items, i);
      ItemLineIsLine(list.items[i]);
    }
    if list.report.Some? {
      var before := [LIST_HEADING] + items + ["", REPORT_HEADING];
      LinesOfJoin(before, list.report.value);
      assert MarkdownLines(list) == before + [list.report.value];
    } else {
      var n := |items| - 1;
      var before := [LIST_HEADING] + items[..n];
      LinesOfJoin(before, items[n]);
      assert MarkdownLines(list) == before + [items[n]];
      assert [LIST_HEADING] + items == before + [items[n]];
    }
  }

  lemma HeadingsAreLines()
    ensures IsLine(LIST_HEADING) && IsLine(REPORT_HEADING) && IsLine("")
  {
  }

  // ---------------------------------------------------------------- the stored list

  /** A heading's text that neither trimming nor stripping changes. */
  predicate IsPlainHeading(name: string) {
    IsTrimmed(name) && name[0] != '#' && name[|name| - 1] != '#' && name[|name| - 1] !in COLONS
  }

  lemma HeadingIsRead(name: string)
    requires IsPlainHeading(name)
    ensures StoredHeading("## " + name) == RunHeading("## " + name) == Some(name)
    ensures Normalized(name) == name && Trim(TrimEndOf(name, COLONS)) == name
  {
    hide Trim, IsWhitespace;
    var line := "## " + name;
    SecondLevel(name);
    TrimmedStays(name);
    assert TrimEndOf(name, {'#'}) == name && TrimEndOf(name, COLONS) == name;
  }

  lemma SecondLevel(name: string)
    ensures var line := "## " + name; TrimStart(line) == line && CountLeading(line, '#') == 2 && line[2..] == " " + name
  {
    hide IsWhitespace;
    var line := "## " + name;
    assert line[0] == '#' && line[1] == '#' && line[2] == ' ';
    NotWhitespace();
  }

  lemma NotWhitespace()
    ensures !IsWhitespace('#') && !IsWhitespace('-') && !IsWhitespace('[') && IsWhitespace(' ')
  {
  }

  /** Characters that lower-casing leaves alone. */
  lemma CaselessStays(s: string)
    requires forall i :: 0 <= i < |s| ==> LowerChar(s[i]) == s[i]
    ensures Lower(s) == s && AsciiLower(s) == s
  {
    assert forall i :: 0 <= i < |s| ==> AsciiLowerChar(s[i]) == s[i];
  }

  const LIST_NAME := "任务列表"
  const REPORT_NAME := "完成报告"

  lemma NamesArePlain()
    ensures IsPlainHeading(LIST_NAME) && IsPlainHeading(REPORT_NAME)
    ensures LIST_HEADING == "## " + LIST_NAME && REPORT_HEADING == "## " + REPORT_NAME
    ensures Lower(LIST_NAME) == AsciiLower(LIST_NAME) == LIST_NAME
    ensures Lower(REPORT_NAME) == AsciiLower(REPORT_NAME) == REPORT_NAME
  {
    CaselessStays(LIST_NAME);
    CaselessStays(REPORT_NAME);
  }

  lemma ListHeadingIsRead()
    ensures StoredHeading(LIST_HEADING) == RunHeading(LIST_HEADING) == Some(LIST_NAME)
    ensures IsTaskHeading(LIST_NAME)
    ensures IsListHeading(Normalized(LIST_NAME)) && !IsReportHeading(Normalized(LIST_NAME))
  {
    hide StoredHeading, RunHeading, Normalized, Trim, TrimEndOf, Lower, AsciiLower, IsPlainHeading;
    NamesArePlain();
    HeadingIsRead(LIST_NAME);
    NotTheReport(LIST_NAME);
  }

  /** Four characters that are not the report's own are none of its headings. */
  lemma NotTheReport(name: string)
    requires |name| == 4 && AsciiLower(name) == name && name[0] != '完'
    ensures !IsReportHeading(name)
  {
    hide AsciiLower;
    NamesArePlain();
    assert |AsciiLower("completion report")| == 17 && |AsciiLower("final report")| == 12;
  }

  lemma ReportHeadingIsRead()
    ensures StoredHeading(REPORT_HEADING) == RunHeading(REPORT_HEADING) == Some(REPORT_NAME)
    ensures !IsTaskHeading(REPORT_NAME) && IsReportHeading(Normalized(REPORT_NAME))
  {
    hide StoredHeading, RunHeading, Normalized, Trim, TrimEndOf, Lower, AsciiLower, IsPlainHeading;
    NamesArePlain();
    HeadingIsRead(REPORT_NAME);
    assert REPORT_NAME[0] == '完' && |REPORT_NAME| == 4;
  }

  /** A line that begins with a bullet is no heading, and its item is what stands behind it. */
  lemma BulletIsRead(content: string)
    ensures var line := "- " + content;
            && TrimStart(line) == line && HasBullet(line) && line[2..] == content
            && StoredHeading(line).None? && RunHeading(line).None?
  {
    hide IsWhitespace, Trim, TrimEndOf;
    var line := "- " + content;
    NotWhitespace();
    assert line[0] == '-';
  }

  lemma CheckboxIsRead(mark: char, title: string)
    requires mark != ']' && IsTrimmed(title)
    ensures var content := ['[', mark, ']'] + " " + title;
            && TrimStart(content) == content && Find(content, {']'}) == 2
            && content[1..2] == [mark] && Trim(content[3..]) == title
            && (StartsOpen(content) <==> mark == ' ')
  {
    hide IsWhitespace, Trim;
    var content := ['[', mark, ']'] + " " + title;
    NotWhitespace();
    TrimmedStays(title);
    assert content[0] == '[' && content[1] == mark && content[2] == ']';
    assert content[3..] == " " + title;
    assert content[1..][1..] == content[2..];
  }

  lemma TaskIsRead(line: string, content: string, mark: char, title: string)
    requires TrimStart(line) == line && HasBullet(line) && line[2..] == content && title != ""
    requires TrimStart(content) == content && Find(content, {']'}) == 2 && |content| > 2 && content[0] == '['
    requires content[1..2] == [mark] && Trim(content[3..]) == title
    ensures ParseTaskLine(line) == Some(PersistedTask(title, IsCompletedMarker([mark])))
    ensures IsOpenItem(line) <==> StartsOpen(content)
  {
    hide Trim, IsCompletedMarker, TrimStart, Find, HasBullet, NumberedBody, StartsOpen, AllDigits, TrimEndOf;
  }

  lemma ItemLineParts(item: TaskItem)
    requires IsTrimmed(item.title)
    ensures IsTrimmed(ShownTitle(item))
    ensures ItemLine(item) == "- " + (['[', if item.status.Completed? then 'x' else ' ', ']'] + " " + ShownTitle(item))
  {
  }

  lemma {:induction false} ItemIsRead(item: TaskItem)
    requires IsTrimmed(item.title)
    ensures StoredHeading(ItemLine(item)).None? && RunHeading(ItemLine(item)).None?
    ensures ParseTaskLine(ItemLine(item)) == Some(PersistedTask(ShownTitle(item), item.status.Completed?))
    ensures IsOpenItem(ItemLine(item)) <==> !item.status.Completed?
  {
    hide Trim, IsCompletedMarker, TrimStart, Find, StoredHeading, RunHeading, HasBullet, StartsOpen, ParseTaskLine, IsOpenItem,
      ItemLine, ShownTitle;
    var mark, title := if item.status.Completed? then 'x' else ' ', ShownTitle(item);
    var content := ['[', mark, ']'] + " " + title;
    ItemLineParts(item);
    BulletIsRead(content);
    CheckboxIsRead(mark, title);
    TaskIsRead(ItemLine(item), content, mark, title);
    MarkersAre();
  }

  lemma MarkersAre()
    ensures IsCompletedMarker(['x']) && !IsCompletedMarker([' '])
  {
    TrimmedStays("x");
    assert Lower("x") == "x";
    assert TrimStart(" ") == "";
  }

  /** The tasks a reader should find. */
  function Shown(items: seq<TaskItem>): (tasks: seq<PersistedTask>)
    ensures |tasks| == |items|
    ensures forall i :: 0 <= i < |items| ==> tasks[i] == PersistedTask(ShownTitle(items[i]), items[i].status.Completed?)
  {
    if items == [] then []
    else
      var item := items[|items| - 1];
      Shown(items[..|items| - 1]) + [PersistedTask(ShownTitle(item), item.status.Completed?)]
  }

  lemma {:induction false} ItemLinesAreScanned(scan: Scan, items: seq<TaskItem>)
    requires scan.active == Some([]) && forall i :: 0 <= i < |items| ==> IsTrimmed(items[i].title)
    ensures ScanLines(scan, ItemLines(items)) == scan.(active := Some(ItemLines(items)))
    ensures ParseTasks(ItemLines(items)) == Shown(items)
  {
    hide StoredHeading, ParseTaskLine, ItemLine, ShownTitle, IsTrimmed;
    if items != [] {
      var n := |items| - 1;
      ItemLinesAreScanned(scan, items[..n]);
      ItemIsRead(items[n]);
      assert ItemLines(items)[..n] == ItemLines(items[..n]);
    }
  }

  lemma {:induction false} ScanConcat(scan: Scan, a: seq<string>, b: seq<string>)
    ensures ScanLines(scan, a + b) == ScanLines(ScanLines(scan, a), b)
  {
    hide ScanLine;
    if b == [] {
      assert a + b == a;
    } else {
      assert (a + b)[..|a + b| - 1] == a + b[..|b| - 1];
      ScanConcat(scan, a, b[..|b| - 1]);
    }
  }

  lemma ScanOne(scan: Scan, line: string)
    ensures ScanLines(scan, [line]) == ScanLine(scan, line)
  {
    assert [line][..0] == [];
  }

  /** Lists already found are carried along. */
  lemma {:induction false} ScanCarries(found: seq<seq<PersistedTask>>, lines: seq<string>)
    ensures var alone := ScanLines(Scan([], None), lines);
            ScanLines(Scan(found, None), lines) == Scan(found + alone.lists, alone.active)
  {
    hide StoredHeading, IsTaskHeading, ParseTasks;
    if lines != [] {
      ScanCarries(found, lines[..|lines| - 1]);
    }
  }

  function ReportLines(list: TaskList): seq<string> {
    if list.report.Some? then Lines(list.report.value) else []
  }

  /** The stored lists are the list itself, then whatever the report puts under a task heading. */
  lemma {:induction false} MarkdownIsReadBack(list: TaskList)
    requires Valid(list) && OnOneLine(list) && list.items != []
    ensures Extract(Markdown(list)) == [Shown(list.items)] + HeadedLists(ReportLines(list))
  {
    hide Lines, ScanLine, ScanLines, ItemLines, ParseTasks, Markdown, IsTrimmed, StoredHeading, IsTaskHeading;
    var start, items := Scan([], None), ItemLines(list.items);
    LinesOfMarkdown(list);
    HeadingOpensList(start);
    ScanConcat(start, [LIST_HEADING], items);
    ItemLinesAreScanned(Scan([], Some([])), list.items);
    var open := Scan([], Some(items));
    if list.report.Some? {
      var lines := Lines(list.report.value);
      ScanConcat(start, [LIST_HEADING] + items, ["", REPORT_HEADING] + lines);
      ScanConcat(open, ["", REPORT_HEADING], lines);
      ReportHeadingClosesList(open, "");
      BlankLineIsNoTask(items);
      assert Closed(Scan([], Some(items + [""]))) == [Shown(list.items)];
      ScanCarries([Shown(list.items)], lines);
      var all := [LIST_HEADING] + items + (["", REPORT_HEADING] + lines);
      assert Lines(Markdown(list)) == all;
      assert Closed(ScanLines(start, all)) == [Shown(list.items)] + HeadedLists(lines);
    } else {
      NothingToScan(start);
      assert Closed(open) == [Shown(list.items)];
      assert [LIST_HEADING] + items + [] == [LIST_HEADING] + items;
    }
  }

  lemma NothingToScan(scan: Scan)
    ensures ScanLines(scan, []) == scan
  {
  }

  lemma HeadingOpensList(scan: Scan)
    requires scan.active.None?
    ensures ScanLines(scan, [LIST_HEADING]) == scan.(active := Some([]))
  {
    hide StoredHeading, IsTaskHeading;
    ListHeadingIsRead();
    ScanOne(scan, LIST_HEADING);
  }

  lemma ReportHeadingClosesList(scan: Scan, blank: string)
    requires scan.active.Some? && blank == ""
    ensures ScanLines(scan, [blank, REPORT_HEADING]) == Scan(Closed(scan.(active := Some(scan.active.value + [blank]))), None)
  {
    hide StoredHeading, IsTaskHeading, Closed, RunHeading, ScanLines, ParseTaskLine, IsOpenItem;
    ReportHeadingIsRead();
    EmptyLineIsRead(blank);
    ScanOne(scan, blank);
    ScanOne(scan.(active := Some(scan.active.value + [blank])), REPORT_HEADING);
    ScanConcat(scan, [blank], [REPORT_HEADING]);
    assert [blank, REPORT_HEADING] == [blank] + [REPORT_HEADING];
  }

  lemma EmptyLineIsRead(line: string)
    requires line == ""
    ensures StoredHeading(line).None? && RunHeading(line).None? && ParseTaskLine(line).None? && !IsOpenItem(line)
  {
    hide Trim, TrimEndOf, IsCompletedMarker, IsWhitespace;
  }

  lemma BlankLineIsNoTask(lines: seq<string>)
    ensures ParseTasks(lines + [""]) == ParseTasks(lines)
  {
    hide ParseTaskLine;
    EmptyLineIsRead("");
    assert (lines + [""])[..|lines|] == lines;
  }

  // ---------------------------------------------------------------- titles that break their line

  predicate NoBreaks(lines: seq<string>) {
    forall i :: 0 <= i < |lines| ==> '\n' !in lines[i]
  }

  predicate TitlesUnbroken(tasks: seq<PersistedTask>) {
    forall i :: 0 <= i < |tasks| ==> '\n' !in tasks[i].title
  }

  predicate ListsUnbroken(lists: seq<seq<PersistedTask>>) {
    forall i :: 0 <= i < |lists| ==> TitlesUnbroken(lists[i])
  }

  predicate IsUnbroken(s: string) {
    '\n' !in s
  }

  lemma UnbrokenFrom(s: string, k: nat)
    requires k <= |s| && IsUnbroken(s)
    ensures IsUnbroken(s[k..]) && IsUnbroken(TrimStart(s[k..])) && IsUnbroken(Trim(s[k..]))
  {
    hide Trim, TrimStart;
    TrimStartMembers(s[k..]);
    TrimmedOrBlank(s[k..]);
  }

  lemma TaskLineUnbroken(line: string)
    requires IsUnbroken(line) && ParseTaskLine(line).Some?
    ensures IsUnbroken(ParseTaskLine(line).value.title)
  {
    hide Trim, IsCompletedMarker, IsWhitespace, AllDigits, TrimStart, Find, IsUnbroken;
    var text := TrimStart(line);
    UnbrokenFrom(line, 0);
    assert line[0..] == line;
    if HasBullet(text) {
      UnbrokenFrom(text, 2);
    } else {
      UnbrokenFrom(text, Find(text, {'.', ')'}) + 1);
    }
    var body := if HasBullet(text) then text[2..] else NumberedBody(text).value;
    BodyUnbroken(body);
  }

  lemma BodyUnbroken(body: string)
    requires IsUnbroken(body)
    ensures var content := TrimStart(body);
            var end := Find(content, {']'});
            end < |content| ==> IsUnbroken(Trim(content[end + 1..]))
  {
    hide Trim, TrimStart, Find, IsUnbroken;
    var content := TrimStart(body);
    var end := Find(content, {']'});
    UnbrokenFrom(body, 0);
    assert body[0..] == body;
    if end < |content| {
      UnbrokenFrom(content, end + 1);
    }
  }

  lemma {:induction false} TasksUnbroken(lines: seq<string>)
    requires NoBreaks(lines)
    ensures TitlesUnbroken(ParseTasks(lines))
  {
    hide ParseTaskLine;
    if lines != [] {
      var n := |lines| - 1;
      TasksUnbroken(lines[..n]);
      if ParseTaskLine(lines[n]).Some? {
        TaskLineUnbroken(lines[n]);
      }
    }
  }

  predicate ScanUnbroken(scan: Scan) {
    ListsUnbroken(scan.lists) && (scan.active.Some? ==> NoBreaks(scan.active.value))
  }

  lemma ClosedUnbroken(scan: Scan)
    requires ScanUnbroken(scan)
    ensures ListsUnbroken(Closed(scan))
  {
    hide ParseTasks, TitlesUnbroken;
    if scan.active.Some? {
      TasksUnbroken(scan.active.value);
    }
  }

  lemma {:induction false} ScanStaysUnbroken(scan: Scan, lines: seq<string>)
    requires ScanUnbroken(scan) && NoBreaks(lines)
    ensures ScanUnbroken(ScanLines(scan, lines))
  {
    hide StoredHeading, IsTaskHeading, Closed, ListsUnbroken;
    if lines != [] {
      var before := lines[..|lines| - 1];
      ScanStaysUnbroken(scan, before);
      ClosedUnbroken(ScanLines(scan, before));
    }
  }

  /** No reader of lines can give back a title that breaks its line. */
  lemma ExtractedUnbroken(text: string)
    ensures ListsUnbroken(Extract(text))
  {
    hide Lines, ScanLines, ParseTasks;
    ScanStaysUnbroken(Scan([], None), Lines(text));
    ClosedUnbroken(ScanLines(Scan([], None), Lines(text)));
    TasksUnbroken(Lines(text));
  }

  /** The stored lists are the list itself and nothing else exactly when every title stands on one
      line and the report has no task list of its own. */
  lemma {:induction false} RoundTripExactlyWhen(list: TaskList)
    requires Valid(list) && list.items != []
    ensures Extract(Markdown(list)) == [Shown(list.items)]
            <==> OnOneLine(list) && HeadedLists(ReportLines(list)) == []
  {
    hide Extract, Markdown, HeadedLists, ReportLines, Valid, ShownTitle, TaskId;
    if OnOneLine(list) {
      MarkdownIsReadBack(list);
    } else {
      ExtractedUnbroken(Markdown(list));
      BrokenIsNotRead(list, Extract(Markdown(list)));
    }
  }

  lemma BrokenIsNotRead(list: TaskList, lists: seq<seq<PersistedTask>>)
    requires ListsUnbroken(lists) && !OnOneLine(list)
    ensures lists != [Shown(list.items)]
  {
    hide ShownTitle;
    var i :| 0 <= i < |list.items| && '\n' in list.items[i].title;
    ShownTitleHolds(list.items[i]);
    assert '\n' in Shown(list.items)[i].title;
    assert !ListsUnbroken([Shown(list.items)]) by {
      assert !TitlesUnbroken([Shown(list.items)][0]);
    }
  }

  lemma ShownTitleHolds(item: TaskItem)
    ensures forall c :: c in item.title ==> c in ShownTitle(item)
  {
  }

  // ---------------------------------------------------------------- whether the run goes on

  lemma {:induction false} WorkflowConcat(w: Workflow, a: seq<string>, b: seq<string>)
    ensures WorkflowLines(w, a + b) == WorkflowLines(WorkflowLines(w, a), b)
  {
    hide WorkflowLine;
    if b == [] {
      assert a + b == a;
    } else {
      assert (a + b)[..|a + b| - 1] == a + b[..|b| - 1];
      WorkflowConcat(w, a, b[..|b| - 1]);
    }
  }

  lemma WorkflowOne(w: Workflow, line: string)
    ensures WorkflowLines(w, [line]) == WorkflowLine(w, line)
  {
    assert [line][..0] == [];
  }

  predicate AnyOpen(items: seq<TaskItem>) {
    exists i :: 0 <= i < |items| && items[i].status != Completed
  }

  lemma HeadingStartsList(w: Workflow)
    ensures WorkflowLines(w, [LIST_HEADING]) == w.(inList := true, sawList := true)
  {
    hide RunHeading, IsListHeading, IsReportHeading, Normalized, StoredHeading, IsTaskHeading;
    ListHeadingIsRead();
    WorkflowOne(w, LIST_HEADING);
  }

  lemma ReportHeadingIsSeen(w: Workflow, blank: string)
    requires blank == ""
    ensures WorkflowLines(w, [blank, REPORT_HEADING]) == w.(hasReport := true, inList := false)
  {
    hide RunHeading, IsListHeading, IsReportHeading, Normalized, IsOpenItem, StoredHeading, IsTaskHeading, ParseTaskLine, WorkflowLines;
    ReportHeadingIsRead();
    EmptyLineIsRead(blank);
    WorkflowOne(w, blank);
    WorkflowOne(WorkflowLine(w, blank), REPORT_HEADING);
    WorkflowConcat(w, [blank], [REPORT_HEADING]);
    assert [blank, REPORT_HEADING] == [blank] + [REPORT_HEADING];
  }

  lemma EmptyListShowsOpen(list: TaskList)
    requires Valid(list) && list.items == []
    ensures ShowsOpenTasks(Markdown(list))
  {
    hide Lines, WorkflowLine, WorkflowLines, Markdown, TrimStart, StoredHeading, RunHeading, Trim, IsOpenItem, ParseTaskLine;
    var start, item := Workflow(false, false, false, false), TaskItem("", "尚未创建任务", Pending);
    assert ItemLine(item) == NOTHING_YET;
    assert IsTrimmed(item.title) && '\n' !in item.title;
    HeadingsAreLines();
    ItemLineIsLine(item);
    LinesOfJoin([LIST_HEADING], NOTHING_YET);
    assert MarkdownLines(list) == [LIST_HEADING] + [NOTHING_YET];
    EmptyMarkdown(list);
    HeadingStartsList(start);
    ItemIsRead(item);
    WorkflowConcat(start, [LIST_HEADING], [NOTHING_YET]);
    WorkflowOne(start.(inList := true, sawList := true), NOTHING_YET);
    OpenItemLine(start.(inList := true, sawList := true), NOTHING_YET);
  }

  lemma EmptyMarkdown(list: TaskList)
    ensures Markdown(list) == Join(MarkdownLines(list), "\n")
  {
  }

  lemma OpenItemLine(w: Workflow, line: string)
    requires w.inList && RunHeading(line).None? && IsOpenItem(line)
    ensures WorkflowLine(w, line) == w.(hasOpen := true)
  {
    hide RunHeading, IsOpenItem;
  }

  /** A title of several lines can carry a report heading, and hides the work that is left. */
  lemma {:induction false} BrokenTitleHidesWork(first: string)
    requires IsTrimmed(first) && '\n' !in first
    ensures var list := TaskList([TaskItem(TaskId(1), first + "\n" + REPORT_HEADING, Pending)], None);
            Valid(list) && HasOpenTasks(list) && !ShowsOpenTasks(Markdown(list))
  {
    hide Lines, WorkflowLine, WorkflowLines, TaskId, StoredHeading, RunHeading, Trim, IsOpenItem, ParseTaskLine, Join, IsLine,
      IsListHeading, IsReportHeading, Normalized, IsTaskHeading;
    var start, title := Workflow(false, false, false, false), first + "\n" + REPORT_HEADING;
    var list := TaskList([TaskItem(TaskId(1), title, Pending)], None);
    var line := "- [ ] " + first;
    BrokenTitleLines(first);
    HeadingsAreLines();
    LinesOfJoin([LIST_HEADING], line + "\n" + REPORT_HEADING);
    assert MarkdownLines(list) == [LIST_HEADING] + [line + "\n" + REPORT_HEADING] by {
      OneItemLine(list.items[0]);
      assert ItemLine(list.items[0]) == line + "\n" + REPORT_HEADING;
    }
    HeadingStartsList(start);
    WorkflowConcat(start, [LIST_HEADING], [line] + [REPORT_HEADING]);
    WorkflowConcat(start.(inList := true, sawList := true), [line], [REPORT_HEADING]);
    ReportHeadingReported(WorkflowLines(start.(inList := true, sawList := true), [line]));
    assert list.items[0].status != Completed;
  }

  lemma OneItemLine(item: TaskItem)
    ensures ItemLines([item]) == [ItemLine(item)]
  {
    assert [item][..0] == [];
  }

  lemma BrokenTitleLines(first: string)
    requires IsTrimmed(first) && '\n' !in first
    ensures IsTrimmed(first + "\n" + REPORT_HEADING)
    ensures var line := "- [ ] " + first;
            Lines(line + "\n" + REPORT_HEADING) == [line] + [REPORT_HEADING]
  {
    hide Lines;
    var line, title := "- [ ] " + first, first + "\n" + REPORT_HEADING;
    assert title[|title| - 1] == '告';
    assert line[|line| - 1] == first[|first| - 1];
    LinesOfCons(line, REPORT_HEADING);
    OneLine(REPORT_HEADING);
  }

  lemma ReportHeadingReported(w: Workflow)
    ensures WorkflowLines(w, [REPORT_HEADING]).hasReport
  {
    hide RunHeading, IsListHeading, IsReportHeading, Normalized, StoredHeading, IsTaskHeading;
    ReportHeadingIsRead();
    WorkflowOne(w, REPORT_HEADING);
  }
}
