/** What a run reads of its own task list, whatever the titles are: a title of several lines is
    followed by its continuation lines, and the reader takes each of them as a line of its own. */
module TaskReading {
  import opened Wrappers
  import opened Text
  import opened TaskLists
  import opened TaskParsers
  import opened TaskRoundTrip

  // ---------------------------------------------------------------- the lines of the markdown

  /** A text that does not end in a line break. */
  predicate EndsPlain(s: string) {
    s == "" || (s[|s| - 1] != '\n' && s[|s| - 1] != '\r')
  }

  function PartLines(s: string): seq<string> {
    if s == "" then [""] else Lines(s)
  }

  function FlatLines(parts: seq<string>): seq<string> {
    if parts == [] then [] else PartLines(parts[0]) + FlatLines(parts[1..])
  }

  /** A text that breaks has a first line and the rest. */
  lemma {:induction false} FirstBreak(s: string) returns (line: string, tail: string)
    requires '\n' in s
    ensures s == line + "\n" + tail && '\n' !in line && |tail| < |s|
  {
    var n := LineLength(s);
    assert s[..|s|] == s;
    line, tail := s[..n], s[n + 1..];
  }

  lemma {:induction false} LinesOfPart(s: string, rest: string)
    requires EndsPlain(s)
    ensures Lines(s + "\n" + rest) == PartLines(s) + Lines(rest)
    decreases |s|
  {
    hide Lines, Stripped;
    if '\n' !in s {
      LinesOfCons(s, rest);
      if s != "" {
        OneLine(s);
      }
    } else {
      var line, tail := FirstBreak(s);
      PlainTail(line, tail);
      Regroup(line, tail, rest);
      LinesOfRawCons(line, tail);
      LinesOfRawCons(line, tail + "\n" + rest);
      LinesOfPart(tail, rest);
    }
  }

  lemma {:induction false} PlainTail(line: string, tail: string)
    requires EndsPlain(line + "\n" + tail)
    ensures tail != "" && EndsPlain(tail)
  {
    var s := line + "\n" + tail;
    assert s[|s| - 1] == if tail == "" then '\n' else tail[|tail| - 1];
  }

  lemma {:induction false} Regroup(a: string, b: string, c: string)
    ensures (a + "\n" + b) + "\n" + c == a + "\n" + (b + "\n" + c)
  {
  }

  /** The first line of a text, without the carriage return it may end with. */
  function Stripped(line: string): string {
    if line != "" && line[|line| - 1] == '\r' then line[..|line| - 1] else line
  }

  lemma {:induction false} LinesOfRawCons(line: string, rest: string)
    requires '\n' !in line
    ensures Lines(line + "\n" + rest) == [Stripped(line)] + Lines(rest)
  {
    hide LineLength;
    var s := line + "\n" + rest;
    FirstLine(line, rest);
    assert s[..|line|] == line && s[|line| + 1..] == rest;
    if line != "" {
      assert s[|line| - 1] == line[|line| - 1];
      assert s[..|line| - 1] == line[..|line| - 1];
    }
  }

  lemma {:induction false} LinesOfParts(parts: seq<string>, last: string)
    requires forall i :: 0 <= i < |parts| ==> EndsPlain(parts[i])
    ensures Lines(Join(parts + [last], "\n")) == FlatLines(parts) + Lines(last)
  {
    hide Lines, EndsPlain, PartLines;
    if parts == [] {
      assert parts + [last] == [last];
    } else {
      var all := parts + [last];
      assert all[1..] == parts[1..] + [last];
      LinesOfParts(parts[1..], last);
      LinesOfPart(parts[0], Join(all[1..], "\n"));
    }
  }

  /** A text put in front of a line's first word does not change how it breaks into lines. */
  lemma {:induction false} LinesBehindPrefix(prefix: string, s: string)
    requires '\n' !in prefix && IsTrimmed(s)
    ensures Lines(s) != [] && Lines(prefix + s) == [prefix + Lines(s)[0]] + Lines(s)[1..]
  {
    hide Lines, IsWhitespace;
    NewlineIsWhitespace();
    if '\n' !in s {
      OneLine(s);
      OneLine(prefix + s);
    } else {
      var line, tail := FirstBreak(s);
      assert s[0] == if line == "" then '\n' else line[0];
      assert prefix + s == (prefix + line) + "\n" + tail;
      LinesOfRawCons(line, tail);
      LinesOfRawCons(prefix + line, tail);
      StrippedBehindPrefix(prefix, line);
    }
  }

  lemma {:induction false} StrippedBehindPrefix(prefix: string, line: string)
    requires line != ""
    ensures Stripped(prefix + line) == prefix + Stripped(line)
  {
    var s := prefix + line;
    assert s[|s| - 1] == line[|line| - 1];
    assert s[..|s| - 1] == prefix + line[..|line| - 1];
  }

  lemma {:induction false} NewlineIsWhitespace()
    ensures IsWhitespace('\n') && IsWhitespace('\r')
  {
  }

  function Bullet(item: TaskItem): string {
    "- [" + (if item.status.Completed? then "x" else " ") + "] "
  }

  /** An item as it is printed: its title's first line behind the checkbox, then the title's
      continuation lines. */
  function Printed(item: TaskItem): seq<string> {
    var title := Lines(ShownTitle(item));
    if title == [] then [] else [Bullet(item) + title[0]] + title[1..]
  }

  function Body(items: seq<TaskItem>): seq<string> {
    if items == [] then [] else Body(items[..|items| - 1]) + Printed(items[|items| - 1])
  }

  lemma {:induction false} ItemIsPrinted(item: TaskItem)
    requires IsTrimmed(item.title)
    ensures Lines(ItemLine(item)) == Printed(item) && Printed(item) != [] && EndsPlain(ItemLine(item)) && ItemLine(item) != ""
  {
    hide Lines, IsWhitespace;
    ItemLineParts(item);
    var line, title := ItemLine(item), ShownTitle(item);
    assert line == Bullet(item) + title;
    LinesBehindPrefix(Bullet(item), title);
    NewlineIsWhitespace();
    assert line[|line| - 1] == title[|title| - 1];
  }

  lemma {:induction false} FlatConcat(a: seq<string>, b: seq<string>)
    ensures FlatLines(a + b) == FlatLines(a) + FlatLines(b)
  {
    hide PartLines;
    if a == [] {
      assert a + b == b;
    } else {
      assert (a + b)[1..] == a[1..] + b;
      FlatConcat(a[1..], b);
    }
  }

  lemma {:induction false} FlatOne(part: string)
    ensures FlatLines([part]) == PartLines(part)
  {
    hide PartLines;
    assert [part][1..] == [];
  }

  lemma {:induction false} BodyIsFlat(items: seq<TaskItem>)
    requires forall i :: 0 <= i < |items| ==> IsTrimmed(items[i].title)
    ensures FlatLines(ItemLines(items)) == Body(items)
    ensures forall i :: 0 <= i < |items| ==> EndsPlain(ItemLines(items)[i])
  {
    hide Lines, ItemLine, Printed, IsTrimmed, EndsPlain, FlatLines, ShownTitle;
    if items == [] {
      FlatNothing();
    } else {
      var n := |items| - 1;
      BodyIsFlat(items[..n]);
      ItemIsPrinted(items[n]);
      FlatConcat(ItemLines(items[..n]), [ItemLine(items[n])]);
      FlatOne(ItemLine(items[n]));
    }
  }

  lemma {:induction false} FlatNothing()
    ensures FlatLines([]) == []
  {
  }

  lemma {:induction false} PlainParts()
    ensures FlatLines([LIST_HEADING]) == [LIST_HEADING] && FlatLines(["", REPORT_HEADING]) == ["", REPORT_HEADING]
    ensures EndsPlain(LIST_HEADING) && EndsPlain("") && EndsPlain(REPORT_HEADING)
  {
    hide Lines, FlatLines;
    FlatOne(LIST_HEADING);
    FlatOne("");
    FlatOne(REPORT_HEADING);
    FlatConcat([""], [REPORT_HEADING]);
    assert ["", REPORT_HEADING] == [""] + [REPORT_HEADING];
    OneLine(LIST_HEADING);
    OneLine(REPORT_HEADING);
  }

  /** The lines of any list that has items. */
  lemma {:induction false} LinesOfAnyMarkdown(list: TaskList)
    requires Valid(list) && list.items != []
    ensures Lines(Markdown(list))
            == [LIST_HEADING] + Body(list.items)
               + if list.report.Some? then ["", REPORT_HEADING] + Lines(list.report.value) else []
  {
    hide ItemLines, ItemLine, Lines, IsTrimmed, Join, EndsPlain, FlatLines, Body, TaskId;
    var items := ItemLines(list.items);
    PlainParts();
    BodyIsFlat(list.items);
    FlatConcat([LIST_HEADING], items);
    if list.report.Some? {
      var head := [LIST_HEADING] + items;
      FlatConcat(head, ["", REPORT_HEADING]);
      LinesOfParts(head + ["", REPORT_HEADING], list.report.value);
      assert MarkdownLines(list) == head + ["", REPORT_HEADING] + [list.report.value];
    } else {
      var n := |items| - 1;
      var last := list.items[n];
      var head := [LIST_HEADING] + items[..n];
      ItemLineAt(list.items, n);
      ItemIsPrinted(last);
      LinesOfParts(head, items[n]);
      assert MarkdownLines(list) == head + [items[n]];
      FlatConcat(head, [items[n]]);
      FlatOne(items[n]);
      assert head + [items[n]] == [LIST_HEADING] + items;
    }
  }

  // ---------------------------------------------------------------- what the reader makes of lines

  predicate IsReportLine(line: string) {
    var heading := RunHeading(line);
    heading.Some? && IsReportHeading(Normalized(heading.value))
  }

  predicate IsListLine(line: string) {
    var heading := RunHeading(line);
    heading.Some? && !IsReportHeading(Normalized(heading.value)) && IsListHeading(Normalized(heading.value))
  }

  /** Whether position `p` lies in a task list: the last heading before it opens one, or there is none
      and the lines began in one. */
  predicate InList(begins: bool, lines: seq<string>, p: nat)
    requires p <= |lines|
  {
    if p == 0 then begins
    else if RunHeading(lines[p - 1]).Some? then IsListLine(lines[p - 1])
    else InList(begins, lines, p - 1)
  }

  predicate ReadsOpenAt(begins: bool, lines: seq<string>, p: nat) {
    p < |lines| && RunHeading(lines[p]).None? && IsOpenItem(lines[p]) && InList(begins, lines, p)
  }

  predicate ReadsOpen(begins: bool, lines: seq<string>) {
    exists p :: 0 <= p < |lines| && ReadsOpenAt(begins, lines, p)
  }

  predicate ReadsReport(lines: seq<string>) {
    exists p :: 0 <= p < |lines| && IsReportLine(lines[p])
  }

  lemma {:induction false} InListPrefix(begins: bool, lines: seq<string>, n: nat, p: nat)
    requires p <= n <= |lines|
    ensures InList(begins, lines[..n], p) == InList(begins, lines, p)
  {
    hide RunHeading, IsListLine;
    if p > 0 {
      InListPrefix(begins, lines, n, p - 1);
    }
  }

  lemma {:induction false} OneMoreLine(begins: bool, lines: seq<string>, n: nat)
    requires n + 1 == |lines|
    ensures ReadsOpen(begins, lines) <==> ReadsOpen(begins, lines[..n]) || ReadsOpenAt(begins, lines, n)
    ensures ReadsReport(lines) <==> ReadsReport(lines[..n]) || IsReportLine(lines[n])
  {
    hide RunHeading, IsListLine, IsReportLine, IsOpenItem, InList;
    forall p | 0 <= p < n
      ensures ReadsOpenAt(begins, lines[..n], p) <==> ReadsOpenAt(begins, lines, p)
      ensures lines[..n][p] == lines[p]
    {
      InListPrefix(begins, lines, n, p);
    }
  }

  lemma {:induction false} ReaderReads(w: Workflow, lines: seq<string>)
    ensures WorkflowLines(w, lines)
            == Workflow(InList(w.inList, lines, |lines|), WorkflowLines(w, lines).sawList,
                        w.hasOpen || ReadsOpen(w.inList, lines), w.hasReport || ReadsReport(lines))
    ensures w.sawList ==> WorkflowLines(w, lines).sawList
  {
    hide RunHeading, IsListHeading, IsReportHeading, IsOpenItem, Normalized, ReadsOpen, ReadsReport;
    if lines == [] {
      NothingRead(w.inList);
    } else {
      var n := |lines| - 1;
      ReaderReads(w, lines[..n]);
      OneMoreLine(w.inList, lines, n);
      InListPrefix(w.inList, lines, n, n);
    }
  }

  predicate SeesListLine(lines: seq<string>) {
    exists p :: 0 <= p < |lines| && IsListLine(lines[p])
  }

  /** The reader finds a task list in a text exactly when one of its lines heads one. */
  lemma {:induction false} ListIsFoundExactlyWhen(text: string)
    ensures WorkflowState(text).Some? <==> SeesListLine(Lines(text))
  {
    hide RunHeading, IsListHeading, IsReportHeading, IsOpenItem, Normalized, Lines, WorkflowLines;
    SeesList(Workflow(false, false, false, false), Lines(text));
  }

  lemma {:induction false} SeesList(w: Workflow, lines: seq<string>)
    ensures WorkflowLines(w, lines).sawList <==> w.sawList || SeesListLine(lines)
  {
    hide RunHeading, IsListHeading, IsReportHeading, IsOpenItem, Normalized;
    if lines != [] {
      var n := |lines| - 1;
      SeesList(w, lines[..n]);
      assert forall p :: 0 <= p < n ==> lines[..n][p] == lines[p];
    }
  }

  lemma {:induction false} NothingRead(begins: bool)
    ensures !ReadsOpen(begins, []) && !ReadsReport([])
  {
  }

  // ---------------------------------------------------------------- the run's reader, exactly

  /** What the run reads of any list that has items, and when: a report if there is one or a
      continuation line reads as its heading; work left if a line that lies in a list reads as an open
      item, among the items or in the report. */
  lemma {:induction false} RunReadsState(list: TaskList)
    requires Valid(list) && list.items != []
    ensures var state := WorkflowState(Markdown(list));
            && state.Some?
            && (state.value.hasReport <==> list.report.Some? || ReadsReport(Body(list.items)))
            && (state.value.hasOpenTasks
                <==> ReadsOpen(true, Body(list.items))
                     || (list.report.Some? && ReadsOpen(false, Lines(list.report.value))))
  {
    hide Lines, WorkflowLine, WorkflowLines, Markdown, IsTrimmed, Body, ReadsOpen, ReadsReport, InList, TaskId;
    var start, body := Workflow(false, false, false, false), Body(list.items);
    var inside := start.(inList := true, sawList := true);
    LinesOfAnyMarkdown(list);
    HeadingStartsList(start);
    WorkflowConcat(start, [LIST_HEADING], body);
    ReaderReads(inside, body);
    var read := WorkflowLines(inside, body);
    if list.report.Some? {
      var lines := Lines(list.report.value);
      WorkflowConcat(start, [LIST_HEADING] + body, ["", REPORT_HEADING] + lines);
      WorkflowConcat(read, ["", REPORT_HEADING], lines);
      ReportHeadingIsSeen(read, "");
      ReaderReads(read.(hasReport := true, inList := false), lines);
    } else {
      assert [LIST_HEADING] + body + [] == [LIST_HEADING] + body;
    }
  }

  /** The titles' lines let the reader see what the list knows: while work is left, none of them reads
      as a report heading and some open item stays in a list; once it is all done, none of them reads
      as an open item in a list, unless one reads as a report heading. */
  predicate TitlesReadRight(items: seq<TaskItem>) {
    if AnyOpen(items) then !ReadsReport(Body(items)) && ReadsOpen(true, Body(items))
    else ReadsReport(Body(items)) || !ReadsOpen(true, Body(items))
  }

  /** The list and its reader agree on whether there is work left exactly when there is a report, or
      the list has been created and its titles' lines read right. */
  lemma {:induction false} RunAgreesExactlyWhen(list: TaskList)
    requires Valid(list)
    ensures (ShowsOpenTasks(Markdown(list)) <==> HasOpenTasks(list))
            <==> list.report.Some? || (list.items != [] && TitlesReadRight(list.items))
  {
    hide Markdown, WorkflowState, ReadsOpen, ReadsReport, Body, IsTrimmed, TaskId;
    if list.items != [] {
      RunReadsState(list);
      WorkIsOpen(list);
    } else {
      EmptyListShowsOpen(list);
    }
  }

  lemma {:induction false} WorkIsOpen(list: TaskList)
    ensures HasOpenTasks(list) <==> list.report.None? && AnyOpen(list.items)
  {
  }

  // ---------------------------------------------------------------- which lines those can be

  /** Line `p` of the body is line `j` of the title of item `k`, behind the checkbox if it is the first. */
  predicate IsTitleLine(items: seq<TaskItem>, p: nat, k: nat, j: nat) {
    && p < |Body(items)| && k < |items| && j < |Lines(ShownTitle(items[k]))|
    && Body(items)[p] == (if j == 0 then Bullet(items[k]) else "") + Lines(ShownTitle(items[k]))[j]
  }

  lemma {:induction false} BodyLine(items: seq<TaskItem>, p: nat) returns (k: nat, j: nat)
    requires p < |Body(items)|
    ensures IsTitleLine(items, p, k, j)
  {
    hide Lines, ShownTitle, Bullet;
    var n := |items| - 1;
    if p < |Body(items[..n])| {
      k, j := BodyLine(items[..n], p);
    } else {
      k, j := n, p - |Body(items[..n])|;
    }
  }

  /** A first line is never a heading, and reads as open exactly when its item is; so what misleads the
      reader is always a continuation line. */
  lemma {:induction false} OnlyContinuationsMislead(list: TaskList, p: nat)
    requires Valid(list) && p < |Body(list.items)|
    requires RunHeading(Body(list.items)[p]).Some? || (IsOpenItem(Body(list.items)[p]) && !AnyOpen(list.items))
    ensures exists k, j :: j > 0 && IsTitleLine(list.items, p, k, j)
  {
    hide Lines, RunHeading, IsOpenItem, ShownTitle, IsTrimmed, Body, TaskId;
    var k, j := BodyLine(list.items, p);
    if j == 0 {
      FirstLineIsRead(list.items[k]);
    }
  }

  lemma {:induction false} FirstLineIsRead(item: TaskItem)
    requires IsTrimmed(item.title)
    ensures Lines(ShownTitle(item)) != []
    ensures var line := Bullet(item) + Lines(ShownTitle(item))[0];
            RunHeading(line).None? && (IsOpenItem(line) <==> !item.status.Completed?)
  {
    hide Lines, RunHeading, StoredHeading, TrimStart, Find, AllDigits, TrimEndOf, IsTrimmed, ShownTitle;
    ItemLineParts(item);
    var mark, title := if item.status.Completed? then 'x' else ' ', ShownTitle(item);
    LinesBehindPrefix("", title);
    var content := ['[', mark, ']'] + " " + Lines(title)[0];
    assert Bullet(item) + Lines(title)[0] == "- " + content;
    BulletIsRead(content);
    assert content[0] == '[' && content[1] == mark && content[2] == ']';
  }

  lemma {:induction false} TitleLineAt(items: seq<TaskItem>, k: nat, j: nat) returns (p: nat)
    requires k < |items| && j < |Lines(ShownTitle(items[k]))|
    ensures IsTitleLine(items, p, k, j)
  {
    hide Lines, ShownTitle, Bullet, Printed, IsTitleLine;
    var n := |items| - 1;
    if k < n {
      p := TitleLineAt(items[..n], k, j);
      TitleLineStays(items, p, k, j);
    } else {
      p := |Body(items[..n])| + j;
      PrintedLine(items[n], j);
      LastTitleLine(items, j);
    }
  }

  lemma TitleLineStays(items: seq<TaskItem>, p: nat, k: nat, j: nat)
    requires items != [] && IsTitleLine(items[..|items| - 1], p, k, j)
    ensures IsTitleLine(items, p, k, j)
  {
    hide Lines, ShownTitle, Bullet, Printed;
  }

  lemma LastTitleLine(items: seq<TaskItem>, j: nat)
    requires items != []
    requires var item := items[|items| - 1];
             j < |Lines(ShownTitle(item))| && j < |Printed(item)|
             && Printed(item)[j] == (if j == 0 then Bullet(item) else "") + Lines(ShownTitle(item))[j]
    ensures IsTitleLine(items, |Body(items[..|items| - 1])| + j, |items| - 1, j)
  {
    hide Lines, ShownTitle, Bullet, Printed;
  }

  lemma PrintedLine(item: TaskItem, j: nat)
    requires j < |Lines(ShownTitle(item))|
    ensures j < |Printed(item)| && Printed(item)[j] == (if j == 0 then Bullet(item) else "") + Lines(ShownTitle(item))[j]
  {
    hide Lines, ShownTitle, Bullet;
  }

  /** A line that can keep the reader from seeing what the list knows: a heading that opens no list while
      work is left, an open item once it is all done. */
  predicate CanMislead(items: seq<TaskItem>, line: string) {
    if AnyOpen(items) then RunHeading(line).Some? && !IsListLine(line) else RunHeading(line).None? && IsOpenItem(line)
  }

  /** Line `j` of the title of item `k`, which is not its first. */
  predicate IsContinuation(items: seq<TaskItem>, k: nat, j: nat) {
    k < |items| && 0 < j < |Lines(ShownTitle(items[k]))|
  }

  lemma {:induction false} OutOfList(lines: seq<string>, p: nat) returns (q: nat)
    requires p <= |lines| && !InList(true, lines, p)
    ensures q < p && RunHeading(lines[q]).Some? && !IsListLine(lines[q])
  {
    hide RunHeading, IsListLine;
    q := p - 1;
    if RunHeading(lines[q]).None? {
      q := OutOfList(lines, p - 1);
    }
  }

  lemma {:induction false} MisleadingLine(list: TaskList) returns (p: nat)
    requires Valid(list) && !TitlesReadRight(list.items)
    ensures p < |Body(list.items)| && CanMislead(list.items, Body(list.items)[p])
  {
    hide Lines, RunHeading, IsOpenItem, ShownTitle, IsTrimmed, Body, TaskId, InList, Normalized, IsListHeading, IsReportHeading, Bullet;
    var items, body := list.items, Body(list.items);
    if !AnyOpen(items) {
      p :| 0 <= p < |body| && ReadsOpenAt(true, body, p);
    } else if ReadsReport(body) {
      p :| 0 <= p < |body| && IsReportLine(body[p]);
    } else {
      var i :| 0 <= i < |items| && items[i].status != Completed;
      FirstLineIsRead(items[i]);
      p := TitleLineAt(items, i, 0);
      assert !ReadsOpenAt(true, body, p);
      p := OutOfList(body, p);
    }
  }

  /** Titles that do not read right have a continuation line that misleads. */
  lemma {:induction false} WhatMisleads(list: TaskList) returns (k: nat, j: nat)
    requires Valid(list) && !TitlesReadRight(list.items)
    ensures IsContinuation(list.items, k, j) && CanMislead(list.items, Lines(ShownTitle(list.items[k]))[j])
  {
    hide Lines, RunHeading, IsOpenItem, ShownTitle, IsTrimmed, Body, TaskId, TitlesReadRight, Bullet, IsListLine;
    var p := MisleadingLine(list);
    k, j := BodyLine(list.items, p);
    if j == 0 {
      FirstLineIsRead(list.items[k]);
    } else {
      assert "" + Lines(ShownTitle(list.items[k]))[j] == Lines(ShownTitle(list.items[k]))[j];
    }
  }

  /** What a caller can check on the titles alone: when none of their continuation lines can mislead, they
      read right. */
  lemma {:induction false} PlainTitlesReadRight(list: TaskList)
    requires Valid(list)
    requires forall k: nat, j: nat :: IsContinuation(list.items, k, j) ==> !CanMislead(list.items, Lines(ShownTitle(list.items[k]))[j])
    ensures TitlesReadRight(list.items)
  {
    hide Lines, ShownTitle, CanMislead, TitlesReadRight, IsTrimmed, TaskId;
    if !TitlesReadRight(list.items) {
      var k, j := WhatMisleads(list);
    }
  }

  /** While work is left, one line that heads a report is enough to hide it. */
  lemma {:induction false} ReportLineMisleads(list: TaskList, k: nat, j: nat)
    requires Valid(list) && AnyOpen(list.items) && IsContinuation(list.items, k, j)
    requires IsReportLine(Lines(ShownTitle(list.items[k]))[j])
    ensures !TitlesReadRight(list.items)
  {
    hide Lines, ShownTitle, IsReportLine, IsTrimmed, TaskId, Body, ReadsOpen;
    var p := TitleLineAt(list.items, k, j);
    assert "" + Lines(ShownTitle(list.items[k]))[j] == Lines(ShownTitle(list.items[k]))[j];
    assert IsReportLine(Body(list.items)[p]);
  }

  /** When no continuation line is a heading, the titles read right exactly when work is left or none of
      those lines reads as an open item. */
  lemma {:induction false} HeadlessTitlesReadRightExactlyWhen(list: TaskList)
    requires Valid(list)
    requires forall k: nat, j: nat :: IsContinuation(list.items, k, j) ==> RunHeading(Lines(ShownTitle(list.items[k]))[j]).None?
    ensures TitlesReadRight(list.items)
            <==> AnyOpen(list.items)
                 || forall k: nat, j: nat :: IsContinuation(list.items, k, j) ==> !IsOpenItem(Lines(ShownTitle(list.items[k]))[j])
  {
    hide Lines, ShownTitle, IsTrimmed, TaskId, Body, ReadsOpen, ReadsReport, RunHeading, IsOpenItem, IsListLine;
    var items := list.items;
    if forall k: nat, j: nat :: IsContinuation(items, k, j) ==> !CanMislead(items, Lines(ShownTitle(items[k]))[j]) {
      PlainTitlesReadRight(list);
    } else {
      var k: nat, j: nat :| IsContinuation(items, k, j) && CanMislead(items, Lines(ShownTitle(items[k]))[j]);
      var p := TitleLineAt(items, k, j);
      assert "" + Lines(ShownTitle(items[k]))[j] == Lines(ShownTitle(items[k]))[j];
      NoHeadingInBody(list);
      NoHeadingStaysInList(Body(items), |Body(items)|);
      ReadsOpenThere(Body(items), p);
    }
  }

  lemma {:induction false} NoHeadingInBody(list: TaskList)
    requires Valid(list)
    requires forall k: nat, j: nat :: IsContinuation(list.items, k, j) ==> RunHeading(Lines(ShownTitle(list.items[k]))[j]).None?
    ensures forall p :: 0 <= p < |Body(list.items)| ==> RunHeading(Body(list.items)[p]).None?
    ensures !ReadsReport(Body(list.items))
  {
    hide Lines, ShownTitle, IsTrimmed, TaskId, Body, RunHeading, Bullet, Normalized, IsReportHeading, IsOpenItem;
    forall p | 0 <= p < |Body(list.items)|
      ensures RunHeading(Body(list.items)[p]).None?
    {
      var k, j := BodyLine(list.items, p);
      if j == 0 {
        FirstLineIsRead(list.items[k]);
      } else {
        assert IsContinuation(list.items, k, j);
        assert "" + Lines(ShownTitle(list.items[k]))[j] == Lines(ShownTitle(list.items[k]))[j];
      }
    }
  }

  lemma {:induction false} ReadsOpenThere(lines: seq<string>, p: nat)
    requires p < |lines| && RunHeading(lines[p]).None? && IsOpenItem(lines[p]) && InList(true, lines, p)
    ensures ReadsOpen(true, lines)
  {
    hide RunHeading, IsOpenItem, InList;
    assert ReadsOpenAt(true, lines, p);
  }

  /** A title on one line is one line of the body, its own. */
  lemma {:induction false} OneLineTitlesReadRight(list: TaskList)
    requires Valid(list) && OnOneLine(list)
    ensures TitlesReadRight(list.items)
  {
    hide Lines, RunHeading, IsOpenItem, IsReportHeading, Normalized, IsListHeading, ItemLine, IsTrimmed, TaskId, Printed, AnyOpen;
    var items := list.items;
    OneLineBody(items);
    forall p | 0 <= p < |items|
      ensures Body(items)[p] == ItemLine(items[p]) && RunHeading(Body(items)[p]).None?
      ensures IsOpenItem(Body(items)[p]) <==> items[p].status != Completed
    {
      ItemIsRead(items[p]);
    }
    NoHeadingStaysInList(Body(items), |items|);
    OpenSomewhere(items);
  }

  lemma {:induction false} OpenSomewhere(items: seq<TaskItem>)
    requires |Body(items)| == |items|
    requires forall p :: 0 <= p < |items| ==>
               RunHeading(Body(items)[p]).None? && (IsOpenItem(Body(items)[p]) <==> items[p].status != Completed)
    requires forall p :: 0 <= p <= |items| ==> InList(true, Body(items), p)
    ensures !ReadsReport(Body(items)) && (ReadsOpen(true, Body(items)) <==> AnyOpen(items))
  {
    hide RunHeading, IsOpenItem, InList, Body;
    if AnyOpen(items) {
      var i :| 0 <= i < |items| && items[i].status != Completed;
      assert ReadsOpenAt(true, Body(items), i);
    }
  }

  lemma {:induction false} NoHeadingStaysInList(lines: seq<string>, n: nat)
    requires n <= |lines| && forall p :: 0 <= p < n ==> RunHeading(lines[p]).None?
    ensures forall p :: 0 <= p <= n ==> InList(true, lines, p)
  {
    hide RunHeading, IsListLine;
    if n > 0 {
      NoHeadingStaysInList(lines, n - 1);
    }
  }

  lemma {:induction false} OneLineBody(items: seq<TaskItem>)
    requires forall i :: 0 <= i < |items| ==> IsTrimmed(items[i].title) && '\n' !in items[i].title
    ensures |Body(items)| == |items| && forall i :: 0 <= i < |items| ==> Body(items)[i] == ItemLine(items[i])
  {
    hide Lines, ItemLine, Printed, IsTrimmed;
    if items != [] {
      var n := |items| - 1;
      OneLineBody(items[..n]);
      ItemIsPrinted(items[n]);
      ItemLineIsLine(items[n]);
    }
  }
}
