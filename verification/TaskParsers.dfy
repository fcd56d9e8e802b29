/** The two readers of a task list's markdown: the one that stores the latest task list of a session
    and the one that decides whether a run goes on. */
module TaskParsers {
  import opened Wrappers
  import opened Text

  const COLONS: set<char> := {':', '：'}

  // ---------------------------------------------------------------- the reader that stores

  datatype PersistedTask = PersistedTask(title: string, completed: bool)

  /** The text of a heading of any depth. */
  function StoredHeading(line: string): Option<string> {
    var text := TrimStart(line);
    if text == "" || text[0] != '#' then None
    else
      var heading := Trim(text[CountLeading(text, '#')..]);
      if heading == "" then None else Some(Trim(TrimEndOf(heading, {'#'})))
  }

  predicate IsTaskHeading(heading: string) {
    Lower(Trim(TrimEndOf(heading, COLONS)))
    in {"任务列表", "任务清单", "步骤任务", "执行计划", "task list", "tasks", "plan"}
  }

  predicate AllDigits(s: string) {
    forall i :: 0 <= i < |s| ==> '0' <= s[i] <= '9'
  }

  /** The position of the first of these characters, or the length of the text. */
  function Find(s: string, chars: set<char>): (k: nat)
    ensures k <= |s|
    ensures forall i :: 0 <= i < k ==> s[i] !in chars
    ensures k < |s| ==> s[k] in chars
  {
    if s == "" || s[0] in chars then 0 else 1 + Find(s[1..], chars)
  }

  predicate HasBullet(s: string) {
    "- " <= s || "* " <= s || "+ " <= s
  }

  function NumberedBody(line: string): Option<string> {
    var split := Find(line, {'.', ')'});
    if split == |line| || !AllDigits(line[..split]) then None else Some(TrimStart(line[split + 1..]))
  }

  predicate IsCompletedMarker(marker: string) {
    Lower(Trim(marker)) in {"x", "done", "completed", "complete", "✓", "✔", "完成"}
  }

  function ParseTaskLine(line: string): Option<PersistedTask> {
    var text := TrimStart(line);
    var body := if HasBullet(text) then Some(text[2..]) else NumberedBody(text);
    if body.None? then None
    else
      var content := TrimStart(body.value);
      var end := Find(content, {']'});
      if end == |content| || content[0] != '[' then None
      else
        var title := Trim(content[end + 1..]);
        if title == "" then None else Some(PersistedTask(title, IsCompletedMarker(content[1..end])))
  }

  function ParseTasks(lines: seq<string>): seq<PersistedTask> {
    if lines == [] then []
    else
      var task := ParseTaskLine(lines[|lines| - 1]);
      ParseTasks(lines[..|lines| - 1]) + if task.Some? then [task.value] else []
  }

  /** The lists found so far, and the lines of the one that is open. */
  datatype Scan = Scan(lists: seq<seq<PersistedTask>>, active: Option<seq<string>>)

  function Closed(scan: Scan): seq<seq<PersistedTask>> {
    if scan.active.None? || ParseTasks(scan.active.value) == [] then scan.lists
    else scan.lists + [ParseTasks(scan.active.value)]
  }

  function ScanLine(scan: Scan, line: string): Scan {
    var heading := StoredHeading(line);
    if heading.Some? then Scan(Closed(scan), if IsTaskHeading(heading.value) then Some([]) else None)
    else if scan.active.Some? then scan.(active := Some(scan.active.value + [line]))
    else scan
  }

  function ScanLines(scan: Scan, lines: seq<string>): Scan {
    if lines == [] then scan else ScanLine(ScanLines(scan, lines[..|lines| - 1]), lines[|lines| - 1])
  }

  /** The lists that stand under a task heading. */
  function HeadedLists(lines: seq<string>): seq<seq<PersistedTask>> {
    Closed(ScanLines(Scan([], None), lines))
  }

  function Extract(text: string): seq<seq<PersistedTask>> {
    var lists := HeadedLists(Lines(text));
    if lists == [] && ParseTasks(Lines(text)) != [] then [ParseTasks(Lines(text))] else lists
  }

  method ParseTaskLines(lines: seq<string>) returns (tasks: seq<PersistedTask>)
    ensures tasks == ParseTasks(lines)
  {
    hide ParseTaskLine;
    tasks := [];
    for i := 0 to |lines|
      invariant tasks == ParseTasks(lines[..i])
    {
      assert lines[..i + 1][..i] == lines[..i];
      var task := ParseTaskLine(lines[i]);
      if task.Some? {
        tasks := tasks + [task.value];
      }
    }
    assert lines[..|lines|] == lines;
  }

  method ExtractTaskLists(text: string) returns (lists: seq<seq<PersistedTask>>)
    ensures lists == Extract(text)
  {
    hide StoredHeading, IsTaskHeading, ParseTasks, Lines;
    var lines := Lines(text);
    var active: Option<seq<string>> := None;
    lists := [];
    for i := 0 to |lines|
      invariant Scan(lists, active) == ScanLines(Scan([], None), lines[..i])
    {
      assert lines[..i + 1][..i] == lines[..i];
      var heading := StoredHeading(lines[i]);
      if heading.Some? {
        if active.Some? {
          var tasks := ParseTaskLines(active.value);
          if tasks != [] {
            lists := lists + [tasks];
          }
        }
        active := if IsTaskHeading(heading.value) then Some([]) else None;
        continue;
      }
      if active.Some? {
        active := Some(active.value + [lines[i]]);
      }
    }
    assert lines[..|lines|] == lines;
    if active.Some? {
      var tasks := ParseTaskLines(active.value);
      if tasks != [] {
        lists := lists + [tasks];
      }
    }
    if lists == [] {
      var tasks := ParseTaskLines(lines);
      if tasks != [] {
        lists := [tasks];
      }
    }
  }

  // ---------------------------------------------------------------- the reader that goes on

  /** The text of a heading of depth one to six. */
  function RunHeading(line: string): Option<string> {
    var text := TrimStart(line);
    var hashes := CountLeading(text, '#');
    if !(1 <= hashes <= 6) then None
    else
      var rest := Trim(text[hashes..]);
      if rest == "" then None else Some(Trim(TrimEndOf(rest, {'#'})))
  }

  predicate EqIgnoringCase(a: string, b: string) {
    AsciiLower(a) == AsciiLower(b)
  }

  predicate IsListHeading(heading: string) {
    EqIgnoringCase(heading, "任务列表") || EqIgnoringCase(heading, "任务清单")
    || EqIgnoringCase(heading, "task list") || EqIgnoringCase(heading, "tasks") || EqIgnoringCase(heading, "plan")
  }

  predicate IsReportHeading(heading: string) {
    EqIgnoringCase(heading, "完成报告") || EqIgnoringCase(heading, "completion report")
    || EqIgnoringCase(heading, "final report")
  }

  predicate IsOpenItem(line: string) {
    var text := TrimStart(line);
    var space := Find(text, {' '});
    if HasBullet(text) then StartsOpen(text[2..])
    else space < |text| && AllDigits(TrimEndOf(text[..space], {'.', ')'})) && StartsOpen(text[space + 1..])
  }

  predicate StartsOpen(item: string) {
    "[ ]" <= item || "[]" <= item
  }

  datatype Workflow = Workflow(inList: bool, sawList: bool, hasOpen: bool, hasReport: bool)

  function Normalized(heading: string): string {
    Trim(TrimEndOf(Trim(heading), COLONS))
  }

  function WorkflowLine(w: Workflow, line: string): Workflow {
    var heading := RunHeading(line);
    if heading.Some? then
      if IsReportHeading(Normalized(heading.value)) then w.(hasReport := true, inList := false)
      else
        var isList := IsListHeading(Normalized(heading.value));
        w.(inList := isList, sawList := w.sawList || isList)
    else if w.inList && IsOpenItem(line) then w.(hasOpen := true)
    else w
  }

  function WorkflowLines(w: Workflow, lines: seq<string>): Workflow {
    if lines == [] then w else WorkflowLine(WorkflowLines(w, lines[..|lines| - 1]), lines[|lines| - 1])
  }

  datatype TaskWorkflowState = TaskWorkflowState(hasOpenTasks: bool, hasReport: bool)

  function WorkflowState(text: string): Option<TaskWorkflowState> {
    var w := WorkflowLines(Workflow(false, false, false, false), Lines(text));
    if w.sawList then Some(TaskWorkflowState(w.hasOpen, w.hasReport)) else None
  }

  /** The test a run makes on a message's text before it goes on. */
  predicate ShowsOpenTasks(text: string) {
    var state := WorkflowState(text);
    state.Some? && state.value.hasOpenTasks && !state.value.hasReport
  }

  method ReadWorkflowState(text: string) returns (state: Option<TaskWorkflowState>)
    ensures state == WorkflowState(text)
  {
    hide RunHeading, IsListHeading, IsReportHeading, Normalized, IsOpenItem, Lines;
    var lines := Lines(text);
    var inList, sawList, hasOpen, hasReport := false, false, false, false;
    for i := 0 to |lines|
      invariant Workflow(inList, sawList, hasOpen, hasReport)
                == WorkflowLines(Workflow(false, false, false, false), lines[..i])
    {
      assert lines[..i + 1][..i] == lines[..i];
      var heading := RunHeading(lines[i]);
      if heading.Some? {
        if IsReportHeading(Normalized(heading.value)) {
          hasReport := true;
          inList := false;
          continue;
        }
        inList := IsListHeading(Normalized(heading.value));
        sawList := sawList || inList;
        continue;
      }
      if inList && IsOpenItem(lines[i]) {
        hasOpen := true;
      }
    }
    assert lines[..|lines|] == lines;
    return if sawList then Some(TaskWorkflowState(hasOpen, hasReport)) else None;
  }
}
