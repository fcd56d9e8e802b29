/** The task list an agent keeps while it works, and the markdown it shows of it. */
module TaskLists {
  import opened Wrappers
  import opened Text

  datatype TaskStatus = Pending | InProgress | Completed

  datatype TaskItem = TaskItem(id: string, title: string, status: TaskStatus)

  datatype TaskList = TaskList(items: seq<TaskItem>, report: Option<string>)

  datatype TaskError =
    | MissingTasks
    | NotATask(number: nat)
    | MissingTitle(number: nat)
    | NoTasks
    | NotCreated
    | IndexOutOfRange
    | UnknownId
    | MissingTarget

  /** One entry of the `tasks` argument. */
  datatype TaskValue = TextTask(text: string) | ObjectTask(title: Option<string>, status: Option<string>) | OtherValue

  datatype UpdateArguments = UpdateArguments(index: Option<nat>, id: Option<string>, title: Option<string>, status: Option<string>)

  function StatusFrom(value: Option<string>): TaskStatus {
    var word := AsciiLower(Trim(if value.Some? then value.value else "pending"));
    if word in {"done", "complete", "completed", "finished", "x", "完成"} then Completed
    else if word in {"active", "current", "in_progress", "in-progress", "doing", "进行中"} then InProgress
    else Pending
  }

  /** A trimmed text, unless nothing is left of it. */
  function Given(value: Option<string>): (text: Option<string>)
  {
    if value.None? || Trim(value.value) == "" then None else Some(Trim(value.value))
  }

  function TaskId(number: nat): string {
    "task-" + Decimal(number)
  }

  function ItemFrom(number: nat, value: TaskValue): Result<TaskItem, TaskError> {
    match value
    case TextTask(text) =>
      if Given(Some(text)).Some? then Ok(TaskItem(TaskId(number), Given(Some(text)).value, Pending)) else Err(NotATask(number))
    case ObjectTask(title, status) =>
      if Given(title).Some? then Ok(TaskItem(TaskId(number), Given(title).value, StatusFrom(status)))
      else Err(MissingTitle(number))
    case OtherValue => Err(NotATask(number))
  }

  /** The items of a task argument, or the first error in it. */
  function ItemsFrom(values: seq<TaskValue>): (r: Result<seq<TaskItem>, TaskError>)
    ensures r.Ok? ==> |r.value| == |values|
  {
    if values == [] then Ok([])
    else
      var before := ItemsFrom(values[..|values| - 1]);
      if before.Err? then before
      else
        var item := ItemFrom(|values|, values[|values| - 1]);
        if item.Err? then Err(item.error) else Ok(before.value + [item.value])
  }

  function FirstWithId(items: seq<TaskItem>, id: string): (k: nat)
    ensures k <= |items|
    ensures forall i :: 0 <= i < k ==> items[i].id != id
    ensures k < |items| ==> items[k].id == id
  {
    if items == [] || items[0].id == id then 0 else 1 + FirstWithId(items[1..], id)
  }

  function Resolve(items: seq<TaskItem>, index: Option<nat>, id: Option<string>): (r: Result<nat, TaskError>)
    ensures r.Ok? ==> r.value < |items|
  {
    if index.Some? then
      if index.value == 0 || index.value > |items| then Err(IndexOutOfRange) else Ok(index.value - 1)
    else if id.Some? then
      var k := FirstWithId(items, id.value);
      if k < |items| then Ok(k) else Err(UnknownId)
    else Err(MissingTarget)
  }

  predicate HasOpenTasks(list: TaskList) {
    list.report.None? && exists i :: 0 <= i < |list.items| && list.items[i].status != Completed
  }

  // ---------------------------------------------------------------- operations on values

  datatype Operation = Create(tasks: Option<seq<TaskValue>>) | Update(arguments: UpdateArguments) | FinishTasks(report: Option<string>)

  function Outcome(list: TaskList, op: Operation): Result<TaskList, TaskError> {
    match op
    case Create(tasks) =>
      if tasks.None? then Err(MissingTasks)
      else
        var items := ItemsFrom(tasks.value);
        if items.Err? then Err(items.error)
        else if items.value == [] then Err(NoTasks)
        else Ok(TaskList(items.value, None))
    case Update(a) =>
      if list.items == [] then Err(NotCreated)
      else
        var target := Resolve(list.items, a.index, a.id);
        if target.Err? then Err(target.error)
        else
          var item := list.items[target.value];
          var titled := if Given(a.title).Some? then item.(title := Given(a.title).value) else item;
          var updated := if a.status.Some? then titled.(status := StatusFrom(a.status)) else titled;
          Ok(list.(items := list.items[target.value := updated]))
    case FinishTasks(report) =>
      if list.items == [] then Err(NotCreated)
      else Ok(TaskList(AllCompleted(list.items), Given(report)))
  }

  function AllCompleted(items: seq<TaskItem>): (done: seq<TaskItem>)
    ensures |done| == |items|
    ensures forall i :: 0 <= i < |items| ==> done[i] == items[i].(status := Completed)
  {
    if items == [] then [] else AllCompleted(items[..|items| - 1]) + [items[|items| - 1].(status := Completed)]
  }

  function After(list: TaskList, op: Operation): TaskList {
    var outcome := Outcome(list, op);
    if outcome.Ok? then outcome.value else list
  }

  function Execute(ops: seq<Operation>): TaskList {
    if ops == [] then TaskList([], None) else After(Execute(ops[..|ops| - 1]), ops[|ops| - 1])
  }

  /** Ids count from 1, every title has something to show, and there is a report only on a list
      whose tasks exist. */
  predicate Valid(list: TaskList) {
    && (forall i :: 0 <= i < |list.items| ==> list.items[i].id == TaskId(i + 1) && IsTrimmed(list.items[i].title))
    && (list.report.Some? ==> list.items != [] && IsTrimmed(list.report.value))
  }

  lemma GivenIsTrimmed(value: Option<string>)
    ensures Given(value).Some? ==> IsTrimmed(Given(value).value)
  {
    if value.Some? {
      TrimmedOrBlank(value.value);
    }
  }

  lemma {:induction false} ItemsFromAreValid(values: seq<TaskValue>)
    ensures ItemsFrom(values).Ok? ==> Valid(TaskList(ItemsFrom(values).value, None))
  {
    hide Trim, StatusFrom, Given, IsTrimmed, TaskId;
    if values != [] {
      var last := values[|values| - 1];
      ItemsFromAreValid(values[..|values| - 1]);
      match last {
        case TextTask(text) => GivenIsTrimmed(Some(text));
        case ObjectTask(title, _) => GivenIsTrimmed(title);
        case OtherValue =>
      }
    }
  }

  lemma OperationKeepsValid(list: TaskList, op: Operation)
    requires Valid(list)
    ensures Valid(After(list, op))
  {
    hide Trim, StatusFrom, Given, IsTrimmed, TaskId, ItemsFrom, Resolve;
    match op {
      case Create(tasks) =>
        if tasks.Some? {
          ItemsFromAreValid(tasks.value);
        }
      case Update(a) => GivenIsTrimmed(a.title);
      case FinishTasks(report) => GivenIsTrimmed(report);
    }
  }

  /** Whatever the agent asks for, in whatever order. */
  lemma {:induction false} ReachableIsValid(ops: seq<Operation>)
    ensures Valid(Execute(ops))
  {
    hide After, Valid;
    if ops == [] {
      EmptyIsValid();
    } else {
      ReachableIsValid(ops[..|ops| - 1]);
      OperationKeepsValid(Execute(ops[..|ops| - 1]), ops[|ops| - 1]);
    }
  }

  lemma EmptyIsValid()
    ensures Valid(TaskList([], None))
  {
  }

  /** Naming a task by its id is naming it by its number, and no other id names it. */
  lemma {:induction false} IdResolvesToItsNumber(list: TaskList, k: nat, id: string)
    requires Valid(list) && k < |list.items|
    ensures Resolve(list.items, Some(k + 1), None) == Ok(k)
    ensures Resolve(list.items, None, Some(id)) == Ok(k) <==> id == TaskId(k + 1)
  {
    hide Decimal, IsTrimmed;
    var found := FirstWithId(list.items, id);
    if id == TaskId(k + 1) {
      assert list.items[k].id == id;
      assert found <= k;
      assert list.items[found].id == TaskId(found + 1);
      SameTaskId(found + 1, k + 1);
    }
  }

  lemma SameTaskId(a: nat, b: nat)
    requires TaskId(a) == TaskId(b)
    ensures a == b
  {
    assert TaskId(a)[5..] == Decimal(a) && TaskId(b)[5..] == Decimal(b);
    DecimalIsInjective(a, b);
  }

  // ---------------------------------------------------------------- what an operation does

  /** A task begins as pending unless its status says otherwise, in whatever case and spacing. */
  lemma {:induction false} StatusWords(given: string)
    ensures StatusFrom(None) == Pending
    ensures var word := AsciiLower(Trim(given));
            && (StatusFrom(Some(given)) == Completed <==> word in {"done", "complete", "completed", "finished", "x", "完成"})
            && (StatusFrom(Some(given)) == InProgress
                <==> word in {"active", "current", "in_progress", "in-progress", "doing", "进行中"})
  {
    hide AsciiLower, Trim;
    PendingIsPlain();
  }

  lemma {:induction false} PendingIsPlain()
    ensures AsciiLower(Trim("pending")) == "pending"
  {
    hide Trim;
    TrimmedStays("pending");
    assert AsciiLower("pending") == "pending";
  }

  /** The status words as they are written. */
  lemma {:induction false} PlainStatusWords()
    ensures StatusFrom(Some("completed")) == StatusFrom(Some("DONE")) == Completed
    ensures StatusFrom(Some("in_progress")) == StatusFrom(Some("doing")) == InProgress
    ensures StatusFrom(Some("pending")) == Pending
  {
    hide Trim;
    PendingIsPlain();
    TrimmedStays("completed");
    TrimmedStays("DONE");
    TrimmedStays("in_progress");
    TrimmedStays("doing");
    assert AsciiLower("completed") == "completed" && AsciiLower("DONE") == "done";
    assert AsciiLower("in_progress") == "in_progress" && AsciiLower("doing") == "doing";
  }

  /** What an update addresses: the task of that number, or else the first with that id. */
  predicate IsAddressed(items: seq<TaskItem>, a: UpdateArguments, k: nat) {
    && k < |items|
    && (a.index.Some? ==> a.index.value == k + 1)
    && (a.index.None? ==> a.id == Some(items[k].id) && forall i :: 0 <= i < k ==> items[i].id != items[k].id)
  }

  /** An update that addresses a task gives it the new title if there is text in it and the new status if
      there is one, and changes no other task and not the report; any other update changes nothing. */
  lemma {:induction false} UpdateChangesOneTask(list: TaskList, a: UpdateArguments)
    ensures var after := After(list, Update(a));
            && (Outcome(list, Update(a)).Ok? <==> exists k: nat :: IsAddressed(list.items, a, k))
            && (forall k: nat :: IsAddressed(list.items, a, k) ==>
                  var was := list.items[k];
                  after == TaskList(list.items[k := TaskItem(was.id,
                                                             if a.title.Some? && Trim(a.title.value) != "" then Trim(a.title.value)
                                                             else was.title,
                                                             if a.status.Some? then StatusFrom(a.status) else was.status)],
                                    list.report))
            && (Outcome(list, Update(a)).Err? ==> after == list)
  {
    hide Trim, StatusFrom;
    var target := Resolve(list.items, a.index, a.id);
    forall k: nat | IsAddressed(list.items, a, k)
      ensures target == Ok(k)
    {
      if a.index.None? {
        var found := FirstWithId(list.items, a.id.value);
        assert found == k;
      }
    }
    if target.Ok? {
      assert IsAddressed(list.items, a, target.value);
    }
  }

  /** What a new list makes of one entry: a text or a title, without outer spaces, and a status. */
  predicate IsMadeFrom(item: TaskItem, number: nat, value: TaskValue) {
    && item.id == "task-" + Decimal(number)
    && (value.TextTask? ==> Trim(value.text) != "" && item.title == Trim(value.text) && item.status == Pending)
    && (value.ObjectTask? ==> value.title.Some? && Trim(value.title.value) != "" && item.title == Trim(value.title.value)
                              && item.status == StatusFrom(value.status))
    && !value.OtherValue?
  }

  predicate HasTitle(value: TaskValue) {
    match value
    case TextTask(text) => Trim(text) != ""
    case ObjectTask(title, _) => title.Some? && Trim(title.value) != ""
    case OtherValue => false
  }

  lemma {:induction false} ItemsAreMade(values: seq<TaskValue>)
    ensures ItemsFrom(values).Ok? <==> forall i :: 0 <= i < |values| ==> HasTitle(values[i])
    ensures ItemsFrom(values).Ok? ==> forall i :: 0 <= i < |values| ==> IsMadeFrom(ItemsFrom(values).value[i], i + 1, values[i])
  {
    hide Trim, StatusFrom, Decimal;
    if values != [] {
      var n := |values| - 1;
      ItemsAreMade(values[..n]);
      assert forall i :: 0 <= i < n ==> values[..n][i] == values[i];
    }
  }

  /** A list is created exactly when there are entries and each has a title; it then has one task for each
      and no report. Finishing needs a list; it completes every task and keeps only a report with text. */
  lemma {:induction false} CreateAndFinish(list: TaskList, values: seq<TaskValue>, report: Option<string>)
    ensures var made := Outcome(list, Create(Some(values)));
            && (made.Ok? <==> values != [] && forall i :: 0 <= i < |values| ==> HasTitle(values[i]))
            && (made.Ok? ==> |made.value.items| == |values| && made.value.report == None
                             && forall i :: 0 <= i < |values| ==> IsMadeFrom(made.value.items[i], i + 1, values[i]))
    ensures var done := Outcome(list, FinishTasks(report));
            && (done.Ok? <==> list.items != [])
            && (done.Ok? ==> |done.value.items| == |list.items|
                             && (forall i :: 0 <= i < |list.items| ==>
                                   done.value.items[i] == TaskItem(list.items[i].id, list.items[i].title, Completed))
                             && done.value.report == if report.Some? && Trim(report.value) != "" then Some(Trim(report.value)) else None)
  {
    hide Trim, StatusFrom, HasTitle, IsMadeFrom, ItemsFrom;
    ItemsAreMade(values);
  }

  /** The entry that is reported as the first without a title: a text or another value as no task, an
      object as having none. */
  predicate IsFirstBad(values: seq<TaskValue>, k: nat) {
    k < |values| && !HasTitle(values[k]) && forall i :: 0 <= i < k ==> HasTitle(values[i])
  }

  lemma {:induction false} FirstBadIsReported(values: seq<TaskValue>, k: nat)
    requires IsFirstBad(values, k)
    ensures ItemsFrom(values) == Err(if values[k].ObjectTask? then MissingTitle(k + 1) else NotATask(k + 1))
  {
    hide Trim, StatusFrom;
    var n := |values| - 1;
    if k < n {
      assert IsFirstBad(values[..n], k);
      FirstBadIsReported(values[..n], k);
    } else {
      ItemsAreMade(values[..n]);
    }
  }

  function IdsOf(items: seq<TaskItem>): set<string> {
    set i | 0 <= i < |items| :: items[i].id
  }

  /** What is wrong with an operation that fails. */
  lemma {:induction false} ErrorsTell(list: TaskList, a: UpdateArguments, values: seq<TaskValue>, report: Option<string>)
    ensures Outcome(list, Create(None)) == Err(MissingTasks) && Outcome(list, Create(Some([]))) == Err(NoTasks)
    ensures forall k: nat :: IsFirstBad(values, k) ==>
              Outcome(list, Create(Some(values))) == Err(if values[k].ObjectTask? then MissingTitle(k + 1) else NotATask(k + 1))
    ensures list.items == [] ==> Outcome(list, Update(a)) == Err(NotCreated) && Outcome(list, FinishTasks(report)) == Err(NotCreated)
    ensures list.items != [] && a.index.Some? && !(1 <= a.index.value <= |list.items|) ==> Outcome(list, Update(a)) == Err(IndexOutOfRange)
    ensures list.items != [] && a.index.None? && a.id.Some? && a.id.value !in IdsOf(list.items) ==> Outcome(list, Update(a)) == Err(UnknownId)
    ensures list.items != [] && a.index.None? && a.id.None? ==> Outcome(list, Update(a)) == Err(MissingTarget)
  {
    hide Trim, StatusFrom, HasTitle, IsFirstBad, Given;
    forall k: nat | IsFirstBad(values, k)
      ensures k < |values|
      ensures Outcome(list, Create(Some(values))) == Err(if values[k].ObjectTask? then MissingTitle(k + 1) else NotATask(k + 1))
    {
      BadIsOne(values, k);
      FirstBadIsReported(values, k);
    }
  }

  lemma {:induction false} BadIsOne(values: seq<TaskValue>, k: nat)
    requires IsFirstBad(values, k)
    ensures k < |values|
  {
  }

  // ---------------------------------------------------------------- markdown

  const LIST_HEADING := "## 任务列表"
  const REPORT_HEADING := "## 完成报告"
  const NOTHING_YET := "- [ ] 尚未创建任务"

  function ShownTitle(item: TaskItem): string {
    if item.status.InProgress? then item.title + "（进行中）" else item.title
  }

  function ItemLine(item: TaskItem): string {
    "- [" + (if item.status.Completed? then "x" else " ") + "] " + ShownTitle(item)
  }

  function ItemLines(items: seq<TaskItem>): (lines: seq<string>)
    ensures |lines| == |items|
  {
    if items == [] then [] else ItemLines(items[..|items| - 1]) + [ItemLine(items[|items| - 1])]
  }

  function MarkdownLines(list: TaskList): seq<string> {
    [LIST_HEADING]
    + (if list.items == [] then [NOTHING_YET] else ItemLines(list.items))
    + (if list.report.Some? then ["", REPORT_HEADING, list.report.value] else [])
  }

  function Markdown(list: TaskList): string {
    Join(MarkdownLines(list), "\n")
  }

  /** A task as it is shown, by its status; and what a list without tasks shows. */
  lemma {:induction false} ShownByStatus(id: string, title: string)
    ensures ItemLine(TaskItem(id, title, Pending)) == "- [ ] " + title
    ensures ItemLine(TaskItem(id, title, InProgress)) == "- [ ] " + title + "（进行中）"
    ensures ItemLine(TaskItem(id, title, Completed)) == "- [x] " + title
    ensures Markdown(TaskList([], None)) == "## 任务列表\n- [ ] 尚未创建任务"
  {
    assert MarkdownLines(TaskList([], None))[1..] == ["- [ ] 尚未创建任务"];
  }

  // ---------------------------------------------------------------- the list in place

  class TaskListState {
    var items: seq<TaskItem>
    var report: Option<string>

    constructor ()
      ensures View() == TaskList([], None)
    {
      items, report := [], None;
    }

    function View(): TaskList
      reads this
    {
      TaskList(items, report)
    }

    method CreateTasks(tasks: Option<seq<TaskValue>>) returns (r: Result<string, TaskError>)
      modifies this
      ensures View() == After(old(View()), Create(tasks))
      ensures var outcome := Outcome(old(View()), Create(tasks));
              r == if outcome.Ok? then Ok(Markdown(outcome.value)) else Err(outcome.error)
    {
      hide ItemFrom, Markdown;
      if tasks.None? {
        return Err(MissingTasks);
      }
      var values := tasks.value;
      var made: seq<TaskItem> := [];
      for i := 0 to |values|
        invariant items == old(items) && report == old(report)
        invariant ItemsFrom(values[..i]) == Ok(made)
      {
        assert values[..i + 1][..i] == values[..i];
        var item := ItemFrom(i + 1, values[i]);
        if item.Err? {
          FirstErrorStays(values, i + 1);
          return Err(item.error);
        }
        made := made + [item.value];
      }
      assert values[..|values|] == values;
      if made == [] {
        return Err(NoTasks);
      }
      items, report := made, None;
      var text := RenderMarkdown();
      return Ok(text);
    }

    method ResolveIndex(a: UpdateArguments) returns (r: Result<nat, TaskError>)
      ensures r == Resolve(items, a.index, a.id)
    {
      if a.index.Some? {
        if a.index.value == 0 || a.index.value > |items| {
          return Err(IndexOutOfRange);
        }
        return Ok(a.index.value - 1);
      }
      if a.id.Some? {
        for i := 0 to |items|
          invariant forall k :: 0 <= k < i ==> items[k].id != a.id.value
        {
          if items[i].id == a.id.value {
            return Ok(i);
          }
        }
        return Err(UnknownId);
      }
      return Err(MissingTarget);
    }

    method UpdateTask(a: UpdateArguments) returns (r: Result<string, TaskError>)
      modifies this
      ensures View() == After(old(View()), Update(a))
      ensures var outcome := Outcome(old(View()), Update(a));
              r == if outcome.Ok? then Ok(Markdown(outcome.value)) else Err(outcome.error)
    {
      hide Markdown, Resolve, StatusFrom, Given;
      if items == [] {
        return Err(NotCreated);
      }
      var target := ResolveIndex(a);
      if target.Err? {
        return Err(target.error);
      }
      var index := target.value;
      var title := Given(a.title);
      if title.Some? {
        items := items[index := items[index].(title := title.value)];
      }
      if a.status.Some? {
        items := items[index := items[index].(status := StatusFrom(a.status))];
      }
      var text := RenderMarkdown();
      return Ok(text);
    }

    method FinishList(given: Option<string>) returns (r: Result<string, TaskError>)
      modifies this
      ensures View() == After(old(View()), FinishTasks(given))
      ensures var outcome := Outcome(old(View()), FinishTasks(given));
              r == if outcome.Ok? then Ok(Markdown(outcome.value)) else Err(outcome.error)
    {
      hide Markdown, Given;
      if items == [] {
        return Err(NotCreated);
      }
      for i := 0 to |items|
        invariant |items| == |old(items)| && report == old(report)
        invariant forall k :: 0 <= k < i ==> items[k] == old(items)[k].(status := Completed)
        invariant forall k :: i <= k < |items| ==> items[k] == old(items)[k]
      {
        items := items[i := items[i].(status := Completed)];
      }
      assert items == AllCompleted(old(items));
      report := Given(given);
      var text := RenderMarkdown();
      return Ok(text);
    }

    method RenderMarkdown() returns (text: string)
      ensures text == Markdown(View())
    {
      hide ItemLine;
      var lines := [LIST_HEADING];
      if items == [] {
        lines := lines + [NOTHING_YET];
      } else {
        for i := 0 to |items|
          invariant lines == [LIST_HEADING] + ItemLines(items[..i])
        {
          assert items[..i + 1][..i] == items[..i];
          lines := lines + [ItemLine(items[i])];
        }
        assert items[..|items|] == items;
      }
      if report.Some? {
        lines := lines + [""];
        lines := lines + [REPORT_HEADING];
        lines := lines + [report.value];
      }
      assert lines == MarkdownLines(View());
      text := Join(lines, "\n");
    }

    method HasOpen() returns (open: bool)
      ensures open <==> HasOpenTasks(View())
    {
      if report.Some? {
        return false;
      }
      for i := 0 to |items|
        invariant forall k :: 0 <= k < i ==> items[k].status.Completed?
      {
        if !items[i].status.Completed? {
          return true;
        }
      }
      return false;
    }
  }

  lemma {:induction false} FirstErrorStays(values: seq<TaskValue>, k: nat)
    requires k <= |values| && ItemsFrom(values[..k]).Err?
    ensures ItemsFrom(values) == ItemsFrom(values[..k])
    decreases |values|
  {
    hide ItemFrom;
    if k == |values| {
      assert values[..k] == values;
    } else {
      assert values[..|values| - 1][..k] == values[..k];
      FirstErrorStays(values[..|values| - 1], k);
    }
  }
}
