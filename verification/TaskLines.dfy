/** Which lines the two readers of a task list take for tasks and for headings, however they are
    written. */
module TaskLines {
  import opened Wrappers
  import opened Text
  import opened TaskParsers

  predicate IsNumber(s: string) {
    forall i :: 0 <= i < |s| ==> '0' <= s[i] <= '9'
  }

  predicate IsBullet(lead: string) {
    lead == "- " || lead == "* " || lead == "+ "
  }

  // ---------------------------------------------------------------- cutting texts

  lemma {:induction false} BlankIsTrimmed(blank: string, s: string)
    requires IsBlank(blank) && (s == "" || !IsWhitespace(s[0]))
    ensures TrimStart(blank + s) == s
  {
    hide IsWhitespace;
    if blank == "" {
      assert blank + s == s;
    } else {
      assert (blank + s)[1..] == blank[1..] + s;
      BlankIsTrimmed(blank[1..], s);
    }
  }

  lemma {:induction false} TrimmedBlank(s: string) returns (blank: string)
    ensures s == blank + TrimStart(s) && IsBlank(blank)
  {
    hide IsWhitespace;
    if s != "" && IsWhitespace(s[0]) {
      var rest := TrimmedBlank(s[1..]);
      blank := [s[0]] + rest;
    } else {
      blank := "";
    }
  }

  lemma {:induction false} FoundAt(s: string, chars: set<char>, k: nat)
    requires k < |s| && s[k] in chars && forall i :: 0 <= i < k ==> s[i] !in chars
    ensures Find(s, chars) == k
  {
    hide Find;
    var found := Find(s, chars);
    assert !(k < found);
  }

  lemma {:induction false} EndIsTrimmed(s: string, end: string, chars: set<char>)
    requires (forall i :: 0 <= i < |end| ==> end[i] in chars) && (s == "" || s[|s| - 1] !in chars)
    ensures TrimEndOf(s + end, chars) == s
  {
    if end == "" {
      assert s + end == s;
    } else {
      assert (s + end)[..|s + end| - 1] == s + end[..|end| - 1];
      EndIsTrimmed(s, end[..|end| - 1], chars);
    }
  }

  lemma {:induction false} TrimmedEnd(s: string, chars: set<char>) returns (end: string)
    ensures s == TrimEndOf(s, chars) + end && forall i :: 0 <= i < |end| ==> end[i] in chars
  {
    if s != "" && s[|s| - 1] in chars {
      var before := TrimmedEnd(s[..|s| - 1], chars);
      end := before + [s[|s| - 1]];
    } else {
      end := "";
    }
  }

  // ---------------------------------------------------------------- the reader that stores

  /** What may stand before a checkbox: a bullet, or digits and a dot or a parenthesis. */
  predicate IsLead(lead: string) {
    IsBullet(lead)
    || (lead != "" && (lead[|lead| - 1] == '.' || lead[|lead| - 1] == ')') && IsNumber(lead[..|lead| - 1]))
  }

  predicate IsTask(line: string, indent: string, lead: string, gap: string, mark: string, rest: string) {
    && line == indent + (lead + (gap + ("[" + mark + "]" + rest)))
    && IsBlank(indent) && IsLead(lead) && IsBlank(gap) && ']' !in mark && Trim(rest) != ""
  }

  /** The marks of a completed task, in any case. */
  predicate IsDone(mark: string) {
    Lower(Trim(mark)) in {"x", "done", "completed", "complete", "✓", "✔", "完成"}
  }

  lemma {:induction false} LeadIsText(lead: string)
    requires IsLead(lead)
    ensures lead != "" && !IsWhitespace(lead[0])
    ensures !IsBullet(lead) ==> lead[0] != '-' && lead[0] != '*' && lead[0] != '+'
  {
    if !IsBullet(lead) && |lead| > 1 {
      assert lead[..|lead| - 1][0] == lead[0];
    }
  }

  /** A box behind a lead is found. */
  lemma {:induction false} BodyBehindLead(lead: string, gap: string, box: string)
    requires IsLead(lead) && IsBlank(gap) && box != "" && !IsWhitespace(box[0])
    ensures var text := lead + (gap + box);
            var body := if HasBullet(text) then Some(text[2..]) else NumberedBody(text);
            body.Some? && TrimStart(body.value) == box
  {
    hide IsWhitespace, Find;
    var text := lead + (gap + box);
    BlankIsTrimmed(gap, box);
    LeadIsText(lead);
    if IsBullet(lead) {
      assert text[..2] == lead && text[2..] == gap + box;
    } else {
      var k := |lead| - 1;
      assert text[0] == lead[0] && text[k] == lead[k] && text[..k] == lead[..k];
      assert forall i :: 0 <= i < k ==> text[i] == lead[..k][i];
      FoundAt(text, {'.', ')'}, k);
      assert text[k + 1..] == gap + box;
      BlankIsTrimmed("", box);
      assert "" + box == box;
    }
  }

  lemma {:induction false} BoxIsRead(mark: string, rest: string)
    requires ']' !in mark
    ensures var box := "[" + mark + "]" + rest;
            && TrimStart(box) == box && Find(box, {']'}) == |mark| + 1 && box[1..|mark| + 1] == mark
            && box[|mark| + 2..] == rest
  {
    hide Find;
    var box := "[" + mark + "]" + rest;
    assert box[|mark| + 1] == ']';
    assert forall i :: 0 < i < |mark| + 1 ==> box[i] == mark[i - 1];
    FoundAt(box, {']'}, |mark| + 1);
  }

  lemma {:induction false} TaskIsRead(line: string, indent: string, lead: string, gap: string, mark: string, rest: string)
    requires IsTask(line, indent, lead, gap, mark, rest)
    ensures ParseTaskLine(line) == Some(PersistedTask(Trim(rest), IsDone(mark)))
  {
    hide IsWhitespace, Trim, Find, NumberedBody, HasBullet, TrimStart, Lower;
    var box := "[" + mark + "]" + rest;
    BoxIsRead(mark, rest);
    BracketIsText(box);
    LeadIsText(lead);
    BlankIsTrimmed(indent, lead + (gap + box));
    BodyBehindLead(lead, gap, box);
  }

  lemma {:induction false} BracketIsText(box: string)
    requires box != "" && box[0] == '['
    ensures !IsWhitespace(box[0])
  {
  }

  lemma {:induction false} LeadOfBody(text: string) returns (lead: string, gap: string)
    requires HasBullet(text) || NumberedBody(text).Some?
    ensures var body := if HasBullet(text) then text[2..] else NumberedBody(text).value;
            text == lead + (gap + TrimStart(body)) && IsLead(lead) && IsBlank(gap)
  {
    hide TrimStart, IsWhitespace, Find;
    if HasBullet(text) {
      lead := text[..2];
      gap := TrimmedBlank(text[2..]);
      assert text == text[..2] + text[2..];
    } else {
      var k := Find(text, {'.', ')'});
      lead := text[..k + 1];
      gap := TrimmedBlank(text[k + 1..]);
      assert lead[..k] == text[..k];
      assert text == text[..k + 1] + text[k + 1..];
      TrimmedTwice(text[k + 1..]);
    }
  }

  lemma {:induction false} TrimmedTwice(s: string)
    ensures TrimStart(TrimStart(s)) == TrimStart(s)
  {
    BlankIsTrimmed("", TrimStart(s));
    assert "" + TrimStart(s) == TrimStart(s);
  }

  lemma {:induction false} TaskLooksSo(line: string) returns (indent: string, lead: string, gap: string, mark: string, rest: string)
    requires ParseTaskLine(line).Some?
    ensures IsTask(line, indent, lead, gap, mark, rest)
  {
    hide TrimStart, Trim, IsWhitespace, Find, NumberedBody, HasBullet, IsLead, IsBlank, IsCompletedMarker;
    var text := TrimStart(line);
    indent := TrimmedBlank(line);
    lead, gap := LeadOfBody(text);
    var body := if HasBullet(text) then text[2..] else NumberedBody(text).value;
    var box := TrimStart(body);
    var end := Find(box, {']'});
    mark, rest := box[1..end], box[end + 1..];
    assert box == "[" + mark + "]" + rest;
  }

  /** A line is a task of the stored list exactly when it is a bullet or a number, then a box with any
      mark, then a title; the title is what is left without its outer spaces. */
  lemma {:induction false} TaskExactlyWhen(line: string)
    ensures ParseTaskLine(line).Some? <==>
            exists indent, lead, gap, mark, rest :: IsTask(line, indent, lead, gap, mark, rest)
    ensures forall indent, lead, gap, mark, rest :: IsTask(line, indent, lead, gap, mark, rest)
              ==> ParseTaskLine(line) == Some(PersistedTask(Trim(rest), IsDone(mark)))
  {
    hide ParseTaskLine, IsTask, Trim, IsDone;
    if ParseTaskLine(line).Some? {
      var indent, lead, gap, mark, rest := TaskLooksSo(line);
    }
    forall indent, lead, gap, mark, rest | IsTask(line, indent, lead, gap, mark, rest)
      ensures ParseTaskLine(line) == Some(PersistedTask(Trim(rest), IsDone(mark)))
    {
      TaskIsRead(line, indent, lead, gap, mark, rest);
    }
  }

  // ---------------------------------------------------------------- the stored lists

  predicate IsHeading(line: string) {
    StoredHeading(line).Some?
  }

  predicate OpensList(line: string) {
    StoredHeading(line).Some? && IsTaskHeading(StoredHeading(line).value)
  }

  /** The number of lines before the first heading. */
  function FirstHeading(lines: seq<string>): (k: nat)
    ensures k <= |lines|
  {
    if lines == [] || IsHeading(lines[0]) then 0 else 1 + FirstHeading(lines[1..])
  }

  /** The lists that stand under task headings: the tasks of the lines up to the next heading, if any. */
  function ListsUnder(lines: seq<string>): seq<seq<PersistedTask>>
    decreases |lines|
  {
    var k := FirstHeading(lines);
    if k == |lines| then []
    else
      var rest := lines[k + 1..];
      var tasks := ParseTasks(rest[..FirstHeading(rest)]);
      (if OpensList(lines[k]) && tasks != [] then [tasks] else []) + ListsUnder(rest)
  }

  lemma {:induction false} OneLineScanned(scan: Scan, line: string)
    ensures ScanLine(scan, line)
            == if IsHeading(line) then Scan(Closed(scan), if OpensList(line) then Some([]) else None)
               else if scan.active.Some? then scan.(active := Some(scan.active.value + [line]))
               else scan
  {
    hide StoredHeading, IsTaskHeading, ParseTasks;
  }

  lemma {:induction false} ScanOneMore(scan: Scan, line: string, rest: seq<string>)
    ensures ScanLines(scan, [line] + rest) == ScanLines(ScanLine(scan, line), rest)
  {
    hide ScanLine;
    if rest == [] {
      assert [line] + rest == [line] && [line][..0] == [];
    } else {
      var n := |rest| - 1;
      assert ([line] + rest)[..n + 1] == [line] + rest[..n];
      ScanOneMore(scan, line, rest[..n]);
    }
  }

  lemma {:induction false} HeadingFirst(line: string, rest: seq<string>)
    ensures IsHeading(line) ==> FirstHeading([line] + rest) == 0
    ensures !IsHeading(line) ==> FirstHeading([line] + rest) == FirstHeading(rest) + 1
  {
    hide IsHeading;
    assert ([line] + rest)[1..] == rest;
  }

  lemma {:induction false} ListsBehind(line: string, rest: seq<string>)
    ensures ListsUnder([line] + rest)
            == if !IsHeading(line) then ListsUnder(rest)
               else
                 var tasks := ParseTasks(rest[..FirstHeading(rest)]);
                 (if OpensList(line) && tasks != [] then [tasks] else []) + ListsUnder(rest)
  {
    hide IsHeading, OpensList, ParseTasks, FirstHeading;
    var lines, k := [line] + rest, FirstHeading(rest);
    HeadingFirst(line, rest);
    if IsHeading(line) {
      assert lines[0 + 1..] == rest;
    } else if k < |rest| {
      assert lines[k + 2..] == rest[k + 1..];
    }
  }

  lemma {:induction false} NoListsUnder()
    ensures ListsUnder([]) == [] && FirstHeading([]) == 0
  {
  }

  /** What is read of the open list, when these lines follow. */
  function OpenList(scan: Scan, lines: seq<string>): seq<seq<PersistedTask>> {
    if scan.active.None? then scan.lists
    else Closed(scan.(active := Some(scan.active.value + lines[..FirstHeading(lines)])))
  }

  /** The open list takes in the lines before the next heading; what is found goes behind what was. */
  lemma {:induction false} ScanFinds(scan: Scan, lines: seq<string>)
    ensures Closed(ScanLines(scan, lines)) == OpenList(scan, lines) + ListsUnder(lines)
    decreases |lines|
  {
    hide IsHeading, OpensList, ParseTasks, FirstHeading, ListsUnder, ScanLine, ScanLines;
    if lines == [] {
      NoListsUnder();
      NothingScanned(scan);
      assert scan.active.Some? ==> scan.active.value + [] == scan.active.value;
    } else {
      var line, rest := lines[0], lines[1..];
      assert lines == [line] + rest;
      ScanOneMore(scan, line, rest);
      ScanFinds(ScanLine(scan, line), rest);
      OneLineScanned(scan, line);
      HeadingFirst(line, rest);
      ListsBehind(line, rest);
      if IsHeading(line) {
        HeadingCloses(scan, line, lines, rest);
      } else if scan.active.Some? {
        var k := FirstHeading(rest);
        assert scan.active.value + lines[..k + 1] == scan.active.value + [line] + rest[..k];
      }
    }
  }

  lemma {:induction false} NothingScanned(scan: Scan)
    ensures ScanLines(scan, []) == scan
  {
  }

  lemma {:induction false} HeadingCloses(scan: Scan, line: string, lines: seq<string>, rest: seq<string>)
    requires FirstHeading(lines) == 0
    ensures var next := Scan(Closed(scan), if OpensList(line) then Some([]) else None);
            var tasks := ParseTasks(rest[..FirstHeading(rest)]);
            && OpenList(next, rest) == Closed(scan) + (if OpensList(line) && tasks != [] then [tasks] else [])
            && OpenList(scan, lines) == Closed(scan)
  {
    hide OpensList, ParseTasks, FirstHeading;
    assert [] + rest[..FirstHeading(rest)] == rest[..FirstHeading(rest)];
    assert scan.active.Some? ==> scan.active.value + lines[..0] == scan.active.value;
  }

  /** The stored lists of a text are those under its task headings; without any, all of its tasks make one
      list, and a text without tasks has none. */
  lemma {:induction false} ExtractedLists(text: string)
    ensures var lists := ListsUnder(Lines(text));
            Extract(text) == if lists != [] then lists
                             else if ParseTasks(Lines(text)) == [] then [] else [ParseTasks(Lines(text))]
  {
    hide ParseTasks, Lines, Closed, ScanLines;
    ScanFinds(Scan([], None), Lines(text));
    assert [] + ListsUnder(Lines(text)) == ListsUnder(Lines(text));
  }

  // ---------------------------------------------------------------- the reader that goes on

  /** What it allows before a box: a bullet, or digits, any dots and parentheses, and one space. */
  predicate IsRunLead(lead: string, digits: string, points: string) {
    IsBullet(lead)
    || (lead == digits + points + " " && digits + points != "" && IsNumber(digits)
        && forall i :: 0 <= i < |points| ==> points[i] == '.' || points[i] == ')')
  }

  predicate IsOpen(line: string, indent: string, lead: string, digits: string, points: string, rest: string) {
    && line == indent + (lead + rest) && IsBlank(indent) && IsRunLead(lead, digits, points)
    && ("[ ]" <= rest || "[]" <= rest)
  }

  lemma {:induction false} NumberLead(digits: string, points: string, rest: string)
    requires IsRunLead(digits + points + " ", digits, points) && !IsBullet(digits + points + " ")
    ensures var text := digits + points + " " + rest;
            && !IsWhitespace(text[0]) && !HasBullet(text)
            && Find(text, {' '}) == |digits + points| && text[..|digits + points|] == digits + points
            && text[|digits + points| + 1..] == rest
            && TrimEndOf(digits + points, {'.', ')'}) == digits
  {
    hide Find, TrimEndOf;
    var text, k := digits + points + " " + rest, |digits + points|;
    forall i | 0 <= i < k
      ensures text[i] == (digits + points)[i] && ('0' <= text[i] <= '9' || text[i] == '.' || text[i] == ')')
    {
      assert i < |digits| ==> text[i] == digits[i];
      assert i >= |digits| ==> text[i] == points[i - |digits|];
    }
    FoundAt(text, {' '}, k);
    EndIsTrimmed(digits, points, {'.', ')'});
  }

  lemma {:induction false} OpenIsRead(line: string, indent: string, lead: string, digits: string, points: string, rest: string)
    requires IsOpen(line, indent, lead, digits, points, rest)
    ensures IsOpenItem(line)
  {
    hide IsWhitespace, Find, TrimEndOf, TrimStart, IsBlank;
    var text := lead + rest;
    if IsBullet(lead) {
      BulletIsText(lead);
      BlankIsTrimmed(indent, text);
      assert text[..2] == lead && text[2..] == rest;
    } else {
      NumberLead(digits, points, rest);
      BlankIsTrimmed(indent, text);
      assert IsNumber(digits) && AllDigits(digits);
    }
  }

  lemma {:induction false} BulletIsText(lead: string)
    requires IsBullet(lead)
    ensures !IsWhitespace(lead[0])
  {
  }

  lemma {:induction false} OpenLooksSo(line: string) returns (indent: string, lead: string, digits: string, points: string, rest: string)
    requires IsOpenItem(line)
    ensures IsOpen(line, indent, lead, digits, points, rest)
  {
    hide TrimStart, IsWhitespace, Find, TrimEndOf, IsBlank;
    var text := TrimStart(line);
    indent := TrimmedBlank(line);
    digits, points := "", "";
    if HasBullet(text) {
      lead, rest := text[..2], text[2..];
      assert text == lead + rest;
    } else {
      var k := Find(text, {' '});
      digits := TrimEndOf(text[..k], {'.', ')'});
      points := TrimmedEnd(text[..k], {'.', ')'});
      lead, rest := digits + points + " ", text[k + 1..];
      SpaceIsBlank();
      assert k > 0;
      assert text == text[..k] + " " + text[k + 1..];
    }
  }

  lemma {:induction false} SpaceIsBlank()
    ensures IsWhitespace(' ')
  {
  }

  /** A line reads as open exactly when it is a bullet or a number and goes on with an empty box. */
  lemma {:induction false} OpenExactlyWhen(line: string)
    ensures IsOpenItem(line) <==> exists indent, lead, digits, points, rest :: IsOpen(line, indent, lead, digits, points, rest)
  {
    hide IsOpenItem, IsOpen;
    if IsOpenItem(line) {
      var indent, lead, digits, points, rest := OpenLooksSo(line);
    }
    if exists indent, lead, digits, points, rest :: IsOpen(line, indent, lead, digits, points, rest) {
      var indent, lead, digits, points, rest :| IsOpen(line, indent, lead, digits, points, rest);
      OpenIsRead(line, indent, lead, digits, points, rest);
    }
  }

  // ---------------------------------------------------------------- headings

  /** Any line: blanks, some number of hashes, and the rest. */
  predicate IsHashed(line: string, indent: string, hashes: string, rest: string) {
    && line == indent + (hashes + rest) && IsBlank(indent) && (forall i :: 0 <= i < |hashes| ==> hashes[i] == '#')
    && (rest == "" || rest[0] != '#') && (hashes == "" && rest != "" ==> !IsWhitespace(rest[0]))
  }

  lemma {:induction false} EveryLineIsHashed(line: string) returns (indent: string, hashes: string, rest: string)
    ensures IsHashed(line, indent, hashes, rest)
  {
    hide TrimStart, IsWhitespace, CountLeading;
    var text := TrimStart(line);
    indent := TrimmedBlank(line);
    var n := CountLeading(text, '#');
    hashes, rest := text[..n], text[n..];
    assert text == hashes + rest;
    assert rest != "" ==> rest[0] == text[n];
  }

  lemma {:induction false} HashesAreCounted(hashes: string, rest: string)
    requires (forall i :: 0 <= i < |hashes| ==> hashes[i] == '#') && (rest == "" || rest[0] != '#')
    ensures CountLeading(hashes + rest, '#') == |hashes|
  {
    if hashes == "" {
      assert hashes + rest == rest;
    } else {
      assert (hashes + rest)[1..] == hashes[1..] + rest;
      HashesAreCounted(hashes[1..], rest);
    }
  }

  lemma {:induction false} HashIsText(hashes: string, rest: string)
    requires (forall i :: 0 <= i < |hashes| ==> hashes[i] == '#') && (hashes == "" && rest != "" ==> !IsWhitespace(rest[0]))
    ensures hashes + rest == "" || !IsWhitespace((hashes + rest)[0])
  {
  }

  /** A line is a heading for the one reader when it begins with hashes, for the other when with one to
      six of them, and something follows; its text is that, without outer spaces and closing hashes. */
  lemma {:induction false} HeadingExactlyWhen(line: string, indent: string, hashes: string, rest: string)
    requires IsHashed(line, indent, hashes, rest)
    ensures var name := Trim(TrimEndOf(Trim(rest), {'#'}));
            && StoredHeading(line) == (if hashes != "" && !IsBlank(rest) then Some(name) else None)
            && RunHeading(line) == (if 1 <= |hashes| <= 6 && !IsBlank(rest) then Some(name) else None)
  {
    hide IsWhitespace, Trim, TrimEndOf, CountLeading, TrimStart, IsBlank;
    var text := hashes + rest;
    HashIsText(hashes, rest);
    BlankIsTrimmed(indent, text);
    HashesAreCounted(hashes, rest);
    TrimmedOrBlank(rest);
    assert text[|hashes|..] == rest;
    assert text != "" ==> text[0] == if hashes != "" then '#' else rest[0];
  }

  /** A word that neither trimming, a colon nor lower-casing changes. */
  predicate IsPlainWord(word: string) {
    IsTrimmed(word) && word[|word| - 1] !in {':', '：'} && forall i :: 0 <= i < |word| ==> LowerChar(word[i]) == word[i]
  }

  lemma {:induction false} PlainWordStays(word: string)
    requires IsPlainWord(word)
    ensures Trim(TrimEndOf(word, COLONS)) == word && Trim(TrimEndOf(word + ":", COLONS)) == word && Trim(TrimEndOf(word + "：", COLONS)) == word
    ensures Lower(word) == word && AsciiLower(word) == word && Normalized(word) == word && Normalized(word + ":") == word
  {
    hide IsWhitespace, TrimStart, TrimEnd;
    TrimmedStays(word);
    EndIsTrimmed(word, "", COLONS);
    EndIsTrimmed(word, ":", COLONS);
    EndIsTrimmed(word, "：", COLONS);
    assert word + "" == word;
    assert forall i :: 0 <= i < |word| ==> AsciiLowerChar(word[i]) == word[i];
    ColonIsText();
    TrimmedStays(word + ":");
  }

  lemma {:induction false} ColonIsText()
    ensures !IsWhitespace(':')
  {
  }

  /** The headings of a task list, for the reader that stores. */
  lemma {:induction false} TaskHeadings(word: string)
    requires IsPlainWord(word)
    ensures IsTaskHeading(word) <==> word in {"任务列表", "任务清单", "步骤任务", "执行计划", "task list", "tasks", "plan"}
    ensures IsTaskHeading(word + ":") <==> IsTaskHeading(word)
    ensures IsTaskHeading(word + "：") <==> IsTaskHeading(word)
  {
    hide Trim, TrimEndOf, Lower, IsPlainWord;
    PlainWordStays(word);
  }

  lemma {:induction false} SameWord(word: string, other: string)
    requires IsPlainWord(word) && IsPlainWord(other)
    ensures EqIgnoringCase(word, other) <==> word == other
  {
    hide AsciiLower, IsPlainWord;
    PlainWordStays(word);
    PlainWordStays(other);
  }

  /** Those for the reader that goes on. */
  lemma {:induction false} ListHeadings(word: string)
    requires IsPlainWord(word)
    ensures Normalized(word) == Normalized(word + ":") == word
    ensures IsListHeading(word) <==> word in {"任务列表", "任务清单", "task list", "tasks", "plan"}
  {
    ListWordsArePlain();
    hide IsPlainWord, EqIgnoringCase, Normalized;
    PlainWordStays(word);
    SameWord(word, "任务列表");
    SameWord(word, "任务清单");
    SameWord(word, "task list");
    SameWord(word, "tasks");
    SameWord(word, "plan");
  }

  lemma {:induction false} ListWordsArePlain()
    ensures IsPlainWord("任务列表") && IsPlainWord("任务清单") && IsPlainWord("task list") && IsPlainWord("tasks") && IsPlainWord("plan")
  {
  }

  /** And the headings of a report. */
  lemma {:induction false} ReportHeadings(word: string)
    requires IsPlainWord(word)
    ensures IsReportHeading(word) <==> word in {"完成报告", "completion report", "final report"}
  {
    ReportWordsArePlain();
    hide IsPlainWord, EqIgnoringCase;
    SameWord(word, "完成报告");
    SameWord(word, "completion report");
    SameWord(word, "final report");
  }

  lemma {:induction false} ReportWordsArePlain()
    ensures IsPlainWord("完成报告") && IsPlainWord("completion report") && IsPlainWord("final report")
  {
  }
}
