/** Text as the program cuts it up: white space, words, lines, trimming. A character is a Unicode
    scalar value. */
module Text {

  /** The characters with the Unicode White_Space property. */
  predicate IsWhitespace(c: char) {
    '\U{9}' <= c <= '\U{D}' || c == ' ' || c == '\U{85}' || c == '\U{A0}' || c == '\U{1680}'
    || '\U{2000}' <= c <= '\U{200A}' || c == '\U{2028}' || c == '\U{2029}' || c == '\U{202F}'
    || c == '\U{205F}' || c == '\U{3000}'
  }

  /** There are twenty-five of them. */
  lemma {:induction false} WhitespaceIs(c: char)
    ensures IsWhitespace(c) <==>
            var code := c as int;
            || 0x9 <= code <= 0xD || code in {0x20, 0x85, 0xA0, 0x1680} || 0x2000 <= code <= 0x200A
            || code in {0x2028, 0x2029, 0x202F, 0x205F, 0x3000}
  {
  }

  function Join(parts: seq<string>, separator: string): string {
    if parts == [] then ""
    else if |parts| == 1 then parts[0]
    else parts[0] + separator + Join(parts[1..], separator)
  }

  // ---------------------------------------------------------------- trimming

  function TrimStart(s: string): (t: string)
    ensures |t| <= |s|
    ensures t == "" || !IsWhitespace(t[0])
  {
    if s != "" && IsWhitespace(s[0]) then TrimStart(s[1..]) else s
  }

  function TrimEnd(s: string): (t: string)
    ensures t <= s
    ensures t == "" || !IsWhitespace(t[|t| - 1])
  {
    if s != "" && IsWhitespace(s[|s| - 1]) then TrimEnd(s[..|s| - 1]) else s
  }

  function Trim(s: string): string {
    TrimEnd(TrimStart(s))
  }

  function TrimEndOf(s: string, chars: set<char>): (t: string)
    ensures t <= s
  {
    if s != "" && s[|s| - 1] in chars then TrimEndOf(s[..|s| - 1], chars) else s
  }

  /** The number of leading characters equal to `c`. */
  function CountLeading(s: string, c: char): (n: nat)
    ensures n <= |s|
    ensures forall i :: 0 <= i < n ==> s[i] == c
    ensures n < |s| ==> s[n] != c
  {
    if s == "" || s[0] != c then 0 else 1 + CountLeading(s[1..], c)
  }

  predicate IsBlank(s: string) {
    forall i :: 0 <= i < |s| ==> IsWhitespace(s[i])
  }

  /** Something that trimming leaves alone. */
  predicate IsTrimmed(s: string) {
    s != "" && !IsWhitespace(s[0]) && !IsWhitespace(s[|s| - 1])
  }

  lemma TrimmedStays(s: string)
    requires IsTrimmed(s)
    ensures Trim(s) == s && Trim(" " + s) == s && TrimStart(s) == s
  {
    assert (" " + s)[1..] == s;
  }

  lemma {:induction false} TrimmedOrBlank(s: string)
    ensures Trim(s) == "" <==> IsBlank(s)
    ensures Trim(s) != "" ==> IsTrimmed(Trim(s))
    ensures forall c :: c in Trim(s) ==> c in s
  {
    if s != "" && IsWhitespace(s[0]) {
      TrimmedOrBlank(s[1..]);
    } else if s != "" {
      TrimEndKeeps(s);
    }
  }

  lemma {:induction false} TrimStartMembers(s: string)
    ensures forall c :: c in TrimStart(s) ==> c in s
  {
    if s != "" && IsWhitespace(s[0]) {
      TrimStartMembers(s[1..]);
    }
  }

  lemma {:induction false} TrimEndKeeps(s: string)
    requires s != "" && !IsWhitespace(s[0])
    ensures TrimEnd(s) != "" && TrimEnd(s)[0] == s[0]
  {
    if IsWhitespace(s[|s| - 1]) {
      TrimEndKeeps(s[..|s| - 1]);
    }
  }

  // ---------------------------------------------------------------- words

  /** The length of the first word of a text that starts with one. */
  function WordLength(s: string): (n: nat)
    ensures n <= |s|
    ensures s != "" && !IsWhitespace(s[0]) ==> n > 0
  {
    if s == "" || IsWhitespace(s[0]) then 0 else 1 + WordLength(s[1..])
  }

  function Words(s: string): seq<string>
    decreases |s|
  {
    var rest := TrimStart(s);
    if rest == "" then [] else [rest[..WordLength(rest)]] + Words(rest[WordLength(rest)..])
  }

  /** Words separated by single spaces. */
  function Normalize(s: string): string {
    Join(Words(s), " ")
  }

  predicate IsWord(s: string) {
    s != "" && forall i :: 0 <= i < |s| ==> !IsWhitespace(s[i])
  }

  lemma {:induction false} WholeWord(word: string, rest: string)
    requires (forall i :: 0 <= i < |word| ==> !IsWhitespace(word[i])) && (rest == "" || IsWhitespace(rest[0]))
    ensures WordLength(word + rest) == |word|
  {
    hide IsWhitespace;
    if word == "" {
      assert word + rest == rest;
    } else {
      assert (word + rest)[1..] == word[1..] + rest;
      WholeWord(word[1..], rest);
    }
  }

  lemma {:induction false} BlankInFront(c: char, s: string)
    requires IsWhitespace(c)
    ensures TrimStart([c] + s) == TrimStart(s) && Words([c] + s) == Words(s)
  {
    hide IsWhitespace, WordLength;
    assert ([c] + s)[1..] == s;
  }

  lemma {:induction false} WordInFront(word: string, rest: string)
    requires IsWord(word) && (rest == "" || IsWhitespace(rest[0]))
    ensures Words(word + rest) == [word] + Words(rest)
  {
    hide IsWhitespace, WordLength;
    var s := word + rest;
    assert s[0] == word[0];
    WholeWord(word, rest);
    assert s[..|word|] == word && s[|word|..] == rest;
  }

  /** The words of a text are what stands between its white space: a word is one, white space has none, and
      white space anywhere separates what stands on both its sides. */
  lemma {:induction false} WordsAreSeparated(a: string, c: char, b: string)
    requires IsWhitespace(c)
    ensures Words("") == []
    ensures IsWord(a) ==> Words(a) == [a]
    ensures Words(a + [c] + b) == Words(a) + Words(b)
    decreases |a|
  {
    hide IsWhitespace, WordLength, Words, TrimStart;
    NoWords();
    if IsWord(a) {
      assert a + "" == a;
      WordInFront(a, "");
    }
    if a == "" {
      assert a + [c] + b == [c] + b;
      BlankInFront(c, b);
    } else if IsWhitespace(a[0]) {
      assert a + [c] + b == [a[0]] + (a[1..] + [c] + b) && a == [a[0]] + a[1..];
      BlankInFront(a[0], a[1..] + [c] + b);
      BlankInFront(a[0], a[1..]);
      WordsAreSeparated(a[1..], c, b);
    } else {
      var n := WordEnd(a);
      var word, rest := a[..n], a[n..];
      assert a == word + rest && a + [c] + b == word + (rest + [c] + b);
      WordInFront(word, rest);
      WordInFront(word, rest + [c] + b);
      WordsAreSeparated(rest, c, b);
    }
  }

  lemma {:induction false} NoWords()
    ensures Words("") == []
  {
  }

  lemma {:induction false} WordEnd(s: string) returns (n: nat)
    requires s != "" && !IsWhitespace(s[0])
    ensures 0 < n <= |s| && IsWord(s[..n]) && (s[n..] == "" || IsWhitespace(s[n..][0]))
  {
    hide IsWhitespace;
    n := 1;
    while n < |s| && !IsWhitespace(s[n])
      invariant 0 < n <= |s| && forall i :: 0 <= i < n ==> !IsWhitespace(s[i])
    {
      n := n + 1;
    }
  }

  /** Nothing is left of a text by normalizing it exactly when there is nothing but white space. */
  lemma NormalizedOrBlank(s: string)
    ensures Normalize(s) == "" <==> Trim(s) == ""
  {
    hide Words;
    TrimmedOrBlank(s);
    WordsOrBlank(s);
    if Words(s) != [] {
      assert Words(s)[0] != "";
    }
  }

  lemma WordsOrBlank(s: string)
    ensures Words(s) == [] <==> IsBlank(s)
    ensures Words(s) != [] ==> Words(s)[0] != ""
  {
    BlankOrText(s);
  }

  lemma {:induction false} BlankOrText(s: string)
    ensures TrimStart(s) == "" <==> IsBlank(s)
  {
    if s != "" && IsWhitespace(s[0]) {
      BlankOrText(s[1..]);
      assert forall i :: 0 < i < |s| ==> s[i] == s[1..][i - 1];
    }
  }

  // ---------------------------------------------------------------- lines

  /** The position of the first line feed, or the length of the text. */
  function LineLength(s: string): (n: nat)
    ensures n <= |s|
    ensures n < |s| ==> s[n] == '\n'
    ensures '\n' !in s[..n]
  {
    if s == "" || s[0] == '\n' then 0 else 1 + LineLength(s[1..])
  }

  /** The lines of a text. A line ends with a line feed, or a carriage return and a line feed; the
      last one may end with the text. */
  function Lines(s: string): (lines: seq<string>)
    ensures forall i :: 0 <= i < |lines| ==> '\n' !in lines[i]
    decreases |s|
  {
    if s == "" then []
    else
      var n := LineLength(s);
      if n == |s| then [s]
      else
        var line := if n > 0 && s[n - 1] == '\r' then s[..n - 1] else s[..n];
        [line] + Lines(s[n + 1..])
  }

  predicate IsLine(s: string) {
    '\n' !in s && (s == "" || s[|s| - 1] != '\r')
  }

  lemma {:induction false} FirstLine(line: string, rest: string)
    requires '\n' !in line
    ensures LineLength(line + "\n" + rest) == |line|
  {
    var s := line + "\n" + rest;
    if line != "" {
      FirstLine(line[1..], rest);
      assert s[1..] == line[1..] + "\n" + rest;
    }
  }

  /** A line put in front of a text is its first line. */
  lemma LinesOfCons(line: string, rest: string)
    requires IsLine(line)
    ensures Lines(line + "\n" + rest) == [line] + Lines(rest)
  {
    hide LineLength;
    var s := line + "\n" + rest;
    FirstLine(line, rest);
    assert s[..|line|] == line && s[|line| + 1..] == rest;
    if line != "" {
      assert s[|line| - 1] == line[|line| - 1];
    }
  }

  // ---------------------------------------------------------------- letter case

  function AsciiLowerChar(c: char): char {
    if 'A' <= c <= 'Z' then c - 'A' + 'a' else c
  }

  function AsciiLower(s: string): (t: string)
    ensures |t| == |s|
  {
    seq(|s|, i requires 0 <= i < |s| => AsciiLowerChar(s[i]))
  }

  /** The twenty-six capital letters become small, nothing else changes. */
  lemma {:induction false} AsciiLowerIs(c: char)
    ensures var code, lower := c as int, AsciiLowerChar(c) as int;
            lower == if 65 <= code <= 90 then code + 32 else code
    ensures LowerChar(c) == if c as int == 0x212A then 'k' else AsciiLowerChar(c)
  {
  }

  /** Lower case as far as it matters for comparing with a word of ASCII letters or of characters
      without case: the one other character that becomes an ASCII letter is the Kelvin sign. */
  function LowerChar(c: char): char {
    if c == '\U{212A}' then 'k' else AsciiLowerChar(c)
  }

  function Lower(s: string): (t: string)
    ensures |t| == |s|
  {
    seq(|s|, i requires 0 <= i < |s| => LowerChar(s[i]))
  }

  // ---------------------------------------------------------------- decimal numbers

  function Digit(n: nat): char
    requires n < 10
  {
    '0' + n as char
  }

  function Decimal(n: nat): (s: string)
    ensures s != ""
  {
    if n < 10 then [Digit(n)] else Decimal(n / 10) + [Digit(n % 10)]
  }

  /** Two numbers never have the same digits. */
  lemma {:induction false} DecimalIsInjective(a: nat, b: nat)
    requires Decimal(a) == Decimal(b)
    ensures a == b
    decreases a
  {
    var x, y := Decimal(a), Decimal(b);
    assert x[|x| - 1] == Digit(a % 10) && y[|y| - 1] == Digit(b % 10);
    if a >= 10 && b >= 10 {
      assert x[..|x| - 1] == Decimal(a / 10) && y[..|y| - 1] == Decimal(b / 10);
      DecimalIsInjective(a / 10, b / 10);
    }
  }
}
