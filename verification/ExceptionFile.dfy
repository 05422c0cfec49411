/** The line parser of the audit tool's exception list (`parse_exceptions`), and the printer it inverts. */
module ExceptionFile {
  import opened Wrappers

  /** One exception of the list. A Python dict of which only lookups are observed, so a map. */
  type Record = map<string, string>

  datatype ParseError = NoColon(line: string)

  // ---------------------------------------------------------------- Python's string operations

  /** The characters Python's `str.strip()` removes. */
  predicate IsSpace(c: char) {
    || '\t' <= c <= '\r'
    || '\U{1C}' <= c <= ' '
    || c == '\U{85}' || c == '\U{A0}' || c == '\U{1680}'
    || '\U{2000}' <= c <= '\U{200A}'
    || c == '\U{2028}' || c == '\U{2029}' || c == '\U{202F}' || c == '\U{205F}' || c == '\U{3000}'
  }

  predicate IsBreak(c: char) {
    c == '\n' || c == '\r'
  }

  predicate OneLine(s: string) {
    forall k :: 0 <= k < |s| ==> !IsBreak(s[k])
  }

  function LStrip(s: string): string {
    if s != "" && IsSpace(s[0]) then LStrip(s[1..]) else s
  }

  function RStrip(s: string): string {
    if s != "" && IsSpace(s[|s| - 1]) then RStrip(s[..|s| - 1]) else s
  }

  function Strip(s: string): string {
    RStrip(LStrip(s))
  }

  predicate Trimmed(s: string) {
    s == "" || (!IsSpace(s[0]) && !IsSpace(s[|s| - 1]))
  }

  /** The position of the first colon. */
  function Colon(s: string): (k: nat)
    requires ':' in s
    ensures k < |s| && s[k] == ':' && ':' !in s[..k]
  {
    if s[0] == ':' then 0 else 1 + Colon(s[1..])
  }

  /** The length of the first line of a text, without its terminator. */
  function LineLength(text: string): (k: nat)
    ensures k <= |text| && OneLine(text[..k])
    ensures k < |text| ==> IsBreak(text[k])
  {
    if text == "" || IsBreak(text[0]) then 0 else
      var k := 1 + LineLength(text[1..]);
      assert text[..k] == [text[0]] + text[1..][..k - 1];
      k
  }

  /** The lines a text file yields under universal newlines. Terminators are dropped here: the parser strips them. */
  function Lines(text: string): seq<string>
    decreases |text|
  {
    if text == "" then [] else
      var k := LineLength(text);
      if k == |text| then [text]
      else if text[k] == '\r' && k + 1 < |text| && text[k + 1] == '\n' then [text[..k]] + Lines(text[k + 2..])
      else [text[..k]] + Lines(text[k + 1..])
  }

  // ---------------------------------------------------------------- parsing

  /** `key: value`; one pair of matching quotes around the value is dropped, and a lone quote is its own pair. */
  function SplitKv(line: string): (string, string)
    requires ':' in line
  {
    var k := Colon(line);
    var value := Strip(line[k + 1..]);
    (Strip(line[..k]), Unquote(value))
  }

  function Unquote(value: string): string {
    if Quoted(value, '"') || Quoted(value, '\'') then
      if |value| == 1 then "" else value[1..|value| - 1]
    else value
  }

  predicate Quoted(value: string, quote: char) {
    value != "" && value[0] == quote && value[|value| - 1] == quote
  }

  /** The parser's two variables: the finished records, and the record being read if any. */
  datatype Scan = Scan(finished: seq<Record>, current: Option<Record>)

  /** An empty dict is falsy, so a record without fields is not kept. */
  function Finish(s: Scan): seq<Record> {
    if s.current.Some? && s.current.value != map[] then s.finished + [s.current.value] else s.finished
  }

  function Step(s: Scan, raw: string): Result<Scan, ParseError> {
    var line := Strip(raw);
    if line == "" || "#" <= line then Ok(s)
    else if "version:" <= line || "exceptions:" <= line then Ok(s)
    else if "- " <= line then
      var rest := Strip(line[2..]);
      if rest == "" then Ok(Scan(Finish(s), Some(map[])))
      else if ':' !in rest then Err(NoColon(rest))
      else var (key, value) := SplitKv(rest); Ok(Scan(Finish(s), Some(map[key := value])))
    else if s.current.Some? && ':' in line then
      var (key, value) := SplitKv(line);
      Ok(s.(current := Some(s.current.value[key := value])))
    else Ok(s)
  }

  function Run(s: Scan, lines: seq<string>): Result<seq<Record>, ParseError>
    decreases |lines|
  {
    if lines == [] then Ok(Finish(s)) else
      match Step(s, lines[0])
      case Err(e) => Err(e)
      case Ok(s') => Run(s', lines[1..])
  }

  const Start := Scan([], None)

  function Parse(text: string): Result<seq<Record>, ParseError> {
    Run(Start, Lines(text))
  }

  /** The parser as the tool runs it: two variables updated line by line. */
  method ParseExceptions(text: string) returns (r: Result<seq<Record>, ParseError>)
    ensures r == Parse(text)
  {
    var exceptions: seq<Record>, current: Option<Record> := [], None;
    var lines := Lines(text);
    for i := 0 to |lines|
      invariant Parse(text) == Run(Scan(exceptions, current), lines[i..])
    {
      assert lines[i..][0] == lines[i] && lines[i..][1..] == lines[i + 1..];
      var line := Strip(lines[i]);
      if line == "" || "#" <= line {
        continue;
      }
      if "version:" <= line || "exceptions:" <= line {
        continue;
      }
      if "- " <= line {
        if current.Some? && current.value != map[] {
          exceptions := exceptions + [current.value];
        }
        current := Some(map[]);
        line := Strip(line[2..]);
        if line != "" {
          if ':' !in line {
            return Err(NoColon(line));
          }
          var (key, value) := SplitKv(line);
          current := Some(current.value[key := value]);
        }
        continue;
      }
      if current.Some? && ':' in line {
        var (key, value) := SplitKv(line);
        current := Some(current.value[key := value]);
      }
    }
    if current.Some? && current.value != map[] {
      exceptions := exceptions + [current.value];
    }
    r := Ok(exceptions);
  }

  // ---------------------------------------------------------------- what stripping does

  /** Of the ASCII characters, those from tab to carriage return, the four separators and the blank are white space. */
  lemma AsciiSpace(c: char)
    requires c < '\U{80}'
    ensures IsSpace(c) <==> c in {'\t', '\n', '\U{0B}', '\U{0C}', '\r', '\U{1C}', '\U{1D}', '\U{1E}', '\U{1F}', ' '}
  {
  }

  predicate AllSpace(s: string) {
    forall k :: 0 <= k < |s| ==> IsSpace(s[k])
  }

  lemma {:induction false} LStripSpace(left: string, s: string)
    requires AllSpace(left) && (s == "" || !IsSpace(s[0]))
    ensures LStrip(left + s) == s
  {
    if left == "" {
      assert left + s == s;
    } else {
      assert (left + s)[1..] == left[1..] + s;
      LStripSpace(left[1..], s);
    }
  }

  lemma {:induction false} RStripSpace(s: string, right: string)
    requires AllSpace(right) && (s == "" || !IsSpace(s[|s| - 1]))
    ensures RStrip(s + right) == s
  {
    if right == "" {
      assert s + right == s;
    } else {
      var n := |right| - 1;
      assert (s + right)[..|s + right| - 1] == s + right[..n];
      RStripSpace(s, right[..n]);
    }
  }

  /** White space around a trimmed text is removed, and nothing else. */
  lemma StripAround(left: string, s: string, right: string)
    requires AllSpace(left) && AllSpace(right) && Trimmed(s)
    ensures Strip(left + s + right) == s
  {
    if s == "" {
      LStripSpace(left + right, "");
      assert left + s + right == left + right + "";
    } else {
      assert left + s + right == left + (s + right);
      LStripSpace(left, s + right);
      RStripSpace(s, right);
    }
  }

  lemma {:induction false} LStripped(s: string) returns (left: string)
    ensures AllSpace(left) && s == left + LStrip(s) && (LStrip(s) == "" || !IsSpace(LStrip(s)[0]))
  {
    left := "";
    if s != "" && IsSpace(s[0]) {
      left := LStripped(s[1..]);
      left := [s[0]] + left;
      assert s == [s[0]] + s[1..];
    }
  }

  lemma {:induction false} RStripped(s: string) returns (right: string)
    ensures AllSpace(right) && s == RStrip(s) + right && (RStrip(s) == "" || !IsSpace(RStrip(s)[|RStrip(s)| - 1]))
  {
    right := "";
    if s != "" && IsSpace(s[|s| - 1]) {
      var n := |s| - 1;
      right := RStripped(s[..n]);
      right := right + [s[n]];
      assert s == s[..n] + [s[n]];
    }
  }

  /** Every text is its stripped text with white space around it. */
  lemma Stripped(s: string) returns (left: string, right: string)
    ensures AllSpace(left) && AllSpace(right) && Trimmed(Strip(s)) && s == left + Strip(s) + right
  {
    left := LStripped(s);
    right := RStripped(LStrip(s));
    assert Strip(s) != "" ==> Strip(s)[0] == LStrip(s)[0];
    assert left + Strip(s) + right == left + (Strip(s) + right);
  }

  // ---------------------------------------------------------------- writing a list

  /** How a value is written: as it is, or between quotes. */
  datatype Style = Bare | Single | Double

  /** Blanks before the line's text, after a dash, on both sides of the colon, and at the end of the line. */
  datatype Layout = Layout(indent: string, afterDash: string, beforeColon: string, afterColon: string, end: string)

  /** One field, as someone may write it. */
  datatype Field = Field(key: string, value: string, style: Style, layout: Layout)

  /** A record in writing order. */
  type Entry = seq<Field>

  function Styled(f: Field): string {
    match f.style
    case Bare => f.value
    case Single => "'" + f.value + "'"
    case Double => "\"" + f.value + "\""
  }

  function PrintField(f: Field): string {
    f.key + f.layout.beforeColon + ":" + (f.layout.afterColon + Styled(f))
  }

  /** A record: a dash line, then one line for each further field. */
  function PrintEntry(e: Entry): seq<string> {
    if e == [] then [] else [PrintDash(e[0])] + PrintRest(e[1..])
  }

  function PrintDash(f: Field): string {
    f.layout.indent + ("- " + (f.layout.afterDash + PrintField(f))) + f.layout.end
  }

  function PrintMore(f: Field): string {
    f.layout.indent + PrintField(f) + f.layout.end
  }

  function PrintRest(e: Entry): seq<string> {
    if e == [] then [] else [PrintMore(e[0])] + PrintRest(e[1..])
  }

  function PrintEntries(entries: seq<Entry>): seq<string> {
    if entries == [] then [] else PrintEntry(entries[0]) + PrintEntries(entries[1..])
  }

  /** The three line ends a text file may have. */
  predicate LineEnd(term: string) {
    term == "\n" || term == "\r\n" || term == "\r"
  }

  function JoinLines(lines: seq<string>, term: string): string {
    if lines == [] then "" else lines[0] + term + JoinLines(lines[1..], term)
  }

  const VersionLine := "version: 1"

  const ExceptionsLine := "exceptions:"

  function PrintFile(entries: seq<Entry>, term: string): string {
    JoinLines([VersionLine] + ([ExceptionsLine] + PrintEntries(entries)), term)
  }

  function Extend(r: Record, e: Entry): Record
    decreases |e|
  {
    if e == [] then r else Extend(r[e[0].key := e[0].value], e[1..])
  }

  /** The dict a written record stands for; a repeated field keeps its last value. */
  function ToRecord(e: Entry): Record {
    Extend(map[], e)
  }

  function ToRecords(entries: seq<Entry>): seq<Record> {
    seq(|entries|, i requires 0 <= i < |entries| => ToRecord(entries[i]))
  }

  predicate Blank(s: string) {
    forall k :: 0 <= k < |s| ==> IsSpace(s[k]) && !IsBreak(s[k])
  }

  predicate CleanKey(key: string) {
    Trimmed(key) && ':' !in key && OneLine(key)
  }

  /** A value that needs no quotes: it has no white space at its ends and is not quoted at both of them. */
  predicate PlainValue(value: string) {
    Trimmed(value) && (value != "" && value[0] == value[|value| - 1] ==> value[0] != '"' && value[0] != '\'')
  }

  /** Anything on one line may stand between quotes. An empty key or value has no blanks of its own. */
  predicate WellWritten(f: Field) {
    && CleanKey(f.key) && OneLine(f.value) && (f.style.Bare? ==> PlainValue(f.value))
    && Blank(f.layout.indent) && Blank(f.layout.afterDash) && Blank(f.layout.beforeColon)
    && Blank(f.layout.afterColon) && Blank(f.layout.end)
    && (f.key == "" ==> f.layout.beforeColon == "") && (Styled(f) == "" ==> f.layout.afterColon == "")
  }

  /** A field that survives on a line of its own. On the dash line `WellWritten` is enough. */
  predicate StandsAlone(f: Field) {
    && WellWritten(f) && f.key != "version" && f.key != "exceptions"
    && !("#" <= f.key) && !("- " <= f.key + f.layout.beforeColon)
  }

  predicate Printable(e: Entry) {
    e != [] && WellWritten(e[0]) && forall k :: 1 <= k < |e| ==> StandsAlone(e[k])
  }

  predicate AllPrintable(entries: seq<Entry>) {
    forall k :: 0 <= k < |entries| ==> Printable(entries[k])
  }

  // ---------------------------------------------------------------- round trip

  lemma {:induction false} ColonAfterKey(key: string, rest: string)
    requires ':' !in key
    ensures Colon(key + ":" + rest) == |key|
  {
    var line := key + ":" + rest;
    var k := Colon(line);
    assert line[|key|] == ':';
    assert forall m :: 0 <= m < |key| ==> line[m] == key[m];
    assert forall m :: 0 <= m < k ==> line[..k][m] == line[m];
  }

  lemma UnquoteStyled(f: Field)
    requires f.style.Bare? ==> PlainValue(f.value)
    ensures Trimmed(Styled(f)) && Unquote(Styled(f)) == f.value
  {
    var text := Styled(f);
    if !f.style.Bare? {
      assert text[0] == text[|text| - 1] && text[1..|text| - 1] == f.value;
    }
  }

  lemma SplitAt(before: string, after: string)
    requires ':' !in before
    ensures ':' in before + ":" + after && SplitKv(before + ":" + after) == (Strip(before), Unquote(Strip(after)))
  {
    var line := before + ":" + after;
    assert line[|before|] == ':';
    ColonAfterKey(before, after);
    assert line[..|before|] == before && line[|before| + 1..] == after;
  }

  lemma SidesStripped(f: Field)
    requires WellWritten(f)
    ensures ':' !in f.key + f.layout.beforeColon && Strip(f.key + f.layout.beforeColon) == f.key
    ensures Strip(f.layout.afterColon + Styled(f)) == Styled(f)
  {
    UnquoteStyled(f);
    StripAround("", f.key, f.layout.beforeColon);
    assert "" + f.key == f.key;
    StripAround(f.layout.afterColon, Styled(f), "");
    var after := f.layout.afterColon + Styled(f);
    assert after + "" == after;
  }

  /** A written field splits back into its key and value. */
  lemma SplitPrinted(f: Field)
    requires WellWritten(f)
    ensures ':' in PrintField(f) && SplitKv(PrintField(f)) == (f.key, f.value)
  {
    SidesStripped(f);
    SplitAt(f.key + f.layout.beforeColon, f.layout.afterColon + Styled(f));
    UnquoteStyled(f);
  }

  lemma PrintedTrimmed(f: Field)
    requires WellWritten(f)
    ensures PrintField(f) != "" && Trimmed(PrintField(f))
  {
    var line := PrintField(f);
    UnquoteStyled(f);
    assert line[0] == if f.key == "" then ':' else f.key[0];
    assert line[|line| - 1] == if Styled(f) == "" then ':' else Styled(f)[|Styled(f)| - 1];
  }

  /** A dash line, seen through what stripping and splitting make of it. */
  lemma StepDashLine(s: Scan, raw: string, after: string, rest: string)
    requires Strip(raw) == "- " + after && Strip(after) == rest && rest != "" && ':' in rest
    ensures Step(s, raw) == Ok(Scan(Finish(s), Some(map[SplitKv(rest).0 := SplitKv(rest).1])))
  {
    var line := Strip(raw);
    assert line[0] == '-' && line[1] == ' ' && line[2..] == after;
  }

  /** A written dash line finishes the record before it and starts one with its field. */
  lemma StepDash(s: Scan, f: Field)
    requires WellWritten(f)
    ensures Step(s, PrintDash(f)) == Ok(Scan(Finish(s), Some(map[f.key := f.value])))
  {
    var rest := PrintField(f);
    var after := f.layout.afterDash + rest;
    var line := "- " + after;
    PrintedTrimmed(f);
    assert line[0] == '-' && line[|line| - 1] == rest[|rest| - 1];
    StripAround(f.layout.indent, line, f.layout.end);
    StripAround(f.layout.afterDash, rest, "");
    assert f.layout.afterDash + rest + "" == after;
    SplitPrinted(f);
    StepDashLine(s, PrintDash(f), after, rest);
  }

  /** A colon-free key can make its line look like a header only by being the header's word. */
  lemma NotHeader(f: Field, word: string)
    requires WellWritten(f) && word != "" && ':' !in word && Trimmed(word)
    ensures word + ":" <= PrintField(f) ==> f.key == word
  {
    var line, before, after := PrintField(f), f.key + f.layout.beforeColon, f.layout.afterColon + Styled(f);
    if word + ":" <= line {
      assert ':' !in before && line == before + ":" + after;
      assert line == word + ":" + line[|word| + 1..];
      ColonAfterKey(before, after);
      ColonAfterKey(word, line[|word| + 1..]);
      assert line[..|word|] == word && line[..|before|] == before;
      assert f.layout.beforeColon == "" ==> before == f.key;
    }
  }

  /** The line of a field that stands alone is neither a comment nor a dash line. */
  lemma NotMarked(f: Field)
    requires StandsAlone(f)
    ensures !("#" <= PrintField(f)) && !("- " <= PrintField(f))
  {
    var line, before := PrintField(f), f.key + f.layout.beforeColon;
    assert |f.key| >= 1 ==> line[0] == f.key[0];
    assert |before| >= 1 ==> line[0] == before[0];
    assert |before| >= 2 ==> line[1] == before[1];
    assert |before| <= 1 ==> line[|before|] == ':';
  }

  /** A written further line adds its field to the record being read. */
  lemma StepMore(s: Scan, f: Field)
    requires StandsAlone(f) && s.current.Some?
    ensures Step(s, PrintMore(f)) == Ok(s.(current := Some(s.current.value[f.key := f.value])))
  {
    PrintedTrimmed(f);
    StripAround(f.layout.indent, PrintField(f), f.layout.end);
    NotHeader(f, "version");
    NotHeader(f, "exceptions");
    assert "version" + ":" == "version:" && "exceptions" + ":" == "exceptions:";
    SplitPrinted(f);
    NotMarked(f);
  }

  lemma RunNext(s: Scan, line: string, rest: seq<string>, next: Scan)
    requires Step(s, line) == Ok(next)
    ensures Run(s, [line] + rest) == Run(next, rest)
  {
    assert ([line] + rest)[1..] == rest;
  }

  lemma RestLines(e: Entry, tail: seq<string>)
    requires e != []
    ensures PrintRest(e) + tail == [PrintMore(e[0])] + (PrintRest(e[1..]) + tail)
  {
  }

  lemma {:induction false} RunRest(s: Scan, e: Entry, tail: seq<string>)
    requires s.current.Some? && forall k :: 0 <= k < |e| ==> StandsAlone(e[k])
    ensures Run(s, PrintRest(e) + tail) == Run(s.(current := Some(Extend(s.current.value, e))), tail)
    decreases |e|
  {
    if e == [] {
      assert PrintRest(e) + tail == tail;
    } else {
      var next := s.(current := Some(s.current.value[e[0].key := e[0].value]));
      StepMore(s, e[0]);
      RunNext(s, PrintMore(e[0]), PrintRest(e[1..]) + tail, next);
      RunRest(next, e[1..], tail);
      RestLines(e, tail);
    }
  }

  lemma {:induction false} ExtendKeeps(r: Record, e: Entry)
    ensures r != map[] ==> Extend(r, e) != map[]
    decreases |e|
  {
    if e != [] {
      ExtendKeeps(r[e[0].key := e[0].value], e[1..]);
      assert e[0].key in r[e[0].key := e[0].value];
    }
  }

  lemma EntryLines(e: Entry, tail: seq<string>)
    requires e != []
    ensures PrintEntry(e) + tail == [PrintDash(e[0])] + (PrintRest(e[1..]) + tail)
  {
  }

  /** One written record: whatever was being read is finished, and the record becomes the current one. */
  lemma RunEntry(s: Scan, e: Entry, tail: seq<string>)
    requires Printable(e)
    ensures ToRecord(e) != map[]
    ensures Run(s, PrintEntry(e) + tail) == Run(Scan(Finish(s), Some(ToRecord(e))), tail)
  {
    var first := Scan(Finish(s), Some(map[e[0].key := e[0].value]));
    StepDash(s, e[0]);
    RunNext(s, PrintDash(e[0]), PrintRest(e[1..]) + tail, first);
    EntryLines(e, tail);
    RunRest(first, e[1..], tail);
    assert e[0].key in first.current.value;
    ExtendKeeps(first.current.value, e[1..]);
    assert map[][e[0].key := e[0].value] == first.current.value;
  }

  lemma FinishedFirst(finished: seq<Record>, entries: seq<Entry>)
    requires entries != []
    ensures finished + [ToRecord(entries[0])] + ToRecords(entries[1..]) == finished + ToRecords(entries)
  {
    assert ToRecords(entries) == [ToRecord(entries[0])] + ToRecords(entries[1..]);
  }

  lemma {:induction false} RunEntries(s: Scan, entries: seq<Entry>)
    requires AllPrintable(entries)
    ensures Run(s, PrintEntries(entries)) == Ok(Finish(s) + ToRecords(entries))
    decreases |entries|
  {
    if entries == [] {
      assert Finish(s) + ToRecords(entries) == Finish(s);
    } else {
      var e, rest := entries[0], entries[1..];
      RunEntry(s, e, PrintEntries(rest));
      var last := Scan(Finish(s), Some(ToRecord(e)));
      RunEntries(last, rest);
      FinishedFirst(Finish(s), entries);
    }
  }

  lemma FirstLine(line: string, rest: string)
    requires OneLine(line) && (rest == "" || IsBreak(rest[0]))
    ensures LineLength(line + rest) == |line|
  {
    var text := line + rest;
    var k := LineLength(text);
    assert rest != "" ==> text[|line|] == rest[0];
    assert forall m :: 0 <= m < |line| ==> text[m] == line[m];
    assert forall m :: 0 <= m < k ==> text[..k][m] == text[m];
  }

  /** The first line of a text is what stands before its first line end, whichever of the three that is. */
  lemma FirstOfLines(line: string, term: string, rest: string)
    requires OneLine(line) && LineEnd(term) && (term == "\r" ==> rest == "" || rest[0] != '\n')
    ensures Lines(line + term + rest) == [line] + Lines(rest)
  {
    var text := line + (term + rest);
    assert line + term + rest == text;
    FirstLine(line, term + rest);
    assert text[|line|] == term[0] && text[..|line|] == line;
    assert text[|line| + |term|..] == rest;
    assert |line| + 1 < |text| ==> text[|line| + 1] == if |term| == 2 then '\n' else rest[0];
  }

  lemma NoFeedFirst(lines: seq<string>, term: string, last: string)
    requires (forall k :: 0 <= k < |lines| ==> OneLine(lines[k])) && OneLine(last) && LineEnd(term)
    ensures var text := JoinLines(lines, term) + last;
            term == "\r" ==> text == "" || text[0] != '\n'
  {
    if lines != [] {
      var text := JoinLines(lines, term);
      assert text[0] == if lines[0] == "" then term[0] else lines[0][0];
    }
  }

  lemma JoinSteps(lines: seq<string>, term: string, last: string)
    requires lines != []
    ensures JoinLines(lines, term) + last == lines[0] + term + (JoinLines(lines[1..], term) + last)
  {
  }

  lemma HeadTail(lines: seq<string>, more: seq<string>)
    requires lines != []
    ensures lines + more == [lines[0]] + (lines[1..] + more)
  {
  }

  lemma OnlyLine(line: string)
    requires OneLine(line)
    ensures Lines(line) == if line == "" then [] else [line]
  {
    FirstLine(line, "");
    assert line + "" == line;
  }

  /** Lines joined with any of the three line ends are read as the same lines; the last one needs none. */
  lemma {:induction false} LinesOfJoin(lines: seq<string>, term: string, last: string)
    requires (forall k :: 0 <= k < |lines| ==> OneLine(lines[k])) && LineEnd(term) && OneLine(last)
    ensures Lines(JoinLines(lines, term) + last) == lines + if last == "" then [] else [last]
  {
    if lines == [] {
      OnlyLine(last);
      assert JoinLines(lines, term) + last == last;
    } else {
      var rest := JoinLines(lines[1..], term) + last;
      NoFeedFirst(lines[1..], term, last);
      JoinSteps(lines, term, last);
      FirstOfLines(lines[0], term, rest);
      LinesOfJoin(lines[1..], term, last);
      HeadTail(lines, if last == "" then [] else [last]);
    }
  }

  lemma {:induction false} RestOneLine(e: Entry)
    requires forall k :: 0 <= k < |e| ==> WellWritten(e[k])
    ensures forall k :: 0 <= k < |PrintRest(e)| ==> OneLine(PrintRest(e)[k])
  {
    if e != [] {
      RestOneLine(e[1..]);
      FieldOneLine(e[0]);
      assert forall k :: 1 <= k < |PrintRest(e)| ==> PrintRest(e)[k] == PrintRest(e[1..])[k - 1];
    }
  }

  lemma FieldOneLine(f: Field)
    requires WellWritten(f)
    ensures OneLine(PrintMore(f)) && OneLine(PrintDash(f))
  {
    assert OneLine(Styled(f));
    assert OneLine(PrintField(f));
  }

  lemma {:induction false} EntriesOneLine(entries: seq<Entry>)
    requires AllPrintable(entries)
    ensures forall k :: 0 <= k < |PrintEntries(entries)| ==> OneLine(PrintEntries(entries)[k])
  {
    if entries != [] {
      var e := entries[0];
      assert Printable(e);
      RestOneLine(e[1..]);
      FieldOneLine(e[0]);
      EntriesOneLine(entries[1..]);
    }
  }

  /** A line without effect: blank, a comment, or one of the two header lines, at any indentation. */
  predicate Idle(line: string) {
    || Blank(line)
    || exists k :: 0 <= k < |line| && Blank(line[..k]) && Marked(line[k..])
  }

  predicate Marked(text: string) {
    "#" <= text || "version:" <= text || "exceptions:" <= text
  }

  lemma {:induction false} MarkedStripped(left: string, s: string)
    requires AllSpace(left) && Marked(s)
    ensures Marked(Strip(left + s))
  {
    var l, r := Stripped(s);
    assert !IsSpace(s[0]) by {
      assert s[0] in {'#', 'v', 'e'};
    }
    if l != "" {
      assert false;
    }
    assert s == Strip(s) + r;
    assert left + s == left + Strip(s) + r;
    StripAround(left, Strip(s), r);
    KeepsMark(Strip(s), r);
  }

  lemma KeepsMark(s: string, right: string)
    requires Marked(s + right) && AllSpace(right)
    ensures Marked(s)
  {
    var text := s + right;
    var mark := if "#" <= text then "#" else if "version:" <= text then "version:" else "exceptions:";
    assert mark <= text && !IsSpace(mark[|mark| - 1]);
    if |s| < |mark| {
      assert false;
    }
    assert mark <= s;
  }

  lemma IdleStep(s: Scan, line: string)
    requires Idle(line)
    ensures Step(s, line) == Ok(s)
  {
    if Blank(line) {
      StripAround(line, "", "");
      assert line + "" + "" == line;
    } else {
      var k :| 0 <= k < |line| && Blank(line[..k]) && Marked(line[k..]);
      MarkedStripped(line[..k], line[k..]);
      assert line[..k] + line[k..] == line;
    }
  }

  /** A line without effect may be put anywhere in the list. */
  lemma {:induction false} IdleAnywhere(s: Scan, before: seq<string>, line: string, after: seq<string>)
    requires Idle(line)
    ensures Run(s, before + [line] + after) == Run(s, before + after)
    decreases |before|
  {
    var lines := before + [line] + after;
    if before == [] {
      IdleStep(s, line);
      assert lines[0] == line && lines[1..] == after && before + after == after;
    } else {
      assert lines[0] == before[0] && lines[1..] == before[1..] + [line] + after;
      assert (before + after)[0] == before[0] && (before + after)[1..] == before[1..] + after;
      match Step(s, before[0])
      case Ok(s') => IdleAnywhere(s', before[1..], line, after);
      case Err(_) =>
    }
  }

  lemma ParseLines(lines: seq<string>, term: string)
    requires (forall k :: 0 <= k < |lines| ==> OneLine(lines[k])) && LineEnd(term)
    ensures Parse(JoinLines(lines, term)) == Run(Start, lines)
  {
    LinesOfJoin(lines, term, "");
    assert JoinLines(lines, term) + "" == JoinLines(lines, term);
    assert lines + [] == lines;
  }

  lemma PutIn(before: seq<string>, line: string, after: seq<string>)
    requires OneLine(line) && forall k :: 0 <= k < |before + after| ==> OneLine((before + after)[k])
    ensures forall k :: 0 <= k < |before + [line] + after| ==> OneLine((before + [line] + after)[k])
  {
    var all, n := before + [line] + after, |before|;
    forall k | 0 <= k < |all| ensures OneLine(all[k]) {
      assert all[k] == if k < n then (before + after)[k] else if k == n then line else (before + after)[k - 1];
    }
  }

  /** The same of the text. */
  lemma IdleLine(before: seq<string>, line: string, after: seq<string>, term: string)
    requires LineEnd(term) && Idle(line) && OneLine(line)
    requires forall k :: 0 <= k < |before + after| ==> OneLine((before + after)[k])
    ensures Parse(JoinLines(before + [line] + after, term)) == Parse(JoinLines(before + after, term))
  {
    PutIn(before, line, after);
    ParseLines(before + [line] + after, term);
    ParseLines(before + after, term);
    IdleAnywhere(Start, before, line, after);
  }

  /** A dash line whose text has no colon stops the parser. */
  lemma NoColonStops(s: Scan, indent: string, text: string, end: string)
    requires Blank(indent) && Blank(end) && Trimmed(text) && text != "" && ':' !in text
    ensures Step(s, indent + ("- " + text) + end) == Err(NoColon(text))
  {
    var line := "- " + text;
    assert line[|line| - 1] == text[|text| - 1];
    StripAround(indent, line, end);
    StripAround("", text, "");
    assert "" + text + "" == text;
    DashRest(s, indent + line + end, text);
  }

  lemma DashRest(s: Scan, raw: string, text: string)
    requires Strip(raw) == "- " + text && Strip(text) == text && text != "" && ':' !in text
    ensures Step(s, raw) == Err(NoColon(text))
  {
    var line := Strip(raw);
    assert line[0] == '-' && line[1] == ' ' && line[2..] == text;
  }

  /** A line that is no dash line changes nothing before the first record, and never without a colon. */
  lemma StrayLine(s: Scan, indent: string, text: string, end: string)
    requires Blank(indent) && Blank(end) && Trimmed(text) && !("- " <= text) && (s.current == None || ':' !in text)
    ensures Step(s, indent + text + end) == Ok(s)
  {
    StripAround(indent, text, end);
  }

  /**
   * Reading back a written list gives the same records, for any mix of bare, single-quoted and double-quoted values,
   * whatever the quoted ones hold on one line (colons, quotes, outer spaces), and any blanks around the texts.
   */
  lemma RoundTrip(entries: seq<Entry>, term: string)
    requires AllPrintable(entries) && LineEnd(term)
    ensures Parse(PrintFile(entries, term)) == Ok(ToRecords(entries))
  {
    var body := PrintEntries(entries);
    EntriesOneLine(entries);
    HeaderIdle(body);
    RunEntries(Start, entries);
    ParseLines([VersionLine] + ([ExceptionsLine] + body), term);
    assert Finish(Start) + ToRecords(entries) == ToRecords(entries);
  }

  lemma HeaderMarked()
    ensures Marked(VersionLine) && Marked(ExceptionsLine) && OneLine(VersionLine) && OneLine(ExceptionsLine)
  {
  }

  lemma HeaderIdle(body: seq<string>)
    requires forall k :: 0 <= k < |body| ==> OneLine(body[k])
    ensures var lines := [VersionLine] + ([ExceptionsLine] + body);
            Run(Start, lines) == Run(Start, body) && forall k :: 0 <= k < |lines| ==> OneLine(lines[k])
  {
    HeaderMarked();
    RunMarked(Start, VersionLine, [ExceptionsLine] + body);
    RunMarked(Start, ExceptionsLine, body);
  }

  lemma RunMarked(s: Scan, line: string, rest: seq<string>)
    requires Marked(line) && OneLine(line) && forall k :: 0 <= k < |rest| ==> OneLine(rest[k])
    ensures Run(s, [line] + rest) == Run(s, rest)
    ensures forall k :: 0 <= k < |rest| + 1 ==> OneLine(([line] + rest)[k])
  {
    WholeMarked(line);
    IdleStep(s, line);
    RunNext(s, line, rest, s);
  }

  lemma WholeMarked(line: string)
    requires Marked(line)
    ensures Idle(line)
  {
    assert line[..0] == "" && line[0..] == line;
  }
}
