/**
 The exception list reader of tools/check_pnpm_audit_exceptions.py (lines 12-48): a line parser for a small part of
 YAML.
 */
module AuditExceptions {
  import opened Wrappers
  import opened Text

  // value.strip() without one pair of matching quotes. A lone quote counts as a pair.
  function Unquote(value: string): string {
    if value != "" && value[0] == value[|value| - 1] && value[0] in {'"', '\''} then
      (if |value| == 1 then "" else value[1..|value| - 1])
    else value
  }

  // split_kv; None is the exception for a line without a colon.
  function SplitKv(line: string): Option<(string, string)> {
    var i := IndexOf(line, ':');
    if i == |line| then None else Some((Strip(line[..i]), Unquote(Strip(line[i + 1..]))))
  }

  type Entry = map<string, string>

  datatype State = State(done: seq<Entry>, current: Option<Entry>)

  const START := State([], None)

  // `if current: exceptions.append(current)`.
  function Flushed(s: State): seq<Entry> {
    if s.current.Some? && s.current.value != map[] then s.done + [s.current.value] else s.done
  }

  // A line that says nothing.
  predicate Skipped(line: string) {
    line == "" || StartsWith(line, "#") || StartsWith(line, "version:") || StartsWith(line, "exceptions:")
  }

  // A new entry, whose first pair is on the line.
  function Item(done: seq<Entry>, rest: string): Option<State> {
    if rest == "" then Some(State(done, Some(map[])))
    else
      match SplitKv(rest)
      case Some((key, value)) => Some(State(done, Some(map[key := value])))
      case None => None
  }

  // One line, stripped; None is an exception.
  function Step(s: State, line: string): Option<State> {
    if Skipped(line) then Some(s)
    else if StartsWith(line, "- ") then Item(Flushed(s), Strip(line[2..]))
    else if s.current.Some? && SplitKv(line).Some? then
      var kv := SplitKv(line).value;
      Some(s.(current := Some(s.current.value[kv.0 := kv.1])))
    else Some(s)
  }

  function ParseFrom(s: State, lines: seq<string>): Option<State>
    decreases |lines|
  {
    if lines == [] then Some(s)
    else
      match Step(s, Strip(lines[0]))
      case Some(t) => ParseFrom(t, lines[1..])
      case None => None
  }

  function Parse(lines: seq<string>): Option<seq<Entry>> {
    match ParseFrom(START, lines)
    case Some(s) => Some(Flushed(s))
    case None => None
  }

  // parse_exceptions on the lines of the file; None is the exception a list item without a colon raises.
  method ParseExceptions(lines: seq<string>) returns (r: Option<seq<Entry>>)
    ensures r == Parse(lines)
  {
    var exceptions: seq<Entry>, current: Option<Entry> := [], None;
    var i := 0;
    while i < |lines|
      invariant 0 <= i <= |lines|
      invariant ParseFrom(START, lines) == ParseFrom(State(exceptions, current), lines[i..])
    {
      var line := Strip(lines[i]);
      assert lines[i..][1..] == lines[i + 1..];
      i := i + 1;
      if line == "" || StartsWith(line, "#") { continue; }
      if StartsWith(line, "version:") || StartsWith(line, "exceptions:") { continue; }
      if StartsWith(line, "- ") {
        if current.Some? && current.value != map[] {
          exceptions := exceptions + [current.value];
        }
        current := Some(map[]);
        line := Strip(line[2..]);
        if line != "" {
          var kv := SplitKv(line);
          if kv.None? { return None; }
          current := Some(map[kv.value.0 := kv.value.1]);
        }
        continue;
      }
      if current.Some? && ':' in line {
        var kv := SplitKv(line).value;
        current := Some(current.value[kv.0 := kv.1]);
      }
    }
    if current.Some? && current.value != map[] {
      exceptions := exceptions + [current.value];
    }
    return Some(exceptions);
  }

  // ---- What the parser does with any text ----

  lemma {:induction false} ParseFromConcat(s: State, a: seq<string>, b: seq<string>)
    ensures ParseFrom(s, a + b) == if ParseFrom(s, a).Some? then ParseFrom(ParseFrom(s, a).value, b) else None
    decreases |a|
  {
    if a == [] {
      assert a + b == b;
    } else {
      assert (a + b)[0] == a[0] && (a + b)[1..] == a[1..] + b;
      if Step(s, Strip(a[0])).Some? {
        ParseFromConcat(Step(s, Strip(a[0])).value, a[1..], b);
      }
    }
  }

  // Blank lines, comments and the two headers can stand anywhere without changing what is read.
  lemma SkippedLinesDoNotMatter(a: seq<string>, line: string, b: seq<string>)
    requires var said := Strip(line); said == "" || "#" <= said || "version:" <= said || "exceptions:" <= said
    ensures Parse(a + [line] + b) == Parse(a + b)
  {
    ParseFromConcat(START, a + [line], b);
    ParseFromConcat(START, a, [line]);
    ParseFromConcat(START, a, b);
    if ParseFrom(START, a).Some? {
      var s := ParseFrom(START, a).value;
      assert ParseFrom(s, [line]) == Some(s) by {
        assert Step(s, Strip([line][0])) == Some(s);
      }
    }
  }

  // A list item with something after the dash, but no colon in it.
  ghost predicate Broken(raw: string) {
    var line := Strip(raw);
    "- " <= line && Strip(line[2..]) != "" && ':' !in Strip(line[2..])
  }

  lemma ColonDecides(line: string)
    ensures SplitKv(line).Some? <==> ':' in line
  {
    var i := IndexOf(line, ':');
    if i == |line| { assert line[..i] == line; }
  }

  lemma ItemsAreNotSkipped(line: string)
    requires line != "" && line[0] == '-'
    ensures !Skipped(line)
  {
    assert "#"[0] != '-' && "version:"[0] != '-' && "exceptions:"[0] != '-';
  }

  // The reader raises exactly if some line is broken, whatever comes before it.
  lemma {:induction false} RaisesExactlyOnBrokenLines(s: State, lines: seq<string>)
    ensures ParseFrom(s, lines).None? <==> exists i :: 0 <= i < |lines| && Broken(lines[i])
    decreases |lines|
  {
    if lines != [] {
      var line := Strip(lines[0]);
      if StartsWith(line, "- ") {
        assert line[0] == "- "[0];
        ItemsAreNotSkipped(line);
        ColonDecides(Strip(line[2..]));
      }
      assert Step(s, line).None? <==> Broken(lines[0]);
      if Step(s, line).Some? {
        var rest := lines[1..];
        RaisesExactlyOnBrokenLines(Step(s, line).value, rest);
        forall i | 0 < i < |lines| ensures lines[i] == rest[i - 1] {}
        if i :| 0 <= i < |lines| && Broken(lines[i]) { assert Broken(rest[i - 1]); }
        if i :| 0 <= i < |rest| && Broken(rest[i]) { assert Broken(lines[i + 1]); }
      }
    }
  }

  // No entry of the result is empty.
  lemma {:induction false} EntriesAreNotEmpty(s: State, lines: seq<string>)
    requires map[] !in s.done && ParseFrom(s, lines).Some?
    ensures map[] !in Flushed(ParseFrom(s, lines).value)
    decreases |lines|
  {
    if lines != [] {
      EntriesAreNotEmpty(Step(s, Strip(lines[0])).value, lines[1..]);
    }
  }

  // ---- Printing and reading back ----

  // How a value is written: as it is, or between quotes of one kind.
  datatype Style = Plain | Single | Double

  function Notation(value: string, style: Style): string {
    match style
    case Plain => value
    case Single => "'" + value + "'"
    case Double => "\"" + value + "\""
  }

  // A value can be written as it is if there is something of it, without whitespace around it, and it does not begin
  // and end with the same quote.
  predicate Writable(value: string, style: Style) {
    style == Plain ==>
      && value != "" && Trimmed(value)
      && !(value[0] == '"' && value[|value| - 1] == '"') && !(value[0] == '\'' && value[|value| - 1] == '\'')
  }

  // An entry as a list of pairs, each with the way its value is written.
  type Pairs = seq<(string, string, Style)>

  predicate IsLetter(c: char) { 'a' <= c <= 'z' || 'A' <= c <= 'Z' || c == '_' }

  predicate Identifier(key: string) {
    key != "" && IsLetter(key[0]) && forall i :: 0 <= i < |key| ==> IsLetter(key[i]) || IsDigit(key[i])
  }

  predicate OneLine(s: string) { '\n' !in s && '\r' !in s }

  predicate Printable(e: Pairs) {
    && e != []
    && (forall i :: 0 <= i < |e| ==> Identifier(e[i].0) && OneLine(e[i].1) && Writable(e[i].1, e[i].2))
    && (forall i :: 0 < i < |e| ==> e[i].0 != "version" && e[i].0 != "exceptions")
  }

  predicate AllPrintable(entries: seq<Pairs>) { forall i :: 0 <= i < |entries| ==> Printable(entries[i]) }

  // The dictionary of the pairs: the last value of a key counts.
  function Dict(e: Pairs): Entry { if e == [] then map[] else Dict(e[..|e| - 1])[e[|e| - 1].0 := e[|e| - 1].1] }

  // With distinct keys it is the same list of pairs.
  lemma {:induction false} DictExact(e: Pairs)
    requires forall i, j :: 0 <= i < j < |e| ==> e[i].0 != e[j].0
    ensures forall i :: 0 <= i < |e| ==> e[i].0 in Dict(e) && Dict(e)[e[i].0] == e[i].1
    ensures forall key :: key in Dict(e) ==> exists i :: 0 <= i < |e| && e[i].0 == key
  {
    if e != [] {
      var init := e[..|e| - 1];
      DictExact(init);
      forall i | 0 <= i < |e| ensures e[i].0 in Dict(e) && Dict(e)[e[i].0] == e[i].1 {
        if i < |init| { assert init[i] == e[i]; }
      }
      forall key | key in Dict(e) ensures exists i :: 0 <= i < |e| && e[i].0 == key {
        if key in Dict(init) {
          var i :| 0 <= i < |init| && init[i].0 == key;
          assert e[i].0 == key;
        } else {
          assert e[|e| - 1].0 == key;
        }
      }
    }
  }

  function PairText(key: string, value: string, style: Style): string { key + ": " + Notation(value, style) }

  function PairLines(e: Pairs): seq<string> {
    if e == [] then []
    else
      var last := e[|e| - 1];
      PairLines(e[..|e| - 1]) + ["  " + PairText(last.0, last.1, last.2)]
  }

  function EntryLines(e: Pairs): seq<string> {
    if e == [] then [] else ["- " + PairText(e[0].0, e[0].1, e[0].2)] + PairLines(e[1..])
  }

  function ListLines(entries: seq<Pairs>): seq<string> {
    if entries == [] then [] else ListLines(entries[..|entries| - 1]) + EntryLines(entries[|entries| - 1])
  }

  function Dicts(entries: seq<Pairs>): seq<Entry> {
    if entries == [] then [] else Dicts(entries[..|entries| - 1]) + [Dict(entries[|entries| - 1])]
  }

  lemma IdentifierChars(key: string)
    requires Identifier(key)
    ensures ':' !in key && Trimmed(key) && OneLine(key)
  {}

  // What is between the quotes, or the value itself.
  lemma NotationMeans(value: string, style: Style)
    requires Writable(value, style)
    ensures var written := Notation(value, style);
      written != "" && Trimmed(written) && Unquote(written) == value && (OneLine(value) ==> OneLine(written))
  {
    var written := Notation(value, style);
    if style != Plain {
      assert written[1..|written| - 1] == value;
    }
  }

  // A line `key: value` in any notation gives the key and the value, whatever whitespace stands around them.
  lemma SplitPair(key: string, value: string, style: Style, left: string, middle: string, right: string)
    requires ':' !in key && Trimmed(key) && Writable(value, style)
    requires ':' !in left && AllSpace(left) && AllSpace(middle) && AllSpace(right)
    ensures SplitKv(left + key + ":" + middle + Notation(value, style) + right) == Some((key, value))
  {
    var written := Notation(value, style);
    var line, rest := left + key + ":" + middle + written + right, middle + written + right;
    assert line == (left + key) + [':'] + rest;
    IndexOfFirst(left + key, ':', rest);
    assert line[..|left + key|] == left + key && line[|left + key| + 1..] == rest;
    NotationMeans(value, style);
    assert left + key + "" == left + key;
    StripOf(left, key, "");
    StripOf(middle, written, right);
  }

  lemma PairSplits(key: string, value: string, style: Style)
    requires Identifier(key) && Writable(value, style)
    ensures SplitKv(PairText(key, value, style)) == Some((key, value))
  {
    IdentifierChars(key);
    SplitPair(key, value, style, "", " ", "");
    var written := Notation(value, style);
    assert "" + key == key && (key + ":") + " " == key + ": ";
    assert ((key + ": ") + written) + "" == (key + ": ") + written;
  }

  // A line that begins with an identifier and a colon is only skipped for the two header names.
  lemma HeadersOnly(key: string, rest: string)
    requires Identifier(key) && key != "version" && key != "exceptions"
    ensures !Skipped(key + ":" + rest)
  {
    var line := key + ":" + rest;
    assert line[0] == key[0];
    if StartsWith(line, "version:") { StartsWithKey(key, rest, "version"); }
    if StartsWith(line, "exceptions:") { StartsWithKey(key, rest, "exceptions"); }
  }

  lemma StartsWithKey(key: string, rest: string, header: string)
    requires Identifier(key) && Identifier(header) && header + ":" <= key + ":" + rest
    ensures key == header
  {
    IdentifierChars(key);
    IdentifierChars(header);
    var line := key + ":" + rest;
    IndexOfFirst(key, ':', rest);
    IndexOfFirst(header, ':', line[|header| + 1..]);
    assert line == header + [':'] + line[|header| + 1..];
    assert line == key + [':'] + rest;
    assert key == line[..|key|] && header == line[..|header|];
  }

  lemma PairIsTrimmed(key: string, value: string, style: Style)
    requires Identifier(key) && Writable(value, style)
    ensures var line := PairText(key, value, style);
      && |line| > 2 && line[0] == key[0] && !IsSpace(line[|line| - 1])
      && Strip(line) == line && Strip("  " + line) == line && Strip("- " + line) == "- " + line
  {
    var line := PairText(key, value, style);
    IdentifierChars(key);
    NotationMeans(value, style);
    assert line[|line| - 1] == Notation(value, style)[|Notation(value, style)| - 1];
    StripTrimmed(line);
    StripTrimmed("- " + line);
    assert "  " + line + "" == "  " + line;
    StripOf("  ", line, "");
  }

  lemma FirstPairRead(s: State, key: string, value: string, style: Style)
    requires Identifier(key) && Writable(value, style)
    ensures Step(s, Strip("- " + PairText(key, value, style))) == Some(State(Flushed(s), Some(map[key := value])))
  {
    PairIsTrimmed(key, value, style);
    assert ("- " + PairText(key, value, style))[2..] == PairText(key, value, style);
    PairSplits(key, value, style);
  }

  lemma NextPairRead(s: State, key: string, value: string, style: Style)
    requires Identifier(key) && key != "version" && key != "exceptions" && Writable(value, style) && s.current.Some?
    ensures Step(s, Strip("  " + PairText(key, value, style))) ==
      Some(s.(current := Some(s.current.value[key := value])))
  {
    var line := PairText(key, value, style);
    PairIsTrimmed(key, value, style);
    assert line == key + ":" + (" " + Notation(value, style));
    HeadersOnly(key, " " + Notation(value, style));
    PairSplits(key, value, style);
  }

  lemma OneLineRead(s: State, line: string)
    ensures ParseFrom(s, [line]) == Step(s, Strip(line))
  {
    assert [line][1..] == [];
    match Step(s, Strip([line][0]))
    case Some(t) => assert ParseFrom(t, []) == Some(t);
    case None =>
  }

  lemma {:induction false} PairsRead(s: State, e: Pairs, first: (string, string, Style))
    requires Printable([first] + e) && s.current == Some(Dict([first]))
    ensures ParseFrom(s, PairLines(e)) == Some(s.(current := Some(Dict([first] + e))))
    decreases |e|
  {
    if e == [] {
      assert [first] + e == [first];
    } else {
      var init, last := e[..|e| - 1], e[|e| - 1];
      var all := [first] + e;
      assert all[..|all| - 1] == [first] + init && all[|all| - 1] == last;
      PairsRead(s, init, first);
      var line := "  " + PairText(last.0, last.1, last.2);
      ParseFromConcat(s, PairLines(init), [line]);
      var t := s.(current := Some(Dict([first] + init)));
      assert all[|init| + 1] == last;
      NextPairRead(t, last.0, last.1, last.2);
      OneLineRead(t, line);
    }
  }

  lemma EntryRead(s: State, e: Pairs)
    requires Printable(e)
    ensures ParseFrom(s, EntryLines(e)) == Some(State(Flushed(s), Some(Dict(e))))
  {
    var first := e[0];
    assert e == [first] + e[1..];
    assert [first][..0] == [];
    FirstPairRead(s, first.0, first.1, first.2);
    PairsRead(State(Flushed(s), Some(Dict([first]))), e[1..], first);
  }

  lemma OneMoreRead(lines: seq<string>, s: State, e: Pairs)
    requires ParseFrom(START, lines) == Some(s) && Printable(e)
    ensures ParseFrom(START, lines + EntryLines(e)) == Some(State(Flushed(s), Some(Dict(e))))
    ensures Flushed(State(Flushed(s), Some(Dict(e)))) == Flushed(s) + [Dict(e)]
  {
    ParseFromConcat(START, lines, EntryLines(e));
    EntryRead(s, e);
    assert e[|e| - 1].0 in Dict(e);
  }

  lemma {:induction false} ListRead(entries: seq<Pairs>) returns (s: State)
    requires AllPrintable(entries)
    ensures ParseFrom(START, ListLines(entries)) == Some(s) && Flushed(s) == Dicts(entries)
  {
    if entries == [] {
      s := START;
    } else {
      var init, last := entries[..|entries| - 1], entries[|entries| - 1];
      s := ListRead(init);
      OneMoreRead(ListLines(init), s, last);
      s := State(Flushed(s), Some(Dict(last)));
    }
  }

  // The file: the two headers and the entries, one line each.
  function FileLines(entries: seq<Pairs>): seq<string> {
    ["version: 1", "exceptions:"] + ListLines(entries)
  }

  // Printing any list of entries and reading it gives the same list back.
  lemma LinesRoundTrip(entries: seq<Pairs>)
    requires AllPrintable(entries)
    ensures Parse(FileLines(entries)) == Some(Dicts(entries))
  {
    var _ := ListRead(entries);
    BelowHeaders(ListLines(entries));
  }

  lemma BelowHeaders(body: seq<string>)
    ensures Parse(["version: 1", "exceptions:"] + body) == Parse(body)
  {
    HeadersAreSkipped();
    SkippedFirstLine("exceptions:", body);
    SkippedFirstLine("version: 1", ["exceptions:"] + body);
    assert ["version: 1", "exceptions:"] + body == ["version: 1"] + (["exceptions:"] + body);
  }

  lemma SkippedFirstLine(line: string, rest: seq<string>)
    requires Skipped(Strip(line))
    ensures Parse([line] + rest) == Parse(rest)
  {
    assert ([line] + rest)[1..] == rest;
  }

  lemma HeadersAreSkipped()
    ensures Skipped(Strip("version: 1")) && Skipped(Strip("exceptions:"))
  {
    StripTrimmed("version: 1");
    StripTrimmed("exceptions:");
  }

  // ---- From text to lines ----

  function LineEnd(text: string): (i: nat)
    ensures i <= |text| && OneLine(text[..i]) && (i < |text| ==> text[i] == '\n' || text[i] == '\r')
  {
    if text == "" || text[0] == '\n' || text[0] == '\r' then 0
    else
      var i := 1 + LineEnd(text[1..]);
      assert text[..i] == [text[0]] + text[1..][..i - 1];
      i
  }

  // The lines of a text file: "\n", "\r" and "\r\n" all end one.
  function ReadLines(text: string): seq<string>
    decreases |text|
  {
    if text == "" then []
    else
      var i := LineEnd(text);
      if i == |text| then [text]
      else if text[i] == '\r' && i + 1 < |text| && text[i + 1] == '\n' then [text[..i]] + ReadLines(text[i + 2..])
      else [text[..i]] + ReadLines(text[i + 1..])
  }

  function TextOf(lines: seq<string>): string {
    if lines == [] then "" else lines[0] + "\n" + TextOf(lines[1..])
  }

  lemma {:induction false} ReadLinesOf(lines: seq<string>)
    requires forall line :: line in lines ==> OneLine(line)
    ensures ReadLines(TextOf(lines)) == lines
  {
    if lines != [] {
      var line, rest := lines[0], TextOf(lines[1..]);
      var text := line + "\n" + rest;
      LineEndOf(line, rest);
      assert text[..|line|] == line && text[|line| + 1..] == rest;
      ReadLinesOf(lines[1..]);
    }
  }

  lemma LineEndOf(line: string, rest: string)
    requires OneLine(line)
    ensures LineEnd(line + "\n" + rest) == |line|
  {
    var text := line + "\n" + rest;
    var i := LineEnd(text);
    assert text[|line|] == '\n';
    forall j | 0 <= j < |line| ensures text[j] != '\n' && text[j] != '\r' {
      assert text[j] == line[j] && line[j] in line;
    }
    forall j | 0 <= j < i ensures text[j] != '\n' {
      assert text[..i][j] in text[..i];
    }
  }

  lemma PairTextIsLine(key: string, value: string, style: Style)
    requires Identifier(key) && OneLine(value) && Writable(value, style)
    ensures OneLine("  " + PairText(key, value, style)) && OneLine("- " + PairText(key, value, style))
  {
    IdentifierChars(key);
    NotationMeans(value, style);
    var line, written := PairText(key, value, style), Notation(value, style);
    assert "  " + line == ("  " + key + ": ") + written && "- " + line == ("- " + key + ": ") + written;
  }

  lemma {:induction false} PairLinesAreLines(e: Pairs)
    requires forall i :: 0 <= i < |e| ==> Identifier(e[i].0) && OneLine(e[i].1) && Writable(e[i].1, e[i].2)
    ensures forall line :: line in PairLines(e) ==> OneLine(line)
  {
    if e != [] {
      PairLinesAreLines(e[..|e| - 1]);
      PairTextIsLine(e[|e| - 1].0, e[|e| - 1].1, e[|e| - 1].2);
    }
  }

  lemma EntryLinesAreLines(e: Pairs)
    requires Printable(e)
    ensures forall line :: line in EntryLines(e) ==> OneLine(line)
  {
    PairLinesAreLines(e[1..]);
    PairTextIsLine(e[0].0, e[0].1, e[0].2);
  }

  lemma {:induction false} ListLinesAreLines(entries: seq<Pairs>)
    requires AllPrintable(entries)
    ensures forall line :: line in ListLines(entries) ==> OneLine(line)
  {
    if entries != [] {
      ListLinesAreLines(entries[..|entries| - 1]);
      var e := entries[|entries| - 1];
      EntryLinesAreLines(e);
    }
  }

  // The round trip, from the text of the file: any values without line breaks, including quotes, colons and '#',
  // between quotes of either kind, or as they are where that is possible.
  lemma RoundTrip(entries: seq<Pairs>)
    requires AllPrintable(entries)
    ensures Parse(ReadLines(TextOf(FileLines(entries)))) == Some(Dicts(entries))
  {
    ListLinesAreLines(entries);
    ReadLinesOf(FileLines(entries));
    LinesRoundTrip(entries);
  }
}
