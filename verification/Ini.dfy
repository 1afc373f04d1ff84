/** The ini parser and the ini editor (src/config/settings.cpp, parse_ini, get and set_ini_value), on the text
    of the file. */
module Ini {
  import opened Blocks
  import opened Seqs
  import opened Text

  // ---------- Lines ----------

  /** What getline gives, one after the other. */
  function Split(text: string): seq<string>
    decreases |text|
  {
    if text == [] then []
    else [text[..LineEnd(text)]] + Split(text[Beyond(text)..])
  }

  function LineEnd(text: string): (r: nat)
    ensures r <= |text|
  {
    IndexOf(text, '\n')
  }

  function Beyond(text: string): (r: nat)
    ensures r <= |text| && (text != [] ==> 0 < r)
  {
    if LineEnd(text) < |text| then LineEnd(text) + 1 else |text|
  }

  function StripCr(line: string): string {
    if line != [] && line[|line| - 1] == '\r' then line[..|line| - 1] else line
  }

  function ReadLines(text: string): seq<string> {
    Map(StripCr, Split(text))
  }

  /** Every line and a line feed. */
  function Render(lines: seq<string>): string {
    if lines == [] then [] else lines[0] + ['\n'] + Render(lines[1..])
  }

  // ---------- What a line says ----------

  predicate IsHeader(t: string) {
    |t| > 1 && t[0] == '[' && t[|t| - 1] == ']'
  }

  function HeaderName(t: string): string
    requires IsHeader(t)
  {
    Lower(Trim(t[1..|t| - 1]))
  }

  function KeyOf(t: string): Option<string> {
    var eq := IndexOf(t, '=');
    if eq < |t| then Some(Lower(Trim(t[..eq]))) else None
  }

  function ValueOf(t: string): string
    requires KeyOf(t).Some?
  {
    var val := Trim(t[IndexOf(t, '=') + 1..]);
    var hash := FirstAt(val, " #", 0);
    if hash < |val| then Trim(val[..hash]) else val
  }

  predicate IsNote(t: string) {
    t == "" || t[0] == '#' || t[0] == ';'
  }

  // ---------- Parsing ----------

  /** The nested map of the parser, with its two keys as one. */
  type Table = map<(string, string), string>

  datatype Parsed = Parsed(section: string, table: Table)

  const NOTHING := Parsed("", map[])

  function ParseLine(p: Parsed, line: string): Parsed {
    var t := Trim(line);
    if IsNote(t) then p
    else if IsHeader(t) then p.(section := HeaderName(t))
    else
      match KeyOf(t)
      case None => p
      case Some(key) => p.(table := p.table[(p.section, key) := ValueOf(t)])
  }

  function ParseFrom(p: Parsed, lines: seq<string>): Parsed
    decreases |lines|
  {
    if lines == [] then p else ParseFrom(ParseLine(p, lines[0]), lines[1..])
  }

  function Parse(text: string): Table {
    ParseFrom(NOTHING, ReadLines(text)).table
  }

  function Get(table: Table, section: string, key: string, default: string): string {
    if (section, key) in table && table[(section, key)] != "" then table[(section, key)] else default
  }

  // ---------- Editing ----------

  datatype Setting = Setting(section: string, key: string, value: string)

  datatype Edit = Edit(out: seq<string>, inSection: bool, wrote: bool, found: bool)

  const UNTOUCHED := Edit([], false, false, false)

  function NewLine(s: Setting): string {
    s.key + " = " + s.value
  }

  function Heading(s: Setting): string {
    "[" + s.section + "]"
  }

  predicate Names(s: Setting, t: string) {
    KeyOf(t) == Some(Lower(s.key))
  }

  function EditLine(s: Setting, e: Edit, line: string): Edit {
    var t := Trim(line);
    if IsHeader(t) then
      var closes := e.inSection && !e.wrote;
      var here := HeaderName(t) == Lower(s.section);
      Edit(e.out + (if closes then [NewLine(s)] else []) + [line], here, e.wrote || closes, e.found || here)
    else if e.inSection && Names(s, t) then e.(out := e.out + [NewLine(s)], wrote := true)
    else e.(out := e.out + [line])
  }

  function EditFrom(s: Setting, e: Edit, lines: seq<string>): Edit
    decreases |lines|
  {
    if lines == [] then e else EditFrom(s, EditLine(s, e, lines[0]), lines[1..])
  }

  /** What is appended at the end of the file. */
  function Tail(s: Setting, e: Edit): seq<string> {
    if e.inSection && !e.wrote then [NewLine(s)]
    else if !e.found then
      (if e.out != [] && e.out[|e.out| - 1] != "" then [""] else []) + [Heading(s), NewLine(s)]
    else []
  }

  function EditLines(s: Setting, lines: seq<string>): seq<string> {
    var e := EditFrom(s, UNTOUCHED, lines);
    e.out + Tail(s, e)
  }

  function SetValue(s: Setting, text: string): string {
    Render(EditLines(s, ReadLines(text)))
  }

  // ---------- The loops ----------

  method ParseIni(text: string) returns (table: Table)
    ensures table == Parse(text)
  {
    hide Trim, IsHeader, HeaderName, KeyOf, ValueOf, LineEnd;
    table := map[];
    var section := "";
    var pos := 0;
    while pos < |text|
      invariant pos <= |text|
      invariant ParseFrom(Parsed(section, table), ReadLines(text[pos..])).table == Parse(text)
    {
      var rest := text[pos..];
      assert rest[Beyond(rest)..] == text[pos + Beyond(rest)..];
      FirstLine(rest);
      var line := StripCr(rest[..LineEnd(rest)]);
      ParseFirst(Parsed(section, table), line, ReadLines(rest));
      pos := pos + Beyond(rest);
      var t := Trim(line);
      if t == "" || t[0] == '#' || t[0] == ';' { continue; }
      if IsHeader(t) {
        section := HeaderName(t);
        continue;
      }
      var key := KeyOf(t);
      if key.None? { continue; }
      table := table[(section, key.value) := ValueOf(t)];
    }
  }

  lemma ParseFirst(p: Parsed, line: string, lines: seq<string>)
    requires lines != [] && lines[0] == line
    ensures ParseFrom(p, lines) == ParseFrom(ParseLine(p, line), lines[1..])
  {
  }

  lemma FirstLine(text: string)
    requires text != []
    ensures ReadLines(text) == [StripCr(text[..LineEnd(text)])] + ReadLines(text[Beyond(text)..])
    ensures ReadLines(text)[1..] == ReadLines(text[Beyond(text)..])
  {
  }

  method SetIniValue(text: string, s: Setting) returns (result: string)
    ensures result == SetValue(s, text)
  {
    hide Trim, IsHeader, HeaderName, KeyOf, NewLine, Heading, Lower;
    var lines := ReadAll(text);
    var inSection, wrote, found := false, false, false;
    var out: seq<string> := [];
    for i := 0 to |lines|
      invariant EditFrom(s, Edit(out, inSection, wrote, found), lines[i..]) == EditFrom(s, UNTOUCHED, lines)
    {
      var line := lines[i];
      assert lines[i..][1..] == lines[i + 1..];
      ghost var next := EditLine(s, Edit(out, inSection, wrote, found), line);
      var t := Trim(line);
      if IsHeader(t) {
        if inSection && !wrote {
          out := out + [NewLine(s)];
          wrote := true;
        }
        inSection := HeaderName(t) == Lower(s.section);
        if inSection { found := true; }
        out := out + [line];
      } else if inSection && Names(s, t) {
        out := out + [NewLine(s)];
        wrote := true;
      } else {
        out := out + [line];
      }
      assert Edit(out, inSection, wrote, found) == next;
    }
    ghost var e := Edit(out, inSection, wrote, found);
    assert e == EditFrom(s, UNTOUCHED, lines);
    if inSection && !wrote {
      out := out + [NewLine(s)];
      wrote := true;
    }
    if !found {
      if out != [] && out[|out| - 1] != "" {
        out := out + [""];
      }
      out := out + [Heading(s)];
      out := out + [NewLine(s)];
    }
    FoundFirst(s, UNTOUCHED, lines);
    assert out == e.out + Tail(s, e);
    result := WriteAll(out);
  }

  lemma {:induction false} FoundFirst(s: Setting, e: Edit, lines: seq<string>)
    requires e.inSection ==> e.found
    ensures var r := EditFrom(s, e, lines); r.inSection ==> r.found
    decreases |lines|
  {
    hide Trim, IsHeader, HeaderName, KeyOf, NewLine, Heading, Lower;
    if lines != [] {
      FoundFirst(s, EditLine(s, e, lines[0]), lines[1..]);
    }
  }

  method ReadAll(text: string) returns (lines: seq<string>)
    ensures lines == ReadLines(text)
  {
    lines := [];
    var pos := 0;
    while pos < |text|
      invariant pos <= |text|
      invariant lines + ReadLines(text[pos..]) == ReadLines(text)
    {
      var rest := text[pos..];
      assert rest[Beyond(rest)..] == text[pos + Beyond(rest)..];
      FirstLine(rest);
      lines := lines + [StripCr(rest[..LineEnd(rest)])];
      pos := pos + Beyond(rest);
    }
  }

  method WriteAll(lines: seq<string>) returns (text: string)
    ensures text == Render(lines)
  {
    text := [];
    for i := 0 to |lines|
      invariant text + Render(lines[i..]) == Render(lines)
    {
      assert lines[i..][1..] == lines[i + 1..];
      text := text + lines[i];
      text := text + ['\n'];
    }
  }

  // ---------- What the new line says ----------

  ghost predicate OneLine(line: string) {
    '\n' !in line
  }

  /** What the property asks of its setting: no line feeds, trimmed and not empty, nothing in the key or
      value that the parser reads differently. */
  predicate Plain(s: Setting) {
    && '\n' !in s.section && '\n' !in s.key && '\n' !in s.value
    && s.section != "" && s.key != "" && s.value != ""
    && Trimmed(s.section) && Trimmed(s.key) && Trimmed(s.value)
    && '=' !in s.key && s.key[0] !in "#;[" && !Contains(s.value, " #")
  }

  lemma SpaceAfter(s: string)
    requires Trimmed(s) && s != ""
    ensures Trim(s + " ") == s && Trim(" " + s) == s
  {
    hide TrimRight, TrimLeft;
    TrimTrimmed(s);
    TrimSpaceAtEnd(s, ' ');
    assert s + " " == s + [' '];
    SpaceBefore(s);
  }

  lemma SpaceBefore(s: string)
    ensures Trim(" " + s) == Trim(s)
  {
    assert (" " + s)[1..] == s;
  }

  lemma NewLineTrimmed(s: Setting)
    requires Plain(s)
    ensures |NewLine(s)| > 1 && NewLine(s)[0] == s.key[0]
    ensures NewLine(s)[|NewLine(s)| - 1] == s.value[|s.value| - 1]
    ensures Trimmed(NewLine(s))
  {
    hide Contains;
  }

  lemma NewLineSplits(s: Setting)
    requires Plain(s)
    ensures var t := NewLine(s);
      var eq := IndexOf(t, '=');
      eq < |t| && t[..eq] == s.key + " " && t[eq + 1..] == " " + s.value
  {
    hide IndexOf, Trim, Contains;
    var t := NewLine(s);
    var n := |s.key| + 1;
    assert t[..n] == s.key + " " && t[n] == '=' && t[n + 1..] == " " + s.value;
    assert forall i :: 0 <= i < |s.key| ==> t[i] == s.key[i] && s.key[i] in s.key;
    assert IndexOf(t, '=') == n;
  }

  lemma CommentFound(value: string)
    ensures FirstAt(value, " #", 0) < |value| ==> Contains(value, " #")
  {
  }

  lemma NewLineSays(s: Setting)
    requires Plain(s)
    ensures var t := NewLine(s);
      && Trim(t) == t && !IsNote(t) && !IsHeader(t) && Names(s, t) && ValueOf(t) == s.value
      && StripCr(t) == t && OneLine(t)
  {
    hide IndexOf, Trim, FirstAt, Contains, Lower;
    NewLineTrimmed(s);
    TrimTrimmed(NewLine(s));
    NewLineSplits(s);
    SpaceAfter(s.key);
    SpaceAfter(s.value);
    CommentFound(s.value);
  }

  lemma HeadingSays(s: Setting)
    requires Plain(s)
    ensures var t := Heading(s);
      && Trim(t) == t && IsHeader(t) && HeaderName(t) == Lower(s.section)
      && StripCr(t) == t && OneLine(t)
  {
    hide Trim, Contains, Lower;
    var t := Heading(s);
    assert t[0] == '[' && t[|t| - 1] == ']' && t[1..|t| - 1] == s.section;
    TrimTrimmed(t);
    TrimTrimmed(s.section);
  }

  lemma TrimFirst(s: string)
    requires s != "" && !IsSpace(s[0])
    ensures Trim(s) != "" && Trim(s)[0] == s[0]
  {
    TrimRightFirst(s);
  }

  lemma {:induction false} TrimRightFirst(s: string)
    requires s != "" && !IsSpace(s[0])
    ensures TrimRight(s) != "" && TrimRight(s)[0] == s[0]
  {
    if IsSpace(s[|s| - 1]) {
      TrimRightFirst(s[..|s| - 1]);
    }
  }

  lemma KeyFirst(t: string)
    requires t != "" && !IsSpace(t[0]) && t[0] != '=' && KeyOf(t).Some?
    ensures KeyOf(t).value != "" && KeyOf(t).value[0] == LowerChar(t[0])
  {
    TrimFirst(t[..IndexOf(t, '=')]);
  }

  lemma LowerFirst(s: string)
    requires s != ""
    ensures Lower(s)[0] == LowerChar(s[0])
  {
  }

  /** A line that names a proper key is an entry for the parser too. */
  lemma NamedIsEntry(s: Setting, t: string)
    requires Plain(s) && Names(s, t)
    ensures !IsNote(t)
  {
    hide Trim, Lower, Contains, Trimmed;
    NoKeyInNothing();
    LowerFirst(s.key);
    if t != "" && !IsSpace(t[0]) && t[0] != '=' {
      KeyFirst(t);
      assert LowerChar(t[0]) == LowerChar(s.key[0]);
    }
  }

  lemma NoKeyInNothing()
    ensures KeyOf("") == None
  {
  }

  /** Blank lines, notes and lines that are neither header nor entry say nothing; an empty value counts as none. */
  lemma SaysNothing(p: Parsed, line: string, section: string, key: string, default: string)
    ensures var t := Trim(line);
      t == "" || t[0] in "#;" || (t[0] != '[' && '=' !in t) ==> ParseLine(p, line) == p
    ensures (section, key) !in p.table || p.table[(section, key)] == "" ==>
      Get(p.table, section, key, default) == default
  {
    var t := Trim(line);
    if t != "" && '=' !in t {
      assert KeyOf(t) == None;
    }
  }

  /** A note after the value is not part of it. */
  lemma NoteAfterValue(s: Setting, q: Parsed, note: string)
    requires Plain(s) && q.section == Lower(s.section)
    ensures ParseLine(q, NewLine(s) + " #" + note) == q.(table := q.table[Spot(s) := s.value])
  {
    hide IndexOf, Trim, FirstAt, Contains, Lower;
    var t := Trim(NewLine(s) + " #" + note);
    NotedLine(s, note);
  }

  lemma {:induction false} TrimRightSplit(a: string, b: string)
    requires a != "" && !IsSpace(a[|a| - 1])
    ensures TrimRight(a + b) == a + TrimRight(b)
  {
    if b == "" {
      assert a + b == a;
    } else if IsSpace(b[|b| - 1]) {
      assert (a + b)[..|a + b| - 1] == a + b[..|b| - 1];
      TrimRightSplit(a, b[..|b| - 1]);
    }
  }

  lemma TrimNoted(v: string, note: string)
    requires v != "" && Trimmed(v)
    ensures Trim(v + " #" + note) == v + " #" + TrimRight(note)
    ensures Trim(" " + (v + " #" + TrimRight(note))) == v + " #" + TrimRight(note)
  {
    TrimRightSplit(v + " #", note);
    assert v + " #" + note == (v + " #") + note;
    SpaceBefore(v + " #" + TrimRight(note));
    TrimRightTwice(note);
    TrimRightSplit(v + " #", TrimRight(note));
  }

  lemma {:induction false} TrimRightTwice(s: string)
    ensures TrimRight(TrimRight(s)) == TrimRight(s)
  {
  }

  /** The note is found right after the value. */
  lemma NoteFound(v: string, rest: string)
    requires v != "" && Trimmed(v) && !Contains(v, " #")
    ensures FirstAt(v + " #" + rest, " #", 0) == |v|
  {
    var s := v + " #" + rest;
    assert OccursAt(s, " #", |v|);
    forall i | 0 <= i < |v| ensures !OccursAt(s, " #", i) {
      if i < |v| - 1 {
        assert v[i..i + 2] == s[i..i + 2];
        assert !OccursAt(v, " #", i);
      } else {
        assert s[i..i + 2][0] == v[i];
      }
    }
  }

  /** What is left of such a line when it is trimmed. */
  lemma NotedLine(s: Setting, note: string)
    requires Plain(s)
    ensures var t := Trim(NewLine(s) + " #" + note);
      !IsNote(t) && !IsHeader(t) && Names(s, t) && ValueOf(t) == s.value
  {
    hide IndexOf, Trim, FirstAt, Lower, TrimRight;
    NewLineTrimmed(s);
    TrimNoted(NewLine(s), note);
    var rest := TrimRight(note);
    var t := NewLine(s) + " #" + rest;
    NewLineSplits(s);
    var eq := IndexOf(NewLine(s), '=');
    assert t[..eq] == s.key + " ";
    assert t[eq + 1..] == " " + (s.value + " #" + rest);
    assert IndexOf(t, '=') == eq by {
      assert forall i :: 0 <= i <= eq ==> t[i] == NewLine(s)[i];
    }
    SpaceAfter(s.key);
    TrimNoted(s.value, note);
    NoteFound(s.value, rest);
    TrimTrimmed(s.value);
    assert (s.value + " #" + rest)[..|s.value|] == s.value;
  }

  // ---------- The file reads back what was set ----------

  function Spot(s: Setting): (string, string) {
    (Lower(s.section), Lower(s.key))
  }

  ghost predicate SameElsewhere(a: Table, b: Table, spot: (string, string)) {
    forall k :: k != spot ==> (k in a <==> k in b) && (k in a ==> a[k] == b[k])
  }

  lemma {:induction false} ParseSnoc(p: Parsed, lines: seq<string>, line: string)
    ensures ParseFrom(p, lines + [line]) == ParseLine(ParseFrom(p, lines), line)
    decreases |lines|
  {
    if lines == [] {
      assert lines + [line] == [line];
    } else {
      assert (lines + [line])[1..] == lines[1..] + [line];
      ParseSnoc(ParseLine(p, lines[0]), lines[1..], line);
    }
  }

  lemma NewLineParses(s: Setting, q: Parsed)
    requires Plain(s) && q.section == Lower(s.section)
    ensures ParseLine(q, NewLine(s)) == q.(table := q.table[Spot(s) := s.value])
  {
    NewLineSays(s);
  }

  /** The editor's state and out, beside what the parser makes of the old lines and of the new. */
  ghost predicate InStep(s: Setting, e: Edit, p: Parsed) {
    var q := ParseFrom(NOTHING, e.out);
    && q.section == p.section
    && (e.inSection <==> p.section == Lower(s.section))
    && (e.inSection || e.wrote ==> e.found)
    && (e.found && !e.inSection ==> e.wrote)
    && (e.wrote ==> Spot(s) in q.table && q.table[Spot(s)] == s.value)
    && SameElsewhere(p.table, q.table, Spot(s))
  }

  lemma HeaderInStep(s: Setting, e: Edit, p: Parsed, line: string)
    requires Plain(s) && InStep(s, e, p) && IsHeader(Trim(line))
    ensures InStep(s, EditLine(s, e, line), ParseLine(p, line))
  {
    hide Trim, HeaderName, IsHeader, KeyOf, ValueOf, NewLine, ParseFrom, Lower;
    if e.inSection && !e.wrote {
      ParseSnoc(NOTHING, e.out, NewLine(s));
      NewLineParses(s, ParseFrom(NOTHING, e.out));
      assert e.out + [NewLine(s)] + [line] == e.out + ([NewLine(s)] + [line]);
      ParseSnoc(NOTHING, e.out + [NewLine(s)], line);
    } else {
      assert e.out + [] + [line] == e.out + [line];
      ParseSnoc(NOTHING, e.out, line);
    }
    HeaderNotNote(Trim(line));
  }

  lemma HeaderNotNote(t: string)
    requires IsHeader(t)
    ensures !IsNote(t)
  {
  }

  lemma EntryInStep(s: Setting, e: Edit, p: Parsed, line: string)
    requires Plain(s) && InStep(s, e, p) && !IsHeader(Trim(line)) && !(e.inSection && Names(s, Trim(line)))
    ensures InStep(s, EditLine(s, e, line), ParseLine(p, line))
  {
    hide Trim, HeaderName, IsHeader, IsNote, KeyOf, ValueOf, NewLine, ParseFrom, Lower;
    ParseSnoc(NOTHING, e.out, line);
  }

  lemma MatchInStep(s: Setting, e: Edit, p: Parsed, line: string)
    requires Plain(s) && InStep(s, e, p) && !IsHeader(Trim(line)) && e.inSection && Names(s, Trim(line))
    ensures InStep(s, EditLine(s, e, line), ParseLine(p, line))
  {
    hide Trim, HeaderName, IsHeader, IsNote, KeyOf, ValueOf, NewLine, ParseFrom, Lower;
    ParseSnoc(NOTHING, e.out, NewLine(s));
    NewLineParses(s, ParseFrom(NOTHING, e.out));
    NamedIsEntry(s, Trim(line));
  }

  lemma {:induction false} AllInStep(s: Setting, e: Edit, p: Parsed, lines: seq<string>)
    requires Plain(s) && InStep(s, e, p)
    ensures InStep(s, EditFrom(s, e, lines), ParseFrom(p, lines))
    decreases |lines|
  {
    hide InStep, EditLine, ParseLine, Plain, Names, IsHeader, Trim;
    if lines != [] {
      var line := lines[0];
      if IsHeader(Trim(line)) {
        HeaderInStep(s, e, p, line);
      } else if e.inSection && Names(s, Trim(line)) {
        MatchInStep(s, e, p, line);
      } else {
        EntryInStep(s, e, p, line);
      }
      AllInStep(s, EditLine(s, e, line), ParseLine(p, line), lines[1..]);
    }
  }

  /** The edited lines parse to the old table with the one entry set. */
  lemma LinesSet(s: Setting, lines: seq<string>)
    requires Plain(s)
    ensures var before := ParseFrom(NOTHING, lines).table;
      var after := ParseFrom(NOTHING, EditLines(s, lines)).table;
      Spot(s) in after && after[Spot(s)] == s.value && SameElsewhere(before, after, Spot(s))
  {
    AllInStep(s, UNTOUCHED, NOTHING, lines);
    var e := EditFrom(s, UNTOUCHED, lines);
    TailParses(s, e, ParseFrom(NOTHING, lines));
  }

  lemma TailParses(s: Setting, e: Edit, p: Parsed)
    requires Plain(s) && InStep(s, e, p)
    ensures var after := ParseFrom(NOTHING, e.out + Tail(s, e)).table;
      Spot(s) in after && after[Spot(s)] == s.value && SameElsewhere(p.table, after, Spot(s))
  {
    hide Trim, HeaderName, IsHeader, KeyOf, ValueOf, NewLine, Heading, Lower, ParseFrom, Plain;
    var q := ParseFrom(NOTHING, e.out);
    if e.inSection && !e.wrote {
      ParseSnoc(NOTHING, e.out, NewLine(s));
      NewLineParses(s, q);
    } else if !e.found {
      var blank := if e.out != [] && e.out[|e.out| - 1] != "" then [""] else [];
      BlankParses(e.out, blank);
      var o := e.out + blank;
      assert e.out + Tail(s, e) == o + [Heading(s)] + [NewLine(s)];
      ParseSnoc(NOTHING, o, Heading(s));
      ParseSnoc(NOTHING, o + [Heading(s)], NewLine(s));
      HeadingSays(s);
      HeaderNotNote(Heading(s));
      NewLineParses(s, ParseFrom(NOTHING, o + [Heading(s)]));
    } else {
      assert e.out + [] == e.out;
    }
  }

  lemma BlankParses(out: seq<string>, blank: seq<string>)
    requires blank == [] || blank == [""]
    ensures ParseFrom(NOTHING, out + blank) == ParseFrom(NOTHING, out)
  {
    if blank == [] {
      assert out + blank == out;
    } else {
      ParseSnoc(NOTHING, out, "");
    }
  }

  // ---------- What else the editor changes ----------

  /** The lines with those that set the key in its section replaced, by the headers alone. */
  function WithReplaced(s: Setting, inSection: bool, lines: seq<string>): seq<string>
    decreases |lines|
  {
    if lines == [] then []
    else
      var t := Trim(lines[0]);
      var here := if IsHeader(t) then HeaderName(t) == Lower(s.section) else inSection;
      [if !IsHeader(t) && inSection && Names(s, t) then NewLine(s) else lines[0]] + WithReplaced(s, here, lines[1..])
  }

  /** out is lines with ins put in at k. */
  predicate Inserted(lines: seq<string>, k: nat, ins: seq<string>, out: seq<string>) {
    k <= |lines| && out == lines[..k] + ins + lines[k..]
  }

  lemma InsertedAfter(lines: seq<string>, k: nat, ins: seq<string>, out: seq<string>, before: seq<string>)
    requires Inserted(lines, k, ins, out)
    ensures Inserted(before + lines, |before| + k, ins, before + out)
  {
    assert (before + lines)[..|before| + k] == before + lines[..k];
    assert (before + lines)[|before| + k..] == lines[k..];
    assert before + (lines[..k] + ins + lines[k..]) == (before + lines[..k]) + ins + lines[k..];
  }

  lemma InsertedFirst(ins: seq<string>, lines: seq<string>)
    ensures Inserted(lines, 0, ins, ins + lines)
  {
    assert lines[..0] == [] && lines[0..] == lines;
  }

  /** One pass puts the new line in at most once, where the section ends without the key. */
  lemma {:induction false} EditInserts(s: Setting, e: Edit, lines: seq<string>) returns (k: nat, ins: seq<string>)
    requires e.inSection ==> e.found
    ensures var r := EditFrom(s, e, lines);
      && Inserted(e.out + WithReplaced(s, e.inSection, lines), k, ins, r.out)
      && (ins == [] || (ins == [NewLine(s)] && r.wrote && r.found && !e.wrote))
      && (e.wrote ==> r.wrote) && (e.found ==> r.found) && (r.inSection ==> r.found)
    decreases |lines|
  {
    hide Trim, IsHeader, HeaderName, KeyOf, NewLine, Heading, Lower, Names;
    if lines == [] {
      k, ins := 0, [];
      assert e.out + [] == e.out;
      InsertedFirst([], e.out);
    } else {
      var next := EditLine(s, e, lines[0]);
      k, ins := EditInserts(s, next, lines[1..]);
      var first := WithReplaced(s, e.inSection, lines)[0];
      var rest := WithReplaced(s, next.inSection, lines[1..]);
      assert WithReplaced(s, e.inSection, lines) == [first] + rest;
      if next.out == e.out + [first] {
        assert e.out + ([first] + rest) == next.out + rest;
      } else {
        assert next.out == e.out + [NewLine(s)] + [first] && ins == [];
        NothingInserted(next.out + rest, k, EditFrom(s, next, lines[1..]).out);
        InsertedHere(e.out, [NewLine(s)], first, rest);
        k, ins := |e.out|, [NewLine(s)];
      }
    }
  }

  lemma NothingInserted(lines: seq<string>, k: nat, out: seq<string>)
    requires Inserted(lines, k, [], out)
    ensures out == lines
  {
    assert lines[..k] + [] + lines[k..] == lines;
  }

  lemma InsertedHere(before: seq<string>, ins: seq<string>, first: string, rest: seq<string>)
    ensures Inserted(before + ([first] + rest), |before|, ins, before + ins + [first] + rest)
  {
    InsertedFirst(ins, [first] + rest);
    InsertedAfter([first] + rest, 0, ins, ins + ([first] + rest), before);
    assert before + (ins + ([first] + rest)) == before + ins + [first] + rest;
  }

  /** The editor keeps every line that it does not replace, notes and blank lines included, in their order, and puts in
      at most one line, or one section at the end. */
  lemma KeepsOtherLines(s: Setting, lines: seq<string>)
    ensures exists k, ins ::
      && Inserted(WithReplaced(s, false, lines), k, ins, EditLines(s, lines))
      && ins in {[], [NewLine(s)], [Heading(s), NewLine(s)], ["", Heading(s), NewLine(s)]}
  {
    hide Trim, IsHeader, HeaderName, KeyOf, NewLine, Heading, Lower, Names, EditFrom, WithReplaced, Tail, Inserted;
    var k, ins := EditInserts(s, UNTOUCHED, lines);
    var r := WithReplaced(s, false, lines);
    assert UNTOUCHED.out + r == r;
    var e := EditFrom(s, UNTOUCHED, lines);
    if Tail(s, e) == [] {
      assert e.out + [] == e.out == EditLines(s, lines);
      assert Inserted(r, k, ins, EditLines(s, lines));
    } else {
      TailIs(s, e);
      NothingInserted(r, k, e.out);
      InsertedLast(r, Tail(s, e));
      assert Inserted(r, |r|, Tail(s, e), EditLines(s, lines));
    }
  }

  lemma InsertedLast(lines: seq<string>, ins: seq<string>)
    ensures Inserted(lines, |lines|, ins, lines + ins)
  {
    assert lines[..|lines|] == lines && lines[|lines|..] == [];
    assert lines + ins + [] == lines + ins;
  }

  lemma TailIs(s: Setting, e: Edit)
    ensures Tail(s, e) != [] ==> (e.inSection && !e.wrote) || !e.found
    ensures Tail(s, e) in {[], [NewLine(s)], [Heading(s), NewLine(s)], ["", Heading(s), NewLine(s)]}
  {
    hide NewLine, Heading;
    assert [""] + [Heading(s), NewLine(s)] == ["", Heading(s), NewLine(s)];
    assert [] + [Heading(s), NewLine(s)] == [Heading(s), NewLine(s)];
  }

  // ---------- Writing and reading the text ----------

  ghost predicate LinesOk(lines: seq<string>) {
    forall line :: line in lines ==> OneLine(line)
  }

  lemma SplitFirst(line: string, rest: string)
    requires OneLine(line)
    ensures Split(line + ['\n'] + rest) == [line] + Split(rest)
  {
    var text := line + ['\n'] + rest;
    assert text[|line|] == '\n' && text[..|line|] == line && text[|line| + 1..] == rest;
    assert forall i :: 0 <= i < |line| ==> text[i] == line[i] && line[i] in line;
    assert LineEnd(text) == |line|;
  }

  lemma {:induction false} SplitRender(lines: seq<string>)
    requires LinesOk(lines)
    ensures Split(Render(lines)) == lines
  {
    hide Split, OneLine;
    if lines == [] {
      NoLines();
    } else {
      assert lines[0] in lines;
      SplitRender(lines[1..]);
      SplitFirst(lines[0], Render(lines[1..]));
      assert lines == [lines[0]] + lines[1..];
    }
  }

  lemma NoLines()
    ensures Split("") == []
  {
  }

  lemma {:induction false} SplitOk(text: string)
    ensures LinesOk(Split(text))
    decreases |text|
  {
    if text != [] {
      SplitOk(text[Beyond(text)..]);
      var line := text[..LineEnd(text)];
      assert forall i :: 0 <= i < |line| ==> line[i] != '\n';
    }
  }

  lemma ReadOk(text: string)
    ensures LinesOk(ReadLines(text))
  {
    SplitOk(text);
    forall line | line in ReadLines(text) ensures OneLine(line) {
      var i :| 0 <= i < |ReadLines(text)| && ReadLines(text)[i] == line;
      assert Split(text)[i] in Split(text);
    }
  }

  lemma {:induction false} EditOk(s: Setting, e: Edit, lines: seq<string>)
    requires Plain(s) && LinesOk(lines) && LinesOk(e.out)
    ensures LinesOk(EditFrom(s, e, lines).out)
    decreases |lines|
  {
    hide Trim, IsHeader, HeaderName, KeyOf, NewLine, Heading, Lower, OneLine;
    if lines != [] {
      NewLineSays(s);
      assert lines[0] in lines;
      EditOk(s, EditLine(s, e, lines[0]), lines[1..]);
    }
  }

  lemma EditLinesOk(s: Setting, lines: seq<string>)
    requires Plain(s) && LinesOk(lines)
    ensures LinesOk(EditLines(s, lines))
  {
    hide Trim, IsHeader, HeaderName, KeyOf, NewLine, Heading, Lower, EditFrom;
    EditOk(s, UNTOUCHED, lines);
    NewLineSays(s);
    HeadingSays(s);
  }

  /** One carriage return at the end of a line is white space to the parser anyway. */
  lemma StripTrim(line: string)
    ensures Trim(StripCr(line)) == Trim(line)
  {
    hide Trim;
    if line != [] && line[|line| - 1] == '\r' {
      TrimSpaceAtEnd(line[..|line| - 1], '\r');
      assert line == line[..|line| - 1] + ['\r'];
    }
  }

  lemma {:induction false} TrimSpaceAtEnd(s: string, c: char)
    requires IsSpace(c)
    ensures Trim(s + [c]) == Trim(s)
  {
    if s == [] {
      assert s + [c] == [c];
    } else if IsSpace(s[0]) {
      assert (s + [c])[1..] == s[1..] + [c];
      TrimSpaceAtEnd(s[1..], c);
    } else {
      assert (s + [c])[..|s|] == s;
    }
  }

  lemma StripLine(p: Parsed, line: string)
    ensures ParseLine(p, StripCr(line)) == ParseLine(p, line)
  {
    hide Trim, StripCr;
    StripTrim(line);
  }

  lemma {:induction false} StripParses(p: Parsed, lines: seq<string>)
    ensures ParseFrom(p, Map(StripCr, lines)) == ParseFrom(p, lines)
    decreases |lines|
  {
    hide ParseLine;
    if lines != [] {
      StripLine(p, lines[0]);
      assert Map(StripCr, lines)[1..] == Map(StripCr, lines[1..]);
      StripParses(ParseLine(p, lines[0]), lines[1..]);
    }
  }

  /** After a proper setting is written, looking it up gives its value, and every other lookup gives what it gave
      before, also with repeated sections and repeated keys. */
  lemma SetThenGet(text: string, s: Setting)
    requires Plain(s)
    ensures var before, after := Parse(text), Parse(SetValue(s, text));
      && (forall d :: Get(after, Lower(s.section), Lower(s.key), d) == s.value)
      && (forall section, key, d :: (section, key) != (Lower(s.section), Lower(s.key)) ==>
            Get(after, section, key, d) == Get(before, section, key, d))
  {
    var lines := ReadLines(text);
    var out := EditLines(s, lines);
    ReadOk(text);
    EditLinesOk(s, lines);
    SplitRender(out);
    StripParses(NOTHING, out);
    LinesSet(s, lines);
  }

  // ---------- Setting it again ----------

  /** The second pass over what the first has written, with carriage returns stripped again on the way. */
  ghost predicate Again(s: Setting, e: Edit, f: Edit) {
    f == e.(out := Map(StripCr, e.out))
  }

  lemma {:induction false} EditSnoc(s: Setting, e: Edit, lines: seq<string>, line: string)
    ensures EditFrom(s, e, lines + [line]) == EditLine(s, EditFrom(s, e, lines), line)
    decreases |lines|
  {
    if lines == [] {
      assert lines + [line] == [line];
    } else {
      assert (lines + [line])[1..] == lines[1..] + [line];
      EditSnoc(s, EditLine(s, e, lines[0]), lines[1..], line);
    }
  }

  function Repeat(s: Setting, out: seq<string>): Edit {
    EditFrom(s, UNTOUCHED, Map(StripCr, out))
  }

  lemma RepeatSnoc(s: Setting, out: seq<string>, line: string)
    ensures Repeat(s, out + [line]) == EditLine(s, Repeat(s, out), StripCr(line))
  {
    MapSnoc(StripCr, out, line);
    EditSnoc(s, UNTOUCHED, Map(StripCr, out), StripCr(line));
  }

  lemma AgainLine(s: Setting, e: Edit, line: string)
    requires Plain(s) && Again(s, e, Repeat(s, e.out))
    ensures Again(s, EditLine(s, e, line), Repeat(s, EditLine(s, e, line).out))
  {
    hide Trim, HeaderName, IsHeader, KeyOf, NewLine, Repeat, Names;
    var t := Trim(line);
    NewLineSays(s);
    StripTrim(line);
    RepeatSnoc(s, e.out, line);
    RepeatSnoc(s, e.out, NewLine(s));
    MapSnoc(StripCr, e.out, line);
    MapSnoc(StripCr, e.out, NewLine(s));
    if IsHeader(t) && e.inSection && !e.wrote {
      RepeatSnoc(s, e.out + [NewLine(s)], line);
      MapSnoc(StripCr, e.out + [NewLine(s)], line);
      assert e.out + [NewLine(s)] + [line] == EditLine(s, e, line).out;
    } else if IsHeader(t) {
      assert e.out + [] + [line] == e.out + [line];
    }
  }

  lemma {:induction false} AgainLines(s: Setting, e: Edit, lines: seq<string>)
    requires Plain(s) && Again(s, e, Repeat(s, e.out))
    ensures var r := EditFrom(s, e, lines); Again(s, r, Repeat(s, r.out))
    decreases |lines|
  {
    hide Again, Repeat, EditLine;
    if lines != [] {
      AgainLine(s, e, lines[0]);
      AgainLines(s, EditLine(s, e, lines[0]), lines[1..]);
    }
  }

  lemma AgainAll(s: Setting, lines: seq<string>)
    requires Plain(s)
    ensures var out := EditLines(s, lines);
      EditLines(s, Map(StripCr, out)) == Map(StripCr, out)
  {
    hide EditLine, NewLine, Heading, Again;
    AgainStart(s);
    AgainLines(s, UNTOUCHED, lines);
    FoundFirst(s, UNTOUCHED, lines);
    AgainTail(s, EditFrom(s, UNTOUCHED, lines));
  }

  lemma AgainStart(s: Setting)
    ensures Again(s, UNTOUCHED, Repeat(s, UNTOUCHED.out))
  {
    assert Map(StripCr, []) == [];
  }

  lemma AgainTail(s: Setting, e: Edit)
    requires Plain(s) && Again(s, e, Repeat(s, e.out)) && (e.inSection ==> e.found)
    ensures var out := e.out + Tail(s, e);
      EditLines(s, Map(StripCr, out)) == Map(StripCr, out)
  {
    hide Trim, HeaderName, IsHeader, KeyOf, NewLine, Heading, EditFrom, Names, StripCr, Map;
    NewLineSays(s);
    HeadingSays(s);
    if e.inSection && !e.wrote {
      RepeatSnoc(s, e.out, NewLine(s));
      MapSnoc(StripCr, e.out, NewLine(s));
    } else if !e.found {
      var blank := if e.out != [] && e.out[|e.out| - 1] != "" then [""] else [];
      AgainBlank(s, e, blank);
      var o := e.out + blank;
      assert e.out + Tail(s, e) == o + [Heading(s)] + [NewLine(s)];
      RepeatSnoc(s, o, Heading(s));
      MapSnoc(StripCr, o, Heading(s));
      RepeatSnoc(s, o + [Heading(s)], NewLine(s));
      MapSnoc(StripCr, o + [Heading(s)], NewLine(s));
      NoTail(s, Repeat(s, o + [Heading(s)] + [NewLine(s)]));
    } else {
      assert e.out + [] == e.out;
    }
  }

  lemma NoTail(s: Setting, e: Edit)
    requires e.found && (e.inSection ==> e.wrote)
    ensures e.out + Tail(s, e) == e.out
  {
  }

  lemma AgainBlank(s: Setting, e: Edit, blank: seq<string>)
    requires Again(s, e, Repeat(s, e.out)) && !e.found && !e.inSection && (blank == [] || blank == [""])
    ensures Again(s, e.(out := e.out + blank), Repeat(s, e.out + blank))
  {
    hide Repeat, Map;
    if blank == [] {
      assert e.out + blank == e.out;
    } else {
      RepeatSnoc(s, e.out, "");
      MapSnoc(StripCr, e.out, "");
    }
  }

  predicate EndsInReturn(line: string) {
    line != [] && line[|line| - 1] == '\r'
  }

  /** The line names the key, in the section as the parser sees it, and so is one that gets replaced. */
  predicate Replaced(s: Setting, lines: seq<string>, i: nat)
    requires i < |lines|
  {
    && !IsHeader(Trim(lines[i])) && Names(s, Trim(lines[i]))
    && ParseFrom(NOTHING, lines[..i]).section == Lower(s.section)
  }

  /** Every line that still ends in a carriage return is one that gets replaced. */
  predicate NoReturnKept(s: Setting, lines: seq<string>) {
    forall i :: 0 <= i < |lines| && EndsInReturn(lines[i]) ==> Replaced(s, lines, i)
  }

  predicate NoReturns(lines: seq<string>) {
    forall i :: 0 <= i < |lines| ==> !EndsInReturn(lines[i])
  }

  lemma NoReturnsSnoc(lines: seq<string>, line: string)
    ensures NoReturns(lines + [line]) <==> NoReturns(lines) && !EndsInReturn(line)
  {
    if NoReturns(lines + [line]) {
      assert forall i :: 0 <= i < |lines| ==> (lines + [line])[i] == lines[i];
      assert (lines + [line])[|lines|] == line;
    }
  }

  lemma NoReturnKeptSnoc(s: Setting, lines: seq<string>)
    requires lines != []
    ensures var n := |lines| - 1;
      NoReturnKept(s, lines) <==>
        NoReturnKept(s, lines[..n]) && (EndsInReturn(lines[n]) ==> Replaced(s, lines, n))
  {
    hide EndsInReturn, IsHeader, Trim, Names, ParseFrom, Lower;
    var n := |lines| - 1;
    forall i | 0 <= i < n ensures lines[..n][i] == lines[i] && (Replaced(s, lines[..n], i) <==> Replaced(s, lines, i)) {
      assert lines[..n][..i] == lines[..i];
    }
  }

  /** One line more: the editor keeps it, with its ending, or replaces it. */
  lemma EditReturns(s: Setting, e: Edit, line: string)
    requires Plain(s)
    ensures NoReturns(EditLine(s, e, line).out) <==>
      NoReturns(e.out)
      && (EndsInReturn(line) ==> !IsHeader(Trim(line)) && e.inSection && Names(s, Trim(line)))
  {
    hide Trim, HeaderName, IsHeader, KeyOf, NewLine, Names, NoReturns;
    NewLineSays(s);
    NoReturnsSnoc(e.out, line);
    NoReturnsSnoc(e.out, NewLine(s));
    NoReturnsSnoc(e.out + [NewLine(s)], line);
    if IsHeader(Trim(line)) {
      assert e.out + [] + [line] == e.out + [line];
    }
  }

  lemma {:induction false} WrittenReturns(s: Setting, lines: seq<string>)
    requires Plain(s)
    ensures NoReturns(EditFrom(s, UNTOUCHED, lines).out) <==> NoReturnKept(s, lines)
  {
    hide EditLine, NoReturns, NoReturnKept, Plain, EndsInReturn, Trim, IsHeader, Names, ParseFrom, Lower, InStep;
    if lines == [] {
      NothingReturns(s);
    } else {
      var n := |lines| - 1;
      var e := EditFrom(s, UNTOUCHED, lines[..n]);
      assert lines == lines[..n] + [lines[n]];
      EditSnoc(s, UNTOUCHED, lines[..n], lines[n]);
      WrittenReturns(s, lines[..n]);
      EditReturns(s, e, lines[n]);
      InSectionIs(s, lines[..n]);
      NoReturnKeptSnoc(s, lines);
    }
  }

  lemma NothingReturns(s: Setting)
    ensures NoReturns([]) && NoReturnKept(s, [])
  {
  }

  /** The editor is in the section exactly when the parser is. */
  lemma InSectionIs(s: Setting, lines: seq<string>)
    requires Plain(s)
    ensures EditFrom(s, UNTOUCHED, lines).inSection <==> ParseFrom(NOTHING, lines).section == Lower(s.section)
  {
    AllInStep(s, UNTOUCHED, NOTHING, lines);
  }

  lemma StripSame(line: string)
    ensures StripCr(line) == line <==> !EndsInReturn(line)
  {
  }

  lemma AddedLinesEnd(s: Setting)
    requires Plain(s)
    ensures !EndsInReturn(NewLine(s)) && !EndsInReturn(Heading(s)) && !EndsInReturn("")
  {
    hide NewLine, Heading, Plain, Trim, KeyOf, ValueOf, IsHeader, HeaderName, IsNote, Names, Lower, StripCr;
    NewLineSays(s);
    HeadingSays(s);
    StripSame(NewLine(s));
    StripSame(Heading(s));
  }

  lemma TailReturns(s: Setting, e: Edit)
    requires Plain(s)
    ensures NoReturns(e.out + Tail(s, e)) <==> NoReturns(e.out)
  {
    hide NewLine, Heading, NoReturns, EndsInReturn, Plain;
    AddedLinesEnd(s);
    if e.inSection && !e.wrote {
      NoReturnsSnoc(e.out, NewLine(s));
    } else if !e.found {
      var blank := if e.out != [] && e.out[|e.out| - 1] != "" then [""] else [];
      NoReturnsSnoc(e.out, "");
      assert e.out + [] == e.out;
      NoReturnsSnoc(e.out + blank, Heading(s));
      NoReturnsSnoc(e.out + blank + [Heading(s)], NewLine(s));
      assert e.out + (blank + [Heading(s), NewLine(s)]) == e.out + blank + [Heading(s)] + [NewLine(s)];
    } else {
      assert e.out + [] == e.out;
    }
  }

  /** Writing the same setting again strips one more carriage return from each line that was kept and still ends in
      one. It changes nothing exactly when every line of the file that ends in one, as the editor reads it, is a line
      that the first call replaced. */
  lemma SetTwice(text: string, s: Setting)
    requires Plain(s)
    ensures var once := SetValue(s, text);
      && SetValue(s, once) == Render(Map(StripCr, EditLines(s, ReadLines(text))))
      && (SetValue(s, once) == once <==> NoReturnKept(s, ReadLines(text)))
  {
    hide EditLines, StripCr, Plain, OneLine, NoReturns, NoReturnKept;
    var lines := ReadLines(text);
    var written := EditLines(s, lines);
    ReadOk(text);
    EditLinesOk(s, lines);
    SplitRender(written);
    AgainAll(s, lines);
    StripOk(written);
    SplitRender(Map(StripCr, written));
    StripChanges(written);
    WrittenAll(s, lines);
  }

  lemma WrittenAll(s: Setting, lines: seq<string>)
    requires Plain(s)
    ensures NoReturns(EditLines(s, lines)) <==> NoReturnKept(s, lines)
  {
    hide EditFrom, NoReturns, NoReturnKept, Tail, Plain;
    WrittenReturns(s, lines);
    TailReturns(s, EditFrom(s, UNTOUCHED, lines));
  }

  lemma StripChanges(lines: seq<string>)
    ensures Map(StripCr, lines) == lines <==> NoReturns(lines)
  {
    if Map(StripCr, lines) == lines {
      forall i | 0 <= i < |lines| ensures !EndsInReturn(lines[i]) {
        assert Map(StripCr, lines)[i] == StripCr(lines[i]);
      }
    }
  }

  predicate EndsInTwo(line: string) {
    |line| > 1 && line[|line| - 1] == line[|line| - 2] == '\r'
  }

  lemma StrippedOnce(line: string)
    ensures EndsInReturn(StripCr(line)) <==> EndsInTwo(line)
  {
  }

  /** In particular, a file without a line that ends in two carriage returns is never changed again. */
  lemma OrdinaryFileSettles(text: string, s: Setting)
    requires Plain(s)
    requires forall line :: line in Split(text) ==> !EndsInTwo(line)
    ensures SetValue(s, SetValue(s, text)) == SetValue(s, text)
  {
    hide Plain, Replaced, EndsInReturn, EndsInTwo, StripCr, SetValue, Split;
    SetTwice(text, s);
    forall i | 0 <= i < |ReadLines(text)| ensures !EndsInReturn(ReadLines(text)[i]) {
      assert Split(text)[i] in Split(text);
      StrippedOnce(Split(text)[i]);
    }
  }

  lemma StripOk(lines: seq<string>)
    requires LinesOk(lines)
    ensures LinesOk(Map(StripCr, lines))
  {
    forall line | line in Map(StripCr, lines) ensures OneLine(line) {
      var i :| 0 <= i < |lines| && Map(StripCr, lines)[i] == line;
      assert lines[i] in lines;
      assert OneLine(lines[i]);
    }
  }

  /** A file of one line that ends in two carriage returns changes again. */
  lemma DoubleReturnChanges(s: Setting)
    requires Plain(s)
    ensures var once := SetValue(s, Render(["\r\r"]));
      SetValue(s, once) != once
  {
    hide Split, Plain, Names;
    var text := Render(["\r\r"]);
    SplitRender(["\r\r"]);
    assert StripCr("\r\r") == "\r";
    assert ReadLines(text) == ["\r"];
    SetTwice(text, s);
    BlankNamesNothing(s, "\r");
    assert EndsInReturn(ReadLines(text)[0]) && !Replaced(s, ReadLines(text), 0);
  }

  lemma BlankNamesNothing(s: Setting, line: string)
    requires Trim(line) == ""
    ensures !Names(s, Trim(line))
  {
  }
}
