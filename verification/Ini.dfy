/** The settings file: `parse_ini` reads it, `set_ini_value` edits it in place.
    The two walk the same lines with different bookkeeping; the theorem of this
    module is that an edit changes exactly the one entry it names. */
module Ini {
  import opened Hits

  // ---- characters and trimming -------------------------------------------------

  predicate Trimmed(s: string) {
    s != [] ==> !IsSpace(s[0]) && !IsSpace(s[|s| - 1])
  }

  predicate Blank(s: string) {
    forall i :: 0 <= i < |s| ==> IsSpace(s[i])
  }

  lemma {:induction false} TrimLeftSkipsBlank(l: string, m: string)
    requires Blank(l)
    requires m == [] || !IsSpace(m[0])
    ensures TrimLeft(l + m) == m
  {
    if l == [] {
      assert l + m == m;
    } else {
      assert (l + m)[1..] == l[1..] + m;
      TrimLeftSkipsBlank(l[1..], m);
    }
  }

  lemma {:induction false} TrimRightSkipsBlank(m: string, r: string)
    requires Blank(r)
    requires m == [] || !IsSpace(m[|m| - 1])
    ensures TrimRight(m + r) == m
  {
    if r == [] {
      assert m + r == m;
    } else {
      assert (m + r)[..|m + r| - 1] == m + r[..|r| - 1];
      TrimRightSkipsBlank(m, r[..|r| - 1]);
    }
  }

  /** Trimming is determined by any split into blanks, a trimmed core and blanks. */
  lemma TrimCore(l: string, m: string, r: string)
    requires Blank(l) && Blank(r) && Trimmed(m)
    ensures Trim(l + m + r) == m
  {
    if m == [] {
      assert l + m + r == (l + r) + [];
      TrimLeftSkipsBlank(l + r, []);
    } else {
      assert l + m + r == l + (m + r);
      TrimLeftSkipsBlank(l, m + r);
      TrimRightSkipsBlank(m, r);
    }
  }

  lemma {:induction false} TrimLeftSplit(s: string) returns (l: string)
    ensures Blank(l) && s == l + TrimLeft(s)
    ensures TrimLeft(s) != [] ==> !IsSpace(TrimLeft(s)[0])
  {
    if s != [] && IsSpace(s[0]) {
      var l' := TrimLeftSplit(s[1..]);
      l := [s[0]] + l';
    } else {
      l := [];
    }
  }

  lemma {:induction false} TrimRightSplit(s: string) returns (r: string)
    ensures Blank(r) && s == TrimRight(s) + r
    ensures TrimRight(s) != [] ==> !IsSpace(TrimRight(s)[|TrimRight(s)| - 1])
  {
    if s != [] && IsSpace(s[|s| - 1]) {
      var r' := TrimRightSplit(s[..|s| - 1]);
      r := r' + [s[|s| - 1]];
    } else {
      r := [];
    }
  }

  lemma TrimSplit(s: string) returns (l: string, r: string)
    ensures Blank(l) && Blank(r) && s == l + Trim(s) + r && Trimmed(Trim(s))
  {
    l := TrimLeftSplit(s);
    r := TrimRightSplit(TrimLeft(s));
    assert s == l + (Trim(s) + r);
  }

  /** `std::string::find` of one character; |s| stands for npos. */
  function Find(s: string, c: char): (i: nat)
    ensures i <= |s|
    ensures i < |s| ==> s[i] == c
    ensures forall j :: 0 <= j < i ==> s[j] != c
  {
    if s == [] then 0 else if s[0] == c then 0 else 1 + Find(s[1..], c)
  }

  lemma FindIs(s: string, c: char, n: nat)
    requires n < |s| && s[n] == c
    requires forall j :: 0 <= j < n ==> s[j] != c
    ensures Find(s, c) == n
  {
    if Find(s, c) < n {
      assert false;
    }
  }

  /** `std::string::find` of " #"; |s| stands for npos. */
  function FindInlineComment(s: string): (i: nat)
    ensures i <= |s|
    ensures i < |s| ==> i + 1 < |s| && s[i] == ' ' && s[i + 1] == '#'
    ensures forall j :: 0 <= j < i && j + 1 < |s| ==> !(s[j] == ' ' && s[j + 1] == '#')
  {
    if |s| < 2 then |s|
    else if s[0] == ' ' && s[1] == '#' then 0
    else 1 + FindInlineComment(s[1..])
  }

  // ---- lines of a text file ----------------------------------------------------

  /** What successive `std::getline` calls return. */
  function SplitLines(text: string): seq<string>
    decreases |text|
  {
    if text == [] then []
    else
      var i := Find(text, '\n');
      if i == |text| then [text] else [text[..i]] + SplitLines(text[i + 1..])
  }

  function JoinLines(lines: seq<string>): string {
    if lines == [] then [] else lines[0] + "\n" + JoinLines(lines[1..])
  }

  predicate OneLine(s: string) {
    '\n' !in s
  }

  /** Writing lines and reading them back is the identity. */
  lemma {:induction false} SplitJoin(lines: seq<string>)
    requires forall l :: l in lines ==> OneLine(l)
    ensures SplitLines(JoinLines(lines)) == lines
  {
    if lines != [] {
      hide Find, OneLine;
      FirstLine(lines[0], JoinLines(lines[1..]));
      SplitJoin(lines[1..]);
    }
  }

  lemma FirstLine(line: string, rest: string)
    requires OneLine(line)
    ensures var text := line + "\n" + rest;
            Find(text, '\n') == |line| && text[..|line|] == line && text[|line| + 1..] == rest
  {
    FindIs(line + "\n" + rest, '\n', |line|);
  }

  lemma {:induction false} SplitLinesOneLine(text: string)
    ensures forall l :: l in SplitLines(text) ==> OneLine(l)
    decreases |text|
  {
    if text != [] {
      var i := Find(text, '\n');
      if i < |text| {
        SplitLinesOneLine(text[i + 1..]);
      }
    }
  }

  /** Drops one trailing carriage return. */
  function Chomp(line: string): string {
    if line != [] && line[|line| - 1] == '\r' then line[..|line| - 1] else line
  }

  lemma TrimChomp(line: string)
    ensures Trim(Chomp(line)) == Trim(line)
  {
    if Chomp(line) != line {
      var l, r := TrimSplit(Chomp(line));
      assert line == l + Trim(Chomp(line)) + (r + "\r");
      TrimCore(l, Trim(Chomp(line)), r + "\r");
    }
  }

  // ---- parse_ini ---------------------------------------------------------------

  type Entry = (string, string)
  type Table = map<Entry, string>

  datatype Line = Skip | Header(name: string) | Pair(key: string, value: string)

  predicate IsHeader(t: string) {
    |t| >= 2 && t[0] == '[' && t[|t| - 1] == ']'
  }

  function HeaderName(t: string): string
    requires IsHeader(t)
  {
    ToLower(Trim(t[1..|t| - 1]))
  }

  function StripInlineComment(value: string): string {
    var h := FindInlineComment(value);
    if h < |value| then Trim(value[..h]) else value
  }

  function Classify(line: string): Line {
    var t := Trim(Chomp(line));
    if t == [] || t[0] == '#' || t[0] == ';' then Skip
    else if IsHeader(t) then Header(HeaderName(t))
    else
      var eq := Find(t, '=');
      if eq == |t| then Skip
      else Pair(ToLower(Trim(t[..eq])), StripInlineComment(Trim(t[eq + 1..])))
  }

  datatype Parsed = Parsed(section: string, table: Table)

  function Apply(p: Parsed, line: Line): Parsed {
    match line
    case Skip => p
    case Header(name) => p.(section := name)
    case Pair(key, value) => p.(table := p.table[(p.section, key) := value])
  }

  function ParseStep(p: Parsed, line: string): Parsed {
    Apply(p, Classify(line))
  }

  function ParseLines(lines: seq<string>): Parsed {
    if lines == [] then Parsed("", map[])
    else ParseStep(ParseLines(lines[..|lines| - 1]), lines[|lines| - 1])
  }

  method ParseIni(text: string) returns (table: Table)
    ensures table == ParseLines(SplitLines(text)).table
  {
    hide SplitLines, Chomp, Trim, ToLower, FindInlineComment;
    var lines := SplitLines(text);
    var section := "";
    table := map[];
    for i := 0 to |lines|
      invariant ParseLines(lines[..i]) == Parsed(section, table)
    {
      assert lines[..i + 1][..i] == lines[..i];
      var line := Chomp(lines[i]);
      var t := Trim(line);
      if t == [] || t[0] == '#' || t[0] == ';' {
        continue;
      }
      if IsHeader(t) {
        section := ToLower(Trim(t[1..|t| - 1]));
        continue;
      }
      var eq := Find(t, '=');
      if eq == |t| {
        continue;
      }
      var key := ToLower(Trim(t[..eq]));
      var value := Trim(t[eq + 1..]);
      var hash := FindInlineComment(value);
      if hash < |value| {
        value := Trim(value[..hash]);
      }
      table := table[(section, key) := value];
    }
    assert lines[..|lines|] == lines;
  }

  /** `get`: an absent or empty entry reads as the default. */
  function Get(table: Table, section: string, key: string, default: string): string {
    if (section, key) in table && table[(section, key)] != [] then table[(section, key)] else default
  }

  // ---- set_ini_value -----------------------------------------------------------

  datatype Edit = Edit(inSec: bool, wrote: bool, found: bool, out: seq<string>)

  function PairLine(key: string, value: string): string {
    key + " = " + value
  }

  predicate NamesKey(t: string, key: string) {
    var eq := Find(t, '=');
    eq < |t| && ToLower(Trim(t[..eq])) == ToLower(key)
  }

  function EditStep(e: Edit, line: string, section: string, key: string, value: string): Edit {
    var t := Trim(line);
    if IsHeader(t) then
      var here := HeaderName(t) == ToLower(section);
      if e.inSec && !e.wrote then
        Edit(here, true, e.found || here, e.out + [PairLine(key, value)] + [line])
      else
        Edit(here, e.wrote, e.found || here, e.out + [line])
    else if e.inSec && NamesKey(t, key) then
      e.(wrote := true, out := e.out + [PairLine(key, value)])
    else
      e.(out := e.out + [line])
  }

  function EditLines(lines: seq<string>, section: string, key: string, value: string): Edit {
    if lines == [] then Edit(false, false, false, [])
    else
      EditStep(EditLines(lines[..|lines| - 1], section, key, value),
               Chomp(lines[|lines| - 1]), section, key, value)
  }

  lemma EditPrefix(lines: seq<string>, i: nat, section: string, key: string, value: string)
    requires i < |lines|
    ensures EditLines(lines[..i + 1], section, key, value)
            == EditStep(EditLines(lines[..i], section, key, value), Chomp(lines[i]), section, key, value)
  {
    assert lines[..i + 1][..i] == lines[..i];
  }

  function EditEnd(e: Edit, section: string, key: string, value: string): seq<string> {
    var body := if e.inSec && !e.wrote then e.out + [PairLine(key, value)] else e.out;
    if e.found then body
    else
      body + (if body != [] && body[|body| - 1] != [] then [""] else [])
      + ["[" + section + "]", PairLine(key, value)]
  }

  method SetIniValue(text: string, section: string, key: string, value: string) returns (written: string)
    ensures written == JoinLines(EditEnd(EditLines(SplitLines(text), section, key, value), section, key, value))
  {
    hide SplitLines, JoinLines, Chomp, Trim, ToLower, PairLine;
    var lines := SplitLines(text);
    var inSec, wrote, found := false, false, false;
    var out: seq<string> := [];
    for i := 0 to |lines|
      invariant EditLines(lines[..i], section, key, value) == Edit(inSec, wrote, found, out)
    {
      EditPrefix(lines, i, section, key, value);
      var line := Chomp(lines[i]);
      var t := Trim(line);
      if IsHeader(t) {
        if inSec && !wrote {
          out := out + [PairLine(key, value)];
          wrote := true;
        }
        inSec := ToLower(Trim(t[1..|t| - 1])) == ToLower(section);
        if inSec {
          found := true;
        }
        out := out + [line];
        continue;
      }
      if inSec {
        var eq := Find(t, '=');
        if eq < |t| {
          var k := ToLower(Trim(t[..eq]));
          if k == ToLower(key) {
            out := out + [PairLine(key, value)];
            wrote := true;
            continue;
          }
        }
      }
      out := out + [line];
    }
    assert lines[..|lines|] == lines;
    ghost var e := Edit(inSec, wrote, found, out);
    if inSec && !wrote {
      out := out + [PairLine(key, value)];
      wrote := true;
    }
    if !found {
      if out != [] && out[|out| - 1] != [] {
        out := out + [""];
      }
      out := out + ["[" + section + "]"];
      out := out + [PairLine(key, value)];
    }
    assert out == EditEnd(e, section, key, value);
    written := WriteLines(out);
  }

  method WriteLines(out: seq<string>) returns (text: string)
    ensures text == JoinLines(out)
  {
    text := "";
    for i := 0 to |out|
      invariant i < |out| ==> text + JoinLines(out[i..]) == JoinLines(out)
      invariant i == |out| > 0 ==> text + "\n" == JoinLines(out)
      invariant out == [] ==> text == ""
    {
      assert text + JoinLines(out[i..]) == text + out[i] + "\n" + JoinLines(out[i + 1..]);
      text := text + out[i];
      if i + 1 < |out| {
        text := text + "\n";
      }
    }
    if out != [] {
      text := text + "\n";
    }
  }

  // ---- the round trip ----------------------------------------------------------

  /** The requests the two routines agree about. */
  predicate Settable(section: string, key: string, value: string) {
    && Trimmed(section) && OneLine(section)
    && Trimmed(key) && OneLine(key) && '=' !in key
    && (key != [] ==> key[0] != '#' && key[0] != ';')
    && (key != [] && key[0] == '[' && value != [] ==> value[|value| - 1] != ']')
    && Trimmed(value) && OneLine(value)
  }

  function PairLeft(key: string): string {
    if key == [] then "" else key + " "
  }

  function PairRight(value: string): string {
    if value == [] then "" else " " + value
  }

  lemma PairCoreTrimmed(key: string, value: string)
    requires Trimmed(key) && Trimmed(value)
    ensures Trimmed(PairLeft(key) + "=" + PairRight(value))
  {
    var t := PairLeft(key) + "=" + PairRight(value);
    assert t[0] == if key == [] then '=' else key[0];
    assert t[|t| - 1] == if value == [] then '=' else value[|value| - 1];
  }

  lemma Regroup(l: string, left: string, eq: string, right: string, r: string)
    ensures l + (left + eq + right) + r == (l + left) + eq + (right + r)
  {
  }

  lemma Unfold(key: string, gap: string, eq: string, value: string)
    ensures (key + gap) + eq + (gap + value) == key + (gap + eq + gap) + value
  {
  }

  lemma PairLineSplits(key: string, value: string, l: string, r: string)
    requires l == if key == [] then " " else ""
    requires r == if value == [] then " " else ""
    ensures PairLine(key, value) == l + (PairLeft(key) + "=" + PairRight(value)) + r
  {
    Regroup(l, PairLeft(key), "=", PairRight(value), r);
    Unfold(key, " ", "=", value);
    assert " " + "=" + " " == " = ";
    assert l + PairLeft(key) == key + " ";
    assert PairRight(value) + r == " " + value;
  }

  lemma PairLineTrims(key: string, value: string)
    requires Trimmed(key) && Trimmed(value)
    ensures Trim(PairLine(key, value)) == PairLeft(key) + "=" + PairRight(value)
  {
    var l := if key == [] then " " else "";
    var r := if value == [] then " " else "";
    PairLineSplits(key, value, l, r);
    PairCoreTrimmed(key, value);
    TrimCore(l, PairLeft(key) + "=" + PairRight(value), r);
  }

  lemma PairSidesTrim(key: string, value: string)
    requires Trimmed(key) && Trimmed(value)
    ensures Trim(PairLeft(key)) == key && Trim(PairRight(value)) == value
  {
    var r := if key == [] then "" else " ";
    assert PairLeft(key) == "" + key + r;
    TrimCore("", key, r);
    var l := if value == [] then "" else " ";
    assert PairRight(value) == l + value + "";
    TrimCore(l, value, "");
  }

  lemma PairSplits(key: string, right: string)
    requires '=' !in key
    ensures var t := PairLeft(key) + "=" + right;
            Find(t, '=') == |PairLeft(key)|
            && t[..|PairLeft(key)|] == PairLeft(key) && t[|PairLeft(key)| + 1..] == right
  {
    var left := PairLeft(key);
    var t := left + "=" + right;
    assert forall j :: 0 <= j < |left| ==> t[j] == left[j] && (j < |key| ==> left[j] == key[j] && key[j] in key);
    FindIs(t, '=', |left|);
  }

  lemma PairIsNoHeader(section: string, key: string, value: string)
    requires Settable(section, key, value)
    ensures var t := PairLeft(key) + "=" + PairRight(value);
            t[0] != '#' && t[0] != ';' && !IsHeader(t)
  {
    var t := PairLeft(key) + "=" + PairRight(value);
    assert t[0] == if key == [] then '=' else key[0];
    assert t[|t| - 1] == if value == [] then '=' else value[|value| - 1];
  }

  /** The line `set_ini_value` writes is read back as the pair it stands for. */
  lemma PairLineReads(section: string, key: string, value: string)
    requires Settable(section, key, value)
    ensures Classify(PairLine(key, value)) == Pair(ToLower(key), StripInlineComment(value))
  {
    hide Chomp, Trim, ToLower, StripInlineComment, Find;
    TrimChomp(PairLine(key, value));
    PairLineTrims(key, value);
    PairSidesTrim(key, value);
    PairSplits(key, PairRight(value));
    PairIsNoHeader(section, key, value);
  }

  lemma HeaderLineReads(section: string)
    requires Trimmed(section)
    ensures Classify("[" + section + "]") == Header(ToLower(section))
  {
    var t := "[" + section + "]";
    TrimChomp(t);
    assert t == "" + t + "";
    TrimCore("", t, "");
    assert t[1..|t| - 1] == section;
    assert section == "" + section + "";
    TrimCore("", section, "");
  }

  lemma EmptyLineReads()
    ensures Classify("") == Skip
  {
  }

  predicate Comment(t: string) { t == "" || t[0] == '#' || t[0] == ';' }

  /** How a line of any file reads, blanks around it aside: empty lines, lines that begin
      with # or ; and lines without = are skipped, brackets hold a section's name. */
  lemma LineReads(l: string, t: string, r: string)
    requires Blank(l) && Blank(r) && Trimmed(t)
    ensures Comment(t) ==> Classify(l + t + r) == Skip
    ensures !Comment(t) && t[0] == '[' && t[|t| - 1] == ']' ==>
              Classify(l + t + r) == Header(ToLower(Trim(t[1..|t| - 1])))
    ensures !Comment(t) && !(t[0] == '[' && t[|t| - 1] == ']') && '=' !in t ==> Classify(l + t + r) == Skip
  {
    hide Trim, Chomp, ToLower, StripInlineComment, Blank;
    TrimChomp(l + t + r);
    TrimCore(l, t, r);
  }

  /** And an entry: what stands before the first =, without case or blanks around it, and
      what stands after it. */
  lemma EntryReads(l: string, key: string, value: string, r: string)
    requires Blank(l) && Blank(r) && '=' !in key
    requires var t := key + "=" + value;
             Trimmed(t) && !Comment(t) && !(t[0] == '[' && t[|t| - 1] == ']')
    ensures Classify(l + (key + "=" + value) + r) == Pair(ToLower(Trim(key)), StripInlineComment(Trim(value)))
  {
    hide Trim, Chomp, ToLower, StripInlineComment, Find, Blank, Trimmed;
    var t := key + "=" + value;
    TrimChomp(l + t + r);
    TrimCore(l, t, r);
    FirstEquals(key, value);
  }

  lemma FirstEquals(key: string, value: string)
    requires '=' !in key
    ensures var t := key + "=" + value;
            Find(t, '=') == |key| && t[..|key|] == key && t[|key| + 1..] == value
  {
    FindIs(key + "=" + value, '=', |key|);
  }

  /** A value ends where a blank and a # first stand together. */
  lemma InlineComment(value: string, rest: string)
    requires forall j :: 0 <= j < |value| - 1 ==> !(value[j] == ' ' && value[j + 1] == '#')
    ensures StripInlineComment(value + " #" + rest) == Trim(value)
  {
    var s, n := value + " #" + rest, |value|;
    assert s[n] == ' ' && s[n + 1] == '#';
    assert FindInlineComment(s) <= n;
    assert forall j :: 0 <= j < n ==> s[j] == value[j];
    assert s[..n] == value;
  }

  lemma ParseAppend(lines: seq<string>, line: string)
    ensures ParseLines(lines + [line]) == ParseStep(ParseLines(lines), line)
  {
    assert (lines + [line])[..|lines|] == lines;
  }

  /** Away from the edited entry the two files read alike. */
  ghost predicate AgreeOff(a: Table, b: Table, entry: Entry) {
    forall e :: e != entry ==> (e in a <==> e in b) && (e in a ==> a[e] == b[e])
  }

  /** What holds after the editor has walked a prefix of the file. */
  ghost predicate InStep(p: Parsed, e: Edit, section: string, key: string, value: string) {
    var entry := (ToLower(section), ToLower(key));
    var q := ParseLines(e.out);
    && q.section == p.section
    && AgreeOff(p.table, q.table, entry)
    && (e.wrote ==> e.found && entry in q.table && q.table[entry] == StripInlineComment(value))
    && (e.inSec ==> e.found)
    && (e.found && !e.inSec ==> e.wrote)
    && (e.found ==> (e.inSec <==> p.section == ToLower(section)))
  }

  /** How the editor's tests on a line relate to the parser's reading of it. */
  lemma EditorSeesLine(line: string, key: string)
    requires Trimmed(key) && (key != [] ==> key[0] != '#' && key[0] != ';')
    ensures IsHeader(Trim(Chomp(line))) ==> Classify(line) == Header(HeaderName(Trim(Chomp(line))))
    ensures !IsHeader(Trim(Chomp(line))) ==> !Classify(line).Header?
    ensures !IsHeader(Trim(Chomp(line))) && Classify(line).Pair? ==>
              (NamesKey(Trim(Chomp(line)), key) <==> Classify(line).key == ToLower(key))
  {
  }

  lemma ChompReads(line: string)
    ensures Classify(Chomp(line)) == Classify(line)
  {
    TrimChomp(line);
    TrimChomp(Chomp(line));
  }

  lemma CopyInStep(p: Parsed, e: Edit, line: string, section: string, key: string, value: string)
    requires InStep(p, e, section, key, value)
    requires !Classify(line).Header?
    requires Classify(line).Pair? && e.inSec ==> Classify(line).key != ToLower(key)
    ensures InStep(ParseStep(p, line), e.(out := e.out + [Chomp(line)]), section, key, value)
  {
    ParseAppend(e.out, Chomp(line));
    ChompReads(line);
  }

  lemma WriteInStep(p: Parsed, e: Edit, section: string, key: string, value: string)
    requires Settable(section, key, value)
    requires InStep(p, e, section, key, value) && e.inSec
    ensures InStep(p, e.(wrote := true, out := e.out + [PairLine(key, value)]), section, key, value)
  {
    PairLineReads(section, key, value);
    ParseAppend(e.out, PairLine(key, value));
  }

  lemma ReplaceInStep(p: Parsed, e: Edit, line: string, section: string, key: string, value: string)
    requires InStep(p, e, section, key, value) && e.inSec
    requires Classify(line).Skip? || (Classify(line).Pair? && Classify(line).key == ToLower(key))
    ensures InStep(ParseStep(p, line), e, section, key, value)
  {
  }

  lemma HeaderInStep(p: Parsed, e: Edit, line: string, section: string, key: string, value: string)
    requires InStep(p, e, section, key, value)
    requires Classify(line).Header? && (e.inSec ==> e.wrote)
    ensures var here := Classify(line).name == ToLower(section);
            InStep(ParseStep(p, line), Edit(here, e.wrote, e.found || here, e.out + [Chomp(line)]),
                   section, key, value)
  {
    ParseAppend(e.out, Chomp(line));
    ChompReads(line);
  }

  lemma EditStepInStep(p: Parsed, e: Edit, line: string, section: string, key: string, value: string)
    requires Settable(section, key, value)
    requires InStep(p, e, section, key, value)
    ensures InStep(ParseStep(p, line), EditStep(e, Chomp(line), section, key, value), section, key, value)
  {
    EditorSeesLine(line, key);
    var t := Trim(Chomp(line));
    if IsHeader(t) {
      if e.inSec && !e.wrote {
        WriteInStep(p, e, section, key, value);
        HeaderInStep(p, e.(wrote := true, out := e.out + [PairLine(key, value)]), line, section, key, value);
      } else {
        HeaderInStep(p, e, line, section, key, value);
      }
    } else if e.inSec && NamesKey(t, key) {
      WriteInStep(p, e, section, key, value);
      ReplaceInStep(p, EditStep(e, Chomp(line), section, key, value), line, section, key, value);
    } else {
      CopyInStep(p, e, line, section, key, value);
    }
  }

  lemma {:induction false} EditInStep(lines: seq<string>, section: string, key: string, value: string)
    requires Settable(section, key, value)
    ensures InStep(ParseLines(lines), EditLines(lines, section, key, value), section, key, value)
  {
    if lines != [] {
      var front := lines[..|lines| - 1];
      EditInStep(front, section, key, value);
      EditStepInStep(ParseLines(front), EditLines(front, section, key, value), lines[|lines| - 1],
                     section, key, value);
    }
  }

  lemma AgreeOffUpdates(a: Table, b: Table, entry: Entry, value: string)
    requires AgreeOff(a, b, entry) && entry in b && b[entry] == value
    ensures b == a[entry := value]
  {
  }

  /** Appending a fresh section holding the pair. */
  lemma NewSectionReads(out: seq<string>, gap: seq<string>, section: string, key: string, value: string)
    requires Settable(section, key, value)
    requires gap == [] || gap == [""]
    ensures ParseLines(out + gap + ["[" + section + "]", PairLine(key, value)]).table
            == ParseLines(out).table[(ToLower(section), ToLower(key)) := StripInlineComment(value)]
  {
    hide ParseLines, Classify, PairLine, StripInlineComment, ToLower;
    var pair, header := PairLine(key, value), "[" + section + "]";
    PairLineReads(section, key, value);
    HeaderLineReads(section);
    EmptyLineReads();
    ParseAppend(out, "");
    assert gap == [] ==> out + gap == out;
    ParseAppend(out + gap, header);
    ParseAppend(out + gap + [header], pair);
    assert out + gap + [header, pair] == out + gap + [header] + [pair];
  }

  lemma EditEndReads(p: Parsed, e: Edit, section: string, key: string, value: string)
    requires Settable(section, key, value)
    requires InStep(p, e, section, key, value)
    ensures ParseLines(EditEnd(e, section, key, value)).table
            == p.table[(ToLower(section), ToLower(key)) := StripInlineComment(value)]
  {
    hide StripInlineComment, ToLower, PairLine, ParseLines, Trim;
    var entry, stored := (ToLower(section), ToLower(key)), StripInlineComment(value);
    if !e.found {
      var gap := if e.out != [] && e.out[|e.out| - 1] != [] then [""] else [];
      NewSectionReads(e.out, gap, section, key, value);
      AgreeOffUpdates(p.table, ParseLines(e.out).table[entry := stored], entry, stored);
    } else if e.wrote {
      AgreeOffUpdates(p.table, ParseLines(e.out).table, entry, stored);
    } else {
      WriteInStep(p, e, section, key, value);
      AgreeOffUpdates(p.table, ParseLines(e.out + [PairLine(key, value)]).table, entry, stored);
    }
  }

  lemma {:induction false} EditedLinesOneLine(lines: seq<string>, section: string, key: string, value: string)
    requires forall l :: l in lines ==> OneLine(l)
    requires OneLine(section) && OneLine(key) && OneLine(value)
    ensures forall l :: l in EditLines(lines, section, key, value).out ==> OneLine(l)
  {
    assert OneLine(PairLine(key, value));
    if lines != [] {
      EditedLinesOneLine(lines[..|lines| - 1], section, key, value);
      assert lines[|lines| - 1] in lines;
    }
  }

  /** The file `set_ini_value` leaves behind. */
  function SetText(text: string, section: string, key: string, value: string): string {
    JoinLines(EditEnd(EditLines(SplitLines(text), section, key, value), section, key, value))
  }

  function ParseText(text: string): Table {
    ParseLines(SplitLines(text)).table
  }

  /** Main result: for every file text, including ones with repeated sections,
      repeated keys, comments or no such section, parsing after the edit gives the
      old table with exactly the named entry replaced. */
  lemma {:induction false} SetThenParse(text: string, section: string, key: string, value: string)
    requires Settable(section, key, value)
    ensures ParseText(SetText(text, section, key, value))
            == ParseText(text)[(ToLower(section), ToLower(key)) := StripInlineComment(value)]
  {
    hide Settable, InStep, EditLines, EditEnd, ParseLines, StripInlineComment;
    var lines := SplitLines(text);
    var e := EditLines(lines, section, key, value);
    EditInStep(lines, section, key, value);
    EditEndReads(ParseLines(lines), e, section, key, value);
    SplitLinesOneLine(text);
    EditEndOneLine(lines, section, key, value);
    SplitJoin(EditEnd(e, section, key, value));
  }

  lemma EditEndOneLine(lines: seq<string>, section: string, key: string, value: string)
    requires forall l :: l in lines ==> OneLine(l)
    requires Settable(section, key, value)
    ensures var out := EditEnd(EditLines(lines, section, key, value), section, key, value);
            forall l :: l in out ==> OneLine(l)
  {
    EditedLinesOneLine(lines, section, key, value);
    assert OneLine(PairLine(key, value)) && OneLine("[" + section + "]");
  }

  lemma {:induction false} StripKeepsOnly(value: string)
    ensures StripInlineComment(value) == value <==> FindInlineComment(value) == |value|
  {
    var h := FindInlineComment(value);
    if h < |value| {
      var l, r := TrimSplit(value[..h]);
      assert |Trim(value[..h])| <= h;
    }
  }

  /** A non-empty value comes back through `get`, whatever the default, exactly when
      it holds no " #"; every other entry reads as before in either case. */
  lemma {:induction false} SetThenGet(text: string, section: string, key: string, value: string, default: string,
                   section': string, key': string)
    requires Settable(section, key, value) && value != [] && default != value
    ensures Get(ParseText(SetText(text, section, key, value)), ToLower(section), ToLower(key), default) == value
            <==> FindInlineComment(value) == |value|
    ensures (section', key') != (ToLower(section), ToLower(key)) ==>
              Get(ParseText(SetText(text, section, key, value)), section', key', default)
              == Get(ParseText(text), section', key', default)
  {
    hide ParseText, SetText, Settable, StripInlineComment, FindInlineComment;
    SetThenParse(text, section, key, value);
    StripKeepsOnly(value);
  }
}
