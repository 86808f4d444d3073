/** The INI text both configuration readers take apart. Text is bytes, written as characters below 256. */
module Ini {
  import opened Text

  /** The two readers: the shared one the installer uses, and the hook's own. They differ in what they strip
      as white space, and in whether a section name is stripped inside its brackets. */
  type Dialect = b: Blanks | b == Shared || b == Hook witness Shared

  // ---- Lines -----------------------------------------------------------------------------------

  /** One line, up to a line feed or the end, and the text after it. */
  function NextLine(text: string): (r: (string, string))
    ensures '\n' !in r.0
    ensures text != "" ==> |r.1| < |text|
  {
    var n := Find(text, '\n');
    (text[..n], if n < |text| then text[n + 1..] else "")
  }

  function Lines(text: string): seq<string>
    decreases |text|
  {
    if text == "" then []
    else
      var (line, rest) := NextLine(text);
      [line] + Lines(rest)
  }

  function Unlines(lines: seq<string>): string {
    if lines == [] then "" else lines[0] + "\n" + Unlines(lines[1..])
  }

  lemma NextLineIs(line: string, rest: string)
    requires '\n' !in line
    ensures NextLine(line + "\n" + rest) == (line, rest)
  {
    var text := line + "\n" + rest;
    FindIs(line, '\n', rest);
    assert text[..|line|] == line && text[|line| + 1..] == rest;
  }

  ghost predicate AllWhole(lines: seq<string>) {
    forall i :: 0 <= i < |lines| ==> '\n' !in lines[i]
  }

  /** Lines written out are read back. */
  lemma {:induction false} LinesRoundTrip(lines: seq<string>)
    requires AllWhole(lines)
    ensures Lines(Unlines(lines)) == lines
  {
    if lines != [] {
      NextLineIs(lines[0], Unlines(lines[1..]));
      LinesRoundTrip(lines[1..]);
    }
  }

  // ---- Parsing ---------------------------------------------------------------------------------

  datatype Key = Key(section: string, name: string)

  /** The section lines fall in, and the values read so far. */
  datatype Reading = Reading(section: string, values: map<Key, string>)

  const BOM: string := [0xEF as char, 0xBB as char, 0xBF as char]

  function WithoutBom(line: string): string {
    if BOM <= line then line[3..] else line
  }

  datatype Line = Noise | Header(section: string) | Setting(name: string, value: string)

  /** What a stripped line is, in the order the readers look at it: blank or comment, section, value. */
  function Classify(d: Dialect, t: string): Line {
    if t == "" || t[0] == ';' || t[0] == '#' then Noise
    else if t[0] == '[' && t[|t| - 1] == ']' then
      var name := t[1..|t| - 1];
      Header(Lower(if d == Shared then Trim(d, name) else name))
    else
      var n := Find(t, '=');
      if n == |t| then Noise else Setting(Lower(Trim(d, t[..n])), Trim(d, t[n + 1..]))
  }

  function Use(r: Reading, line: Line): Reading {
    match line
    case Noise => r
    case Header(section) => r.(section := section)
    case Setting(name, value) => r.(values := r.values[Key(r.section, name) := value])
  }

  function ReadLine(d: Dialect, r: Reading, line: string): Reading {
    Use(r, Classify(d, Trim(d, WithoutBom(line))))
  }

  function ReadLines(d: Dialect, r: Reading, lines: seq<string>): Reading
    decreases |lines|
  {
    if lines == [] then r else ReadLines(d, ReadLine(d, r, lines[0]), lines[1..])
  }

  function Parse(d: Dialect, text: string): map<Key, string> {
    ReadLines(d, Reading("", map[]), Lines(text)).values
  }

  lemma ReadNext(d: Dialect, r: Reading, text: string)
    requires text != ""
    ensures ReadLines(d, r, Lines(text)) == ReadLines(d, ReadLine(d, r, NextLine(text).0), Lines(NextLine(text).1))
  {
    assert Lines(text)[0] == NextLine(text).0 && Lines(text)[1..] == Lines(NextLine(text).1);
  }

  /** The readers' loop: take a line, use it, go on. */
  method ParseIni(d: Dialect, text: string) returns (values: map<Key, string>)
    ensures values == Parse(d, text)
  {
    var section := "";
    values := map[];
    var rest := text;
    while rest != ""
      invariant ReadLines(d, Reading(section, values), Lines(rest)).values == Parse(d, text)
      decreases |rest|
    {
      ReadNext(d, Reading(section, values), rest);
      var (line, after) := NextLine(rest);
      section, values := UseLine(d, section, values, Trim(d, WithoutBom(line)));
      rest := after;
    }
  }

  method UseLine(d: Dialect, section: string, values: map<Key, string>, t: string)
    returns (section': string, values': map<Key, string>)
    ensures Reading(section', values') == Use(Reading(section, values), Classify(d, t))
  {
    section', values' := section, values;
    if t == "" || t[0] == ';' || t[0] == '#' {
      return;
    }
    if t[0] == '[' && t[|t| - 1] == ']' {
      var name := t[1..|t| - 1];
      section' := Lower(if d == Shared then Trim(d, name) else name);
      return;
    }
    var n := Find(t, '=');
    if n == |t| {
      return;
    }
    var key := Lower(Trim(d, t[..n]));
    values' := values[Key(section, key) := Trim(d, t[n + 1..])];
  }

  /** A value as it can come out of a file: on one line, with no white space at its ends. */
  predicate Clean(d: Dialect, value: string) {
    '\n' !in value && Trimmed(d, value)
  }

  ghost predicate AllClean(d: Dialect, values: map<Key, string>) {
    forall k :: k in values ==> Clean(d, values[k])
  }

  lemma SettingIsClean(d: Dialect, line: string)
    requires '\n' !in line
    ensures var l := Classify(d, Trim(d, WithoutBom(line))); l.Setting? ==> Clean(d, l.value)
  {
    TrimKeepsOut(d, WithoutBom(line), '\n');
    var t := Trim(d, WithoutBom(line));
    var n := Find(t, '=');
    if n < |t| {
      TrimKeepsOut(d, t[n + 1..], '\n');
      TrimFixes(d, t[n + 1..]);
    }
  }

  lemma UseKeepsClean(d: Dialect, r: Reading, line: Line)
    requires AllClean(d, r.values) && (line.Setting? ==> Clean(d, line.value))
    ensures AllClean(d, Use(r, line).values)
  {
  }

  /** Whatever the lines, every value read is clean. */
  lemma {:induction false} ValuesAreClean(d: Dialect, r: Reading, lines: seq<string>)
    requires AllClean(d, r.values) && AllWhole(lines)
    ensures AllClean(d, ReadLines(d, r, lines).values)
    decreases |lines|
  {
    if lines != [] {
      SettingIsClean(d, lines[0]);
      UseKeepsClean(d, r, Classify(d, Trim(d, WithoutBom(lines[0]))));
      ValuesAreClean(d, ReadLine(d, r, lines[0]), lines[1..]);
    }
  }

  lemma {:induction false} LinesAreWhole(text: string)
    ensures AllWhole(Lines(text))
    decreases |text|
  {
    if text != "" {
      LinesAreWhole(NextLine(text).1);
    }
  }

  lemma ParsedIsClean(d: Dialect, text: string)
    ensures AllClean(d, Parse(d, text))
  {
    LinesAreWhole(text);
    ValuesAreClean(d, Reading("", map[]), Lines(text));
  }

  // ---- Lines as they are written ---------------------------------------------------------------

  /** A key as the program writes them: small letters and underscores. */
  predicate PlainKey(key: string) {
    key != "" && forall i :: 0 <= i < |key| ==> ('a' <= key[i] <= 'z' || key[i] == '_')
  }

  /** Such a key is a key in every reader: kept whole, in its case, up to the equals sign. */
  lemma PlainKeyIsKept(d: Dialect, key: string)
    requires PlainKey(key)
    ensures Trim(d, key) == key && Lower(key) == key && '=' !in key
  {
    TrimFixes(d, key);
    assert Lower(key) == key;
  }

  /** Stripping a written line strips the right end of its value. */
  lemma WrittenTrims(d: Dialect, key: string, value: string)
    requires PlainKey(key)
    ensures Trim(d, WithoutBom(key + "=" + value)) == key + "=" + TrimRight(d, value)
  {
    var line := key + "=" + value;
    assert line[0] == key[0];
    assert !(BOM <= line);
    assert TrimLeft(d, line) == line;
    TrimRightBehind(d, key + "=", value);
  }

  lemma SettingLine(d: Dialect, key: string, right: string)
    requires PlainKey(key)
    ensures Classify(d, key + "=" + right) == Setting(key, Trim(d, right))
  {
    var t := key + "=" + right;
    assert t[0] == key[0];
    PlainKeyIsKept(d, key);
    FindIs(key, '=', right);
    assert t[..|key|] == key && t[|key| + 1..] == right;
  }

  /** A written line sets its key to the value, stripped. */
  lemma WrittenLine(d: Dialect, r: Reading, key: string, value: string)
    requires PlainKey(key)
    ensures ReadLine(d, r, key + "=" + value) == r.(values := r.values[Key(r.section, key) := Trim(d, value)])
  {
    WrittenTrims(d, key, value);
    SettingLine(d, key, TrimRight(d, value));
    TrimAfterRight(d, value);
  }

  lemma HeaderLine(d: Dialect, name: string)
    requires PlainKey(name)
    ensures Classify(d, "[" + name + "]") == Header(name)
  {
    var t := "[" + name + "]";
    assert t[0] == '[' && t[|t| - 1] == ']' && t[1..|t| - 1] == name;
    assert Lower(if d == Shared then Trim(d, name) else name) == name by {
      PlainKeyIsKept(d, name);
    }
  }

  lemma BracketsAreKept(d: Dialect, name: string)
    ensures Trim(d, WithoutBom("[" + name + "]")) == "[" + name + "]"
  {
    var line := "[" + name + "]";
    assert line[0] == '[' && line[|line| - 1] == ']';
    assert !(BOM <= line);
    TrimFixes(d, line);
  }

  /** A written section header opens its section. */
  lemma WrittenSection(d: Dialect, r: Reading, name: string)
    requires PlainKey(name)
    ensures ReadLine(d, r, "[" + name + "]") == r.(section := name)
  {
    BracketsAreKept(d, name);
    HeaderLine(d, name);
  }
}
