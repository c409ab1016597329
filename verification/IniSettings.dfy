/** The qBittorrent settings file: reading sections and keys, and rendering the hardened file. */
module IniSettings {
  import opened Common
  import opened Texts

  datatype Id = Id(section: string, key: string)

  type Settings = map<Id, string>

  // ----- Lines

  function FirstBreak(s: string): (i: nat)
    ensures i <= |s| && OneLine(s[..i]) && (i < |s| ==> Break(s[i]))
  {
    if s == "" || Break(s[0]) then 0 else 1 + FirstBreak(s[1..])
  }

  function SplitLines(s: string): seq<string>
    decreases |s|
  {
    var i := FirstBreak(s);
    if s == "" then []
    else if i == |s| then [s]
    else
      var width := if s[i] == '\r' && i + 1 < |s| && s[i + 1] == '\n' then 2 else 1;
      [s[..i]] + SplitLines(s[i + width..])
  }

  // ----- Reading

  datatype Line = Blank | Header(section: string) | Setting(key: string, value: string) | Bad

  function Classify(raw: string): Line {
    var line := Strip(raw);
    if line == "" || line[0] == '#' || line[0] == ';' then Blank
    else if line[0] == '[' && line[|line| - 1] == ']' then Header(line[1..|line| - 1])
    else
      var i := Find(line, '=');
      if i == |line| then Bad else Setting(Strip(line[..i]), Strip(line[i + 1..]))
  }

  datatype Reader = Reader(result: Settings, section: string, sections: set<string>)

  /** `None` where the source raises. */
  function Step(r: Reader, raw: string): Option<Reader> {
    match Classify(raw)
    case Blank => Some(r)
    case Header(section) =>
      if section in r.sections then None else Some(Reader(r.result, section, r.sections + {section}))
    case Setting(key, value) =>
      if r.section == "" || Id(r.section, key) in r.result then None
      else Some(r.(result := r.result[Id(r.section, key) := value]))
    case Bad => None
  }

  function ReadLines(r: Option<Reader>, lines: seq<string>): Option<Reader>
    decreases |lines|
  {
    if r.None? || lines == [] then r else ReadLines(Step(r.value, lines[0]), lines[1..])
  }

  const EMPTY := Reader(map[], "", {})

  function Parse(text: string): Option<Settings> {
    match ReadLines(Some(EMPTY), SplitLines(text)) case None => None case Some(r) => Some(r.result)
  }

  // ----- What can be read back

  predicate CleanSection(s: string) { s != "" && OneLine(s) }

  predicate CleanValue(s: string) { Stripped(s) && OneLine(s) }

  predicate CleanKey(s: string) {
    Stripped(s) && OneLine(s) && '=' !in s && (s != "" ==> s[0] != '#' && s[0] != ';')
  }

  /** A line that would look like a section header. */
  predicate Bracketed(key: string, value: string) {
    key != "" && key[0] == '[' && value != "" && value[|value| - 1] == ']'
  }

  predicate CleanSetting(id: Id, value: string) {
    CleanSection(id.section) && CleanKey(id.key) && CleanValue(value) && !Bracketed(id.key, value)
  }

  ghost predicate Clean(m: Settings) { forall id :: id in m ==> CleanSetting(id, m[id]) }

  lemma ClassifiedSetting(raw: string)
    requires OneLine(raw) && Classify(raw).Setting?
    ensures var Setting(key, value) := Classify(raw); CleanKey(key) && CleanValue(value) && !Bracketed(key, value)
  {
    var line := Strip(raw);
    var i := Find(line, '=');
    var key, value := Strip(line[..i]), Strip(line[i + 1..]);
    if i > 0 { assert line[..i][0] == line[0] && key[0] == line[0]; }
    if i + 1 < |line| {
      var tail := line[i + 1..];
      assert tail[|tail| - 1] == line[|line| - 1];
    }
  }

  lemma ClassifiedHeader(raw: string)
    requires OneLine(raw) && Classify(raw).Header?
    ensures OneLine(Classify(raw).section)
  {
  }

  ghost predicate ReaderClean(r: Reader) { Clean(r.result) && OneLine(r.section) }

  lemma StepKeepsClean(r: Reader, raw: string)
    requires ReaderClean(r) && OneLine(raw) && Step(r, raw).Some?
    ensures ReaderClean(Step(r, raw).value)
  {
    if Classify(raw).Setting? { ClassifiedSetting(raw); }
    if Classify(raw).Header? { ClassifiedHeader(raw); }
  }

  ghost predicate AllOneLine(lines: seq<string>) { forall i :: 0 <= i < |lines| ==> OneLine(lines[i]) }

  lemma {:induction false} SplitLinesAreLines(s: string)
    ensures AllOneLine(SplitLines(s))
    decreases |s|
  {
    var i := FirstBreak(s);
    if s != "" && i < |s| {
      var width := if s[i] == '\r' && i + 1 < |s| && s[i + 1] == '\n' then 2 else 1;
      SplitLinesAreLines(s[i + width..]);
    } else if s != "" {
      assert s[..i] == s;
    }
  }

  lemma {:induction false} ReadKeepsClean(r: Reader, lines: seq<string>)
    requires ReaderClean(r) && AllOneLine(lines) && ReadLines(Some(r), lines).Some?
    ensures ReaderClean(ReadLines(Some(r), lines).value)
    decreases |lines|
  {
    if lines == [] {
    } else {
      StepKeepsClean(r, lines[0]);
      ReadKeepsClean(Step(r, lines[0]).value, lines[1..]);
    }
  }

  /** Whatever is read is clean: rendering it can be read back. */
  lemma ParsedIsClean(text: string)
    requires Parse(text).Some?
    ensures Clean(Parse(text).value)
  {
    SplitLinesAreLines(text);
    ReadKeepsClean(EMPTY, SplitLines(text));
  }

  // ----- Sorting by code point

  predicate First(s: set<string>, x: string) { x in s && forall y :: y in s && y != x ==> Precedes(x, y) }

  lemma FirstExists(s: set<string>)
    requires s != {}
    ensures exists x :: First(s, x)
    decreases |s|
  {
    var x :| x in s;
    var rest := s - {x};
    if rest == {} {
      assert s == {x};
      assert First(s, x);
    } else {
      FirstExists(rest);
      var z :| First(rest, z);
      PrecedesTotal(x, z);
      if Precedes(x, z) {
        forall y | y in s && y != x && y != z ensures Precedes(x, y) { PrecedesTransitive(x, z, y); }
        assert First(s, x);
      } else {
        assert First(s, z);
      }
    }
  }

  lemma FirstUnique(s: set<string>)
    ensures forall x, y :: First(s, x) && First(s, y) ==> x == y
  {
    forall x, y | First(s, x) && First(s, y) ensures x == y { PrecedesTotal(x, y); }
  }

  function FirstOf(s: set<string>): (x: string)
    requires s != {}
    ensures First(s, x)
  {
    FirstExists(s);
    FirstUnique(s);
    var x :| x in s && First(s, x);
    x
  }

  function Sorted(s: set<string>): (r: seq<string>)
    ensures |r| == |s| && forall x :: x in r <==> x in s
    ensures forall i, j :: 0 <= i < j < |r| ==> Precedes(r[i], r[j]) && r[i] != r[j]
  {
    if s == {} then []
    else
      var x := FirstOf(s);
      [x] + Sorted(s - {x})
  }

  // ----- Rendering

  function KeysOf(m: Settings, section: string): set<string> {
    set id | id in m.Keys && id.section == section :: id.key
  }

  function SectionsOf(m: Settings): set<string> { set id | id in m.Keys :: id.section }

  function HeaderLine(section: string): string { "[" + section + "]" }

  function SettingLine(key: string, value: string): string { key + "=" + value }

  function EntryLine(m: Settings, section: string, key: string): string {
    SettingLine(key, if Id(section, key) in m then m[Id(section, key)] else "")
  }

  function EntryLines(m: Settings, section: string, keys: seq<string>): seq<string> {
    if keys == [] then [] else [EntryLine(m, section, keys[0])] + EntryLines(m, section, keys[1..])
  }

  function SectionLines(m: Settings, section: string): seq<string> {
    [HeaderLine(section)] + EntryLines(m, section, Sorted(KeysOf(m, section))) + [""]
  }

  function RenderLines(m: Settings, sections: seq<string>): seq<string> {
    if sections == [] then [] else SectionLines(m, sections[0]) + RenderLines(m, sections[1..])
  }

  function Join(lines: seq<string>): string {
    if lines == [] then "" else if |lines| == 1 then lines[0] else lines[0] + "\n" + Join(lines[1..])
  }

  function Text(m: Settings): string { Join(RenderLines(m, Sorted(SectionsOf(m)))) }

  // ----- Reading back what was rendered

  lemma {:induction false} FirstBreakAt(a: string, b: string)
    requires OneLine(a) && b != "" && Break(b[0])
    ensures FirstBreak(a + b) == |a|
  {
    if a == "" { assert a + b == b; } else {
      FirstBreakAt(a[1..], b);
      assert (a + b)[1..] == a[1..] + b;
    }
  }

  lemma SplitFirst(line: string, rest: string)
    requires OneLine(line)
    ensures SplitLines(line + "\n" + rest) == [line] + SplitLines(rest)
  {
    var s := line + "\n" + rest;
    assert s == line + ("\n" + rest);
    FirstBreakAt(line, "\n" + rest);
    assert s[..|line|] == line && s[|line| + 1..] == rest && s[|line|] == '\n';
  }

  /** Joined lines, the last of them empty, split into all the lines but that one. */
  lemma {:induction false} SplitJoined(lines: seq<string>)
    requires AllOneLine(lines) && lines != [] && lines[|lines| - 1] == ""
    ensures SplitLines(Join(lines)) == lines[..|lines| - 1]
  {
    if |lines| <= 1 {
    } else {
      SplitJoined(lines[1..]);
      SplitFirst(lines[0], Join(lines[1..]));
      assert lines[..|lines| - 1] == [lines[0]] + lines[1..][..|lines| - 2];
    }
  }

  lemma {:induction false} ReadAppend(r: Option<Reader>, a: seq<string>, b: seq<string>)
    ensures ReadLines(r, a + b) == ReadLines(ReadLines(r, a), b)
    decreases |a|
  {
    if a == [] {
      assert a + b == b;
    } else if r.Some? {
      var next := Step(r.value, a[0]);
      ReadAppend(next, a[1..], b);
      ReadsFirst(r.value, a, next);
      ReadsFirst(r.value, a + b, next);
      assert (a + b)[1..] == a[1..] + b;
    }
  }

  lemma ReadsFirst(r: Reader, lines: seq<string>, next: Option<Reader>)
    requires lines != [] && next == Step(r, lines[0])
    ensures ReadLines(Some(r), lines) == ReadLines(next, lines[1..])
  {
  }

  lemma ReadsHeader(section: string)
    requires CleanSection(section)
    ensures Classify(HeaderLine(section)) == Header(section) && OneLine(HeaderLine(section))
  {
    var line := HeaderLine(section);
    assert line[1..|line| - 1] == section;
  }

  lemma LineEnds(key: string, value: string)
    requires CleanKey(key) && CleanValue(value)
    ensures var line := SettingLine(key, value);
            && OneLine(line) && Stripped(line)
            && line[0] == (if key == "" then '=' else key[0])
            && line[|line| - 1] == (if value == "" then '=' else value[|value| - 1])
            && Find(line, '=') == |key| && line[..|key|] == key && line[|key| + 1..] == value
  {
    assert SettingLine(key, value) == key + ("=" + value);
    FindAt(key, "=" + value, '=');
  }

  lemma ReadsSetting(key: string, value: string)
    requires CleanKey(key) && CleanValue(value) && !Bracketed(key, value)
    ensures Classify(SettingLine(key, value)) == Setting(key, value) && OneLine(SettingLine(key, value))
  {
    LineEnds(key, value);
    var line := SettingLine(key, value);
    assert Strip(line) == line;
    assert Strip(key) == key && Strip(value) == value;
  }

  /** The settings of `m` under the given keys of one section. */
  ghost function Part(m: Settings, section: string, keys: set<string>): Settings {
    map id | id in m && id.section == section && id.key in keys :: m[id]
  }

  ghost function Elements(s: seq<string>): set<string> { set x | x in s }

  lemma ReadsEntry(m: Settings, r: Reader, key: string)
    requires Clean(m) && r.section != "" && Id(r.section, key) in m && Id(r.section, key) !in r.result
    ensures Step(r, EntryLine(m, r.section, key))
            == Some(r.(result := r.result[Id(r.section, key) := m[Id(r.section, key)]]))
  {
    ReadsSetting(key, m[Id(r.section, key)]);
  }

  lemma PartCons(m: Settings, result: Settings, section: string, keys: seq<string>)
    requires keys != [] && Id(section, keys[0]) in m
    ensures result[Id(section, keys[0]) := m[Id(section, keys[0])]] + Part(m, section, Elements(keys[1..]))
            == result + Part(m, section, Elements(keys))
  {
    assert forall k :: k in Elements(keys) <==> k == keys[0] || k in Elements(keys[1..]);
  }

  ghost predicate Unread(m: Settings, result: Settings, section: string, keys: seq<string>) {
    forall i :: 0 <= i < |keys| ==> Id(section, keys[i]) in m && Id(section, keys[i]) !in result
  }

  ghost predicate NoRepeat(s: seq<string>) { forall i, j :: 0 <= i < j < |s| ==> s[i] != s[j] }

  lemma {:induction false} ReadsEntries(m: Settings, r: Reader, keys: seq<string>)
    requires Clean(m) && r.section != "" && Unread(m, r.result, r.section, keys) && NoRepeat(keys)
    ensures ReadLines(Some(r), EntryLines(m, r.section, keys))
            == Some(r.(result := r.result + Part(m, r.section, Elements(keys))))
    decreases |keys|
  {
    if keys == [] {
      assert Part(m, r.section, Elements(keys)) == map[];
      assert r.result + map[] == r.result;
    } else {
      ReadsEntry(m, r, keys[0]);
      var id := Id(r.section, keys[0]);
      var next := r.(result := r.result[id := m[id]]);
      assert EntryLines(m, r.section, keys)[1..] == EntryLines(m, r.section, keys[1..]);
      ReadsEntries(m, next, keys[1..]);
      PartCons(m, r.result, r.section, keys);
    }
  }

  ghost function Whole(m: Settings, section: string): Settings { map id | id in m && id.section == section :: m[id] }

  ghost predicate Untouched(m: Settings, r: Reader, section: string) {
    section !in r.sections && forall id :: id in m && id.section == section ==> id !in r.result
  }

  lemma ReadsSection(m: Settings, r: Reader, section: string)
    requires Clean(m) && section in SectionsOf(m) && Untouched(m, r, section)
    ensures ReadLines(Some(r), SectionLines(m, section)) ==
            Some(Reader(r.result + Whole(m, section), section, r.sections + {section}))
  {
    var keys := Sorted(KeysOf(m, section));
    var header, entries := [HeaderLine(section)], EntryLines(m, section, keys);
    var begun := Reader(r.result, section, r.sections + {section});
    SectionIsClean(m, section);
    assert ReadLines(Some(r), header) == Some(begun) by {
      ReadsHeader(section);
      ReadOne(r, HeaderLine(section));
    }
    ReadsBody(m, begun, section);
    ReadAppend(Some(r), header, entries);
    DropLastBlank(Some(r), header + entries);
  }

  lemma KeysUnread(m: Settings, result: Settings, section: string)
    requires forall id :: id in m && id.section == section ==> id !in result
    ensures Unread(m, result, section, Sorted(KeysOf(m, section))) && NoRepeat(Sorted(KeysOf(m, section)))
  {
    SortedKeys(m, section);
  }

  lemma PartIsWhole(m: Settings, section: string)
    ensures Part(m, section, Elements(Sorted(KeysOf(m, section)))) == Whole(m, section)
  {
    SortedKeys(m, section);
  }

  lemma ReadsBody(m: Settings, r: Reader, section: string)
    requires Clean(m) && section != "" && r.section == section
    requires forall id :: id in m && id.section == section ==> id !in r.result
    ensures ReadLines(Some(r), EntryLines(m, section, Sorted(KeysOf(m, section)))) ==
            Some(r.(result := r.result + Whole(m, section)))
  {
    KeysUnread(m, r.result, section);
    ReadsEntries(m, r, Sorted(KeysOf(m, section)));
    PartIsWhole(m, section);
  }

  lemma SectionIsClean(m: Settings, section: string)
    requires Clean(m) && section in SectionsOf(m)
    ensures CleanSection(section)
  {
    var id :| id in m && id.section == section;
  }

  lemma SortedKeys(m: Settings, section: string)
    ensures forall i :: 0 <= i < |Sorted(KeysOf(m, section))| ==> Id(section, Sorted(KeysOf(m, section))[i]) in m
    ensures forall id :: id in m && id.section == section ==> id.key in Elements(Sorted(KeysOf(m, section)))
  {
    var keys := Sorted(KeysOf(m, section));
    forall i | 0 <= i < |keys| ensures Id(section, keys[i]) in m {
      assert keys[i] in keys && keys[i] in KeysOf(m, section);
      var id :| id in m && id.section == section && id.key == keys[i];
      assert id == Id(section, keys[i]);
    }
    forall id | id in m && id.section == section ensures id.key in Elements(keys) {
      assert id.key in KeysOf(m, section);
    }
  }

  lemma ReadOne(r: Reader, line: string)
    ensures ReadLines(Some(r), [line]) == Step(r, line)
  {
    assert [line][1..] == [];
  }

  ghost function Under(m: Settings, sections: set<string>): Settings {
    map id | id in m && id.section in sections :: m[id]
  }

  ghost predicate AllUntouched(m: Settings, r: Reader, sections: seq<string>) {
    forall i :: 0 <= i < |sections| ==> sections[i] in SectionsOf(m) && Untouched(m, r, sections[i])
  }

  lemma SectionDone(m: Settings, r: Reader, sections: seq<string>)
    requires sections != [] && AllUntouched(m, r, sections) && NoRepeat(sections)
    ensures AllUntouched(m, Reader(r.result + Whole(m, sections[0]), sections[0], r.sections + {sections[0]}),
            sections[1..])
  {
    var next := Reader(r.result + Whole(m, sections[0]), sections[0], r.sections + {sections[0]});
    forall i | 0 <= i < |sections[1..]|
      ensures sections[1..][i] in SectionsOf(m) && Untouched(m, next, sections[1..][i])
    {
      assert sections[1..][i] == sections[i + 1];
      assert Untouched(m, r, sections[i + 1]);
    }
  }

  lemma UnderCons(m: Settings, result: Settings, sections: seq<string>)
    requires sections != []
    ensures (result + Whole(m, sections[0])) + Under(m, Elements(sections[1..]))
            == result + Under(m, Elements(sections))
  {
    assert forall x :: x in Elements(sections) <==> x == sections[0] || x in Elements(sections[1..]);
  }

  lemma {:induction false} ReadsSections(m: Settings, r: Reader, sections: seq<string>)
    requires Clean(m) && AllUntouched(m, r, sections) && NoRepeat(sections)
    ensures ReadLines(Some(r), RenderLines(m, sections)).Some?
    ensures ReadLines(Some(r), RenderLines(m, sections)).value.result == r.result + Under(m, Elements(sections))
    decreases |sections|
  {
    if sections == [] {
      assert Under(m, Elements(sections)) == map[];
      assert r.result + map[] == r.result;
    } else {
      var section := sections[0];
      var next := Reader(r.result + Whole(m, section), section, r.sections + {section});
      ReadsOneSection(m, r, sections);
      SectionDone(m, r, sections);
      ReadsSections(m, next, sections[1..]);
      UnderCons(m, r.result, sections);
    }
  }

  lemma ReadsOneSection(m: Settings, r: Reader, sections: seq<string>)
    requires Clean(m) && sections != [] && sections[0] in SectionsOf(m) && Untouched(m, r, sections[0])
    ensures var next := Reader(r.result + Whole(m, sections[0]), sections[0], r.sections + {sections[0]});
            ReadLines(Some(r), RenderLines(m, sections)) == ReadLines(Some(next), RenderLines(m, sections[1..]))
  {
    ReadsSection(m, r, sections[0]);
    ReadAppend(Some(r), SectionLines(m, sections[0]), RenderLines(m, sections[1..]));
  }

  lemma {:induction false} RenderedAreLines(m: Settings, sections: seq<string>)
    requires Clean(m) && forall i :: 0 <= i < |sections| ==> sections[i] in SectionsOf(m)
    ensures AllOneLine(RenderLines(m, sections))
    ensures sections != [] ==>
              RenderLines(m, sections) != [] && RenderLines(m, sections)[|RenderLines(m, sections)| - 1] == ""
    decreases |sections|
  {
    if sections == [] {
    } else {
      SectionIsLines(m, sections[0]);
      RenderedAreLines(m, sections[1..]);
      LinesJoin(SectionLines(m, sections[0]), RenderLines(m, sections[1..]));
    }
  }

  lemma LinesJoin(a: seq<string>, b: seq<string>)
    requires AllOneLine(a) && AllOneLine(b) && a != [] && a[|a| - 1] == "" && (b != [] ==> b[|b| - 1] == "")
    ensures AllOneLine(a + b) && (a + b)[|a + b| - 1] == ""
  {
  }

  lemma {:induction false} EntriesAreLines(m: Settings, section: string, keys: seq<string>)
    requires Clean(m) && forall i :: 0 <= i < |keys| ==> Id(section, keys[i]) in m
    ensures AllOneLine(EntryLines(m, section, keys))
  {
    if keys == [] {
    } else {
      ReadsSetting(keys[0], m[Id(section, keys[0])]);
      EntriesAreLines(m, section, keys[1..]);
    }
  }

  lemma SectionIsLines(m: Settings, section: string)
    requires Clean(m) && section in SectionsOf(m)
    ensures AllOneLine(SectionLines(m, section))
  {
    var keys := Sorted(KeysOf(m, section));
    SectionIsClean(m, section);
    ReadsHeader(section);
    SortedKeys(m, section);
    EntriesAreLines(m, section, keys);
    AppendLines([HeaderLine(section)], EntryLines(m, section, keys));
    AppendLines([HeaderLine(section)] + EntryLines(m, section, keys), [""]);
  }

  lemma AppendLines(a: seq<string>, b: seq<string>)
    requires AllOneLine(a) && AllOneLine(b)
    ensures AllOneLine(a + b)
  {
  }

  lemma AllSections(m: Settings)
    ensures AllUntouched(m, EMPTY, Sorted(SectionsOf(m)))
  {
    var sections := Sorted(SectionsOf(m));
    forall i | 0 <= i < |sections| ensures sections[i] in SectionsOf(m) { assert sections[i] in sections; }
  }

  lemma UnderAll(m: Settings)
    ensures map[] + Under(m, Elements(Sorted(SectionsOf(m)))) == m
  {
    var sections := Sorted(SectionsOf(m));
    forall id | id in m ensures id.section in Elements(sections) { assert id.section in SectionsOf(m); }
  }

  lemma DropLastBlank(r: Option<Reader>, most: seq<string>)
    ensures ReadLines(r, most + [""]) == ReadLines(r, most)
  {
    ReadAppend(r, most, [""]);
    LastBlank(ReadLines(r, most));
  }

  lemma JoinedReads(r: Option<Reader>, lines: seq<string>)
    requires AllOneLine(lines) && (lines != [] ==> lines[|lines| - 1] == "")
    ensures ReadLines(r, SplitLines(Join(lines))) == ReadLines(r, lines)
  {
    if lines != [] {
      SplitJoined(lines);
      var most := lines[..|lines| - 1];
      DropLastBlank(r, most);
      assert lines == most + [""];
    }
  }

  /** Clean settings survive rendering and reading. */
  lemma TextReadsBack(m: Settings)
    requires Clean(m)
    ensures Parse(Text(m)) == Some(m)
  {
    var sections := Sorted(SectionsOf(m));
    AllSections(m);
    UnderAll(m);
    RenderedAreLines(m, sections);
    ReadsSections(m, EMPTY, sections);
    JoinedReads(Some(EMPTY), RenderLines(m, sections));
  }

  lemma LastBlank(r: Option<Reader>)
    ensures ReadLines(r, [""]) == r
  {
    if r.Some? { ReadOne(r.value, ""); }
  }

  // ----- The hardened file

  const USERNAME := Id("Preferences", "WebUI\\Username")
  const PASSWORD := Id("Preferences", "WebUI\\Password_PBKDF2")
  const LEGACY := {Id("Preferences", "WebUI\\Password"), Id("Preferences", "WebUI\\Password_ha1")}
  const MIGRATION := Id("Meta", "MigrationVersion")

  const PREFERENCES: map<string, string> := map[
    "WebUI\\HostHeaderValidation" := "true",
    "WebUI\\ServerDomains" := "qbittorrent;localhost",
    "WebUI\\CSRFProtection" := "true",
    "WebUI\\LocalHostAuth" := "true",
    "WebUI\\AuthSubnetWhitelistEnabled" := "false",
    "WebUI\\ReverseProxySupportEnabled" := "false",
    "WebUI\\Enabled" := "true",
    "WebUI\\Address" := "*",
    "WebUI\\Port" := "8080",
    "WebUI\\HTTPS\\Enabled" := "false",
    "AutoRun\\OnTorrentAdded\\Enabled" := "false",
    "AutoRun\\OnTorrentAdded\\Program" := "",
    "AutoRun\\enabled" := "false",
    "AutoRun\\program" := "",
    "AutoRun\\ConsoleEnabled" := "false"]

  const NETWORK: map<string, string> := map[
    "Proxy\\Type" := "HTTP",
    "Proxy\\IP" := "newgreedy",
    "Proxy\\Port" := "3456",
    "Proxy\\AuthEnabled" := "false",
    "Proxy\\HostnameLookupEnabled" := "true",
    "Proxy\\Profiles\\BitTorrent" := "true",
    "Proxy\\Profiles\\RSS" := "false",
    "Proxy\\Profiles\\Misc" := "false"]

  const BITTORRENT: map<string, string> := map[
    "Session\\ProxyPeerConnections" := "false",
    "Session\\QueueingSystemEnabled" := "true",
    "Session\\MaxActiveDownloads" := "-1",
    "Session\\MaxActiveUploads" := "1000",
    "Session\\MaxActiveTorrents" := "-1",
    "Session\\IgnoreSlowTorrentsForQueueing" := "false",
    "Session\\DefaultSavePath" := "/data"]

  function InSection(section: string, m: map<string, string>): Settings {
    map key | key in m :: Id(section, key) := m[key]
  }

  /** The security contract of the deployment's policy file. */
  function Required(): Settings {
    InSection("Preferences", PREFERENCES) + InSection("Network", NETWORK) + InSection("BitTorrent", BITTORRENT)
  }

  function Hash(found: Settings, password: string, matches: (string, string) -> bool, generated: string): string {
    var current := if PASSWORD in found then found[PASSWORD] else "";
    if matches(current, password) then current else generated
  }

  function Merged(found: Settings, required: Settings, username: string, hash: string): Settings {
    ((found - LEGACY) + required[USERNAME := username][PASSWORD := hash])[MIGRATION := "8"]
  }

  /** `None` where the policy breaks its contract or the existing file cannot be read; `generated` is
      the hash that would be made with a new salt. */
  function Render(policy: string, existing: string, username: string, password: string,
                  matches: (string, string) -> bool, generated: string): Option<string> {
    if Parse(policy) != Some(Required()) then None
    else
      match Parse(existing)
      case None => None
      case Some(found) => Some(Text(Merged(found, Required(), username, Hash(found, password, matches, generated))))
  }

  predicate Wordy(s: string) { forall i :: 0 <= i < |s| ==> '0' <= s[i] <= '9' || 'A' <= s[i] <= 'z' }

  lemma WordyIsClean(section: string, key: string, value: string)
    requires section != "" && Wordy(section) && Wordy(key) && CleanValue(value) && (key != "" ==> key[0] != '[')
    ensures CleanSetting(Id(section, key), value)
  {
    forall c | c in key ensures c != '=' {}
    forall i | 0 <= i < |section| ensures !Break(section[i]) {}
    forall i | 0 <= i < |key| ensures !Break(key[i]) && !Space(key[i]) {}
  }

  lemma UsernameClean(username: string)
    requires CleanValue(username)
    ensures CleanSetting(USERNAME, username)
  {
    WordyIsClean("Preferences", "WebUI\\Username", username);
  }

  lemma PasswordClean(hash: string)
    requires CleanValue(hash)
    ensures CleanSetting(PASSWORD, hash)
  {
    WordyIsClean("Preferences", "WebUI\\Password_PBKDF2", hash);
  }

  lemma MigrationClean()
    ensures CleanSetting(MIGRATION, "8")
  {
    WordyIsClean("Meta", "MigrationVersion", "8");
  }

  lemma MergedIsClean(policy: string, existing: string, username: string, hash: string)
    requires Parse(policy) == Some(Required()) && Parse(existing).Some? && CleanValue(username) && CleanValue(hash)
    ensures Clean(Merged(Parse(existing).value, Required(), username, hash))
  {
    ParsedIsClean(policy);
    ParsedIsClean(existing);
    UsernameClean(username);
    PasswordClean(hash);
    MigrationClean();
    MergeClean(Parse(existing).value, Required(), username, hash);
  }

  lemma MergeClean(found: Settings, required: Settings, username: string, hash: string)
    requires Clean(found) && Clean(required)
    requires CleanSetting(USERNAME, username) && CleanSetting(PASSWORD, hash) && CleanSetting(MIGRATION, "8")
    ensures Clean(Merged(found, required, username, hash))
  {
  }

  lemma HashIsClean(existing: string, password: string, matches: (string, string) -> bool, generated: string)
    requires Parse(existing).Some? && CleanValue(generated)
    ensures CleanValue(Hash(Parse(existing).value, password, matches, generated))
  {
    ParsedIsClean(existing);
    if PASSWORD in Parse(existing).value { assert CleanSetting(PASSWORD, Parse(existing).value[PASSWORD]); }
  }

  /** Reading the rendered file gives the old settings without the two legacy password keys, overridden by
      the policy, the username, the hash and the migration marker. */
  lemma RenderReadsBack(policy: string, existing: string, username: string, password: string,
                        matches: (string, string) -> bool, generated: string)
    requires CleanValue(username) && CleanValue(generated)
    requires Render(policy, existing, username, password, matches, generated).Some?
    ensures Parse(existing).Some?
    ensures var found := Parse(existing).value;
            Parse(Render(policy, existing, username, password, matches, generated).value)
            == Some(Merged(found, Required(), username, Hash(found, password, matches, generated)))
  {
    var found := Parse(existing).value;
    var hash := Hash(found, password, matches, generated);
    HashIsClean(existing, password, matches, generated);
    MergedIsClean(policy, existing, username, hash);
    TextReadsBack(Merged(found, Required(), username, hash));
  }

  lemma MergedTwice(found: Settings, required: Settings, username: string, hash: string)
    ensures var m := Merged(found, required, username, hash);
            Merged(m, required, username, hash) == m && PASSWORD in m && m[PASSWORD] == hash
  {
    assert |PASSWORD.section| != |MIGRATION.section|;
  }

  /** If the hash that gets written matches its password, rendering the rendered file changes nothing,
      whatever hash a new salt would have given. */
  lemma RenderIsIdempotent(policy: string, existing: string, username: string, password: string,
                           matches: (string, string) -> bool, generated: string, other: string)
    requires CleanValue(username) && CleanValue(generated) && matches(generated, password)
    requires Render(policy, existing, username, password, matches, generated).Some?
    ensures var text := Render(policy, existing, username, password, matches, generated).value;
            Render(policy, text, username, password, matches, other) == Some(text)
  {
    RenderReadsBack(policy, existing, username, password, matches, generated);
    var found := Parse(existing).value;
    var hash := Hash(found, password, matches, generated);
    MergedTwice(found, Required(), username, hash);
  }

  ghost predicate Reserved(key: string) {
    key == "WebUI\\Username" || key == "WebUI\\Password_PBKDF2" || key == "WebUI\\Password" ||
      key == "WebUI\\Password_ha1"
  }

  lemma ReservedShape(key: string)
    requires Reserved(key)
    ensures |key| in {14, 18, 21} && key[0] == 'W' && (key[6] == 'U' || (key[6] == 'P' && key[7] == 'a'))
  {
  }

  lemma PolicyLeavesReserved(key: string)
    requires Reserved(key)
    ensures key !in PREFERENCES
  {
    ReservedShape(key);
  }

  lemma InSectionIds(section: string, m: map<string, string>, id: Id)
    requires id in InSection(section, m)
    ensures id.section == section && id.key in m
  {
  }

  lemma RequiredElsewhere(id: Id)
    requires id in Required()
    ensures id != USERNAME && id != PASSWORD && id !in LEGACY && id != MIGRATION
  {
    var p, n, b := InSection("Preferences", PREFERENCES), InSection("Network", NETWORK),
      InSection("BitTorrent", BITTORRENT);
    if id in b {
      InSectionIds("BitTorrent", BITTORRENT, id);
      OtherSection(id);
    } else if id in n {
      InSectionIds("Network", NETWORK, id);
      OtherSection(id);
    } else {
      assert id in p;
      InSectionIds("Preferences", PREFERENCES, id);
      PolicyKey(id);
    }
  }

  lemma OtherSection(id: Id)
    requires |id.section| == 10 || |id.section| == 7
    ensures id != USERNAME && id != PASSWORD && id !in LEGACY && id != MIGRATION
  {
    assert |USERNAME.section| == 11 && |PASSWORD.section| == 11 && |MIGRATION.section| == 4;
    assert forall x :: x in LEGACY ==> |x.section| == 11;
  }

  lemma PolicyKey(id: Id)
    requires id.section == "Preferences" && id.key in PREFERENCES
    ensures id != USERNAME && id != PASSWORD && id !in LEGACY && id != MIGRATION
  {
    if Reserved(id.key) { PolicyLeavesReserved(id.key); }
    assert |id.section| == 11 && |MIGRATION.section| == 4;
  }

  lemma FixedIdsDiffer()
    ensures USERNAME != PASSWORD && USERNAME != MIGRATION && PASSWORD != MIGRATION
    ensures USERNAME !in LEGACY && PASSWORD !in LEGACY && MIGRATION !in LEGACY
  {
    assert |MIGRATION.section| == 4 && |USERNAME.section| == 11;
    assert |USERNAME.key| == 14 && |PASSWORD.key| == 21;
    assert USERNAME.key[6] == 'U' && "WebUI\\Password"[6] == 'P';
  }

  /** What the rendered file settles: the policy to the letter, the credential, no legacy password, and
      every other setting as it was found. */
  lemma MergedSettles(found: Settings, username: string, hash: string)
    ensures var m := Merged(found, Required(), username, hash);
            && (forall id :: id in Required() ==> id in m && m[id] == Required()[id])
            && USERNAME in m && m[USERNAME] == username
            && PASSWORD in m && m[PASSWORD] == hash
            && MIGRATION in m && m[MIGRATION] == "8"
            && (forall id :: id in LEGACY ==> id !in m)
            && (forall id :: id !in Required() && id !in {USERNAME, PASSWORD, MIGRATION} && id !in LEGACY ==>
                  (id in m <==> id in found) && (id in m ==> m[id] == found[id]))
  {
    FixedIdsDiffer();
    forall id | id in Required() ensures id != USERNAME && id != PASSWORD && id !in LEGACY && id != MIGRATION {
      RequiredElsewhere(id);
    }
    MergedGeneral(found, Required(), username, hash);
  }

  lemma MergedGeneral(found: Settings, required: Settings, username: string, hash: string)
    requires USERNAME != PASSWORD && USERNAME != MIGRATION && PASSWORD != MIGRATION
    requires USERNAME !in LEGACY && PASSWORD !in LEGACY && MIGRATION !in LEGACY
    requires forall id :: id in required ==> id != USERNAME && id != PASSWORD && id !in LEGACY && id != MIGRATION
    ensures var m := Merged(found, required, username, hash);
            && (forall id :: id in required ==> id in m && m[id] == required[id])
            && USERNAME in m && m[USERNAME] == username
            && PASSWORD in m && m[PASSWORD] == hash
            && MIGRATION in m && m[MIGRATION] == "8"
            && (forall id :: id in LEGACY ==> id !in m)
            && (forall id :: id !in required && id !in {USERNAME, PASSWORD, MIGRATION} && id !in LEGACY ==>
                  (id in m <==> id in found) && (id in m ==> m[id] == found[id]))
  {
  }

  predicate NameChar(c: char) {
    'A' <= c <= 'Z' || 'a' <= c <= 'z' || '0' <= c <= '9' || c == '_' || c == '.' || c == '@' || c == '-'
  }

  /** The user names that the account registry admits are clean. */
  lemma UsernameIsClean(username: string)
    requires 1 <= |username| <= 128 && forall i :: 0 <= i < |username| ==> NameChar(username[i])
    ensures CleanValue(username)
  {
    assert NameChar(username[0]) && NameChar(username[|username| - 1]);
  }

  predicate Base64Char(c: char) {
    'A' <= c <= 'Z' || 'a' <= c <= 'z' || '0' <= c <= '9' || c == '+' || c == '/' || c == '='
  }

  /** So are generated password hashes. */
  lemma GeneratedIsClean(salt: string, derived: string)
    requires forall i :: 0 <= i < |salt| ==> Base64Char(salt[i])
    requires forall i :: 0 <= i < |derived| ==> Base64Char(derived[i])
    ensures CleanValue("\"@ByteArray(" + salt + ":" + derived + ")\"")
  {
    var a, z := "\"@ByteArray(", ")\"";
    OneLineJoin(a, salt);
    OneLineJoin(a + salt, ":");
    OneLineJoin(a + salt + ":", derived);
    OneLineJoin(a + salt + ":" + derived, z);
  }

  lemma OneLineJoin(a: string, b: string)
    requires OneLine(a) && OneLine(b)
    ensures OneLine(a + b)
  {
  }

  // ----- Which files are refused

  /** A line is skipped exactly when it is blank or a comment. */
  lemma SkippedMeans(raw: string)
    ensures Classify(raw).Blank? <==> Strip(raw) == "" || Strip(raw)[0] == '#' || Strip(raw)[0] == ';'
  {
  }

  /** A header is exactly a text in brackets, and names what stands between them. */
  lemma HeaderMeans(raw: string)
    ensures var t := Strip(raw);
            && (Classify(raw).Header? <==> t != "" && t[0] == '[' && t[|t| - 1] == ']')
            && (Classify(raw).Header? ==> |t| >= 2 && Classify(raw).section == t[1..|t| - 1])
  {
  }

  /** Any other line sets a key exactly when it has a sign: the key stands before the first one, the value after
      it, blanks around either dropped. */
  lemma SettingMeans(raw: string)
    ensures var t, line := Strip(raw), Classify(raw);
            && (line.Bad? ==> '=' !in t)
            && (line.Setting? ==>
                exists i :: SignAt(t, i) && line.key == Strip(t[..i]) && line.value == Strip(t[i + 1..]))
  {
    var t := Strip(raw);
    var i := Find(t, '=');
    assert t[..|t|] == t;
    if i < |t| { assert SignAt(t, i); }
  }

  /** The first sign of the text is at i. */
  ghost predicate SignAt(t: string, i: int) { 0 <= i < |t| && t[i] == '=' && '=' !in t[..i] }

  /** Comments and blank lines may stand anywhere and change nothing. */
  lemma CommentsAreSkipped(before: seq<string>, comment: string, after: seq<string>)
    requires Strip(comment) == "" || Strip(comment)[0] == '#' || Strip(comment)[0] == ';'
    ensures ReadLines(Some(EMPTY), before + [comment] + after) == ReadLines(Some(EMPTY), before + after)
  {
    ReadAppend(Some(EMPTY), before + [comment], after);
    ReadAppend(Some(EMPTY), before, [comment]);
    ReadAppend(Some(EMPTY), before, after);
    var r := ReadLines(Some(EMPTY), before);
    if r.Some? { ReadOne(r.value, comment); }
  }

  /** The section that line i stands in: that of the last header above it, or none. */
  ghost function SectionAt(lines: seq<string>, i: nat): string
    requires i <= |lines|
  {
    if i == 0 then "" else if Classify(lines[i - 1]).Header? then Classify(lines[i - 1]).section
    else SectionAt(lines, i - 1)
  }

  /** The key that line i sets, in the section it stands in. */
  ghost function IdAt(lines: seq<string>, i: nat): Id
    requires i < |lines| && Classify(lines[i]).Setting?
  {
    Id(SectionAt(lines, i), Classify(lines[i]).key)
  }

  ghost predicate Sets(lines: seq<string>, i: nat, id: Id)
    requires i < |lines|
  {
    Classify(lines[i]).Setting? && IdAt(lines, i) == id
  }

  ghost predicate HoldsValue(lines: seq<string>, i: nat, found: Settings)
    requires i < |lines|
  {
    Classify(lines[i]).Setting? ==>
      IdAt(lines, i) in found && found[IdAt(lines, i)] == Classify(lines[i]).value
  }

  /** Line i is not readable, repeats a header, sets a key outside a section, or sets one that is set above. */
  ghost predicate Fault(lines: seq<string>, i: nat)
    requires i < |lines|
  {
    match Classify(lines[i])
    case Blank => false
    case Bad => true
    case Header(section) => Opened(lines, i, section)
    case Setting(_, _) => SectionAt(lines, i) == "" || SetAbove(lines, i, IdAt(lines, i))
  }

  ghost predicate Opened(lines: seq<string>, n: nat, section: string)
    requires n <= |lines|
  {
    exists j: nat :: j < n && Classify(lines[j]) == Header(section)
  }

  ghost predicate SetAbove(lines: seq<string>, n: nat, id: Id)
    requires n <= |lines|
  {
    exists j: nat :: j < n && Sets(lines, j, id)
  }

  ghost predicate Faultless(lines: seq<string>, n: nat)
    requires n <= |lines|
  {
    forall i: nat :: i < n ==> !Fault(lines, i)
  }

  /** What the reader knows after n faultless lines. */
  ghost predicate Knows(lines: seq<string>, n: nat, r: Reader)
    requires n <= |lines|
  {
    && r.section == SectionAt(lines, n)
    && (forall section :: section in r.sections <==> Opened(lines, n, section))
    && (forall id :: id in r.result <==> SetAbove(lines, n, id))
    && (forall i: nat :: i < n ==> HoldsValue(lines, i, r.result))
  }

  lemma OpenedMore(lines: seq<string>, n: nat, section: string)
    requires n < |lines|
    ensures Opened(lines, n + 1, section) <==> Opened(lines, n, section) || Classify(lines[n]) == Header(section)
  {
  }

  lemma SetMore(lines: seq<string>, n: nat, id: Id)
    requires n < |lines|
    ensures SetAbove(lines, n + 1, id) <==> SetAbove(lines, n, id) || Sets(lines, n, id)
  {
  }

  lemma StepFaults(lines: seq<string>, n: nat, r: Reader)
    requires n < |lines| && Knows(lines, n, r)
    ensures Step(r, lines[n]).Some? <==> !Fault(lines, n)
    ensures !Fault(lines, n) ==> Step(r, lines[n]).value.section == SectionAt(lines, n + 1)
  {
  }

  lemma StepKnows(lines: seq<string>, n: nat, r: Reader)
    requires n < |lines| && Knows(lines, n, r)
    ensures Step(r, lines[n]).Some? <==> !Fault(lines, n)
    ensures !Fault(lines, n) ==> Knows(lines, n + 1, Step(r, lines[n]).value)
  {
    StepFaults(lines, n, r);
    if !Fault(lines, n) {
      var r', next := Step(r, lines[n]).value, n + 1;
      forall section ensures section in r'.sections <==> Opened(lines, next, section) {
        SectionKept(lines, n, r, r', section);
      }
      forall id ensures id in r'.result <==> SetAbove(lines, next, id) { KeyKept(lines, n, r, r', id); }
      forall i: nat | i < next ensures HoldsValue(lines, i, r'.result) { ValueKept(lines, n, r, r', i); }
    }
  }

  lemma SectionKept(lines: seq<string>, n: nat, r: Reader, r': Reader, section: string)
    requires n < |lines| && Knows(lines, n, r) && Step(r, lines[n]) == Some(r')
    ensures section in r'.sections <==> Opened(lines, n + 1, section)
  {
    OpenedMore(lines, n, section);
  }

  lemma KeyKept(lines: seq<string>, n: nat, r: Reader, r': Reader, id: Id)
    requires n < |lines| && Knows(lines, n, r) && Step(r, lines[n]) == Some(r')
    ensures id in r'.result <==> SetAbove(lines, n + 1, id)
  {
    SetMore(lines, n, id);
  }

  lemma ValueKept(lines: seq<string>, n: nat, r: Reader, r': Reader, i: nat)
    requires i <= n < |lines| && Knows(lines, n, r) && !Fault(lines, n) && Step(r, lines[n]) == Some(r')
    ensures HoldsValue(lines, i, r'.result)
  {
    if i < n && Classify(lines[i]).Setting? {
      assert HoldsValue(lines, i, r.result);
      if Classify(lines[n]).Setting? && IdAt(lines, i) == IdAt(lines, n) { assert Sets(lines, i, IdAt(lines, n)); }
    }
  }

  lemma ReadMore(lines: seq<string>, n: nat)
    requires n < |lines|
    ensures var r := ReadLines(Some(EMPTY), lines[..n]);
            ReadLines(Some(EMPTY), lines[..n + 1]) == if r.None? then None else Step(r.value, lines[n])
  {
    assert lines[..n + 1] == lines[..n] + [lines[n]];
    ReadAppend(Some(EMPTY), lines[..n], [lines[n]]);
    var r := ReadLines(Some(EMPTY), lines[..n]);
    if r.Some? { ReadOne(r.value, lines[n]); }
  }

  lemma FaultlessMore(lines: seq<string>, n: nat)
    requires n < |lines|
    ensures Faultless(lines, n + 1) <==> Faultless(lines, n) && !Fault(lines, n)
  {
  }

  lemma NothingKnown(lines: seq<string>)
    ensures Knows(lines, 0, EMPTY)
  {
  }

  lemma {:induction false} PrefixKnows(lines: seq<string>, n: nat)
    requires n <= |lines|
    ensures ReadLines(Some(EMPTY), lines[..n]).Some? <==> Faultless(lines, n)
    ensures Faultless(lines, n) ==> Knows(lines, n, ReadLines(Some(EMPTY), lines[..n]).value)
  {
    if n == 0 {
      NothingKnown(lines);
    } else {
      PrefixKnows(lines, n - 1);
      ReadMore(lines, n - 1);
      FaultlessMore(lines, n - 1);
      var r := ReadLines(Some(EMPTY), lines[..n - 1]);
      if r.Some? { StepKnows(lines, n - 1, r.value); }
    }
  }

  /** A file is refused if and only if one of its lines is a fault; otherwise exactly the keys that it sets are
      read, each with the value on its line. */
  lemma ParseIff(text: string)
    ensures var lines := SplitLines(text);
            && (Parse(text).Some? <==> Faultless(lines, |lines|))
            && (Parse(text).Some? ==>
                  && (forall id :: id in Parse(text).value <==> SetAbove(lines, |lines|, id))
                  && (forall i: nat :: i < |lines| ==> HoldsValue(lines, i, Parse(text).value)))
  {
    var lines := SplitLines(text);
    assert lines[..|lines|] == lines;
    PrefixKnows(lines, |lines|);
  }

  /** A file is rendered if and only if the policy is the contract and the existing file can be read. */
  lemma RenderIff(policy: string, existing: string, username: string, password: string,
                  matches: (string, string) -> bool, generated: string)
    ensures Render(policy, existing, username, password, matches, generated).Some? <==>
            Parse(policy) == Some(Required()) && Parse(existing).Some?
  {
  }

  /** The hash in the file is kept while it matches the password, and replaced by the generated one otherwise. */
  lemma RenderedHash(policy: string, existing: string, username: string, password: string,
                     matches: (string, string) -> bool, generated: string)
    requires CleanValue(username) && CleanValue(generated)
    requires Render(policy, existing, username, password, matches, generated).Some?
    ensures Parse(existing).Some?
    ensures var found := Parse(existing).value;
            var kept := if PASSWORD in found then found[PASSWORD] else "";
            var after := Parse(Render(policy, existing, username, password, matches, generated).value);
            && after.Some? && PASSWORD in after.value
            && after.value[PASSWORD] == if matches(kept, password) then kept else generated
  {
    RenderReadsBack(policy, existing, username, password, matches, generated);
    var found := Parse(existing).value;
    MergedTwice(found, Required(), username, Hash(found, password, matches, generated));
  }

  // ----- The loops

  /** One line: `None` where the source raises. */
  method ReadLine(r: Reader, raw: string) returns (next: Option<Reader>)
    ensures next == Step(r, raw)
  {
    var line := Strip(raw);
    if line == "" || line[0] == '#' || line[0] == ';' { return Some(r); }
    if line[0] == '[' && line[|line| - 1] == ']' {
      var section := line[1..|line| - 1];
      if section in r.sections { return None; }
      return Some(Reader(r.result, section, r.sections + {section}));
    }
    var i := Find(line, '=');
    if r.section == "" || i == |line| { return None; }
    var id := Id(r.section, Strip(line[..i]));
    if id in r.result { return None; }
    next := Some(Reader(r.result[id := Strip(line[i + 1..])], r.section, r.sections));
  }

  lemma ReadCons(r: Reader, lines: seq<string>, k: nat)
    requires k < |lines|
    ensures ReadLines(Some(r), lines[k..]) == ReadLines(Step(r, lines[k]), lines[k + 1..])
  {
    assert lines[k..][0] == lines[k] && lines[k..][1..] == lines[k + 1..];
  }

  method ReadSettings(text: string) returns (result: Option<Settings>)
    ensures result == Parse(text)
  {
    var r := EMPTY;
    var lines := SplitLines(text);
    for k := 0 to |lines|
      invariant ReadLines(Some(EMPTY), lines) == ReadLines(Some(r), lines[k..])
    {
      ReadCons(r, lines, k);
      var next := ReadLine(r, lines[k]);
      if next == None { return None; }
      r := next.value;
    }
    result := Some(r.result);
  }

  method RenderSettings(policy: string, existing: string, username: string, password: string,
                        matches: (string, string) -> bool, generated: string) returns (text: Option<string>)
    ensures text == Render(policy, existing, username, password, matches, generated)
  {
    var versioned := ReadSettings(policy);
    if versioned != Some(Required()) { return None; }
    var read := ReadSettings(existing);
    if read == None { return None; }
    var settings := read.value;
    var hash := Hash(settings, password, matches, generated);
    var desired := versioned.value[USERNAME := username][PASSWORD := hash];
    settings := settings - LEGACY;
    settings := settings + desired;
    settings := settings[MIGRATION := "8"];
    var lines := RenderAll(settings);
    text := Some(Join(lines));
  }

  lemma RenderStep(m: Settings, sections: seq<string>, k: nat, lines: seq<string>)
    requires k < |sections|
    ensures lines + RenderLines(m, sections[k..]) ==
            lines + [HeaderLine(sections[k])] + EntryLines(m, sections[k], Sorted(KeysOf(m, sections[k]))) + [""]
            + RenderLines(m, sections[k + 1..])
  {
    var header, entries := [HeaderLine(sections[k])], EntryLines(m, sections[k], Sorted(KeysOf(m, sections[k])));
    var others := RenderLines(m, sections[k + 1..]);
    assert sections[k..][0] == sections[k] && sections[k..][1..] == sections[k + 1..];
    Regroup(lines, header, entries, [""], others);
  }

  lemma Regroup(a: seq<string>, b: seq<string>, c: seq<string>, d: seq<string>, e: seq<string>)
    ensures a + ((b + c + d) + e) == a + b + c + d + e
  {
  }

  method RenderAll(settings: Settings) returns (lines: seq<string>)
    ensures lines == RenderLines(settings, Sorted(SectionsOf(settings)))
  {
    lines := [];
    var sections := Sorted(SectionsOf(settings));
    for k := 0 to |sections|
      invariant RenderLines(settings, sections) == lines + RenderLines(settings, sections[k..])
    {
      var section := sections[k];
      RenderStep(settings, sections, k, lines);
      lines := lines + [HeaderLine(section)];
      lines := lines + EntryLines(settings, section, Sorted(KeysOf(settings, section)));
      lines := lines + [""];
    }
  }
}
