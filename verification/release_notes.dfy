/** The release-notes script (scripts/release_notes.sh): a streaming extractor of one section of the
    changelog, its fallback, and the trimming of empty lines. A file is its sequence of lines. */
module ReleaseNotes {
  import opened Common

  const HEADING := "## "
  const UNRELEASED := "Unreleased"

  predicate Space(c: char) {
    c == ' ' || 9 <= c as int <= 13
  }

  predicate AllSpace(s: string) {
    forall i :: 0 <= i < |s| ==> Space(s[i])
  }

  /** What is left of s after its leading whitespace. */
  function SkipSpaces(s: string): (r: string)
    ensures |r| <= |s| && r == s[|s| - |r|..] && AllSpace(s[..|s| - |r|])
    ensures r != [] ==> !Space(r[0])
  {
    if s == [] || !Space(s[0]) then s else SkipSpaces(s[1..])
  }

  /** The part of a link definition after the closing bracket: a colon, whitespace, a URL. */
  predicate UrlFollows(s: string) {
    s != [] && s[0] == ':' && "http" <= SkipSpaces(s[1..])
  }

  /** ^\[[^]]+\]:[[:space:]]*http : the class [^]] cannot cross a bracket, so the closing bracket is
      the first one. */
  predicate LinkDefinition(line: string) {
    && line != [] && line[0] == '['
    && (var k := IndexOfChar(line[1..], ']');
        0 < k < |line| - 1 && UrlFollows(line[1..][k + 1..]))
  }

  function IndexOfChar(s: string, c: char): (k: nat)
    ensures k <= |s| && c !in s[..k] && (k < |s| ==> s[k] == c)
  {
    if s == [] || s[0] == c then 0 else 1 + IndexOfChar(s[1..], c)
  }

  /** A line that ends the section being printed. */
  predicate IsStop(line: string) {
    HEADING <= line || LinkDefinition(line)
  }

  function UrlPart(gap: string, rest: string): string {
    ":" + (gap + ("http" + rest))
  }

  /** The text with the pattern's parts: brackets around a name, a colon, a gap, a URL. */
  function LinkLine(name: string, gap: string, rest: string): string {
    "[" + (name + ("]" + UrlPart(gap, rest)))
  }

  ghost predicate LinkParts(line: string, name: string, gap: string, rest: string) {
    line == LinkLine(name, gap, rest) && name != [] && ']' !in name && AllSpace(gap)
  }

  /** The scanner accepts exactly the lines of the regular expression's language. */
  lemma LinkLanguage(line: string)
    ensures LinkDefinition(line) <==> exists name, gap, rest :: LinkParts(line, name, gap, rest)
  {
    hide LinkDefinition, LinkLine;
    if LinkDefinition(line) {
      var name, gap, rest := LinkSplit(line);
    }
    forall name, gap, rest | LinkParts(line, name, gap, rest) ensures LinkDefinition(line) {
      LinkAccepted(name, gap, rest);
    }
  }

  lemma UrlSplit(s: string) returns (gap: string, rest: string)
    requires UrlFollows(s)
    ensures s == UrlPart(gap, rest) && AllSpace(gap)
  {
    hide SkipSpaces, AllSpace;
    var after := s[1..];
    var url := SkipSpaces(after);
    gap, rest := after[..|after| - |url|], url[4..];
    assert url == "http" + rest;
    assert after == gap + url;
    assert s == [s[0]] + after;
  }

  lemma LinkSplit(line: string) returns (name: string, gap: string, rest: string)
    requires LinkDefinition(line)
    ensures LinkParts(line, name, gap, rest)
  {
    hide UrlFollows, UrlPart, IndexOfChar, AllSpace;
    var t := line[1..];
    var k := IndexOfChar(t, ']');
    name := t[..k];
    gap, rest := UrlSplit(t[k + 1..]);
    assert line == [line[0]] + t;
    assert t == name + ([t[k]] + t[k + 1..]);
  }

  lemma {:induction false} FirstAt(s: string, c: char, k: nat)
    requires k < |s| && s[k] == c && c !in s[..k]
    ensures IndexOfChar(s, c) == k
  {
    if k > 0 {
      assert s[..k][0] == s[0] && s[1..][..k - 1] == s[..k][1..];
      FirstAt(s[1..], c, k - 1);
    }
  }

  lemma {:induction false} SkipsGap(gap: string, s: string)
    requires AllSpace(gap) && s != [] && !Space(s[0])
    ensures SkipSpaces(gap + s) == s
  {
    if gap == [] {
      assert gap + s == s;
    } else {
      assert (gap + s)[1..] == gap[1..] + s;
      SkipsGap(gap[1..], s);
    }
  }

  lemma UrlAccepted(gap: string, rest: string)
    requires AllSpace(gap)
    ensures UrlFollows(UrlPart(gap, rest))
  {
    hide SkipSpaces, AllSpace;
    var url := "http" + rest;
    assert UrlPart(gap, rest)[1..] == gap + url;
    assert url[..4] == "http";
    SkipsGap(gap, url);
  }

  lemma LinkAccepted(name: string, gap: string, rest: string)
    requires name != [] && ']' !in name && AllSpace(gap)
    ensures LinkDefinition(LinkLine(name, gap, rest))
  {
    hide UrlFollows, UrlPart, IndexOfChar, AllSpace;
    var url := UrlPart(gap, rest);
    var line, t := LinkLine(name, gap, rest), name + ("]" + url);
    assert line[1..] == t;
    assert t[|name|] == ']' && t[..|name|] == name;
    FirstAt(t, ']', |name|);
    assert t[|name| + 1..] == url;
    UrlAccepted(gap, rest);
  }

  /** A line stops the printing exactly if it starts with the heading mark or is a link definition. */
  lemma StopLanguage(line: string)
    ensures IsStop(line) <==> "## " <= line || exists name, gap, rest :: LinkParts(line, name, gap, rest)
  {
    LinkLanguage(line);
    hide LinkDefinition, LinkParts;
  }

  // ---- extract ------------------------------------------------------------------------------

  function FirstHeading(lines: seq<string>, want: string): (h: nat)
    ensures h <= |lines| && (h < |lines| ==> want <= lines[h])
    ensures forall j :: 0 <= j < h ==> !(want <= lines[j])
  {
    if lines == [] || want <= lines[0] then 0 else 1 + FirstHeading(lines[1..], want)
  }

  function FirstStop(lines: seq<string>): (e: nat)
    ensures e <= |lines|
  {
    if lines == [] || IsStop(lines[0]) then 0 else 1 + FirstStop(lines[1..])
  }

  lemma {:induction false} FirstStopStops(lines: seq<string>)
    ensures var e := FirstStop(lines);
      && (e < |lines| ==> IsStop(lines[e]))
      && forall j :: 0 <= j < e ==> !IsStop(lines[j])
  {
    hide IsStop;
    if lines != [] && !IsStop(lines[0]) {
      FirstStopStops(lines[1..]);
    }
  }

  /** The lines strictly between the first line that starts with want and the next stop line. */
  function Slice(lines: seq<string>, want: string): seq<string> {
    var h := FirstHeading(lines, want);
    if h == |lines| then []
    else
      var rest := lines[h + 1..];
      rest[..FirstStop(rest)]
  }

  /** The line automaton, with its one flag. */
  method Extract(lines: seq<string>, want: string) returns (out: seq<string>)
    ensures out == Slice(lines, want)
  {
    hide IsStop, FirstHeading, FirstStop;
    out := [];
    var section := false;
    ghost var h := FirstHeading(lines, want);
    for i := 0 to |lines|
      invariant section <==> h < i
      invariant out == if section then lines[h + 1..i] else []
      invariant forall j :: h < j < i ==> !IsStop(lines[j])
    {
      var line := lines[i];
      if section && IsStop(line) {
        break;
      }
      if !section && want <= line {
        section := true;
        continue;
      }
      if section {
        out := out + [line];
      }
    }
    if section {
      FirstStopStops(lines[h + 1..]);
      assert lines[h + 1..][..|out|] == out;
    }
  }

  // ---- trimming -----------------------------------------------------------------------------

  /** What command substitution strips: the empty lines at the end. */
  function DropTrailing(lines: seq<string>): (r: seq<string>)
    ensures r <= lines && (forall i :: |r| <= i < |lines| ==> lines[i] == "")
    ensures r != [] ==> r[|r| - 1] != ""
  {
    if lines == [] || lines[|lines| - 1] != "" then lines else DropTrailing(lines[..|lines| - 1])
  }

  /** What sed deletes: the empty lines before the first line with a character in it. */
  function DropLeading(lines: seq<string>): (r: seq<string>)
    ensures |r| <= |lines| && r == lines[|lines| - |r|..]
    ensures forall i :: 0 <= i < |lines| - |r| ==> lines[i] == ""
    ensures r != [] ==> r[0] != ""
  {
    if lines == [] || lines[0] != "" then lines else DropLeading(lines[1..])
  }

  function Trim(lines: seq<string>): seq<string> {
    DropLeading(DropTrailing(lines))
  }

  /** Nothing is left once all whitespace is deleted. */
  predicate Blank(lines: seq<string>) {
    forall i :: 0 <= i < |lines| ==> AllSpace(lines[i])
  }

  /** Some character is none of the six of [:space:]: blank, tab, line feed, vertical tab, form feed,
      carriage return. */
  ghost predicate HasText(lines: seq<string>) {
    exists i, j :: 0 <= i < |lines| && 0 <= j < |lines[i]| && lines[i][j] as int !in {32, 9, 10, 11, 12, 13}
  }

  lemma BlankMeans(lines: seq<string>)
    ensures Blank(lines) <==> !HasText(lines)
  {
    if !Blank(lines) {
      var i :| 0 <= i < |lines| && !AllSpace(lines[i]);
      var j :| 0 <= j < |lines[i]| && !Space(lines[i][j]);
      assert lines[i][j] as int !in {32, 9, 10, 11, 12, 13};
    }
    if HasText(lines) {
      var i, j :| 0 <= i < |lines| && 0 <= j < |lines[i]| && lines[i][j] as int !in {32, 9, 10, 11, 12, 13};
      assert !Space(lines[i][j]) && !AllSpace(lines[i]);
    }
  }

  lemma BlankAfterTrailing(lines: seq<string>)
    ensures Blank(DropTrailing(lines)) <==> Blank(lines)
  {
    var r := DropTrailing(lines);
    if Blank(r) {
      forall i | 0 <= i < |lines| ensures AllSpace(lines[i]) {
        if i < |r| {
          assert lines[i] == r[i];
        }
      }
    } else {
      var i :| 0 <= i < |r| && !AllSpace(r[i]);
      assert lines[i] == r[i];
    }
  }

  function Empties(n: nat): seq<string> {
    seq(n, i => "")
  }

  /** Trimming takes away empty lines at the two ends and nothing else. */
  lemma TrimKeepsText(lines: seq<string>) returns (before: nat, after: nat)
    ensures lines == Empties(before) + Trim(lines) + Empties(after)
  {
    hide DropTrailing, DropLeading;
    var t, r := DropTrailing(lines), Trim(lines);
    before, after := |t| - |r|, |lines| - |t|;
    assert t[..before] == Empties(before);
    assert lines[|t|..] == Empties(after);
    assert t == t[..before] + r;
    assert lines == t + lines[|t|..];
  }

  /** What is left of a text that is not blank starts and ends with a line that is not empty. */
  lemma TrimIsTight(lines: seq<string>)
    requires !Blank(lines)
    ensures var r := Trim(lines); r != [] && r[0] != "" && r[|r| - 1] != "" && !Blank(r)
  {
    hide DropTrailing, DropLeading;
    var t, r := DropTrailing(lines), Trim(lines);
    BlankAfterTrailing(lines);
    var i :| 0 <= i < |t| && !AllSpace(t[i]);
    assert t[i] != "";
    assert |t| - |r| <= i && r[i - (|t| - |r|)] == t[i];
    assert r[|r| - 1] == t[|t| - 1];
  }

  // ---- the script ---------------------------------------------------------------------------

  datatype Outcome = Usage | NoChangelog | NoNotes | Wrote(lines: seq<string>)

  /** ${2:-${GITHUB_REF_NAME:-}} with one leading v stripped. */
  function Version(arg: Option<string>, refName: Option<string>): string {
    var v := if arg.Some? && arg.value != "" then arg.value else if refName.Some? then refName.value else "";
    if "v" <= v then v[1..] else v
  }

  function Want(version: string): string {
    "## [" + version + "]"
  }

  /** notes="$(extract ...)": the section with its trailing empty lines stripped. */
  method SectionText(lines: seq<string>, version: string) returns (notes: seq<string>)
    ensures notes == DropTrailing(Slice(lines, Want(version)))
    ensures Blank(notes) <==> Blank(Slice(lines, Want(version)))
  {
    hide Slice, Blank, DropTrailing, Want;
    notes := Extract(lines, Want(version));
    BlankAfterTrailing(notes);
    notes := DropTrailing(notes);
  }

  method WriteNotes(out: string, arg: Option<string>, refName: Option<string>, changelog: Option<seq<string>>)
    returns (r: Outcome)
    ensures r == Script(out, arg, refName, changelog)
  {
    hide Slice, Blank, Want, Version, DropTrailing, DropLeading;
    var version := Version(arg, refName);
    if out == "" || version == "" {
      return Usage;
    }
    if changelog.None? {
      return NoChangelog;
    }
    var notes := SectionText(changelog.value, version);
    if Blank(notes) {
      notes := SectionText(changelog.value, UNRELEASED);
    }
    if Blank(notes) {
      return NoNotes;
    }
    r := Wrote(DropLeading(notes));
  }

  /** What the script does with its two arguments, the name of the tag and the changelog. */
  function Script(out: string, arg: Option<string>, refName: Option<string>, changelog: Option<seq<string>>): Outcome {
    Published(out, Version(arg, refName), changelog)
  }

  /** The version's section if it has any text, else the Unreleased one, else a failure. */
  function Published(out: string, version: string, changelog: Option<seq<string>>): Outcome {
    if out == "" || version == "" then Usage
    else if changelog.None? then NoChangelog
    else
      var own, fallback := Slice(changelog.value, Want(version)), Slice(changelog.value, Want(UNRELEASED));
      if !Blank(own) then Wrote(Trim(own))
      else if !Blank(fallback) then Wrote(Trim(fallback))
      else NoNotes
  }

  // ---- printing a changelog and reading it back ---------------------------------------------

  /** One section: its version, the rest of its heading line, and its body. */
  datatype Section = Section(version: string, suffix: string, body: seq<string>) {
    function Heading(): string {
      "## [" + version + "]" + suffix
    }
  }

  function PrintSections(sections: seq<Section>): seq<string> {
    if sections == [] then []
    else [sections[0].Heading()] + sections[0].body + PrintSections(sections[1..])
  }

  /** A preamble, the sections, and the link definitions at the end. */
  function PrintChangelog(preamble: seq<string>, sections: seq<Section>, links: seq<string>): seq<string> {
    preamble + PrintSections(sections) + links
  }

  ghost predicate NoStop(lines: seq<string>) {
    forall i :: 0 <= i < |lines| ==> !IsStop(lines[i])
  }

  ghost predicate WellFormed(sections: seq<Section>) {
    forall i :: 0 <= i < |sections| ==> NoStop(sections[i].body)
  }

  ghost predicate EndMatter(links: seq<string>) {
    && (links != [] ==> LinkDefinition(links[0]))
    && (forall i :: 0 <= i < |links| ==> !(HEADING <= links[i]))
  }

  /** The body of the first section whose heading line starts with the version's heading. */
  function Lookup(sections: seq<Section>, version: string): seq<string> {
    if sections == [] then []
    else if Want(version) <= sections[0].Heading() then sections[0].body
    else Lookup(sections[1..], version)
  }

  /** One heading starts with another version's heading only if the versions are the same. */
  lemma SameHeading(a: string, b: string, suffix: string)
    requires ']' !in a && ']' !in b
    ensures Want(a) <= Want(b) + suffix <==> a == b
  {
    hide IndexOfChar;
    var wa, wb, tail := Want(a), Want(b) + suffix, b + ("]" + suffix);
    assert wb == "## [" + tail && wa == "## [" + (a + "]");
    if a == b {
      assert wb[..|wa|] == wa;
    }
    if wa <= wb {
      assert a + "]" == wa[4..] == wb[4..|wa|] == tail[..|a| + 1];
      assert tail[..|a|] == (a + "]")[..|a|] == a && tail[|a|] == (a + "]")[|a|];
      assert tail[..|b|] == b;
      FirstAt(tail, ']', |a|);
      FirstAt(tail, ']', |b|);
    }
  }

  lemma {:induction false} HeadingBeyond(before: seq<string>, lines: seq<string>, want: string)
    requires forall i :: 0 <= i < |before| ==> !(want <= before[i])
    ensures Slice(before + lines, want) == Slice(lines, want)
  {
    if before == [] {
      assert before + lines == lines;
    } else {
      assert (before + lines)[1..] == before[1..] + lines;
      HeadingBeyond(before[1..], lines, want);
      SkipLine(before[0], before[1..] + lines, want);
      assert before + lines == [before[0]] + (before[1..] + lines);
    }
  }

  lemma SkipLine(line: string, lines: seq<string>, want: string)
    requires !(want <= line)
    ensures Slice([line] + lines, want) == Slice(lines, want)
  {
    assert ([line] + lines)[1..] == lines;
    var h := FirstHeading(lines, want);
    assert FirstHeading([line] + lines, want) == h + 1;
    if h < |lines| {
      assert ([line] + lines)[h + 2..] == lines[h + 1..];
    }
  }

  lemma {:induction false} StopAfter(body: seq<string>, rest: seq<string>)
    requires NoStop(body) && (rest != [] ==> IsStop(rest[0]))
    ensures FirstStop(body + rest) == |body|
  {
    hide IsStop;
    if body == [] {
      assert body + rest == rest;
    } else {
      assert (body + rest)[1..] == body[1..] + rest;
      StopAfter(body[1..], rest);
    }
  }

  lemma HeadingIsStop(version: string, suffix: string)
    ensures IsStop(Want(version) + suffix)
  {
    var line := Want(version) + suffix;
    assert line[..3] == HEADING;
  }

  lemma WantIsHeading(version: string, line: string)
    requires Want(version) <= line
    ensures IsStop(line) && HEADING <= line
  {
    assert line[..3] == Want(version)[..3] == HEADING;
  }

  lemma TakesBody(line: string, body: seq<string>, rest: seq<string>, want: string)
    requires want <= line && NoStop(body) && (rest != [] ==> IsStop(rest[0]))
    ensures Slice([line] + (body + rest), want) == body
  {
    hide IsStop;
    var lines := [line] + (body + rest);
    assert FirstHeading(lines, want) == 0;
    assert lines[1..] == body + rest;
    StopAfter(body, rest);
  }

  lemma PassesBody(line: string, body: seq<string>, rest: seq<string>, version: string)
    requires !(Want(version) <= line) && NoStop(body)
    ensures Slice([line] + (body + rest), Want(version)) == Slice(rest, Want(version))
  {
    hide IsStop, Slice, Want;
    var want := Want(version);
    SkipLine(line, body + rest, want);
    forall i | 0 <= i < |body| ensures !(want <= body[i]) {
      if want <= body[i] { WantIsHeading(version, body[i]); }
    }
    HeadingBeyond(body, rest, want);
  }

  lemma NothingAfterSections(links: seq<string>, version: string)
    requires EndMatter(links)
    ensures Slice(links, Want(version)) == []
  {
    hide Want;
    forall i | 0 <= i < |links| ensures !(Want(version) <= links[i]) {
      if Want(version) <= links[i] { WantIsHeading(version, links[i]); }
    }
  }

  /** Extracting a version from a printed changelog gives back the body printed under it, and
      nothing for a version that was not printed. */
  lemma {:induction false} ExtractAfterPrint(sections: seq<Section>, links: seq<string>, version: string)
    requires WellFormed(sections) && EndMatter(links)
    ensures Slice(PrintSections(sections) + links, Want(version)) == Lookup(sections, version)
  {
    hide Slice, Want, EndMatter, NoStop, IsStop;
    var lines := PrintSections(sections) + links;
    if sections == [] {
      NothingAfterSections(links, version);
      assert lines == links;
    } else {
      var s, after := sections[0], sections[1..];
      var line, rest := s.Heading(), PrintSections(after) + links;
      assert lines == [line] + (s.body + rest);
      if Want(version) <= line {
        RestStops(after, links);
        TakesBody(line, s.body, rest, Want(version));
      } else {
        PassesBody(line, s.body, rest, version);
        ExtractAfterPrint(after, links, version);
      }
    }
  }

  lemma RestStops(sections: seq<Section>, links: seq<string>)
    requires EndMatter(links)
    ensures var rest := PrintSections(sections) + links; rest != [] ==> IsStop(rest[0])
  {
    if sections != [] {
      HeadingIsStop(sections[0].version, sections[0].suffix);
    }
  }

  /** The round trip through the whole file: a section comes back unless the heading line of an
      earlier one starts with its heading. */
  lemma RoundTrip(preamble: seq<string>, sections: seq<Section>, links: seq<string>, i: nat)
    requires WellFormed(sections) && EndMatter(links) && i < |sections|
    requires forall j :: 0 <= j < |preamble| ==> !(HEADING <= preamble[j])
    requires forall j :: 0 <= j < i ==> !(Want(sections[i].version) <= sections[j].Heading())
    ensures Slice(PrintChangelog(preamble, sections, links), Want(sections[i].version)) == sections[i].body
  {
    PreambleSkipped(preamble, sections, links, sections[i].version);
    LookupFinds(sections, i);
  }

  /** No heading line does when the versions are distinct and free of closing brackets. */
  lemma DistinctVersions(sections: seq<Section>, i: nat, j: nat)
    requires i < |sections| && j < |sections| && sections[i].version != sections[j].version
    requires ']' !in sections[i].version && ']' !in sections[j].version
    ensures !(Want(sections[i].version) <= sections[j].Heading())
  {
    SameHeading(sections[i].version, sections[j].version, sections[j].suffix);
  }

  /** With a closing bracket in a version, another section can come back instead. */
  lemma BracketMisleads(a: string, b: string)
    requires !IsStop(a) && !IsStop(b) && a != b
    ensures var sections := [Section("1", "x]", [a]), Section("1]x", "", [b])];
      Slice(PrintChangelog([], sections, []), Want(sections[1].version)) == sections[0].body != sections[1].body
  {
    var sections := [Section("1", "x]", [a]), Section("1]x", "", [b])];
    assert sections[0].Heading()[..|Want("1]x")|] == Want("1]x");
    hide IsStop;
    PreambleSkipped([], sections, [], "1]x");
  }

  lemma PreambleSkipped(preamble: seq<string>, sections: seq<Section>, links: seq<string>, version: string)
    requires WellFormed(sections) && EndMatter(links)
    requires forall j :: 0 <= j < |preamble| ==> !(HEADING <= preamble[j])
    ensures Slice(PrintChangelog(preamble, sections, links), Want(version)) == Lookup(sections, version)
  {
    hide Slice, Want, PrintSections, Lookup, IsStop, WellFormed, EndMatter;
    var want := Want(version);
    forall j | 0 <= j < |preamble| ensures !(want <= preamble[j]) {
      if want <= preamble[j] { WantIsHeading(version, preamble[j]); }
    }
    ExtractAfterPrint(sections, links, version);
    HeadingBeyond(preamble, PrintSections(sections) + links, want);
    assert PrintChangelog(preamble, sections, links) == preamble + (PrintSections(sections) + links);
  }

  lemma {:induction false} LookupFinds(sections: seq<Section>, i: nat)
    requires i < |sections|
    requires forall j :: 0 <= j < i ==> !(Want(sections[i].version) <= sections[j].Heading())
    ensures Lookup(sections, sections[i].version) == sections[i].body
  {
    OwnHeading(sections[i]);
    hide Want;
    if i > 0 {
      LookupFinds(sections[1..], i - 1);
    }
  }

  lemma OwnHeading(s: Section)
    ensures Want(s.version) <= s.Heading()
  {
    assert s.Heading()[..|Want(s.version)|] == Want(s.version);
  }

  /** What a release of this version writes: its own body if that has any text, the Unreleased body
      exactly when it has none, and a failure exactly when neither has. */
  ghost function NotesFor(sections: seq<Section>, version: string): Outcome {
    var own, fallback := Lookup(sections, version), Lookup(sections, "Unreleased");
    if HasText(own) then Wrote(Trim(own)) else if HasText(fallback) then Wrote(Trim(fallback)) else NoNotes
  }

  lemma PublishedFromPrinted(preamble: seq<string>, sections: seq<Section>, links: seq<string>, out: string, version: string)
    requires WellFormed(sections) && EndMatter(links)
    requires forall j :: 0 <= j < |preamble| ==> !("## " <= preamble[j])
    requires out != "" && version != ""
    ensures Published(out, version, Some(PrintChangelog(preamble, sections, links))) == NotesFor(sections, version)
  {
    PreambleSkipped(preamble, sections, links, version);
    PreambleSkipped(preamble, sections, links, UNRELEASED);
    BlankMeans(Lookup(sections, version));
    assert UNRELEASED == "Unreleased";
    BlankMeans(Lookup(sections, UNRELEASED));
    hide Slice, Blank, HasText, Lookup, PrintChangelog, Trim, Want;
  }

  /** A tag vX writes the notes of X, given as the argument or, with no or an empty argument, as the
      reference name; an argument without a leading v is taken as it is, and any wins over the reference. */
  lemma TaggedRelease(preamble: seq<string>, sections: seq<Section>, links: seq<string>, out: string, x: string, refName: Option<string>)
    requires WellFormed(sections) && EndMatter(links)
    requires forall j :: 0 <= j < |preamble| ==> !("## " <= preamble[j])
    requires out != "" && x != ""
    ensures var log := Some(PrintChangelog(preamble, sections, links));
      && Script(out, Some("v" + x), refName, log) == NotesFor(sections, x)
      && Script(out, None, Some("v" + x), log) == NotesFor(sections, x)
      && Script(out, Some(""), Some("v" + x), log) == NotesFor(sections, x)
      && (x[0] != 'v' ==>
            && Script(out, Some(x), refName, log) == NotesFor(sections, x)
            && Script(out, None, Some(x), log) == NotesFor(sections, x))
  {
    hide Published, NotesFor, PrintChangelog, WellFormed, EndMatter, Version;
    PublishedFromPrinted(preamble, sections, links, out, x);
    TagVersion(x, refName);
  }

  lemma TagVersion(x: string, refName: Option<string>)
    requires x != ""
    ensures Version(Some("v" + x), refName) == Version(None, Some("v" + x)) == Version(Some(""), Some("v" + x)) == x
    ensures x[0] != 'v' ==> Version(Some(x), refName) == Version(None, Some(x)) == x
  {
    assert ("v" + x)[1..] == x;
  }

  /** The script complains about its usage exactly without an output file or a version, the bare letter v
      being none; and about a missing changelog exactly when it has both. */
  lemma Complaints(out: string, arg: Option<string>, refName: Option<string>, changelog: Option<seq<string>>)
    ensures var tag := if arg in {None, Some("")} then (if refName.Some? then refName.value else "") else arg.value;
      var r := Script(out, arg, refName, changelog);
      && (r == Usage <==> out == "" || tag == "" || tag == "v")
      && (r == NoChangelog <==> !(out == "" || tag == "" || tag == "v") && changelog.None?)
  {
    hide Slice, Blank, Trim, Want;
  }

  /** A release never publishes empty notes: what is written starts and ends with a line that is not
      empty and holds a character that is not whitespace. */
  lemma NeverEmpty(out: string, version: string, changelog: Option<seq<string>>)
    ensures var r := Published(out, version, changelog);
      r.Wrote? ==> r.lines != [] && r.lines[0] != "" && r.lines[|r.lines| - 1] != "" && HasText(r.lines)
  {
    hide Slice, Blank, HasText, Want, Trim;
    if out != "" && version != "" && changelog.Some? {
      var own, fallback := Slice(changelog.value, Want(version)), Slice(changelog.value, Want(UNRELEASED));
      if !Blank(own) {
        TrimIsTight(own);
        BlankMeans(Trim(own));
      } else if !Blank(fallback) {
        TrimIsTight(fallback);
        BlankMeans(Trim(fallback));
      }
    }
  }
}
