/** The Markdown section splitter of the DreamPulse report view
    (`parseAnalysisResult` in components/dreampulse/DreamPulseWizard.tsx):
    the report is cut into lines, an optional leading `# ` title line is
    skipped, and every `## ` line opens a section whose content is the text
    up to the next such line. */
module ReportSections {
  import opened Base
  import opened Strings

  datatype Section = Section(title: string, content: string)

  /** The characters JavaScript's `.` does not match. A line never holds
      '\n', so only the other three matter. */
  predicate IsLineTerminator(c: char) {
    c == '\n' || c == '\r' || c == '\U{2028}' || c == '\U{2029}'
  }

  /** `/^# (.+)/` matches the line: "# " followed by at least one character
      that `.` accepts. */
  predicate TitleLine(line: string) {
    |line| >= 3 && line[..2] == "# " && !IsLineTerminator(line[2])
  }

  predicate IsHeading(line: string) {
    StartsWith(line, "## ")
  }

  /** The heading text: the line without "## ", trimmed. */
  function HeadingText(line: string): string
    requires IsHeading(line)
  {
    Trim(line[3..])
  }

  /** Closing the current section: pushed only when its title is non-empty,
      with the collected lines joined by newlines and trimmed. */
  function Flush(title: string, content: seq<string>): (r: seq<Section>)
    ensures |r| <= 1
    ensures r == [] <==> title == ""
    ensures |r| == 1 ==> r[0].title == title
  {
    if title != "" then [Section(title, Trim(Join(content, "\n")))] else []
  }

  /** The loop over the remaining lines, given the open section's title and
      the lines collected for it. */
  function Go(lines: seq<string>, title: string, content: seq<string>): (r: seq<Section>)
    ensures |r| <= 1 + |lines|
    decreases |lines|
  {
    if |lines| == 0 then Flush(title, content)
    else if IsHeading(lines[0]) then Flush(title, content) + Go(lines[1..], HeadingText(lines[0]), [])
    else Go(lines[1..], title, content + [lines[0]])
  }

  /** One step of the loop on a line that is not a heading. */
  lemma GoText(lines: seq<string>, title: string, content: seq<string>)
    requires |lines| > 0 && !IsHeading(lines[0])
    ensures Go(lines, title, content) == Go(lines[1..], title, content + [lines[0]])
  {
  }

  /** One step of the loop on a heading line. */
  lemma GoHeading(lines: seq<string>, title: string, content: seq<string>)
    requires |lines| > 0 && IsHeading(lines[0])
    ensures Go(lines, title, content) == Flush(title, content) + Go(lines[1..], HeadingText(lines[0]), [])
  {
  }

  /** Where the section loop starts: after a leading title line. */
  function BodyLines(markdown: string): (ls: seq<string>)
    ensures ls == Split(markdown, '\n') || ls == Split(markdown, '\n')[1..]
    ensures TitleLine(Split(markdown, '\n')[0]) ==> ls == Split(markdown, '\n')[1..]
  {
    var lines := Split(markdown, '\n');
    if TitleLine(lines[0]) then lines[1..] else lines
  }

  /** `parseAnalysisResult`. */
  function ParseAnalysisResult(markdown: string): (r: seq<Section>)
    ensures forall i :: 0 <= i < |r| ==> r[i].title != ""
  {
    GoTitlesNonEmpty(BodyLines(markdown), "", []);
    Go(BodyLines(markdown), "", [])
  }

  lemma {:induction false} GoTitlesNonEmpty(lines: seq<string>, title: string, content: seq<string>)
    ensures forall i :: 0 <= i < |Go(lines, title, content)| ==> Go(lines, title, content)[i].title != ""
    decreases |lines|
  {
    if |lines| > 0 {
      if IsHeading(lines[0]) {
        GoTitlesNonEmpty(lines[1..], HeadingText(lines[0]), []);
      } else {
        GoTitlesNonEmpty(lines[1..], title, content + [lines[0]]);
      }
    }
  }

  /** The same splitter as the page writes it: a loop with mutable state. */
  method ParseLoop(markdown: string) returns (sections: seq<Section>)
    ensures sections == ParseAnalysisResult(markdown)
  {
    var lines := Split(markdown, '\n');
    var start := if TitleLine(lines[0]) then 1 else 0;
    var title: string := "";
    var content: seq<string> := [];
    sections := [];
    var i := start;
    while i < |lines|
      invariant start <= i <= |lines|
      invariant sections + Go(lines[i..], title, content) == Go(lines[start..], "", [])
    {
      var line := lines[i];
      assert lines[i..][0] == line && lines[i..][1..] == lines[i + 1..];
      if StartsWith(line, "## ") {
        GoHeading(lines[i..], title, content);
        if title != "" {
          sections := sections + [Section(title, Trim(Join(content, "\n")))];
        }
        title := Trim(line[3..]);
        content := [];
      } else {
        GoText(lines[i..], title, content);
        content := content + [line];
      }
      i := i + 1;
    }
    if title != "" {
      sections := sections + [Section(title, Trim(Join(content, "\n")))];
    }
  }

  function Titles(ss: seq<Section>): (ts: seq<string>)
    ensures |ts| == |ss|
    ensures forall i :: 0 <= i < |ss| ==> ts[i] == ss[i].title
  {
    seq(|ss|, i requires 0 <= i < |ss| => ss[i].title)
  }

  /** The non-empty heading texts of the `## ` lines, in order. */
  function HeadingTitles(lines: seq<string>): seq<string> {
    if |lines| == 0 then []
    else (if IsHeading(lines[0]) && HeadingText(lines[0]) != "" then [HeadingText(lines[0])] else [])
         + HeadingTitles(lines[1..])
  }

  lemma {:induction false} HeadingTitlesAppend(a: seq<string>, b: seq<string>)
    ensures HeadingTitles(a + b) == HeadingTitles(a) + HeadingTitles(b)
  {
    if |a| > 0 {
      assert (a + b)[0] == a[0];
      assert (a + b)[1..] == a[1..] + b;
      HeadingTitlesAppend(a[1..], b);
    } else {
      assert a + b == b;
    }
  }

  /** The sections are titled, in order, by exactly the non-empty heading
      texts; a heading with a blank text opens no section. */
  lemma {:induction false} GoTitles(lines: seq<string>, title: string, content: seq<string>)
    ensures Titles(Go(lines, title, content)) == (if title != "" then [title] else []) + HeadingTitles(lines)
    decreases |lines|
  {
    if |lines| > 0 {
      if IsHeading(lines[0]) {
        GoTitles(lines[1..], HeadingText(lines[0]), []);
        TitlesAppend(Flush(title, content), Go(lines[1..], HeadingText(lines[0]), []));
      } else {
        GoTitles(lines[1..], title, content + [lines[0]]);
      }
    }
  }

  lemma TitlesAppend(a: seq<Section>, b: seq<Section>)
    ensures Titles(a + b) == Titles(a) + Titles(b)
  {
  }

  lemma ParseTitles(markdown: string)
    ensures Titles(ParseAnalysisResult(markdown)) == HeadingTitles(BodyLines(markdown))
  {
    GoTitles(BodyLines(markdown), "", []);
  }

  predicate NoHeadings(lines: seq<string>) {
    forall i :: 0 <= i < |lines| ==> !IsHeading(lines[i])
  }

  /** While no section is open, collected lines are thrown away at the next
      heading: what was collected does not matter. */
  lemma {:induction false} UntitledContentIgnored(lines: seq<string>, c1: seq<string>, c2: seq<string>)
    ensures Go(lines, "", c1) == Go(lines, "", c2)
    decreases |lines|
  {
    if |lines| > 0 && !IsHeading(lines[0]) {
      UntitledContentIgnored(lines[1..], c1 + [lines[0]], c2 + [lines[0]]);
    }
  }

  /** Lines before the first heading never reach a section. */
  lemma {:induction false} PreambleIgnored(preamble: seq<string>, lines: seq<string>)
    requires NoHeadings(preamble)
    ensures Go(preamble + lines, "", []) == Go(lines, "", [])
    decreases |preamble|
  {
    if |preamble| > 0 {
      var whole := preamble + lines;
      assert whole[0] == preamble[0] && !IsHeading(whole[0]);
      assert whole[1..] == preamble[1..] + lines;
      GoText(whole, "", []);
      assert [] + [preamble[0]] == [preamble[0]];
      PreambleIgnored(preamble[1..], lines);
      UntitledContentIgnored(preamble[1..] + lines, [preamble[0]], []);
    } else {
      assert preamble + lines == lines;
    }
  }

  /** A heading followed by heading-free lines, then either nothing or
      another heading, is one section whose content is those lines joined
      and trimmed. */
  lemma {:induction false} SectionBlock(title: string, body: seq<string>, content: seq<string>, rest: seq<string>)
    requires title != "" && NoHeadings(body)
    requires |rest| == 0 || IsHeading(rest[0])
    ensures Go(body + rest, title, content) == Flush(title, content + body) + Go(rest, "", [])
    decreases |body|
  {
    if |body| > 0 {
      var whole := body + rest;
      assert whole[0] == body[0] && !IsHeading(whole[0]);
      assert whole[1..] == body[1..] + rest;
      GoText(whole, title, content);
      assert content + [body[0]] + body[1..] == content + body;
      SectionBlock(title, body[1..], content + [body[0]], rest);
    } else {
      assert body + rest == rest;
      assert content + body == content;
      SectionEnd(title, content, rest);
    }
  }

  /** The open section is closed by the end of the lines or by a heading. */
  lemma SectionEnd(title: string, content: seq<string>, rest: seq<string>)
    requires title != ""
    requires |rest| == 0 || IsHeading(rest[0])
    ensures Go(rest, title, content) == Flush(title, content) + Go(rest, "", [])
  {
    if |rest| > 0 {
      GoHeading(rest, title, content);
      GoHeading(rest, "", []);
    }
  }

  /** A section as a writer lays it out: a "## " heading line and its body
      lines. */
  datatype Part = Part(heading: string, body: seq<string>)

  /** The lines of the parts, one after another. */
  function Render(parts: seq<Part>): (ls: seq<string>)
    ensures |parts| > 0 ==> |ls| > 0 && ls[0] == "## " + parts[0].heading
  {
    if |parts| == 0 then [] else ["## " + parts[0].heading] + parts[0].body + Render(parts[1..])
  }

  /** A part reads back as written when its heading is trimmed and
      non-empty and no body line is a heading. */
  predicate WellFormed(p: Part) {
    p.heading != "" && Trim(p.heading) == p.heading && NoHeadings(p.body)
  }

  /** The section each part is expected to read back as. */
  function Expected(parts: seq<Part>): (ss: seq<Section>)
    ensures |ss| == |parts|
    ensures forall i :: 0 <= i < |parts| ==> ss[i] == Section(parts[i].heading, Trim(Join(parts[i].body, "\n")))
  {
    if |parts| == 0 then []
    else [Section(parts[0].heading, Trim(Join(parts[0].body, "\n")))] + Expected(parts[1..])
  }

  /** Parsing rendered parts gives back one section per part, with the
      heading as title and the trimmed body as content. */
  lemma {:induction false} ParseRender(parts: seq<Part>)
    requires forall i :: 0 <= i < |parts| ==> WellFormed(parts[i])
    ensures Go(Render(parts), "", []) == Expected(parts)
  {
    if |parts| > 0 {
      var p := parts[0];
      var lines := Render(parts);
      HeadingOfPart(p);
      assert lines == ["## " + p.heading] + (p.body + Render(parts[1..]));
      GoHeading(lines, "", []);
      assert Go(lines, "", []) == Go(p.body + Render(parts[1..]), p.heading, []);
      SectionBlock(p.heading, p.body, [], Render(parts[1..]));
      assert [] + p.body == p.body;
      ParseRender(parts[1..]);
    }
  }

  /** The parts with every body line cut at its line breaks: what the
      splitter meets once the parts are joined by newlines. */
  function LineParts(parts: seq<Part>): (lp: seq<Part>)
    ensures |lp| == |parts|
  {
    seq(|parts|, i requires 0 <= i < |parts| => Part(parts[i].heading, Lines(parts[i].body)))
  }

  lemma {:induction false} RenderLines(parts: seq<Part>)
    requires forall i :: 0 <= i < |parts| ==> '\n' !in parts[i].heading
    ensures Lines(Render(parts)) == Render(LineParts(parts))
  {
    if |parts| > 0 {
      var p := parts[0];
      var head := ["## " + p.heading];
      var rest := Render(parts[1..]);
      RenderLines(parts[1..]);
      assert LineParts(parts)[1..] == LineParts(parts[1..]);
      assert Render(parts) == (head + p.body) + rest;
      LinesAppend(head + p.body, rest);
      LinesAppend(head, p.body);
      LinesOfFree(head);
    }
  }

  /** Cutting the bodies at their line breaks leaves the expected sections
      as they were. */
  lemma ExpectedLines(parts: seq<Part>)
    ensures Expected(LineParts(parts)) == Expected(parts)
  {
    forall i | 0 <= i < |parts| ensures Expected(LineParts(parts))[i] == Expected(parts)[i] {
      JoinLines(parts[i].body);
    }
  }

  /** Lines that are no headings, one of which is cut into heading-free
      pieces: the lines they give hold no heading. */
  lemma LinesPlain(xs: seq<string>, k: nat)
    requires k < |xs|
    requires forall i :: 0 <= i < |xs| && i != k ==> '\n' !in xs[i] && !IsHeading(xs[i])
    requires NoHeadings(Split(xs[k], '\n'))
    ensures NoHeadings(Lines(xs))
  {
    var a, b := xs[..k], xs[k + 1..];
    PlainSlices(xs, k);
    NoHeadingsJoin(a, Split(xs[k], '\n'), b);
    LinesAround(xs, k);
  }

  lemma PlainSlices(xs: seq<string>, k: nat)
    requires k < |xs|
    requires forall i :: 0 <= i < |xs| && i != k ==> !IsHeading(xs[i])
    ensures NoHeadings(xs[..k]) && NoHeadings(xs[k + 1..])
  {
    var a, b := xs[..k], xs[k + 1..];
    assert forall i :: 0 <= i < |a| ==> a[i] == xs[i];
    assert forall i :: 0 <= i < |b| ==> b[i] == xs[k + 1 + i];
  }

  lemma NoHeadingsJoin(a: seq<string>, m: seq<string>, b: seq<string>)
    requires NoHeadings(a) && NoHeadings(m) && NoHeadings(b)
    ensures NoHeadings(a + m + b)
  {
    var x := a + m + b;
    forall j | 0 <= j < |x| ensures !IsHeading(x[j]) {
      if j < |a| {
        assert x[j] == a[j];
      } else if j < |a| + |m| {
        assert x[j] == m[j - |a|];
      } else {
        assert x[j] == b[j - |a| - |m|];
      }
    }
  }

  /** A report laid out as a title line, a blank line and the rendered parts,
      joined by newlines: the section loop starts at the blank line and meets
      the parts cut into lines. */
  lemma ReportBody(title: string, parts: seq<Part>)
    requires TitleLine(title) && '\n' !in title
    requires forall i :: 0 <= i < |parts| ==> '\n' !in parts[i].heading
    ensures BodyLines(Join([title, ""] + Render(parts), "\n")) == [""] + Render(LineParts(parts))
  {
    var lines := [title, ""] + Render(parts);
    SplitJoinLines(lines);
    LinesAppend([title, ""], Render(parts));
    LinesOfFree([title, ""]);
    RenderLines(parts);
    assert ([title, ""] + Render(LineParts(parts)))[1..] == [""] + Render(LineParts(parts));
  }

  /** Such a report reads back as one section per part, with the heading as
      title and the trimmed body as content, when every part cut into lines
      is well formed. */
  lemma ReadReport(title: string, parts: seq<Part>)
    requires TitleLine(title) && '\n' !in title
    requires forall i :: 0 <= i < |parts| ==> '\n' !in parts[i].heading && WellFormed(LineParts(parts)[i])
    ensures ParseAnalysisResult(Join([title, ""] + Render(parts), "\n")) == Expected(parts)
  {
    var lp := LineParts(parts);
    ReportBody(title, parts);
    assert NoHeadings([""]);
    PreambleIgnored([""], Render(lp));
    ParseRender(lp);
    ExpectedLines(parts);
  }

  /** The titles of such a report are the heading texts of its parts cut
      into lines, whether or not those are well formed. */
  lemma ReportTitles(title: string, parts: seq<Part>)
    requires TitleLine(title) && '\n' !in title
    requires forall i :: 0 <= i < |parts| ==> '\n' !in parts[i].heading
    ensures Titles(ParseAnalysisResult(Join([title, ""] + Render(parts), "\n")))
            == HeadingTitles(Render(LineParts(parts)))
  {
    var md := Join([title, ""] + Render(parts), "\n");
    ReportBody(title, parts);
    ParseTitles(md);
    HeadingTitlesAppend([""], Render(LineParts(parts)));
  }

  /** Rendered parts with plain headings hold at least one heading per part,
      and besides them every heading of the first body. */
  lemma {:induction false} RenderHeadings(parts: seq<Part>)
    requires forall i :: 0 <= i < |parts| ==> parts[i].heading != "" && Trim(parts[i].heading) == parts[i].heading
    ensures |HeadingTitles(Render(parts))| >= |parts| + (if |parts| > 0 then |HeadingTitles(parts[0].body)| else 0)
  {
    if |parts| > 0 {
      var p := parts[0];
      var head := ["## " + p.heading];
      RenderHeadings(parts[1..]);
      assert Render(parts) == head + (p.body + Render(parts[1..]));
      HeadingTitlesAppend(head, p.body + Render(parts[1..]));
      HeadingTitlesAppend(p.body, Render(parts[1..]));
      assert ("## " + p.heading)[3..] == p.heading;
      assert HeadingTitles(head) == [p.heading];
    }
  }

  /** A line that is a heading with a non-empty text adds a title. */
  lemma {:induction false} HeadingCounted(xs: seq<string>, j: nat)
    requires j < |xs| && IsHeading(xs[j]) && HeadingText(xs[j]) != ""
    ensures |HeadingTitles(xs)| >= 1
  {
    if j > 0 {
      HeadingCounted(xs[1..], j - 1);
    }
  }

  lemma HeadingOfPart(p: Part)
    requires WellFormed(p)
    ensures IsHeading("## " + p.heading) && HeadingText("## " + p.heading) == p.heading
  {
    assert ("## " + p.heading)[3..] == p.heading;
  }
}
