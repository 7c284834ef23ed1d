/**
 * How one step of the Markdown parser treats each kind of line the
 * serializer writes: blank lines, section headings, lines it skips, and the
 * detail lines of an open experience, education or project entry.
 */
module ReadSteps {
  import opened Options
  import opened JsText
  import opened LinePatterns
  import opened ResumeTypes
  import opened MarkdownWriter
  import opened MarkdownReader

  // ---------------------------------------------------------------------------
  // Field shapes

  /** A value that stays on one line and that `.` matches throughout. */
  predicate OneLine(s: string) {
    AllDots(s)
  }

  /** A one-line value that `trim` leaves as it is. */
  predicate Field(s: string) {
    OneLine(s) && IsTrimmed(s)
  }

  /** A non-empty field. */
  predicate Text(s: string) {
    Field(s) && s != ""
  }

  /**
   * After `b` follows `sep`, no later copy of `sep` can be matched: greedy
   * `(.+)SEP(.+)` splits `a + sep + b` right before `b`.
   */
  predicate SplitsLast(sep: string, b: string)
    requires |sep| > 0
  {
    !Contains(sep[1..] + b, sep)
  }

  /** A line that, once trimmed, does not start with `#`: never a heading. */
  predicate Inert(line: string) {
    TrimStart(line) == "" || TrimStart(line)[0] != '#'
  }

  lemma OneLineHasNoNewline(s: string)
    requires OneLine(s)
    ensures '\n' !in s
  {
  }

  /** A line starting with a character that is neither a space nor `#` is inert. */
  lemma InertByFirst(line: string)
    requires line != "" && !IsJsSpace(line[0]) && line[0] != '#'
    ensures Inert(line)
  {
    TrimStartOfTrimmed(line);
  }

  /** Indentation does not make a line a heading. */
  lemma InertIndented(indent: string, line: string)
    requires TrimStart(indent) == "" && Inert(line)
    ensures Inert(indent + line)
  {
    TrimStartConcat(indent, line);
  }

  /** The value after a label and one space comes back from `trim` unchanged. */
  lemma TrimAfterSpace(s: string)
    requires IsTrimmed(s)
    ensures Trim(" " + s) == s
  {
    TrimStartConcat(" ", s);
    TrimStartOfTrimmed(s);
    TrimEndOfTrimmed(s);
  }

  /** A line that starts with a non-space and ends with a trimmed value is trimmed. */
  lemma TrimmedLine(a: string, b: string)
    requires a != "" && !IsJsSpace(a[0]) && b != "" && IsTrimmed(b)
    ensures IsTrimmed(a + b) && (a + b)[0] == a[0]
  {
    assert (a + b)[|a + b| - 1] == b[|b| - 1];
  }

  // ---------------------------------------------------------------------------
  // Lines of text

  /** The text of lines without newlines splits back into those lines and an empty last one. */
  lemma SplitUnlines(lines: seq<string>)
    requires forall k :: 0 <= k < |lines| ==> '\n' !in lines[k]
    ensures Split(Unlines(lines), '\n') == lines + [""]
  {
    UnlinesAsJoin(lines);
    var parts := lines + [""];
    forall p | p in parts
      ensures '\n' !in p
    {
      var k :| 0 <= k < |parts| && parts[k] == p;
      if k < |lines| {
        assert p == lines[k];
      }
    }
    SplitJoin(parts, '\n');
  }

  // ---------------------------------------------------------------------------
  // Runs of steps

  /** Reading `a + b` is reading `a`, then `b`. */
  lemma {:induction false} RunConcat(st: ParserState, a: seq<string>, b: seq<string>, ids: IdSource)
    requires Valid(st)
    ensures Run(st, a + b, ids) == Run(Run(st, a, ids), b, ids)
    decreases |b|
  {
    if b == [] {
      AppendNone(a, b);
    } else {
      var init, last := b[..|b| - 1], b[|b| - 1];
      AppendSnoc(a, b);
      RunConcat(st, a, init, ids);
      RunSnoc(st, a + init, last, ids);
      RunSnoc(Run(st, a, ids), init, last, ids);
    }
  }

  /** Appending nothing leaves a list as it is. */
  lemma AppendNone<T>(a: seq<T>, b: seq<T>)
    requires |b| == 0
    ensures a + b == a
  {
  }

  /** Appending to nothing gives the appended list. */
  lemma NoneAppend<T>(a: seq<T>, b: seq<T>)
    requires |a| == 0
    ensures a + b == b
  {
  }

  lemma AppendSnoc<T>(a: seq<T>, b: seq<T>)
    requires b != []
    ensures b == b[..|b| - 1] + [b[|b| - 1]]
    ensures a + b == (a + b[..|b| - 1]) + [b[|b| - 1]]
  {
  }

  /** Two blocks read one after the other: the state after `a` is where reading `b` starts. */
  lemma RunThrough(st: ParserState, lines: seq<string>, a: seq<string>, b: seq<string>,
                   mid: ParserState, last: ParserState, ids: IdSource)
    requires Valid(st) && lines == a + b
    requires Run(st, a, ids) == mid && Run(mid, b, ids) == last
    ensures Run(st, lines, ids) == last
  {
    RunConcat(st, a, b, ids);
  }

  lemma RunOne(st: ParserState, line: string, ids: IdSource)
    requires Valid(st)
    ensures Run(st, [line], ids) == Step(st, line, ids)
  {
    assert [line][..0] == [];
  }

  lemma RunPair(st: ParserState, a: string, b: string, ids: IdSource)
    requires Valid(st)
    ensures Run(st, [a, b], ids) == Step(Step(st, a, ids), b, ids)
  {
    PairLines(a, b);
    RunSnoc(st, [a], b, ids);
    RunOne(st, a, ids);
  }

  /** A blank line changes nothing, whatever the section and the open entry. */
  lemma BlankStep(st: ParserState, ids: IdSource)
    requires Valid(st)
    ensures Step(st, "", ids) == st
  {
    var data := st.data;
    assert MatchTriple("", " | ", " - ").None?;
    assert MatchPair("", " - ").None?;
    assert MatchUrl("").None?;
    assert !Contains("", "Projects:") && !Contains("", "Scope:");
    if st.open && st.section == "experience" {
      var k := |data.experience| - 1;
      assert ExperienceDetail(data.experience[k], "") == data.experience[k];
      assert data.experience[k := data.experience[k]] == data.experience;
    } else if st.open && st.section == "education" {
      var k := |data.education| - 1;
      assert data.education[k := data.education[k]] == data.education;
    } else if st.open {
      var k := |data.projects| - 1;
      assert data.projects[k := data.projects[k]] == data.projects;
    }
  }

  /** A `## ` heading sets the section to its lower-cased name and closes the open entry. */
  lemma HeadingStep(st: ParserState, name: string, ids: IdSource)
    requires Valid(st) && IsTrimmed("## " + name)
    ensures Step(st, "## " + name, ids) == st.(section := ToLower(name), open := false)
  {
    TrimOfTrimmed("## " + name);
    assert ("## " + name)[3..] == name;
  }

  /** A trimmed line that is not a heading is section content, then a detail of the open entry. */
  lemma ContentStep(st: ParserState, line: string, ids: IdSource)
    requires Valid(st) && IsTrimmed(line) && line != "" && line[0] != '#'
    ensures Step(st, line, ids) == ItemDetail(st.(data := SectionContent(st.data, st.section, line, ids)), line)
  {
    TrimOfTrimmed(line);
  }

  /** A `### ` heading hands its trimmed title to the current section. */
  lemma SubheadingStep(st: ParserState, title: string, ids: IdSource)
    requires Valid(st) && IsTrimmed(title) && title != ""
    ensures Step(st, "### " + title, ids) == Subheading(st, title, ids)
  {
    var line := "### " + title;
    TrimOfTrimmed(line);
    assert line[2] == '#' && !StartsWith(line, "## ");
    assert line[..4] == "### " && StartsWith(line, "### ");
    assert line[4..] == title;
    TrimOfTrimmed(title);
  }

  /** A line followed by a blank line reads as the line alone. */
  lemma RunParagraph(st: ParserState, line: string, ids: IdSource)
    requires Valid(st)
    ensures Run(st, [line, ""], ids) == Step(st, line, ids)
  {
    RunPair(st, line, "", ids);
    BlankStep(Step(st, line, ids), ids);
  }

  lemma BlankLines(st: ParserState, ids: IdSource)
    requires Valid(st)
    ensures Run(st, ["", "", ""], ids) == st
  {
    RunBetweenBlanks(st, "", ids);
    BlankStep(st, ids);
  }

  /** A line between blank lines reads as the line alone. */
  lemma RunBetweenBlanks(st: ParserState, line: string, ids: IdSource)
    requires Valid(st)
    ensures Run(st, ["", line, ""], ids) == Step(st, line, ids)
  {
    ThreeLines("", line, "");
    RunOne(st, "", ids);
    BlankStep(st, ids);
    RunParagraph(st, line, ids);
    RunThrough(st, ["", line, ""], [""], [line, ""], st, Step(st, line, ids), ids);
  }

  lemma PairLines(a: string, b: string)
    ensures [a, b] == [a] + [b]
  {
  }

  lemma ThreeLines(a: string, b: string, c: string)
    ensures [a, b, c] == [a] + [b, c]
  {
  }

  /** The sections whose content lines the parser reads. */
  predicate ContentSection(section: string) {
    section == "summary" || section == "skills" || section == "languages" || section == "contact information"
  }

  /** With no entry open, outside the sections the parser reads, a line that is no heading changes nothing. */
  lemma InertStep(st: ParserState, line: string, ids: IdSource)
    requires Valid(st) && !st.open && !ContentSection(st.section) && Inert(line)
    ensures Step(st, line, ids) == st
  {
    if Trim(line) != "" {
      TrimFirstChar(line);
    }
  }

  /** A run of such lines changes nothing. */
  lemma {:induction false} InertRun(st: ParserState, lines: seq<string>, ids: IdSource)
    requires Valid(st) && !st.open && !ContentSection(st.section)
    requires forall k :: 0 <= k < |lines| ==> Inert(lines[k])
    ensures Run(st, lines, ids) == st
    decreases |lines|
  {
    if lines != [] {
      InertRun(st, lines[..|lines| - 1], ids);
      InertStep(st, lines[|lines| - 1], ids);
    }
  }

  // ---------------------------------------------------------------------------
  // Detail lines of an open entry

  /** While reading experience, the entries `before` and then the open entry `e`. */
  function ExperienceOpen(data: ParsedResume, before: seq<Experience>, e: Experience): (st: ParserState)
    ensures Valid(st)
  {
    ParserState("experience", true, data.(experience := before + [e]))
  }

  function EducationOpen(data: ParsedResume, before: seq<Education>, e: Education): (st: ParserState)
    ensures Valid(st)
  {
    ParserState("education", true, data.(education := before + [e]))
  }

  function ProjectOpen(data: ParsedResume, before: seq<Project>, p: Project): (st: ParserState)
    ensures Valid(st)
  {
    ParserState("projects", true, data.(projects := before + [p]))
  }

  /** A content line of an experience entry reaches the open entry only. */
  lemma ExperienceStep(data: ParsedResume, before: seq<Experience>, e: Experience, line: string, ids: IdSource)
    requires IsTrimmed(line) && line != "" && line[0] != '#'
    ensures Step(ExperienceOpen(data, before, e), line, ids) == ExperienceOpen(data, before, ExperienceDetail(e, line))
  {
    ContentStep(ExperienceOpen(data, before, e), line, ids);
    assert (before + [e])[|before| := ExperienceDetail(e, line)] == before + [ExperienceDetail(e, line)];
  }

  lemma EducationStep(data: ParsedResume, before: seq<Education>, e: Education, line: string, ids: IdSource)
    requires IsTrimmed(line) && line != "" && line[0] != '#'
    ensures Step(EducationOpen(data, before, e), line, ids) == EducationOpen(data, before, EducationDetail(e, line))
  {
    ContentStep(EducationOpen(data, before, e), line, ids);
    assert (before + [e])[|before| := EducationDetail(e, line)] == before + [EducationDetail(e, line)];
  }

  lemma ProjectStep(data: ParsedResume, before: seq<Project>, p: Project, line: string, ids: IdSource)
    requires IsTrimmed(line) && line != "" && line[0] != '#'
    ensures Step(ProjectOpen(data, before, p), line, ids) == ProjectOpen(data, before, ProjectDetail(p, line))
  {
    ContentStep(ProjectOpen(data, before, p), line, ids);
    assert (before + [p])[|before| := ProjectDetail(p, line)] == before + [ProjectDetail(p, line)];
  }

  /** `Present` after ` - ` ends a date range. */
  lemma PresentSplitsLast()
    ensures SplitsLast(" - ", "Present")
  {
    assert " - "[1..] + "Present" == "-" + " Present";
    ContainsSkipPrefix("-", " Present", " - ");
    NotContainsMissingChar(" Present", " - ", 1);
  }

  /** With no `|` after it, the ` | ` of an experience date line is the last one. */
  lemma BarSplitsLast(rest: string)
    requires '|' !in rest
    ensures SplitsLast(" | ", rest)
  {
    assert " | "[1..] + rest == "|" + (" " + rest);
    ContainsSkipPrefix("|", " " + rest, " | ");
    NotContainsMissingChar(" " + rest, " | ", 1);
  }
}
