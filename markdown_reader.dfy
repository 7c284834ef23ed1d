/**
 * `parseMarkdown`: reads resume Markdown back into a partial resume. The
 * first line gives the name and the second the title; every later line is
 * trimmed and read according to the last `## ` section heading and the
 * entry the last `### ` heading opened. The specification is a left fold
 * of `Step` over the lines; `ParseMarkdown` is the loop the source runs.
 */
module MarkdownReader {
  import opened Options
  import opened JsText
  import opened LinePatterns
  import opened ResumeTypes

  /** The lists whose entries the parser creates, each entry needing an id. */
  datatype EntryKind = ExperienceEntry | EducationEntry | ProjectEntry | SkillEntry | LanguageEntry

  /**
   * Where entry ids come from: the id of an entry of a kind, given how many
   * entries of that kind precede it. The source draws them from the clock
   * and a random number; the model leaves the choice to the caller.
   */
  type IdSource = (EntryKind, nat) -> Id

  /**
   * What the loop carries from line to line: the current section (the
   * lower-cased text of the last `## ` heading) and whether an entry is
   * open for detail lines (`currentItem`). The open entry is always the
   * last one of the current section's list.
   */
  datatype ParserState = ParserState(section: string, open: bool, data: ParsedResume)

  predicate Valid(st: ParserState) {
    st.open ==>
      (st.section == "experience" && |st.data.experience| > 0)
      || (st.section == "education" && |st.data.education| > 0)
      || (st.section == "projects" && |st.data.projects| > 0)
  }

  function EmptyResume(info: PartialInfo): (r: ParsedResume)
    ensures r.personalInfo == info && r.summary.None?
  {
    ParsedResume(info, None, [], [], [], [], [], [], [], [], [])
  }

  // ---------------------------------------------------------------------------
  // The first two lines

  /**
   * Lines 131-142: `# ` and the full name. Two words give the name (the
   * first word); more give the last word as the name and the words between
   * as the middle name; fewer leave the name unset.
   */
  function NameFromHeading(info: PartialInfo, line: string): (r: PartialInfo)
    ensures r.title == info.title && r.email == info.email && r.phone == info.phone
    ensures r.location == info.location && r.linkedin == info.linkedin && r.github == info.github
    ensures MatchHeading(line, "# ").None? ==> r == info
  {
    match MatchHeading(line, "# ")
    case None => info
    case Some(g) =>
      var fullName := Split(Trim(g), ' ');
      if |fullName| > 2 then
        info.(name := Some(fullName[|fullName| - 1]), middleName := Some(Join(fullName[1..|fullName| - 1], " ")))
      else if |fullName| == 2 then
        info.(name := Some(fullName[0]))
      else
        info
  }

  /** Lines 145-148: `## ` and the title, trimmed. */
  function TitleFromHeading(info: PartialInfo, line: string): (r: PartialInfo)
    ensures MatchHeading(line, "## ").Some? ==> r == info.(title := Some(Trim(MatchHeading(line, "## ").value)))
    ensures MatchHeading(line, "## ").None? ==> r == info
  {
    match MatchHeading(line, "## ")
    case None => info
    case Some(g) => info.(title := Some(Trim(g)))
  }

  /** The personal fields the first two lines give; the second line may be missing. */
  function HeadInfo(lines: seq<string>): PartialInfo
    requires |lines| >= 1
  {
    var named := NameFromHeading(NoInfo, lines[0]);
    if |lines| > 1 then TitleFromHeading(named, lines[1]) else named
  }

  // ---------------------------------------------------------------------------
  // Section content

  /**
   * Lines 234-245: a `- label: value` line of the contact section sets the
   * first field whose name the lower-cased label contains, in the order
   * email, phone, location, LinkedIn, GitHub, to the trimmed value.
   */
  function ContactField(info: PartialInfo, line: string): (r: PartialInfo)
    ensures MatchBullet(line).None? ==> r == info
  {
    match MatchBullet(line)
    case None => info
    case Some((name, v)) =>
      var field := ToLower(name);
      var value := Trim(v);
      if Contains(field, "email") then info.(email := Some(value))
      else if Contains(field, "phone") then info.(phone := Some(value))
      else if Contains(field, "location") then info.(location := Some(value))
      else if Contains(field, "linkedin") then info.(linkedin := Some(value))
      else if Contains(field, "github") then info.(github := Some(value))
      else info
  }

  /** Lines 209-212: a summary line is appended with a newline after it. */
  function AddSummaryLine(summary: Option<string>, line: string): (r: Option<string>)
    ensures r.Some?
  {
    Some((if summary.Some? then summary.value else "") + line + "\n")
  }

  /**
   * Lines 213-224: the comma-separated names of a skills line, trimmed, each
   * non-empty one becoming a skill at the end of the list.
   */
  function AddSkills(skills: seq<Skill>, parts: seq<string>, ids: IdSource): (r: seq<Skill>)
    ensures |skills| <= |r| <= |skills| + |parts|
    ensures r[..|skills|] == skills
    ensures forall k :: |skills| <= k < |r| ==> r[k].name != "" && r[k].id == ids(SkillEntry, k)
    decreases |parts|
  {
    if parts == [] then skills
    else
      var before := AddSkills(skills, parts[..|parts| - 1], ids);
      var name := Trim(parts[|parts| - 1]);
      if name != "" then before + [Skill(ids(SkillEntry, |before|), name)] else before
  }

  /** Lines 225-233: a `- name: proficiency` line of the languages section. */
  function AddLanguage(languages: seq<Language>, line: string, ids: IdSource): (r: seq<Language>)
    ensures MatchBullet(line).None? ==> r == languages
    ensures MatchBullet(line).Some? ==> r == languages + [Language(ids(LanguageEntry, |languages|),
      Trim(MatchBullet(line).value.0), Trim(MatchBullet(line).value.1))]
  {
    match MatchBullet(line)
    case None => languages
    case Some((name, proficiency)) =>
      languages + [Language(ids(LanguageEntry, |languages|), Trim(name), Trim(proficiency))]
  }

  /** Lines 209-246: what a content line adds in the summary, skills, languages and contact sections. */
  function SectionContent(data: ParsedResume, section: string, line: string, ids: IdSource): (r: ParsedResume)
    ensures r.experience == data.experience && r.education == data.education && r.projects == data.projects
    ensures r.certifications == data.certifications && r.achievements == data.achievements
    ensures r.activities == data.activities && r.badges == data.badges
  {
    if section == "summary" then
      if line != "" && !StartsWith(line, "#") then data.(summary := AddSummaryLine(data.summary, line)) else data
    else if section == "skills" then
      if line != "" && !StartsWith(line, "#") then data.(skills := AddSkills(data.skills, Split(line, ','), ids)) else data
    else if section == "languages" then
      data.(languages := AddLanguage(data.languages, line, ids))
    else if section == "contact information" then
      data.(personalInfo := ContactField(data.personalInfo, line))
    else
      data
  }

  // ---------------------------------------------------------------------------
  // Entry headings and entry details

  /** Lines 161-206: a `### ` heading opens an entry in the experience, education and projects sections. */
  function Subheading(st: ParserState, title: string, ids: IdSource): (r: ParserState)
    requires Valid(st)
    ensures Valid(r) && r.section == st.section
    ensures r.data.personalInfo == st.data.personalInfo && r.data.summary == st.data.summary
    ensures r.data.skills == st.data.skills && r.data.languages == st.data.languages
  {
    var data := st.data;
    if st.section == "experience" then
      match MatchPair(title, " at ")
      case Some((t, c)) =>
        var item := Experience(ids(ExperienceEntry, |data.experience|), Trim(t), Trim(c), "", "", "", false, "", "", "");
        st.(open := true, data := data.(experience := data.experience + [item]))
      case None => st
    else if st.section == "education" then
      match MatchTriple(title, " in ", ", ")
      case Some((d, f, inst)) =>
        var item := Education(ids(EducationEntry, |data.education|), Trim(inst), Trim(d), Trim(f), "", "", false, "");
        st.(open := true, data := data.(education := data.education + [item]))
      case None => st
    else if st.section == "projects" then
      var item := Project(ids(ProjectEntry, |data.projects|), title, "", "");
      st.(open := true, data := data.(projects := data.projects + [item]))
    else
      st
  }

  /** `^[*\-\d]`: a list marker or a digit at the start of the line. */
  predicate StartsWithListMarker(line: string) {
    |line| > 0 && (line[0] == '*' || line[0] == '-' || '0' <= line[0] <= '9')
  }

  /** Line 260: a line that is added to an experience description. */
  predicate IsExperienceDescription(line: string) {
    line != "" && !StartsWith(line, "#") && !StartsWithListMarker(line)
    && !Contains(line, "Projects:") && !Contains(line, "Scope:")
  }

  /** Lines 280 and 290: a line that is added to an education or project description. */
  predicate IsPlainDescription(line: string) {
    line != "" && !StartsWith(line, "#") && !StartsWith(line, "-")
  }

  /** The end of a date range read back: `Present` marks an ongoing entry and leaves the end date empty. */
  function EndDateOf(token: string): (r: (string, bool))
    ensures r.1 <==> token == "Present"
    ensures r.1 ==> r.0 == ""
    ensures !r.1 ==> r.0 == token
  {
    if token == "Present" then ("", true) else (token, false)
  }

  /** Lines 250-270: a detail line of the open experience entry. */
  function ExperienceDetail(e: Experience, line: string): (r: Experience)
    ensures r.id == e.id && r.title == e.title && r.company == e.company
  {
    match MatchTriple(line, " | ", " - ")
    case Some((l, s, d)) =>
      var (endDate, current) := EndDateOf(Trim(d));
      e.(location := Trim(l), startDate := Trim(s), endDate := endDate, current := current)
    case None =>
      if IsExperienceDescription(line) then e.(description := e.description + line + "\n")
      else if Contains(line, "Projects:") then e.(projects := Trim(RemoveFirst(line, "**Projects:**")))
      else if Contains(line, "Scope:") then e.(scope := Trim(RemoveFirst(line, "**Scope:**")))
      else e
  }

  /** Lines 271-282: a detail line of the open education entry. */
  function EducationDetail(e: Education, line: string): (r: Education)
    ensures r.id == e.id && r.institution == e.institution && r.degree == e.degree && r.field == e.field
  {
    match MatchPair(line, " - ")
    case Some((s, d)) =>
      var (endDate, current) := EndDateOf(Trim(d));
      e.(startDate := Trim(s), endDate := endDate, current := current)
    case None =>
      if IsPlainDescription(line) then e.(description := e.description + line + "\n") else e
  }

  /** Lines 283-293: a detail line of the open project. */
  function ProjectDetail(p: Project, line: string): (r: Project)
    ensures r.id == p.id && r.title == p.title
  {
    match MatchUrl(line)
    case Some(u) => p.(url := Trim(u))
    case None =>
      if IsPlainDescription(line) then p.(description := p.description + line + "\n") else p
  }

  /** Lines 249-294: the open entry, the last of its section's list, takes the line as a detail. */
  function ItemDetail(st: ParserState, line: string): (r: ParserState)
    requires Valid(st)
    ensures Valid(r) && r.section == st.section && r.open == st.open
    ensures |r.data.experience| == |st.data.experience| && |r.data.education| == |st.data.education|
    ensures |r.data.projects| == |st.data.projects|
    ensures r.data.personalInfo == st.data.personalInfo && r.data.summary == st.data.summary
    ensures r.data.skills == st.data.skills && r.data.languages == st.data.languages
  {
    var data := st.data;
    if !st.open then st
    else if st.section == "experience" then
      var k := |data.experience| - 1;
      st.(data := data.(experience := data.experience[k := ExperienceDetail(data.experience[k], line)]))
    else if st.section == "education" then
      var k := |data.education| - 1;
      st.(data := data.(education := data.education[k := EducationDetail(data.education[k], line)]))
    else
      var k := |data.projects| - 1;
      st.(data := data.(projects := data.projects[k := ProjectDetail(data.projects[k], line)]))
  }

  // ---------------------------------------------------------------------------
  // One line, all lines, and the final clean-up

  /** Lines 150-295: one line after the first two. */
  function Step(st: ParserState, rawLine: string, ids: IdSource): (r: ParserState)
    requires Valid(st)
    ensures Valid(r)
  {
    var line := Trim(rawLine);
    if StartsWith(line, "## ") then
      st.(section := ToLower(line[3..]), open := false)
    else if StartsWith(line, "### ") then
      Subheading(st, Trim(line[4..]), ids)
    else
      ItemDetail(st.(data := SectionContent(st.data, st.section, line, ids)), line)
  }

  /** The state after reading `lines` in order. */
  function Run(st: ParserState, lines: seq<string>, ids: IdSource): (r: ParserState)
    requires Valid(st)
    ensures Valid(r)
    decreases |lines|
  {
    if lines == [] then st else Step(Run(st, lines[..|lines| - 1], ids), lines[|lines| - 1], ids)
  }

  function TrimExperience(e: Experience): Experience {
    e.(description := Trim(e.description))
  }

  function TrimEducation(e: Education): Education {
    e.(description := Trim(e.description))
  }

  function TrimProject(p: Project): Project {
    p.(description := Trim(p.description))
  }

  /** Lines 298-312: the summary and every description lose their surrounding white space. */
  function Finish(data: ParsedResume): (r: ParsedResume)
    ensures r.personalInfo == data.personalInfo
    ensures r.skills == data.skills && r.languages == data.languages
    ensures r.certifications == data.certifications && r.achievements == data.achievements
    ensures r.activities == data.activities && r.badges == data.badges
    ensures r.summary.Some? <==> data.summary.Some?
    ensures r.summary.Some? ==> IsTrimmed(r.summary.value)
    ensures r.summary == if data.summary.Some? then Some(Trim(data.summary.value)) else None
    ensures |r.experience| == |data.experience| && |r.education| == |data.education|
    ensures |r.projects| == |data.projects|
    ensures forall k :: 0 <= k < |r.experience| ==> r.experience[k] == TrimExperience(data.experience[k])
    ensures forall k :: 0 <= k < |r.education| ==> r.education[k] == TrimEducation(data.education[k])
    ensures forall k :: 0 <= k < |r.projects| ==> r.projects[k] == TrimProject(data.projects[k])
  {
    data.(
      summary := if data.summary.Some? && data.summary.value != "" then Some(Trim(data.summary.value)) else data.summary,
      experience := seq(|data.experience|, k requires 0 <= k < |data.experience| => TrimExperience(data.experience[k])),
      education := seq(|data.education|, k requires 0 <= k < |data.education| => TrimEducation(data.education[k])),
      projects := seq(|data.projects|, k requires 0 <= k < |data.projects| => TrimProject(data.projects[k])))
  }

  /** The state the loop starts from, once the first two lines are read. */
  function StartState(lines: seq<string>): (r: ParserState)
    requires |lines| >= 1
    ensures Valid(r) && !r.open && r.section == ""
  {
    ParserState("", false, EmptyResume(HeadInfo(lines)))
  }

  /** What `parseMarkdown` returns for `markdown`. */
  function Parse(markdown: string, ids: IdSource): ParsedResume {
    var lines := Split(markdown, '\n');
    Finish(Run(StartState(lines), if |lines| > 2 then lines[2..] else [], ids).data)
  }

  // ---------------------------------------------------------------------------
  // The parser as the source writes it

  /** The lines after the first two that the loop has read once it reaches index `i`. */
  function ReadSoFar(lines: seq<string>, i: int): seq<string> {
    if 2 <= i <= |lines| then lines[2..i] else []
  }

  /** `parseMarkdown` (lines 111-315). */
  method ParseMarkdown(markdown: string, ids: IdSource) returns (resumeData: ParsedResume)
    ensures resumeData == Parse(markdown, ids)
  {
    var lines := Split(markdown, '\n');
    var info := ReadHead(lines);
    var section := "";
    var open := false;
    var data := EmptyResume(info);
    ghost var start := StartState(lines);
    var i := 2;
    while i < |lines|
      invariant 2 <= i && (i <= |lines| || |lines| < 2)
      invariant Valid(ParserState(section, open, data))
      invariant ParserState(section, open, data) == Run(start, ReadSoFar(lines, i), ids)
    {
      section, open, data := ReadLine(section, open, data, lines[i], ids);
      RunNext(start, lines, i, ids);
      i := i + 1;
    }
    ReadAll(markdown, lines, i, ids);
    resumeData := CleanUp(data);
  }

  /** Once the loop ends, it has read every line after the first two. */
  lemma ReadAll(markdown: string, lines: seq<string>, i: int, ids: IdSource)
    requires lines == Split(markdown, '\n')
    requires 2 <= i && (i <= |lines| || |lines| < 2) && !(i < |lines|)
    ensures Finish(Run(StartState(lines), ReadSoFar(lines, i), ids).data) == Parse(markdown, ids)
  {
    assert ReadSoFar(lines, i) == if |lines| > 2 then lines[2..] else [];
  }

  /** Reading one more line is one more `Step`. */
  lemma RunSnoc(st: ParserState, lines: seq<string>, line: string, ids: IdSource)
    requires Valid(st)
    ensures Run(st, lines + [line], ids) == Step(Run(st, lines, ids), line, ids)
  {
    assert (lines + [line])[..|lines|] == lines;
  }

  /** Reading one more line of the loop is one more `Step`. */
  lemma RunNext(start: ParserState, lines: seq<string>, i: int, ids: IdSource)
    requires Valid(start) && 2 <= i < |lines|
    ensures Run(start, ReadSoFar(lines, i + 1), ids) == Step(Run(start, ReadSoFar(lines, i), ids), lines[i], ids)
  {
    assert ReadSoFar(lines, i + 1) == ReadSoFar(lines, i) + [lines[i]];
    RunSnoc(start, ReadSoFar(lines, i), lines[i], ids);
  }

  /** Lines 151-294: the body of the loop, for the line at index `i`. */
  method ReadLine(section: string, open: bool, data: ParsedResume, rawLine: string, ids: IdSource)
    returns (section': string, open': bool, data': ParsedResume)
    requires Valid(ParserState(section, open, data))
    ensures ParserState(section', open', data') == Step(ParserState(section, open, data), rawLine, ids)
  {
    section', open', data' := section, open, data;
    var line := Trim(rawLine);
    if StartsWith(line, "## ") {
      section' := ToLower(line[3..]);
      open' := false;
    } else if StartsWith(line, "### ") {
      open', data' := OpenEntry(section, open, data, Trim(line[4..]), ids);
    } else {
      data' := ReadContent(section, data, line, ids);
      if open {
        data' := ReadDetail(section, data', line);
      }
    }
  }

  /** Lines 131-148: the name from the first line and the title from the second. */
  method ReadHead(lines: seq<string>) returns (info: PartialInfo)
    requires |lines| >= 1
    ensures info == HeadInfo(lines)
  {
    info := NoInfo;
    var nameMatch := MatchHeading(lines[0], "# ");
    if nameMatch.Some? {
      var fullName := Split(Trim(nameMatch.value), ' ');
      if |fullName| >= 2 {
        info := info.(name := Some(fullName[0]));
        if |fullName| > 2 {
          info := info.(middleName := Some(Join(fullName[1..|fullName| - 1], " ")));
          info := info.(name := Some(fullName[|fullName| - 1]));
        }
      }
    }
    if |lines| > 1 {
      var titleMatch := MatchHeading(lines[1], "## ");
      if titleMatch.Some? {
        info := info.(title := Some(Trim(titleMatch.value)));
      }
    }
  }

  /** Lines 161-206: a `### ` heading; `open` is `currentItem != null`. */
  method OpenEntry(section: string, open: bool, data: ParsedResume, title: string, ids: IdSource)
    returns (open': bool, data': ParsedResume)
    requires Valid(ParserState(section, open, data))
    ensures ParserState(section, open', data') == Subheading(ParserState(section, open, data), title, ids)
  {
    open', data' := open, data;
    if section == "experience" {
      var titleCompanyMatch := MatchPair(title, " at ");
      if titleCompanyMatch.Some? {
        var item := Experience(ids(ExperienceEntry, |data.experience|),
          Trim(titleCompanyMatch.value.0), Trim(titleCompanyMatch.value.1), "", "", "", false, "", "", "");
        data' := data'.(experience := data'.experience + [item]);
        open' := true;
      }
    } else if section == "education" {
      var eduMatch := MatchTriple(title, " in ", ", ");
      if eduMatch.Some? {
        var item := Education(ids(EducationEntry, |data.education|),
          Trim(eduMatch.value.2), Trim(eduMatch.value.0), Trim(eduMatch.value.1), "", "", false, "");
        data' := data'.(education := data'.education + [item]);
        open' := true;
      }
    } else if section == "projects" {
      var item := Project(ids(ProjectEntry, |data.projects|), title, "", "");
      data' := data'.(projects := data'.projects + [item]);
      open' := true;
    }
  }

  /** Lines 209-246: a content line of the summary, skills, languages or contact section. */
  method ReadContent(section: string, data: ParsedResume, line: string, ids: IdSource) returns (data': ParsedResume)
    ensures data' == SectionContent(data, section, line, ids)
  {
    data' := data;
    if section == "summary" {
      if line != "" && !StartsWith(line, "#") {
        data' := data'.(summary := Some((if data.summary.Some? then data.summary.value else "") + line + "\n"));
      }
    } else if section == "skills" {
      if line != "" && !StartsWith(line, "#") {
        var skillList := Split(line, ',');
        var skills := data.skills;
        for j := 0 to |skillList|
          invariant skills == AddSkills(data.skills, skillList[..j], ids)
        {
          assert skillList[..j + 1][..j] == skillList[..j];
          var skill := Trim(skillList[j]);
          if skill != "" {
            skills := skills + [Skill(ids(SkillEntry, |skills|), skill)];
          }
        }
        assert skillList[..|skillList|] == skillList;
        data' := data'.(skills := skills);
      }
    } else if section == "languages" {
      var langMatch := MatchBullet(line);
      if langMatch.Some? {
        var lang := Language(ids(LanguageEntry, |data.languages|), Trim(langMatch.value.0), Trim(langMatch.value.1));
        data' := data'.(languages := data'.languages + [lang]);
      }
    } else if section == "contact information" {
      data' := data'.(personalInfo := ContactField(data.personalInfo, line));
    }
  }

  /** Lines 249-294: the open entry, the last of its section's list, takes the line as a detail. */
  method ReadDetail(section: string, data: ParsedResume, line: string) returns (data': ParsedResume)
    requires Valid(ParserState(section, true, data))
    ensures ParserState(section, true, data') == ItemDetail(ParserState(section, true, data), line)
  {
    if section == "experience" {
      var k := |data.experience| - 1;
      var currentItem := ReadExperienceDetail(data.experience[k], line);
      data' := data.(experience := data.experience[k := currentItem]);
    } else if section == "education" {
      var k := |data.education| - 1;
      var currentItem := ReadEducationDetail(data.education[k], line);
      data' := data.(education := data.education[k := currentItem]);
    } else {
      var k := |data.projects| - 1;
      var currentItem := ReadProjectDetail(data.projects[k], line);
      data' := data.(projects := data.projects[k := currentItem]);
    }
  }

  /** Lines 250-270: the fields of the open experience entry that the line sets. */
  method ReadExperienceDetail(e: Experience, line: string) returns (currentItem: Experience)
    ensures currentItem == ExperienceDetail(e, line)
  {
    currentItem := e;
    var dateMatch := MatchTriple(line, " | ", " - ");
    if dateMatch.Some? {
      var endToken := Trim(dateMatch.value.2);
      currentItem := currentItem.(location := Trim(dateMatch.value.0), startDate := Trim(dateMatch.value.1),
        endDate := if endToken == "Present" then "" else endToken, current := endToken == "Present");
    } else if IsExperienceDescription(line) {
      currentItem := currentItem.(description := currentItem.description + line + "\n");
    } else if Contains(line, "Projects:") {
      currentItem := currentItem.(projects := Trim(RemoveFirst(line, "**Projects:**")));
    } else if Contains(line, "Scope:") {
      currentItem := currentItem.(scope := Trim(RemoveFirst(line, "**Scope:**")));
    }
  }

  /** Lines 271-282: the fields of the open education entry that the line sets. */
  method ReadEducationDetail(e: Education, line: string) returns (currentItem: Education)
    ensures currentItem == EducationDetail(e, line)
  {
    currentItem := e;
    var dateMatch := MatchPair(line, " - ");
    if dateMatch.Some? {
      var endToken := Trim(dateMatch.value.1);
      currentItem := currentItem.(startDate := Trim(dateMatch.value.0),
        endDate := if endToken == "Present" then "" else endToken, current := endToken == "Present");
    } else if IsPlainDescription(line) {
      currentItem := currentItem.(description := currentItem.description + line + "\n");
    }
  }

  /** Lines 283-293: the fields of the open project that the line sets. */
  method ReadProjectDetail(p: Project, line: string) returns (currentItem: Project)
    ensures currentItem == ProjectDetail(p, line)
  {
    currentItem := p;
    var urlMatch := MatchUrl(line);
    if urlMatch.Some? {
      currentItem := currentItem.(url := Trim(urlMatch.value));
    } else if IsPlainDescription(line) {
      currentItem := currentItem.(description := currentItem.description + line + "\n");
    }
  }

  /** Lines 298-312: trims the summary and, one entry at a time, every description. */
  method CleanUp(data: ParsedResume) returns (resumeData: ParsedResume)
    ensures resumeData == Finish(data)
  {
    resumeData := data;
    if data.summary.Some? && data.summary.value != "" {
      resumeData := resumeData.(summary := Some(Trim(data.summary.value)));
    }
    var experience := CleanExperience(data.experience);
    var education := CleanEducation(data.education);
    var projects := CleanProjects(data.projects);
    resumeData := resumeData.(experience := experience, education := education, projects := projects);
  }

  /** Lines 302-304. */
  method CleanExperience(xs: seq<Experience>) returns (experience: seq<Experience>)
    ensures |experience| == |xs|
    ensures forall m :: 0 <= m < |xs| ==> experience[m] == TrimExperience(xs[m])
  {
    experience := xs;
    for k := 0 to |experience|
      invariant |experience| == |xs|
      invariant forall m :: 0 <= m < k ==> experience[m] == TrimExperience(xs[m])
      invariant forall m :: k <= m < |experience| ==> experience[m] == xs[m]
    {
      experience := experience[k := experience[k].(description := Trim(experience[k].description))];
    }
  }

  /** Lines 306-308. */
  method CleanEducation(xs: seq<Education>) returns (education: seq<Education>)
    ensures |education| == |xs|
    ensures forall m :: 0 <= m < |xs| ==> education[m] == TrimEducation(xs[m])
  {
    education := xs;
    for k := 0 to |education|
      invariant |education| == |xs|
      invariant forall m :: 0 <= m < k ==> education[m] == TrimEducation(xs[m])
      invariant forall m :: k <= m < |education| ==> education[m] == xs[m]
    {
      education := education[k := education[k].(description := Trim(education[k].description))];
    }
  }

  /** Lines 310-312. */
  method CleanProjects(xs: seq<Project>) returns (projects: seq<Project>)
    ensures |projects| == |xs|
    ensures forall m :: 0 <= m < |xs| ==> projects[m] == TrimProject(xs[m])
  {
    projects := xs;
    for k := 0 to |projects|
      invariant |projects| == |xs|
      invariant forall m :: 0 <= m < k ==> projects[m] == TrimProject(xs[m])
      invariant forall m :: k <= m < |projects| ==> projects[m] == xs[m]
    {
      projects := projects[k := projects[k].(description := Trim(projects[k].description))];
    }
  }
}
