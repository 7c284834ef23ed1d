/**
 * `resumeToMarkdown`: the resume as Markdown text. The text is specified as
 * a list of lines, each written followed by a newline; the method builds
 * the same text by appending to a string, section by section.
 */
module MarkdownWriter {
  import opened JsText
  import opened ResumeTypes

  /** The text of `lines`, each line followed by a newline. */
  function Unlines(lines: seq<string>): string
    decreases |lines|
  {
    if lines == [] then "" else Unlines(lines[..|lines| - 1]) + lines[|lines| - 1] + "\n"
  }

  /** The lines `f` gives for each element of `xs`, in order. */
  function FlatMap<T>(xs: seq<T>, f: T -> seq<string>): seq<string>
    decreases |xs|
  {
    if xs == [] then [] else FlatMap(xs[..|xs| - 1], f) + f(xs[|xs| - 1])
  }

  lemma {:induction false} UnlinesConcat(a: seq<string>, b: seq<string>)
    ensures Unlines(a + b) == Unlines(a) + Unlines(b)
    decreases |b|
  {
    if b == [] {
      assert a + b == a;
    } else {
      assert (a + b)[..|a + b| - 1] == a + b[..|b| - 1];
      UnlinesConcat(a, b[..|b| - 1]);
    }
  }

  /** The text is the lines joined by newlines, with one newline more at the end. */
  lemma {:induction false} UnlinesAsJoin(lines: seq<string>)
    ensures Unlines(lines) == Join(lines + [""], "\n")
    decreases |lines|
  {
    if lines != [] {
      if |lines| == 1 {
        assert Unlines(lines) == Unlines([]) + lines[0] + "\n";
      } else {
        UnlinesFront(lines);
        UnlinesAsJoin(lines[1..]);
        assert (lines + [""])[1..] == lines[1..] + [""];
      }
    }
  }

  lemma {:induction false} UnlinesFront(lines: seq<string>)
    requires lines != []
    ensures Unlines(lines) == lines[0] + "\n" + Unlines(lines[1..])
  {
    assert lines == [lines[0]] + lines[1..];
    UnlinesConcat([lines[0]], lines[1..]);
    assert Unlines([lines[0]]) == Unlines([]) + lines[0] + "\n";
  }

  lemma {:induction false} FlatMapConcat<T>(xs: seq<T>, ys: seq<T>, f: T -> seq<string>)
    ensures FlatMap(xs + ys, f) == FlatMap(xs, f) + FlatMap(ys, f)
    decreases |ys|
  {
    if ys == [] {
      assert xs + ys == xs;
    } else {
      assert (xs + ys)[..|xs + ys| - 1] == xs + ys[..|ys| - 1];
      FlatMapConcat(xs, ys[..|ys| - 1], f);
    }
  }

  lemma FlatMapOne<T>(x: T, f: T -> seq<string>)
    ensures FlatMap([x], f) == f(x)
  {
    assert [x][..0] == [];
  }

  // ---------------------------------------------------------------------------
  // The lines of each section

  /** Line 5: the name, then the middle name (or nothing) after a space. */
  function NameLine(p: PersonalInfo): string {
    "# " + p.name + " " + p.middleName
  }

  function TitleLine(p: PersonalInfo): string {
    "## " + p.title
  }

  function HeaderLines(p: PersonalInfo): seq<string> {
    [NameLine(p), TitleLine(p), ""]
  }

  /** A line written only when its value is set. */
  function OptionalLine(prefix: string, value: string): seq<string> {
    if value != "" then [prefix + value] else []
  }

  /** A line and a blank line, written only when the value is set. */
  function OptionalParagraph(value: string): seq<string> {
    if value != "" then [value, ""] else []
  }

  /** A labelled paragraph, written only when its value is set. */
  function Labelled(prefix: string, value: string): seq<string> {
    if value != "" then [prefix + value, ""] else []
  }

  function ContactLines(p: PersonalInfo): seq<string> {
    ["## Contact Information"]
    + OptionalLine("- Email: ", p.email)
    + OptionalLine("- Phone: ", p.phone)
    + OptionalLine("- Location: ", p.location)
    + OptionalLine("- LinkedIn: ", p.linkedin)
    + OptionalLine("- GitHub: ", p.github)
    + [""]
  }

  function SummaryLines(summary: string): seq<string> {
    if summary != "" then ["## Summary"] + [summary, ""] else []
  }

  /** The end of a date range as it appears after ` - `: `Present` for an ongoing entry. */
  function EndToken(current: bool, endDate: string): string {
    if current then "Present" else endDate
  }

  /** A start date, ` - ` and the end of the range. */
  function DateRange(startDate: string, current: bool, endDate: string): string {
    startDate + " - " + EndToken(current, endDate)
  }

  function ExperienceTitle(e: Experience): string {
    e.title + " at " + e.company
  }

  function ExperienceHeading(e: Experience): string {
    "### " + ExperienceTitle(e)
  }

  function ExperienceDates(e: Experience): string {
    e.location + " | " + DateRange(e.startDate, e.current, e.endDate)
  }

  function ExperienceHead(e: Experience): seq<string> {
    [ExperienceHeading(e), ExperienceDates(e), "", e.description, ""]
  }

  function ExperienceLines(e: Experience): seq<string> {
    ExperienceHead(e)
    + Labelled("**Projects:** ", e.projects)
    + Labelled("**Scope:** ", e.scope)
  }

  function ExperienceSection(xs: seq<Experience>): seq<string> {
    if |xs| > 0 then ["## Experience"] + FlatMap(xs, ExperienceLines) else []
  }

  function EducationTitle(e: Education): string {
    e.degree + " in " + (e.field + ", " + e.institution)
  }

  function EducationHeading(e: Education): string {
    "### " + EducationTitle(e)
  }

  function EducationLines(e: Education): seq<string> {
    [EducationHeading(e), DateRange(e.startDate, e.current, e.endDate), ""]
    + OptionalParagraph(e.description)
  }

  function EducationSection(xs: seq<Education>): seq<string> {
    if |xs| > 0 then ["## Education"] + FlatMap(xs, EducationLines) else []
  }

  function SkillNames(xs: seq<Skill>): (names: seq<string>)
    ensures |names| == |xs|
    ensures forall i :: 0 <= i < |xs| ==> names[i] == xs[i].name
    decreases |xs|
  {
    if xs == [] then [] else SkillNames(xs[..|xs| - 1]) + [xs[|xs| - 1].name]
  }

  function SkillsSection(xs: seq<Skill>): seq<string> {
    if |xs| > 0 then ["## Skills", Join(SkillNames(xs), ", "), ""] else []
  }

  function ProjectLines(p: Project): seq<string> {
    ["### " + p.title, p.description] + OptionalLine("URL: ", p.url) + [""]
  }

  function ProjectsSection(xs: seq<Project>): seq<string> {
    if |xs| > 0 then ["## Projects"] + FlatMap(xs, ProjectLines) else []
  }

  function LanguageLine(l: Language): string {
    "- " + l.name + ": " + l.proficiency
  }

  function LanguageLines(l: Language): seq<string> {
    [LanguageLine(l)]
  }

  function LanguagesSection(xs: seq<Language>): seq<string> {
    if |xs| > 0 then ["## Languages"] + FlatMap(xs, LanguageLines) + [""] else []
  }

  function CertificationLine(c: Certification): string {
    "- " + c.name + " (" + c.issuer + ", " + c.date + (if c.expiry != "" then " - " + c.expiry else "") + ")"
  }

  function CertificationLines(c: Certification): seq<string> {
    [CertificationLine(c)] + OptionalLine("  URL: ", c.url)
  }

  function CertificationsSection(xs: seq<Certification>): seq<string> {
    if |xs| > 0 then ["## Certifications"] + FlatMap(xs, CertificationLines) + [""] else []
  }

  function AchievementLines(a: Achievement): seq<string> {
    ["- " + a.title + " (" + a.date + ")", "  " + a.description]
  }

  function AchievementsSection(xs: seq<Achievement>): seq<string> {
    if |xs| > 0 then ["## Achievements"] + FlatMap(xs, AchievementLines) + [""] else []
  }

  function ActivityLines(a: Activity): seq<string> {
    ["- " + a.name, "  " + a.description]
  }

  function ActivitiesSection(xs: seq<Activity>): seq<string> {
    if |xs| > 0 then ["## Activities"] + FlatMap(xs, ActivityLines) + [""] else []
  }

  function BadgeLine(b: Badge): string {
    "- " + b.name + " (" + b.issuer + ", " + b.date + ")"
  }

  function BadgeLines(b: Badge): seq<string> {
    [BadgeLine(b)]
  }

  /** The last section: no blank line after it. */
  function BadgesSection(xs: seq<Badge>): seq<string> {
    if |xs| > 0 then ["## Badges"] + FlatMap(xs, BadgeLines) else []
  }

  /** All lines of the text, section by section in the order they are written. */
  function MarkdownLines(r: Resume): seq<string> {
    HeaderLines(r.personalInfo) + ContactLines(r.personalInfo) + SummaryLines(r.summary)
    + ExperienceSection(r.experience) + EducationSection(r.education) + SkillsSection(r.skills)
    + ProjectsSection(r.projects) + LanguagesSection(r.languages)
    + CertificationsSection(r.certifications) + AchievementsSection(r.achievements)
    + ActivitiesSection(r.activities) + BadgesSection(r.badges)
  }

  /** The text `resumeToMarkdown` returns. */
  function Markdown(r: Resume): string {
    Unlines(MarkdownLines(r))
  }

  // ---------------------------------------------------------------------------
  // The serializer as the source writes it. Every method appends to the text
  // it is given; the ghost `written` is the list of lines that text holds.

  /** `resumeToMarkdown` (lines 4-109). */
  method ResumeToMarkdown(resumeData: Resume) returns (markdown: string)
    ensures markdown == Markdown(resumeData)
  {
    markdown := WriteHead(resumeData.personalInfo, resumeData.summary);
    ghost var written := HeaderLines(resumeData.personalInfo) + ContactLines(resumeData.personalInfo)
      + SummaryLines(resumeData.summary);
    markdown := WriteExperience(markdown, written, resumeData.experience);
    written := written + ExperienceSection(resumeData.experience);
    markdown := WriteEducation(markdown, written, resumeData.education);
    written := written + EducationSection(resumeData.education);
    markdown := WriteSkills(markdown, written, resumeData.skills);
    written := written + SkillsSection(resumeData.skills);
    markdown := WriteProjects(markdown, written, resumeData.projects);
    written := written + ProjectsSection(resumeData.projects);
    markdown := WriteLanguages(markdown, written, resumeData.languages);
    written := written + LanguagesSection(resumeData.languages);
    markdown := WriteCertifications(markdown, written, resumeData.certifications);
    written := written + CertificationsSection(resumeData.certifications);
    markdown := WriteAchievements(markdown, written, resumeData.achievements);
    written := written + AchievementsSection(resumeData.achievements);
    markdown := WriteActivities(markdown, written, resumeData.activities);
    written := written + ActivitiesSection(resumeData.activities);
    markdown := WriteBadges(markdown, written, resumeData.badges);
    written := written + BadgesSection(resumeData.badges);
  }

  /** Lines 5-21: the name and title, the contact block and the summary. */
  method WriteHead(info: PersonalInfo, summary: string) returns (markdown: string)
    ensures markdown == Unlines(HeaderLines(info) + ContactLines(info) + SummaryLines(summary))
  {
    markdown := "";
    markdown := markdown + NameLine(info) + "\n";
    UnlinesSnoc([], NameLine(info));
    markdown := markdown + TitleLine(info) + "\n\n";
    UnlinesParagraph([] + [NameLine(info)], TitleLine(info));
    assert [] + [NameLine(info)] + [TitleLine(info), ""] == HeaderLines(info);
    markdown := WriteContact(markdown, HeaderLines(info), info);
    ghost var written := HeaderLines(info) + ContactLines(info);
    if summary != "" {
      markdown := markdown + "## Summary" + "\n";
      UnlinesSnoc(written, "## Summary");
      markdown := markdown + summary + "\n\n";
      UnlinesParagraph(written + ["## Summary"], summary);
      AppendAssoc(written, ["## Summary"], [summary, ""]);
    } else {
      assert written + SummaryLines(summary) == written;
    }
  }

  /** Lines 9-15: the contact block, one line for each field that is set. */
  method WriteContact(before: string, ghost written: seq<string>, info: PersonalInfo) returns (markdown: string)
    requires before == Unlines(written)
    ensures markdown == Unlines(written + ContactLines(info))
  {
    markdown := before + "## Contact Information" + "\n";
    UnlinesSnoc(written, "## Contact Information");
    ghost var done := written + ["## Contact Information"];
    markdown := AppendOptionalLine(markdown, done, "- Email: ", info.email);
    done := done + OptionalLine("- Email: ", info.email);
    markdown := AppendOptionalLine(markdown, done, "- Phone: ", info.phone);
    done := done + OptionalLine("- Phone: ", info.phone);
    markdown := AppendOptionalLine(markdown, done, "- Location: ", info.location);
    done := done + OptionalLine("- Location: ", info.location);
    markdown := AppendOptionalLine(markdown, done, "- LinkedIn: ", info.linkedin);
    done := done + OptionalLine("- LinkedIn: ", info.linkedin);
    markdown := AppendOptionalLine(markdown, done, "- GitHub: ", info.github);
    done := done + OptionalLine("- GitHub: ", info.github);
    markdown := markdown + "" + "\n";
    UnlinesSnoc(done, "");
    ContactAssoc(written, ["## Contact Information"], OptionalLine("- Email: ", info.email),
      OptionalLine("- Phone: ", info.phone), OptionalLine("- Location: ", info.location),
      OptionalLine("- LinkedIn: ", info.linkedin), OptionalLine("- GitHub: ", info.github), [""]);
  }

  lemma ContactAssoc(w: seq<string>, a: seq<string>, b: seq<string>, c: seq<string>, d: seq<string>,
                     e: seq<string>, f: seq<string>, g: seq<string>)
    ensures w + (a + b + c + d + e + f + g) == w + a + b + c + d + e + f + g
  {
    AppendAssoc(w, a + b + c + d + e + f, g);
    AppendAssoc(w, a + b + c + d + e, f);
    AppendAssoc(w, a + b + c + d, e);
    AppendAssoc(w, a + b + c, d);
    AppendAssoc(w, a + b, c);
    AppendAssoc(w, a, b);
  }

  /** `if (value) markdown += prefix + value + "\n"`. */
  method AppendOptionalLine(before: string, ghost written: seq<string>, prefix: string, value: string)
    returns (markdown: string)
    requires before == Unlines(written)
    ensures markdown == Unlines(written + OptionalLine(prefix, value))
  {
    markdown := before;
    if value != "" {
      markdown := markdown + (prefix + value) + "\n";
      UnlinesSnoc(written, prefix + value);
    } else {
      assert written + [] == written;
    }
  }

  /** `if (value) markdown += prefix + value + "\n\n"`. */
  method AppendLabelled(before: string, ghost written: seq<string>, prefix: string, value: string)
    returns (markdown: string)
    requires before == Unlines(written)
    ensures markdown == Unlines(written + Labelled(prefix, value))
  {
    markdown := before;
    if value != "" {
      markdown := markdown + (prefix + value) + "\n\n";
      UnlinesParagraph(written, prefix + value);
    } else {
      assert written + [] == written;
    }
  }

  /** `if (value) markdown += value + "\n\n"`. */
  method AppendOptionalParagraph(before: string, ghost written: seq<string>, value: string)
    returns (markdown: string)
    requires before == Unlines(written)
    ensures markdown == Unlines(written + OptionalParagraph(value))
  {
    markdown := before;
    if value != "" {
      markdown := markdown + value + "\n\n";
      UnlinesParagraph(written, value);
    } else {
      assert written + [] == written;
    }
  }

  /** Lines 24-33: the experience section, one entry per iteration. */
  method WriteExperience(before: string, ghost lines: seq<string>, xs: seq<Experience>) returns (markdown: string)
    requires before == Unlines(lines)
    ensures markdown == Unlines(lines + ExperienceSection(xs))
  {
    markdown := before;
    if |xs| == 0 {
      assert lines + [] == lines;
    } else {
      markdown := markdown + "## Experience" + "\n";
      UnlinesSnoc(lines, "## Experience");
      ghost var heading := lines + ["## Experience"];
      assert heading + FlatMap(xs[..0], ExperienceLines) == heading;
      for i := 0 to |xs|
        invariant markdown == Unlines(heading + FlatMap(xs[..i], ExperienceLines))
      {
        markdown := AppendExperience(markdown, heading + FlatMap(xs[..i], ExperienceLines), xs[i]);
        NextEntry(xs, i, ExperienceLines, heading);
      }
      assert xs[..|xs|] == xs;
      AppendAssoc(lines, ["## Experience"], FlatMap(xs, ExperienceLines));
    }
  }

  /** One experience entry: heading, date line, description, then projects and scope when set. */
  method AppendExperience(before: string, ghost written: seq<string>, exp: Experience) returns (markdown: string)
    requires before == Unlines(written)
    ensures markdown == Unlines(written + ExperienceLines(exp))
  {
    markdown := before + ExperienceHeading(exp) + "\n";
    UnlinesSnoc(written, ExperienceHeading(exp));
    markdown := markdown + ExperienceDates(exp) + "\n\n";
    UnlinesParagraph(written + [ExperienceHeading(exp)], ExperienceDates(exp));
    markdown := markdown + exp.description + "\n\n";
    UnlinesParagraph(written + [ExperienceHeading(exp)] + [ExperienceDates(exp), ""], exp.description);
    ghost var done := written + [ExperienceHeading(exp)] + [ExperienceDates(exp), ""] + [exp.description, ""];
    assert done == written + ExperienceHead(exp);
    markdown := AppendLabelled(markdown, done, "**Projects:** ", exp.projects);
    markdown := AppendLabelled(markdown, done + Labelled("**Projects:** ", exp.projects), "**Scope:** ", exp.scope);
    AppendAssoc(written, ExperienceHead(exp), Labelled("**Projects:** ", exp.projects));
    AppendAssoc(written, ExperienceHead(exp) + Labelled("**Projects:** ", exp.projects), Labelled("**Scope:** ", exp.scope));
  }

  /** Lines 36-43: the education section. */
  method WriteEducation(before: string, ghost lines: seq<string>, xs: seq<Education>) returns (markdown: string)
    requires before == Unlines(lines)
    ensures markdown == Unlines(lines + EducationSection(xs))
  {
    markdown := before;
    if |xs| == 0 {
      assert lines + [] == lines;
    } else {
      markdown := markdown + "## Education" + "\n";
      UnlinesSnoc(lines, "## Education");
      ghost var heading := lines + ["## Education"];
      assert heading + FlatMap(xs[..0], EducationLines) == heading;
      for i := 0 to |xs|
        invariant markdown == Unlines(heading + FlatMap(xs[..i], EducationLines))
      {
        markdown := AppendEducation(markdown, heading + FlatMap(xs[..i], EducationLines), xs[i]);
        NextEntry(xs, i, EducationLines, heading);
      }
      assert xs[..|xs|] == xs;
      AppendAssoc(lines, ["## Education"], FlatMap(xs, EducationLines));
    }
  }

  /** One education entry: heading, date line, then the description when set. */
  method AppendEducation(before: string, ghost written: seq<string>, edu: Education) returns (markdown: string)
    requires before == Unlines(written)
    ensures markdown == Unlines(written + EducationLines(edu))
  {
    var dates := DateRange(edu.startDate, edu.current, edu.endDate);
    markdown := before + EducationHeading(edu) + "\n";
    UnlinesSnoc(written, EducationHeading(edu));
    markdown := markdown + dates + "\n\n";
    UnlinesParagraph(written + [EducationHeading(edu)], dates);
    ghost var done := written + [EducationHeading(edu)] + [dates, ""];
    markdown := AppendOptionalParagraph(markdown, done, edu.description);
    assert done + OptionalParagraph(edu.description) == written + EducationLines(edu);
  }

  /** Lines 46-50: the skill names joined by commas on one line. */
  method WriteSkills(before: string, ghost lines: seq<string>, xs: seq<Skill>) returns (markdown: string)
    requires before == Unlines(lines)
    ensures markdown == Unlines(lines + SkillsSection(xs))
  {
    markdown := before;
    if |xs| == 0 {
      assert lines + [] == lines;
    } else {
      markdown := markdown + "## Skills" + "\n";
      UnlinesSnoc(lines, "## Skills");
      var skillNames := SkillNames(xs);
      markdown := markdown + Join(skillNames, ", ") + "\n\n";
      UnlinesParagraph(lines + ["## Skills"], Join(skillNames, ", "));
      assert lines + ["## Skills"] + [Join(skillNames, ", "), ""] == lines + SkillsSection(xs);
    }
  }

  /** Lines 53-61: the projects section. */
  method WriteProjects(before: string, ghost lines: seq<string>, xs: seq<Project>) returns (markdown: string)
    requires before == Unlines(lines)
    ensures markdown == Unlines(lines + ProjectsSection(xs))
  {
    markdown := before;
    if |xs| == 0 {
      assert lines + [] == lines;
    } else {
      markdown := markdown + "## Projects" + "\n";
      UnlinesSnoc(lines, "## Projects");
      ghost var heading := lines + ["## Projects"];
      assert heading + FlatMap(xs[..0], ProjectLines) == heading;
      for i := 0 to |xs|
        invariant markdown == Unlines(heading + FlatMap(xs[..i], ProjectLines))
      {
        markdown := AppendProject(markdown, heading + FlatMap(xs[..i], ProjectLines), xs[i]);
        NextEntry(xs, i, ProjectLines, heading);
      }
      assert xs[..|xs|] == xs;
      AppendAssoc(lines, ["## Projects"], FlatMap(xs, ProjectLines));
    }
  }

  /** One project: title, description, the URL when set, then a blank line. */
  method AppendProject(before: string, ghost written: seq<string>, project: Project) returns (markdown: string)
    requires before == Unlines(written)
    ensures markdown == Unlines(written + ProjectLines(project))
  {
    var title := "### " + project.title;
    markdown := before + title + "\n";
    UnlinesSnoc(written, title);
    markdown := markdown + project.description + "\n";
    UnlinesSnoc(written + [title], project.description);
    ghost var done := written + [title] + [project.description];
    markdown := AppendOptionalLine(markdown, done, "URL: ", project.url);
    done := done + OptionalLine("URL: ", project.url);
    markdown := markdown + "" + "\n";
    UnlinesSnoc(done, "");
    assert done + [""] == written + ProjectLines(project);
  }

  /** Lines 64-70: the languages section, one bullet per language. */
  method WriteLanguages(before: string, ghost lines: seq<string>, xs: seq<Language>) returns (markdown: string)
    requires before == Unlines(lines)
    ensures markdown == Unlines(lines + LanguagesSection(xs))
  {
    markdown := before;
    if |xs| == 0 {
      assert lines + [] == lines;
    } else {
      markdown := markdown + "## Languages" + "\n";
      UnlinesSnoc(lines, "## Languages");
      ghost var heading := lines + ["## Languages"];
      assert heading + FlatMap(xs[..0], LanguageLines) == heading;
      for i := 0 to |xs|
        invariant markdown == Unlines(heading + FlatMap(xs[..i], LanguageLines))
      {
        markdown := markdown + LanguageLine(xs[i]) + "\n";
        UnlinesSnoc(heading + FlatMap(xs[..i], LanguageLines), LanguageLine(xs[i]));
        NextEntry(xs, i, LanguageLines, heading);
      }
      assert xs[..|xs|] == xs;
      markdown := markdown + "" + "\n";
      UnlinesSnoc(heading + FlatMap(xs, LanguageLines), "");
      AppendAssoc(lines, ["## Languages"] + FlatMap(xs, LanguageLines), [""]);
      AppendAssoc(lines, ["## Languages"], FlatMap(xs, LanguageLines));
    }
  }

  /** Lines 73-80: the certifications section, with the expiry and URL only when set. */
  method WriteCertifications(before: string, ghost lines: seq<string>, xs: seq<Certification>) returns (markdown: string)
    requires before == Unlines(lines)
    ensures markdown == Unlines(lines + CertificationsSection(xs))
  {
    markdown := before;
    if |xs| == 0 {
      assert lines + [] == lines;
    } else {
      markdown := markdown + "## Certifications" + "\n";
      UnlinesSnoc(lines, "## Certifications");
      ghost var heading := lines + ["## Certifications"];
      assert heading + FlatMap(xs[..0], CertificationLines) == heading;
      for i := 0 to |xs|
        invariant markdown == Unlines(heading + FlatMap(xs[..i], CertificationLines))
      {
        ghost var done := heading + FlatMap(xs[..i], CertificationLines);
        markdown := markdown + CertificationLine(xs[i]) + "\n";
        UnlinesSnoc(done, CertificationLine(xs[i]));
        markdown := AppendOptionalLine(markdown, done + [CertificationLine(xs[i])], "  URL: ", xs[i].url);
        assert done + [CertificationLine(xs[i])] + OptionalLine("  URL: ", xs[i].url)
          == done + CertificationLines(xs[i]);
        NextEntry(xs, i, CertificationLines, heading);
      }
      assert xs[..|xs|] == xs;
      markdown := markdown + "" + "\n";
      UnlinesSnoc(heading + FlatMap(xs, CertificationLines), "");
      AppendAssoc(lines, ["## Certifications"] + FlatMap(xs, CertificationLines), [""]);
      AppendAssoc(lines, ["## Certifications"], FlatMap(xs, CertificationLines));
    }
  }

  /** Lines 83-89: the achievements section, each with its description indented below. */
  method WriteAchievements(before: string, ghost lines: seq<string>, xs: seq<Achievement>) returns (markdown: string)
    requires before == Unlines(lines)
    ensures markdown == Unlines(lines + AchievementsSection(xs))
  {
    markdown := before;
    if |xs| == 0 {
      assert lines + [] == lines;
    } else {
      markdown := markdown + "## Achievements" + "\n";
      UnlinesSnoc(lines, "## Achievements");
      ghost var heading := lines + ["## Achievements"];
      assert heading + FlatMap(xs[..0], AchievementLines) == heading;
      for i := 0 to |xs|
        invariant markdown == Unlines(heading + FlatMap(xs[..i], AchievementLines))
      {
        var entry := AchievementLines(xs[i]);
        markdown := markdown + entry[0] + "\n" + entry[1] + "\n";
        UnlinesPair(heading + FlatMap(xs[..i], AchievementLines), entry[0], entry[1]);
        assert [entry[0], entry[1]] == entry;
        NextEntry(xs, i, AchievementLines, heading);
      }
      assert xs[..|xs|] == xs;
      markdown := markdown + "" + "\n";
      UnlinesSnoc(heading + FlatMap(xs, AchievementLines), "");
      AppendAssoc(lines, ["## Achievements"] + FlatMap(xs, AchievementLines), [""]);
      AppendAssoc(lines, ["## Achievements"], FlatMap(xs, AchievementLines));
    }
  }

  /** Lines 92-98: the activities section. */
  method WriteActivities(before: string, ghost lines: seq<string>, xs: seq<Activity>) returns (markdown: string)
    requires before == Unlines(lines)
    ensures markdown == Unlines(lines + ActivitiesSection(xs))
  {
    markdown := before;
    if |xs| == 0 {
      assert lines + [] == lines;
    } else {
      markdown := markdown + "## Activities" + "\n";
      UnlinesSnoc(lines, "## Activities");
      ghost var heading := lines + ["## Activities"];
      assert heading + FlatMap(xs[..0], ActivityLines) == heading;
      for i := 0 to |xs|
        invariant markdown == Unlines(heading + FlatMap(xs[..i], ActivityLines))
      {
        var entry := ActivityLines(xs[i]);
        markdown := markdown + entry[0] + "\n" + entry[1] + "\n";
        UnlinesPair(heading + FlatMap(xs[..i], ActivityLines), entry[0], entry[1]);
        assert [entry[0], entry[1]] == entry;
        NextEntry(xs, i, ActivityLines, heading);
      }
      assert xs[..|xs|] == xs;
      markdown := markdown + "" + "\n";
      UnlinesSnoc(heading + FlatMap(xs, ActivityLines), "");
      AppendAssoc(lines, ["## Activities"] + FlatMap(xs, ActivityLines), [""]);
      AppendAssoc(lines, ["## Activities"], FlatMap(xs, ActivityLines));
    }
  }

  /** Lines 101-106: the badges section, which ends the text without a blank line. */
  method WriteBadges(before: string, ghost lines: seq<string>, xs: seq<Badge>) returns (markdown: string)
    requires before == Unlines(lines)
    ensures markdown == Unlines(lines + BadgesSection(xs))
  {
    markdown := before;
    if |xs| == 0 {
      assert lines + [] == lines;
    } else {
      markdown := markdown + "## Badges" + "\n";
      UnlinesSnoc(lines, "## Badges");
      ghost var heading := lines + ["## Badges"];
      assert heading + FlatMap(xs[..0], BadgeLines) == heading;
      for i := 0 to |xs|
        invariant markdown == Unlines(heading + FlatMap(xs[..i], BadgeLines))
      {
        markdown := markdown + BadgeLine(xs[i]) + "\n";
        UnlinesSnoc(heading + FlatMap(xs[..i], BadgeLines), BadgeLine(xs[i]));
        NextEntry(xs, i, BadgeLines, heading);
      }
      assert xs[..|xs|] == xs;
      AppendAssoc(lines, ["## Badges"], FlatMap(xs, BadgeLines));
    }
  }

  lemma AppendAssoc<T>(a: seq<T>, b: seq<T>, c: seq<T>)
    ensures a + (b + c) == a + b + c
  {
  }

  /** Appending a line appends its text and a newline. */
  lemma UnlinesSnoc(written: seq<string>, a: string)
    ensures Unlines(written + [a]) == Unlines(written) + a + "\n"
  {
    assert (written + [a])[..|written|] == written;
  }

  /** Appending a line and a blank line appends the text and two newlines. */
  lemma UnlinesParagraph(written: seq<string>, a: string)
    ensures Unlines(written + [a, ""]) == Unlines(written) + a + "\n\n"
  {
    UnlinesPair(written, a, "");
  }

  /** Appending two lines appends their text. */
  lemma UnlinesPair(written: seq<string>, a: string, b: string)
    ensures Unlines(written + [a, b]) == Unlines(written) + a + "\n" + b + "\n"
  {
    assert (written + [a, b])[..|written| + 1] == written + [a];
    assert (written + [a])[..|written|] == written;
  }

  /** The loop step of every section writer: the text of one more entry. */
  lemma NextEntry<T>(xs: seq<T>, i: nat, f: T -> seq<string>, lines: seq<string>)
    requires i < |xs|
    ensures Unlines(lines + FlatMap(xs[..i + 1], f)) == Unlines(lines + FlatMap(xs[..i], f) + f(xs[i]))
  {
    assert xs[..i + 1] == xs[..i] + [xs[i]];
    FlatMapConcat(xs[..i], [xs[i]], f);
    FlatMapOne(xs[i], f);
    assert lines + FlatMap(xs[..i + 1], f) == lines + FlatMap(xs[..i], f) + f(xs[i]);
  }
}
