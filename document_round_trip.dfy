/**
 * The whole round trip: `parseMarkdown(resumeToMarkdown(r))` for a resume
 * whose values the parser can tell apart from the text around them. The
 * personal fields, summary, experience, education, skills, projects and
 * languages come back, with the ids the caller supplies; the
 * certifications, achievements, activities and badges come back empty.
 */
module DocumentRoundTrip {
  import opened Options
  import opened JsText
  import opened LinePatterns
  import opened ResumeTypes
  import opened MarkdownWriter
  import opened MarkdownReader
  import opened ReadSteps
  import opened EntryRoundTrip
  import opened SectionRoundTrip
  import opened ListRoundTrip

  // ---------------------------------------------------------------------------
  // No written line holds a line break

  /** Every line is free of `\n`, so that splitting the text gives the lines back. */
  predicate Flat(lines: seq<string>) {
    forall line | line in lines :: '\n' !in line
  }

  lemma FlatConcat(a: seq<string>, b: seq<string>)
    requires Flat(a) && Flat(b)
    ensures Flat(a + b)
  {
  }

  lemma FlatOptional(prefix: string, value: string)
    requires '\n' !in prefix && '\n' !in value
    ensures Flat(OptionalLine(prefix, value))
  {
  }

  /** The lines written for a list are flat when those written for each item are. */
  lemma FlatItems<T>(xs: seq<T>, f: T -> seq<string>)
    requires forall j :: 0 <= j < |xs| ==> Flat(f(xs[j]))
    ensures Flat(FlatMap(xs, f))
  {
    forall j, k | 0 <= j < |xs| && 0 <= k < |f(xs[j])|
      ensures '\n' !in f(xs[j])[k]
    {
      assert f(xs[j])[k] in f(xs[j]);
    }
    FlatMapAll(xs, f, (line: string) => '\n' !in line);
    forall line | line in FlatMap(xs, f)
      ensures '\n' !in line
    {
      var k :| 0 <= k < |FlatMap(xs, f)| && FlatMap(xs, f)[k] == line;
    }
  }

  /** A one-line value holds no line break. */
  lemma NoBreak(s: string)
    requires OneLine(s)
    ensures '\n' !in s
  {
    OneLineHasNoNewline(s);
  }

  /** The personal fields the text holds, each on one line. */
  predicate PersonalReadable(p: PersonalInfo) {
    OneLine(p.name) && OneLine(p.middleName) && Text(p.title) && ContactReadable(p)
  }

  lemma FlatHeader(p: PersonalInfo)
    requires PersonalReadable(p)
    ensures Flat(HeaderLines(p)) && Flat(ContactLines(p))
  {
    NoBreak(p.name);
    NoBreak(p.middleName);
    NoBreak(p.title);
    NoBreak(p.email);
    NoBreak(p.phone);
    NoBreak(p.location);
    NoBreak(p.linkedin);
    NoBreak(p.github);
    FlatOptional("- Email: ", p.email);
    FlatOptional("- Phone: ", p.phone);
    FlatOptional("- Location: ", p.location);
    FlatOptional("- LinkedIn: ", p.linkedin);
    FlatOptional("- GitHub: ", p.github);
  }

  lemma FlatSummary(summary: string)
    requires SummaryReadable(summary)
    ensures Flat(SummaryLines(summary))
  {
    NoBreak(summary);
  }

  /** The experience fields the text holds, each on one line. */
  predicate ExperienceFlat(e: Experience) {
    OneLine(e.title) && OneLine(e.company) && OneLine(e.location) && OneLine(e.startDate)
    && (!e.current ==> OneLine(e.endDate))
    && OneLine(e.description) && OneLine(e.projects) && OneLine(e.scope)
  }

  lemma ReadableExperienceFlat(xs: seq<Experience>)
    requires ExperiencesReadable(xs)
    ensures forall k :: 0 <= k < |xs| ==> ExperienceFlat(xs[k])
  {
  }

  lemma FlatExperience(e: Experience)
    requires ExperienceFlat(e)
    ensures Flat(ExperienceLines(e))
  {
    NoBreak(e.title);
    NoBreak(e.company);
    NoBreak(e.location);
    NoBreak(e.startDate);
    if !e.current {
      NoBreak(e.endDate);
    }
    NoBreak(e.description);
    NoBreak(e.projects);
    NoBreak(e.scope);
  }

  predicate EducationFlat(e: Education) {
    OneLine(e.degree) && OneLine(e.field) && OneLine(e.institution) && OneLine(e.startDate)
    && (!e.current ==> OneLine(e.endDate)) && OneLine(e.description)
  }

  lemma ReadableEducationFlat(xs: seq<Education>)
    requires EducationsReadable(xs)
    ensures forall k :: 0 <= k < |xs| ==> EducationFlat(xs[k])
  {
  }

  lemma FlatEducation(e: Education)
    requires EducationFlat(e)
    ensures Flat(EducationLines(e))
  {
    NoBreak(e.degree);
    NoBreak(e.field);
    NoBreak(e.institution);
    NoBreak(e.startDate);
    if !e.current {
      NoBreak(e.endDate);
    }
    NoBreak(e.description);
  }

  lemma FlatProject(p: Project)
    requires ProjectReadable(p)
    ensures Flat(ProjectLines(p))
  {
    NoBreak(p.title);
    NoBreak(p.description);
    NoBreak(p.url);
  }

  lemma FlatLanguage(l: Language)
    requires LanguageReadable(l)
    ensures Flat(LanguageLines(l))
  {
    NoBreak(l.name);
    NoBreak(l.proficiency);
  }

  predicate CertificationFlat(c: Certification) {
    OneLine(c.name) && OneLine(c.issuer) && OneLine(c.date) && OneLine(c.expiry) && OneLine(c.url)
  }

  lemma FlatCertification(c: Certification)
    requires CertificationFlat(c)
    ensures Flat(CertificationLines(c))
  {
    NoBreak(c.name);
    NoBreak(c.issuer);
    NoBreak(c.date);
    NoBreak(c.expiry);
    NoBreak(c.url);
  }

  predicate AchievementFlat(a: Achievement) {
    OneLine(a.title) && OneLine(a.date) && OneLine(a.description)
  }

  lemma FlatAchievement(a: Achievement)
    requires AchievementFlat(a)
    ensures Flat(AchievementLines(a))
  {
    NoBreak(a.title);
    NoBreak(a.date);
    NoBreak(a.description);
  }

  predicate ActivityFlat(a: Activity) {
    OneLine(a.name) && OneLine(a.description)
  }

  lemma FlatActivity(a: Activity)
    requires ActivityFlat(a)
    ensures Flat(ActivityLines(a))
  {
    NoBreak(a.name);
    NoBreak(a.description);
  }

  predicate BadgeFlat(b: Badge) {
    OneLine(b.name) && OneLine(b.issuer) && OneLine(b.date)
  }

  lemma FlatBadge(b: Badge)
    requires BadgeFlat(b)
    ensures Flat(BadgeLines(b))
  {
    NoBreak(b.name);
    NoBreak(b.issuer);
    NoBreak(b.date);
  }

  // ---------------------------------------------------------------------------
  // What the parser gives back

  /** A resume whose every written value the parser can tell apart from the text around it. */
  predicate Readable(r: Resume) {
    PersonalReadable(r.personalInfo) && SummaryReadable(r.summary)
    && ExperiencesReadable(r.experience) && EducationsReadable(r.education)
    && SkillsReadable(r.skills) && ProjectsReadable(r.projects) && LanguagesReadable(r.languages)
    && (forall k :: 0 <= k < |r.certifications| ==> CertificationFlat(r.certifications[k]))
    && (forall k :: 0 <= k < |r.achievements| ==> AchievementFlat(r.achievements[k]) && AchievementReadable(r.achievements[k]))
    && (forall k :: 0 <= k < |r.activities| ==> ActivityFlat(r.activities[k]) && ActivityReadable(r.activities[k]))
    && (forall k :: 0 <= k < |r.badges| ==> BadgeFlat(r.badges[k]))
  }

  /** An optional field: set exactly when the value is not empty. */
  function Given(v: string): Option<string> {
    if v == "" then None else Some(v)
  }

  /** What lines 131-142 make of the first line: the name and middle name as the parser splits them. */
  function HeadName(p: PersonalInfo): PartialInfo {
    NameFromHeading(NoInfo, NameLine(p))
  }

  /** The parsed personal fields: the split name, the title, and every contact value written. */
  function InfoBack(p: PersonalInfo): PartialInfo {
    PartialInfo(HeadName(p).name, HeadName(p).middleName, Some(p.title),
      Given(p.email), Given(p.phone), Given(p.location), Given(p.linkedin), Given(p.github))
  }

  /** The experience entries as read back: new ids in order, `Present` meaning ongoing. */
  function ExperiencesBack(xs: seq<Experience>, ids: IdSource): (r: seq<Experience>)
    ensures |r| == |xs|
  {
    seq(|xs|, k requires 0 <= k < |xs| => ExperienceReadBack(xs[k], ids(ExperienceEntry, k)))
  }

  function EducationsBack(xs: seq<Education>, ids: IdSource): (r: seq<Education>)
    ensures |r| == |xs|
  {
    seq(|xs|, k requires 0 <= k < |xs| => EducationReadBack(xs[k], ids(EducationEntry, k)))
  }

  function ProjectsBack(xs: seq<Project>, ids: IdSource): (r: seq<Project>)
    ensures |r| == |xs|
  {
    seq(|xs|, k requires 0 <= k < |xs| => xs[k].(id := ids(ProjectEntry, k)))
  }

  /** What `parseMarkdown` returns for the text written for `r`. */
  function ReadBack(r: Resume, ids: IdSource): ParsedResume {
    ParsedResume(
      InfoBack(r.personalInfo),
      Given(r.summary),
      ExperiencesBack(r.experience, ids),
      EducationsBack(r.education, ids),
      PendingSkills(r.skills, 0, ids),
      ProjectsBack(r.projects, ids),
      PendingLanguages(r.languages, 0, ids),
      [], [], [], [])
  }

  /** The data the loop holds once the text is read, before the clean-up of lines 298-312. */
  function Loaded(r: Resume, ids: IdSource): ParsedResume {
    var p := r.personalInfo;
    ParsedResume(
      ContactBack(HeadInfo([NameLine(p), TitleLine(p)]), p),
      if r.summary == "" then None else Some(Pending(r.summary)),
      PendingExperiences(r.experience, 0, ids),
      PendingEducations(r.education, 0, ids),
      PendingSkills(r.skills, 0, ids),
      PendingProjects(r.projects, 0, ids),
      PendingLanguages(r.languages, 0, ids),
      [], [], [], [])
  }

  /** The lines the loop of lines 150-295 reads: those after the first two, and the empty last piece of the split. */
  function Body(r: Resume): seq<string> {
    [""] + ContactLines(r.personalInfo) + SummaryLines(r.summary)
    + ExperienceSection(r.experience) + EducationSection(r.education) + SkillsSection(r.skills)
    + ProjectsSection(r.projects) + LanguagesSection(r.languages)
    + CertificationsSection(r.certifications) + AchievementsSection(r.achievements)
    + ActivitiesSection(r.activities) + BadgesSection(r.badges) + [""]
  }

  // ---------------------------------------------------------------------------
  // Splitting the text

  lemma FlatExperienceSection(xs: seq<Experience>)
    requires forall k :: 0 <= k < |xs| ==> ExperienceFlat(xs[k])
    ensures Flat(ExperienceSection(xs))
  {
    forall j | 0 <= j < |xs| ensures Flat(ExperienceLines(xs[j])) {
      FlatExperience(xs[j]);
    }
    FlatItems(xs, ExperienceLines);
  }

  lemma FlatEducationSection(xs: seq<Education>)
    requires forall k :: 0 <= k < |xs| ==> EducationFlat(xs[k])
    ensures Flat(EducationSection(xs))
  {
    forall j | 0 <= j < |xs| ensures Flat(EducationLines(xs[j])) {
      FlatEducation(xs[j]);
    }
    FlatItems(xs, EducationLines);
  }

  lemma FlatProjectsSection(xs: seq<Project>)
    requires ProjectsReadable(xs)
    ensures Flat(ProjectsSection(xs))
  {
    forall j | 0 <= j < |xs| ensures Flat(ProjectLines(xs[j])) {
      FlatProject(xs[j]);
    }
    FlatItems(xs, ProjectLines);
  }

  lemma FlatLanguagesSection(xs: seq<Language>)
    requires LanguagesReadable(xs)
    ensures Flat(LanguagesSection(xs))
  {
    forall j | 0 <= j < |xs| ensures Flat(LanguageLines(xs[j])) {
      FlatLanguage(xs[j]);
    }
    FlatItems(xs, LanguageLines);
  }

  lemma FlatCertificationsSection(xs: seq<Certification>)
    requires forall k :: 0 <= k < |xs| ==> CertificationFlat(xs[k])
    ensures Flat(CertificationsSection(xs))
  {
    forall j | 0 <= j < |xs| ensures Flat(CertificationLines(xs[j])) {
      FlatCertification(xs[j]);
    }
    FlatItems(xs, CertificationLines);
  }

  lemma FlatAchievementsSection(xs: seq<Achievement>)
    requires forall k :: 0 <= k < |xs| ==> AchievementFlat(xs[k])
    ensures Flat(AchievementsSection(xs))
  {
    forall j | 0 <= j < |xs| ensures Flat(AchievementLines(xs[j])) {
      FlatAchievement(xs[j]);
    }
    FlatItems(xs, AchievementLines);
  }

  lemma FlatActivitiesSection(xs: seq<Activity>)
    requires forall k :: 0 <= k < |xs| ==> ActivityFlat(xs[k])
    ensures Flat(ActivitiesSection(xs))
  {
    forall j | 0 <= j < |xs| ensures Flat(ActivityLines(xs[j])) {
      FlatActivity(xs[j]);
    }
    FlatItems(xs, ActivityLines);
  }

  lemma FlatBadgesSection(xs: seq<Badge>)
    requires forall k :: 0 <= k < |xs| ==> BadgeFlat(xs[k])
    ensures Flat(BadgesSection(xs))
  {
    forall j | 0 <= j < |xs| ensures Flat(BadgeLines(xs[j])) {
      FlatBadge(xs[j]);
    }
    FlatItems(xs, BadgeLines);
  }

  lemma FlatSkills(xs: seq<Skill>)
    requires SkillsReadable(xs)
    ensures Flat(SkillsSection(xs))
  {
    if xs != [] {
      ReadableNames(xs);
      SkillsLineShape(SkillNames(xs));
      NoBreak(Join(SkillNames(xs), ", "));
    }
  }

  /** No line of the text holds a line break. */
  lemma FlatDocument(r: Resume)
    requires Readable(r)
    ensures Flat(MarkdownLines(r))
  {
    FlatHeader(r.personalInfo);
    FlatSummary(r.summary);
    ReadableExperienceFlat(r.experience);
    FlatExperienceSection(r.experience);
    ReadableEducationFlat(r.education);
    FlatEducationSection(r.education);
    FlatSkills(r.skills);
    FlatProjectsSection(r.projects);
    FlatLanguagesSection(r.languages);
    FlatCertificationsSection(r.certifications);
    FlatAchievementsSection(r.achievements);
    FlatActivitiesSection(r.activities);
    FlatBadgesSection(r.badges);
  }

  /** Line 127: splitting the text at `\n` gives the written lines and an empty last piece. */
  lemma SplitDocument(r: Resume)
    requires Readable(r)
    ensures Split(Markdown(r), '\n') == MarkdownLines(r) + [""]
  {
    FlatDocument(r);
    var lines := MarkdownLines(r);
    forall k | 0 <= k < |lines| ensures '\n' !in lines[k] {
      assert lines[k] in lines;
    }
    SplitUnlines(lines);
  }

  lemma DropTwo(a: seq<string>, b: seq<string>)
    requires |a| >= 2
    ensures (a + b)[2..] == a[2..] + b
  {
  }

  /** Dropping the first two of the lines leaves the loop's lines. */
  lemma DocumentLines(r: Resume)
    ensures var lines := MarkdownLines(r) + [""];
      |lines| > 2 && lines[0] == NameLine(r.personalInfo) && lines[1] == TitleLine(r.personalInfo)
      && lines[2..] == Body(r)
  {
    var p := r.personalInfo;
    var h := HeaderLines(p);
    var m1 := h + ContactLines(p);
    var m2 := m1 + SummaryLines(r.summary);
    var m3 := m2 + ExperienceSection(r.experience);
    var m4 := m3 + EducationSection(r.education);
    var m5 := m4 + SkillsSection(r.skills);
    var m6 := m5 + ProjectsSection(r.projects);
    var m7 := m6 + LanguagesSection(r.languages);
    var m8 := m7 + CertificationsSection(r.certifications);
    var m9 := m8 + AchievementsSection(r.achievements);
    var m10 := m9 + ActivitiesSection(r.activities);
    var m11 := m10 + BadgesSection(r.badges);
    assert m11 == MarkdownLines(r);
    DropTwo(h, ContactLines(p));
    DropTwo(m1, SummaryLines(r.summary));
    DropTwo(m2, ExperienceSection(r.experience));
    DropTwo(m3, EducationSection(r.education));
    DropTwo(m4, SkillsSection(r.skills));
    DropTwo(m5, ProjectsSection(r.projects));
    DropTwo(m6, LanguagesSection(r.languages));
    DropTwo(m7, CertificationsSection(r.certifications));
    DropTwo(m8, AchievementsSection(r.achievements));
    DropTwo(m9, ActivitiesSection(r.activities));
    DropTwo(m10, BadgesSection(r.badges));
    DropTwo(m11, [""]);
    assert h[2..] == [""];
  }

  // ---------------------------------------------------------------------------
  // Reading the lines

  /** The personal fields once the first two lines are read. */
  function HeaderInfo(p: PersonalInfo): PartialInfo {
    HeadInfo([NameLine(p), TitleLine(p)])
  }

  /** Up to the summary: the contact values are set and the summary paragraph is kept. */
  lemma ReadOpening(r: Resume, ids: IdSource)
    requires Readable(r)
    ensures var st := ParserState("", false, EmptyResume(HeaderInfo(r.personalInfo)));
      Run(st, [""] + ContactLines(r.personalInfo) + SummaryLines(r.summary), ids).data
      == EmptyResume(ContactBack(HeaderInfo(r.personalInfo), r.personalInfo)).(summary := Loaded(r, ids).summary)
  {
    var p := r.personalInfo;
    var st := ParserState("", false, EmptyResume(HeaderInfo(p)));
    RunOne(st, "", ids);
    BlankStep(st, ids);
    RunConcat(st, [""], ContactLines(p), ids);
    ReadContact(st, p, ids);
    var contact := Run(st, [""] + ContactLines(p), ids);
    assert contact.data == EmptyResume(ContactBack(HeaderInfo(p), p));
    RunConcat(st, [""] + ContactLines(p), SummaryLines(r.summary), ids);
    ReadSummary(contact, r.summary, ids);
  }

  lemma ExperienceAfter(st: ParserState, pre: seq<string>, xs: seq<Experience>, ids: IdSource)
    requires Valid(st) && ExperiencesReadable(xs) && Run(st, pre, ids).data.experience == []
    ensures Run(st, pre + ExperienceSection(xs), ids).data
      == Run(st, pre, ids).data.(experience := PendingExperiences(xs, 0, ids))
  {
    RunConcat(st, pre, ExperienceSection(xs), ids);
    ReadExperienceSection(Run(st, pre, ids), xs, ids);
    NoneAppend(Run(st, pre, ids).data.experience, PendingExperiences(xs, 0, ids));
  }

  lemma EducationAfter(st: ParserState, pre: seq<string>, xs: seq<Education>, ids: IdSource)
    requires Valid(st) && EducationsReadable(xs) && Run(st, pre, ids).data.education == []
    ensures Run(st, pre + EducationSection(xs), ids).data
      == Run(st, pre, ids).data.(education := PendingEducations(xs, 0, ids))
  {
    RunConcat(st, pre, EducationSection(xs), ids);
    ReadEducationSection(Run(st, pre, ids), xs, ids);
    NoneAppend(Run(st, pre, ids).data.education, PendingEducations(xs, 0, ids));
  }

  lemma SkillsAfter(st: ParserState, pre: seq<string>, xs: seq<Skill>, ids: IdSource)
    requires Valid(st) && SkillsReadable(xs) && Run(st, pre, ids).data.skills == []
    ensures Run(st, pre + SkillsSection(xs), ids).data
      == Run(st, pre, ids).data.(skills := PendingSkills(xs, 0, ids))
  {
    RunConcat(st, pre, SkillsSection(xs), ids);
    ReadSkillsSection(Run(st, pre, ids), xs, ids);
    NoneAppend(Run(st, pre, ids).data.skills, PendingSkills(xs, 0, ids));
  }

  lemma ProjectsAfter(st: ParserState, pre: seq<string>, xs: seq<Project>, ids: IdSource)
    requires Valid(st) && ProjectsReadable(xs) && Run(st, pre, ids).data.projects == []
    ensures Run(st, pre + ProjectsSection(xs), ids).data
      == Run(st, pre, ids).data.(projects := PendingProjects(xs, 0, ids))
  {
    RunConcat(st, pre, ProjectsSection(xs), ids);
    ReadProjectsSection(Run(st, pre, ids), xs, ids);
    NoneAppend(Run(st, pre, ids).data.projects, PendingProjects(xs, 0, ids));
  }

  lemma LanguagesAfter(st: ParserState, pre: seq<string>, xs: seq<Language>, ids: IdSource)
    requires Valid(st) && LanguagesReadable(xs) && Run(st, pre, ids).data.languages == []
    ensures Run(st, pre + LanguagesSection(xs), ids).data
      == Run(st, pre, ids).data.(languages := PendingLanguages(xs, 0, ids))
  {
    RunConcat(st, pre, LanguagesSection(xs), ids);
    ReadLanguagesSection(Run(st, pre, ids), xs, ids);
    NoneAppend(Run(st, pre, ids).data.languages, PendingLanguages(xs, 0, ids));
  }

  /** The entry sections after `pre`: experience, education, skills, projects and languages come back in order. */
  lemma ReadEntries(st: ParserState, pre: seq<string>, r: Resume, ids: IdSource)
    requires Valid(st)
    requires ExperiencesReadable(r.experience) && EducationsReadable(r.education) && SkillsReadable(r.skills)
    requires ProjectsReadable(r.projects) && LanguagesReadable(r.languages)
    requires var d := Run(st, pre, ids).data;
      d.experience == [] && d.education == [] && d.skills == [] && d.projects == [] && d.languages == []
    ensures Run(st, pre + ExperienceSection(r.experience) + EducationSection(r.education) + SkillsSection(r.skills)
                    + ProjectsSection(r.projects) + LanguagesSection(r.languages), ids).data
      == Run(st, pre, ids).data.(experience := PendingExperiences(r.experience, 0, ids),
                                 education := PendingEducations(r.education, 0, ids),
                                 skills := PendingSkills(r.skills, 0, ids),
                                 projects := PendingProjects(r.projects, 0, ids),
                                 languages := PendingLanguages(r.languages, 0, ids))
  {
    var a1 := pre + ExperienceSection(r.experience);
    var a2 := a1 + EducationSection(r.education);
    var a3 := a2 + SkillsSection(r.skills);
    var a4 := a3 + ProjectsSection(r.projects);
    ExperienceAfter(st, pre, r.experience, ids);
    EducationAfter(st, a1, r.education, ids);
    SkillsAfter(st, a2, r.skills, ids);
    ProjectsAfter(st, a3, r.projects, ids);
    LanguagesAfter(st, a4, r.languages, ids);
  }

  /** The sections the parser does not read, and the empty last piece, change nothing. */
  lemma ReadClosing(st: ParserState, pre: seq<string>, r: Resume, ids: IdSource)
    requires Valid(st)
    requires forall k :: 0 <= k < |r.achievements| ==> AchievementReadable(r.achievements[k])
    requires forall k :: 0 <= k < |r.activities| ==> ActivityReadable(r.activities[k])
    ensures Run(st, pre + CertificationsSection(r.certifications) + AchievementsSection(r.achievements)
                    + ActivitiesSection(r.activities) + BadgesSection(r.badges) + [""], ids).data
      == Run(st, pre, ids).data
  {
    var a1 := pre + CertificationsSection(r.certifications);
    var a2 := a1 + AchievementsSection(r.achievements);
    var a3 := a2 + ActivitiesSection(r.activities);
    var a4 := a3 + BadgesSection(r.badges);
    assert Run(st, a1, ids).data == Run(st, pre, ids).data by {
      RunConcat(st, pre, CertificationsSection(r.certifications), ids);
      SkipCertifications(Run(st, pre, ids), r.certifications, ids);
    }
    assert Run(st, a2, ids).data == Run(st, pre, ids).data by {
      RunConcat(st, a1, AchievementsSection(r.achievements), ids);
      SkipAchievements(Run(st, a1, ids), r.achievements, ids);
    }
    assert Run(st, a3, ids).data == Run(st, pre, ids).data by {
      RunConcat(st, a2, ActivitiesSection(r.activities), ids);
      SkipActivities(Run(st, a2, ids), r.activities, ids);
    }
    assert Run(st, a4, ids).data == Run(st, pre, ids).data by {
      RunConcat(st, a3, BadgesSection(r.badges), ids);
      SkipBadges(Run(st, a3, ids), r.badges, ids);
    }
    RunConcat(st, a4, [""], ids);
    RunOne(Run(st, a4, ids), "", ids);
    BlankStep(Run(st, a4, ids), ids);
  }

  /** Lines 131-148 then lines 234-245: the personal fields the text gives back. */
  lemma ReadPersonal(p: PersonalInfo)
    requires PersonalReadable(p)
    ensures ContactBack(HeaderInfo(p), p) == InfoBack(p)
  {
    AllDotsConcat("## ", p.title);
    MatchHeadingRecovers("## ", p.title);
    TrimOfTrimmed(p.title);
    assert HeaderInfo(p) == HeadName(p).(title := Some(p.title));
  }

  /** One experience entry: the trimmed description is the one written. */
  lemma TrimExperienceEntry(e: Experience, id: Id)
    requires ExperienceReadable(e)
    ensures TrimExperience(PendingExperience(e, id)) == ExperienceReadBack(e, id)
  {
    TrimPending(e.description);
  }

  /** Lines 300-312 on the experience entries: each description loses the newline the reader added. */
  lemma TrimExperiences(done: seq<Experience>, xs: seq<Experience>, ids: IdSource)
    requires ExperiencesReadable(xs)
    requires |done| == |xs| && forall k :: 0 <= k < |done| ==> done[k] == TrimExperience(PendingExperiences(xs, 0, ids)[k])
    ensures done == ExperiencesBack(xs, ids)
  {
    forall k | 0 <= k < |xs| ensures done[k] == ExperiencesBack(xs, ids)[k] {
      assert ExperienceReadable(xs[k]);
      TrimExperienceEntry(xs[k], ids(ExperienceEntry, k));
    }
  }

  /** One education entry: the trimmed description is the one written. */
  lemma TrimEducationEntry(e: Education, id: Id)
    requires EducationReadable(e)
    ensures TrimEducation(PendingEducation(e, id)) == EducationReadBack(e, id)
  {
    TrimPending(e.description);
  }

  lemma TrimEducations(done: seq<Education>, xs: seq<Education>, ids: IdSource)
    requires EducationsReadable(xs)
    requires |done| == |xs| && forall k :: 0 <= k < |done| ==> done[k] == TrimEducation(PendingEducations(xs, 0, ids)[k])
    ensures done == EducationsBack(xs, ids)
  {
    forall k | 0 <= k < |xs| ensures done[k] == EducationsBack(xs, ids)[k] {
      assert EducationReadable(xs[k]);
      TrimEducationEntry(xs[k], ids(EducationEntry, k));
    }
  }

  /** One project entry: the trimmed description is the one written. */
  lemma TrimProjectEntry(e: Project, id: Id)
    requires ProjectReadable(e)
    ensures TrimProject(PendingProject(e, id)) == e.(id := id)
  {
    TrimPending(e.description);
  }

  lemma TrimProjects(done: seq<Project>, xs: seq<Project>, ids: IdSource)
    requires ProjectsReadable(xs)
    requires |done| == |xs| && forall k :: 0 <= k < |done| ==> done[k] == TrimProject(PendingProjects(xs, 0, ids)[k])
    ensures done == ProjectsBack(xs, ids)
  {
    forall k | 0 <= k < |xs| ensures done[k] == ProjectsBack(xs, ids)[k] {
      assert ProjectReadable(xs[k]);
      TrimProjectEntry(xs[k], ids(ProjectEntry, k));
    }
  }

  /** Lines 298-312 applied to what the loop holds give the read-back resume. */
  lemma FinishLoaded(r: Resume, ids: IdSource)
    requires Readable(r)
    ensures Finish(Loaded(r, ids)) == ReadBack(r, ids)
  {
    var done := Finish(Loaded(r, ids));
    ReadPersonal(r.personalInfo);
    TrimPending(r.summary);
    TrimExperiences(done.experience, r.experience, ids);
    TrimEducations(done.education, r.education, ids);
    TrimProjects(done.projects, r.projects, ids);
  }

  /** The lines after the first two, read from the start state, leave exactly the loaded data. */
  lemma ReadBody(r: Resume, ids: IdSource)
    requires Readable(r)
    ensures Run(ParserState("", false, EmptyResume(HeaderInfo(r.personalInfo))), Body(r), ids).data == Loaded(r, ids)
  {
    var p := r.personalInfo;
    var st := ParserState("", false, EmptyResume(HeaderInfo(p)));
    var opening := [""] + ContactLines(p) + SummaryLines(r.summary);
    var entries := opening + ExperienceSection(r.experience) + EducationSection(r.education) + SkillsSection(r.skills)
      + ProjectsSection(r.projects) + LanguagesSection(r.languages);
    ReadOpening(r, ids);
    ReadEntries(st, opening, r, ids);
    ReadClosing(st, entries, r, ids);
  }

  /** The loop of lines 150-295 over the lines of the text written for `r`. */
  lemma LoadLines(lines: seq<string>, r: Resume, ids: IdSource)
    requires Readable(r)
    requires |lines| > 2 && lines[0] == NameLine(r.personalInfo) && lines[1] == TitleLine(r.personalInfo)
    requires lines[2..] == Body(r)
    ensures Run(StartState(lines), lines[2..], ids).data == Loaded(r, ids)
  {
    assert StartState(lines) == ParserState("", false, EmptyResume(HeaderInfo(r.personalInfo)));
    ReadBody(r, ids);
  }

  /** What the text written for `r` gives, before the clean-up of lines 298-312. */
  lemma ParseLoaded(markdown: string, r: Resume, ids: IdSource)
    requires Readable(r)
    requires var lines := Split(markdown, '\n');
      |lines| > 2 && lines[0] == NameLine(r.personalInfo) && lines[1] == TitleLine(r.personalInfo)
      && lines[2..] == Body(r)
    ensures Parse(markdown, ids) == Finish(Loaded(r, ids))
  {
    LoadLines(Split(markdown, '\n'), r, ids);
  }

  /**
   * `parseMarkdown` after `resumeToMarkdown` (lines 111-315 after lines
   * 4-105): every field the reader recognises comes back as written, the
   * entries with new ids, and the lists the reader never fills come back empty.
   */
  lemma ParseMarkdownRoundTrip(r: Resume, ids: IdSource)
    requires Readable(r)
    ensures Parse(Markdown(r), ids) == ReadBack(r, ids)
  {
    SplitDocument(r);
    DocumentLines(r);
    ParseLoaded(Markdown(r), r, ids);
    FinishLoaded(r, ids);
  }
}
