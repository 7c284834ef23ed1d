/**
 * What the parser makes of the lines the serializer writes for one
 * experience, education or project entry: under conditions on the fields
 * that keep every line recognisable, the entry comes back field by field,
 * its description still followed by the newline the clean-up trims away.
 */
module EntryRoundTrip {
  import opened Options
  import opened JsText
  import opened LinePatterns
  import opened ResumeTypes
  import opened MarkdownWriter
  import opened MarkdownReader
  import opened ReadSteps

  /** A description as the parser holds it before the clean-up: one line and its newline, if any. */
  function Pending(description: string): string {
    if description == "" then "" else description + "\n"
  }

  lemma TrimPending(description: string)
    requires IsTrimmed(description)
    ensures Trim(Pending(description)) == description
  {
    if description != "" {
      TrimStartOfTrimmed(description + "\n");
      var t := description + "\n";
      assert t[..|t| - 1] == description;
      assert TrimEnd(t) == TrimEnd(description);
      TrimEndOfTrimmed(description);
    }
  }

  /** An entry is ongoing when it says so, or when its end date is the word `Present`. */
  predicate Ongoing(current: bool, endDate: string) {
    current || endDate == "Present"
  }

  /** The end of a date range read back from what the serializer wrote. */
  lemma EndTokenRead(current: bool, endDate: string)
    ensures EndDateOf(EndToken(current, endDate)) == (if Ongoing(current, endDate) then "" else endDate, Ongoing(current, endDate))
  {
  }

  // ---------------------------------------------------------------------------
  // Experience

  /** A line the parser adds to an experience description: none of the other detail lines. */
  predicate ExperienceProse(d: string) {
    d != "" && d[0] != '#' && !StartsWithListMarker(d)
    && !Contains(d, " | ") && !Contains(d, "Projects:") && !Contains(d, "Scope:")
  }

  /** An experience entry whose every line the parser recognises for what it is. */
  predicate ExperienceReadable(e: Experience) {
    Text(e.title) && Text(e.company) && SplitsLast(" at ", e.company)
    && Text(e.location) && e.location[0] != '#'
    && Text(e.startDate) && '|' !in e.startDate
    && (!e.current ==> Text(e.endDate) && '|' !in e.endDate && SplitsLast(" - ", e.endDate))
    && Field(e.description) && (e.description != "" ==> ExperienceProse(e.description))
    && Field(e.projects) && '|' !in e.projects
    && Field(e.scope) && '|' !in e.scope && !Contains(e.scope, "Projects:")
  }

  /** An experience entry as it is read back: a new id, and `Present` as the end date means ongoing. */
  function ExperienceReadBack(e: Experience, id: Id): Experience {
    var ongoing := Ongoing(e.current, e.endDate);
    e.(id := id, current := ongoing, endDate := if ongoing then "" else e.endDate)
  }

  function PendingExperience(e: Experience, id: Id): Experience {
    ExperienceReadBack(e, id).(description := Pending(e.description))
  }

  /** Two values that `.` matches, joined by a separator it matches, make one such value. */
  lemma JoinedDots(a: string, sep: string, b: string)
    requires AllDots(a) && AllDots(sep) && AllDots(b)
    ensures AllDots(a + sep + b)
  {
    AllDotsConcat(a, sep);
    AllDotsConcat(a + sep, b);
  }

  /** `(.+) at (.+)` splits an experience title back into job title and company. */
  lemma ExperienceTitleMatch(e: Experience)
    requires Text(e.title) && Text(e.company) && SplitsLast(" at ", e.company)
    ensures MatchPair(ExperienceTitle(e), " at ") == Some((e.title, e.company))
    ensures IsTrimmed(ExperienceTitle(e))
  {
    JoinedDots(e.title, " at ", e.company);
    MatchPairRecovers(e.title, " at ", e.company);
    TrimmedLine(e.title + " at ", e.company);
  }

  lemma ExperienceHeadingStep(st: ParserState, e: Experience, ids: IdSource)
    requires Valid(st) && st.section == "experience"
    requires Text(e.title) && Text(e.company) && SplitsLast(" at ", e.company)
    ensures Step(st, ExperienceHeading(e), ids)
      == ExperienceOpen(st.data, st.data.experience,
           Experience(ids(ExperienceEntry, |st.data.experience|), e.title, e.company, "", "", "", false, "", "", ""))
  {
    ExperienceTitleMatch(e);
    SubheadingStep(st, ExperienceTitle(e), ids);
    TrimOfTrimmed(e.title);
    TrimOfTrimmed(e.company);
  }

  lemma ExperienceDatesDetail(cur: Experience, e: Experience)
    requires Text(e.location) && Text(e.startDate) && '|' !in e.startDate
    requires !e.current ==> Text(e.endDate) && '|' !in e.endDate && SplitsLast(" - ", e.endDate)
    ensures ExperienceDetail(cur, ExperienceDates(e))
      == cur.(location := e.location, startDate := e.startDate,
              endDate := ExperienceReadBack(e, cur.id).endDate, current := ExperienceReadBack(e, cur.id).current)
  {
    var end := EndToken(e.current, e.endDate);
    var range := DateRange(e.startDate, e.current, e.endDate);
    if e.current {
      PresentSplitsLast();
    }
    BarSplitsLast(range);
    AllDotsConcat(e.startDate, " - ");
    AllDotsConcat(e.startDate + " - ", end);
    AllDotsConcat(e.location, " | ");
    AllDotsConcat(e.location + " | ", range);
    MatchTripleRecovers(e.location, " | ", e.startDate, " - ", end);
    TrimOfTrimmed(e.location);
    TrimOfTrimmed(e.startDate);
    TrimOfTrimmed(end);
    EndTokenRead(e.current, e.endDate);
  }

  lemma ExperienceProseDetail(cur: Experience, d: string)
    requires ExperienceProse(d)
    ensures ExperienceDetail(cur, d) == cur.(description := cur.description + d + "\n")
  {
    MatchTripleHasFirst(d, " | ", " - ");
  }

  /** A labelled line holding no `|` is no date line. */
  lemma LabelledNotDates(line: string)
    requires |line| > 1 && line[1] != '|' && '|' !in line
    ensures MatchTriple(line, " | ", " - ").None?
  {
    NotContainsMissingChar(line, " | ", 1);
    MatchTripleHasFirst(line, " | ", " - ");
  }

  /** The value after a label and one space comes back once the label is removed and the rest trimmed. */
  lemma LabelValue(tag: string, value: string)
    requires IsTrimmed(value)
    ensures Trim(RemoveFirst(tag + " " + value, tag)) == value
  {
    var rest := " " + value;
    AppendAssoc(tag, " ", value);
    RemoveFirstOfPrefix(tag, rest);
    TrimAfterSpace(value);
  }

  lemma ProjectsTag(projects: string)
    ensures Contains("**Projects:** " + projects, "Projects:")
  {
    var line := "**Projects:** " + projects;
    assert line[2..11] == "Projects:" by {
      assert line[..14] == "**Projects:** ";
    }
    ContainsAt(line, "Projects:", 2);
  }

  lemma ScopeTag(scope: string)
    ensures Contains("**Scope:** " + scope, "Scope:")
  {
    var line := "**Scope:** " + scope;
    assert line[2..8] == "Scope:" by {
      assert line[..11] == "**Scope:** ";
    }
    ContainsAt(line, "Scope:", 2);
  }

  lemma ScopeNotProjects(scope: string)
    requires !Contains(scope, "Projects:")
    ensures !Contains("**Scope:** " + scope, "Projects:")
  {
    ContainsSkipPrefix("**Scope:** ", scope, "Projects:");
  }

  lemma ProjectsLabelSplit()
    ensures "**Projects:** " == "**Projects:**" + " "
  {
  }

  lemma ProjectsValue(projects: string)
    requires IsTrimmed(projects)
    ensures Trim(RemoveFirst("**Projects:** " + projects, "**Projects:**")) == projects
  {
    ProjectsLabelSplit();
    LabelValue("**Projects:**", projects);
  }

  lemma ScopeLabelSplit()
    ensures "**Scope:** " == "**Scope:**" + " "
  {
  }

  lemma ScopeValue(scope: string)
    requires IsTrimmed(scope)
    ensures Trim(RemoveFirst("**Scope:** " + scope, "**Scope:**")) == scope
  {
    ScopeLabelSplit();
    LabelValue("**Scope:**", scope);
  }

  /** A `**Projects:**` line is no date line and no description, and its value comes back. */
  lemma ProjectsLine(projects: string)
    requires IsTrimmed(projects) && '|' !in projects
    ensures MatchTriple("**Projects:** " + projects, " | ", " - ").None?
    ensures Contains("**Projects:** " + projects, "Projects:")
    ensures Trim(RemoveFirst("**Projects:** " + projects, "**Projects:**")) == projects
  {
    LabelledNotDates("**Projects:** " + projects);
    ProjectsTag(projects);
    ProjectsValue(projects);
  }

  lemma ExperienceProjectsDetail(cur: Experience, projects: string)
    requires IsTrimmed(projects) && '|' !in projects
    ensures ExperienceDetail(cur, "**Projects:** " + projects) == cur.(projects := projects)
  {
    ProjectsLine(projects);
  }

  /** A `**Scope:**` line is no date line, no description and no projects line, and its value comes back. */
  lemma ScopeLine(scope: string)
    requires IsTrimmed(scope) && '|' !in scope && !Contains(scope, "Projects:")
    ensures MatchTriple("**Scope:** " + scope, " | ", " - ").None?
    ensures !Contains("**Scope:** " + scope, "Projects:") && Contains("**Scope:** " + scope, "Scope:")
    ensures Trim(RemoveFirst("**Scope:** " + scope, "**Scope:**")) == scope
  {
    LabelledNotDates("**Scope:** " + scope);
    ScopeNotProjects(scope);
    ScopeTag(scope);
    ScopeValue(scope);
  }

  lemma ExperienceScopeDetail(cur: Experience, scope: string)
    requires IsTrimmed(scope) && '|' !in scope && !Contains(scope, "Projects:")
    ensures ExperienceDetail(cur, "**Scope:** " + scope) == cur.(scope := scope)
  {
    ScopeLine(scope);
  }

  /** The date line of a readable entry is trimmed and is no heading. */
  lemma ExperienceDatesLine(e: Experience)
    requires Text(e.location) && e.location[0] != '#' && Text(e.startDate)
    requires !e.current ==> Text(e.endDate)
    ensures IsTrimmed(ExperienceDates(e)) && ExperienceDates(e) != "" && ExperienceDates(e)[0] != '#'
  {
    var end := EndToken(e.current, e.endDate);
    assert IsTrimmed(end) && end != "";
    TrimmedLine(e.startDate + " - ", end);
    TrimmedLine(e.location + " | ", DateRange(e.startDate, e.current, e.endDate));
  }

  /** The entry the heading opens: title and company, the other fields empty. */
  function OpenedExperience(e: Experience, id: Id): Experience {
    Experience(id, e.title, e.company, "", "", "", false, "", "", "")
  }

  /** The entry once the date line is read. */
  function DatedExperience(e: Experience, id: Id): Experience {
    var back := ExperienceReadBack(e, id);
    OpenedExperience(e, id).(location := e.location, startDate := e.startDate, endDate := back.endDate, current := back.current)
  }

  /** The date line fills in the location and the dates of the entry the heading opened. */
  lemma ExperienceDatesStep(data: ParsedResume, before: seq<Experience>, e: Experience, id: Id, ids: IdSource)
    requires ExperienceReadable(e)
    ensures Step(ExperienceOpen(data, before, OpenedExperience(e, id)), ExperienceDates(e), ids)
      == ExperienceOpen(data, before, DatedExperience(e, id))
  {
    ExperienceDatesLine(e);
    ExperienceStep(data, before, OpenedExperience(e, id), ExperienceDates(e), ids);
    ExperienceDatesDetail(OpenedExperience(e, id), e);
  }

  lemma ReadExperienceTop(st: ParserState, e: Experience, ids: IdSource)
    requires Valid(st) && st.section == "experience" && ExperienceReadable(e)
    ensures Run(st, [ExperienceHeading(e), ExperienceDates(e)], ids)
      == ExperienceOpen(st.data, st.data.experience, DatedExperience(e, ids(ExperienceEntry, |st.data.experience|)))
  {
    RunPair(st, ExperienceHeading(e), ExperienceDates(e), ids);
    ExperienceHeadingStep(st, e, ids);
    ExperienceDatesStep(st.data, st.data.experience, e, ids(ExperienceEntry, |st.data.experience|), ids);
  }

  lemma ExperienceProseStep(data: ParsedResume, before: seq<Experience>, cur: Experience, d: string, ids: IdSource)
    requires cur.description == "" && IsTrimmed(d) && ExperienceProse(d)
    ensures Step(ExperienceOpen(data, before, cur), d, ids) == ExperienceOpen(data, before, cur.(description := d + "\n"))
  {
    ExperienceStep(data, before, cur, d, ids);
    ExperienceProseDetail(cur, d);
    assert cur.description + d == d;
  }

  lemma ReadExperienceProse(data: ParsedResume, before: seq<Experience>, cur: Experience, d: string, ids: IdSource)
    requires cur.description == "" && IsTrimmed(d) && ExperienceProse(d)
    ensures Run(ExperienceOpen(data, before, cur), ["", d, ""], ids) == ExperienceOpen(data, before, cur.(description := d + "\n"))
  {
    RunBetweenBlanks(ExperienceOpen(data, before, cur), d, ids);
    ExperienceProseStep(data, before, cur, d, ids);
  }

  lemma ReadExperienceDescription(data: ParsedResume, before: seq<Experience>, cur: Experience, d: string, ids: IdSource)
    requires cur.description == "" && IsTrimmed(d) && (d != "" ==> ExperienceProse(d))
    ensures Run(ExperienceOpen(data, before, cur), ["", d, ""], ids)
      == ExperienceOpen(data, before, cur.(description := Pending(d)))
  {
    if d == "" {
      BlankLines(ExperienceOpen(data, before, cur), ids);
    } else {
      ReadExperienceProse(data, before, cur, d, ids);
    }
  }

  lemma ExperienceProjectsStep(data: ParsedResume, before: seq<Experience>, cur: Experience, projects: string, ids: IdSource)
    requires IsTrimmed(projects) && projects != "" && '|' !in projects
    ensures Step(ExperienceOpen(data, before, cur), "**Projects:** " + projects, ids)
      == ExperienceOpen(data, before, cur.(projects := projects))
  {
    TrimmedLine("**Projects:** ", projects);
    ExperienceStep(data, before, cur, "**Projects:** " + projects, ids);
    ExperienceProjectsDetail(cur, projects);
  }

  lemma ExperienceScopeStep(data: ParsedResume, before: seq<Experience>, cur: Experience, scope: string, ids: IdSource)
    requires IsTrimmed(scope) && scope != "" && '|' !in scope && !Contains(scope, "Projects:")
    ensures Step(ExperienceOpen(data, before, cur), "**Scope:** " + scope, ids)
      == ExperienceOpen(data, before, cur.(scope := scope))
  {
    TrimmedLine("**Scope:** ", scope);
    ExperienceStep(data, before, cur, "**Scope:** " + scope, ids);
    ExperienceScopeDetail(cur, scope);
  }

  lemma ReadExperienceProjects(data: ParsedResume, before: seq<Experience>, cur: Experience, projects: string, ids: IdSource)
    requires IsTrimmed(projects) && '|' !in projects
    ensures Run(ExperienceOpen(data, before, cur), Labelled("**Projects:** ", projects), ids)
      == ExperienceOpen(data, before, if projects != "" then cur.(projects := projects) else cur)
  {
    if projects != "" {
      RunParagraph(ExperienceOpen(data, before, cur), "**Projects:** " + projects, ids);
      ExperienceProjectsStep(data, before, cur, projects, ids);
    }
  }

  lemma ReadExperienceScope(data: ParsedResume, before: seq<Experience>, cur: Experience, scope: string, ids: IdSource)
    requires IsTrimmed(scope) && '|' !in scope && !Contains(scope, "Projects:")
    ensures Run(ExperienceOpen(data, before, cur), Labelled("**Scope:** ", scope), ids)
      == ExperienceOpen(data, before, if scope != "" then cur.(scope := scope) else cur)
  {
    if scope != "" {
      RunParagraph(ExperienceOpen(data, before, cur), "**Scope:** " + scope, ids);
      ExperienceScopeStep(data, before, cur, scope, ids);
    }
  }

  /** The lines of an entry: heading and dates, the description paragraph, then the labelled lines. */
  lemma ExperienceLinesSplit(e: Experience)
    ensures ExperienceLines(e)
      == [ExperienceHeading(e), ExperienceDates(e)]
         + (["", e.description, ""] + (Labelled("**Projects:** ", e.projects) + Labelled("**Scope:** ", e.scope)))
  {
  }

  /** An entry with the projects and the scope that were written, each only when set. */
  function WithLabels(cur: Experience, projects: string, scope: string): Experience {
    var withProjects := if projects != "" then cur.(projects := projects) else cur;
    if scope != "" then withProjects.(scope := scope) else withProjects
  }

  lemma ReadExperienceLabels(data: ParsedResume, before: seq<Experience>, cur: Experience, projects: string, scope: string, ids: IdSource)
    requires IsTrimmed(projects) && '|' !in projects
    requires IsTrimmed(scope) && '|' !in scope && !Contains(scope, "Projects:")
    ensures Run(ExperienceOpen(data, before, cur), Labelled("**Projects:** ", projects) + Labelled("**Scope:** ", scope), ids)
      == ExperienceOpen(data, before, WithLabels(cur, projects, scope))
  {
    var withProjects := if projects != "" then cur.(projects := projects) else cur;
    RunConcat(ExperienceOpen(data, before, cur), Labelled("**Projects:** ", projects), Labelled("**Scope:** ", scope), ids);
    ReadExperienceProjects(data, before, cur, projects, ids);
    ReadExperienceScope(data, before, withProjects, scope, ids);
  }

  /** The fields the description, projects and scope lines fill in complete the entry. */
  lemma PendingExperienceFields(e: Experience, id: Id)
    ensures WithLabels(DatedExperience(e, id).(description := Pending(e.description)), e.projects, e.scope)
      == PendingExperience(e, id)
  {
  }

  /** After the heading and the dates, the description and the labelled lines complete the entry. */
  lemma ReadExperienceRest(data: ParsedResume, before: seq<Experience>, e: Experience, id: Id, ids: IdSource)
    requires ExperienceReadable(e)
    ensures Run(ExperienceOpen(data, before, DatedExperience(e, id)),
                ["", e.description, ""] + (Labelled("**Projects:** ", e.projects) + Labelled("**Scope:** ", e.scope)), ids)
      == ExperienceOpen(data, before, PendingExperience(e, id))
  {
    var e1 := DatedExperience(e, id);
    var e2 := e1.(description := Pending(e.description));
    var labels := Labelled("**Projects:** ", e.projects) + Labelled("**Scope:** ", e.scope);
    RunConcat(ExperienceOpen(data, before, e1), ["", e.description, ""], labels, ids);
    ReadExperienceDescription(data, before, e1, e.description, ids);
    ReadExperienceLabels(data, before, e2, e.projects, e.scope, ids);
    PendingExperienceFields(e, id);
  }

  /** Lines 27-31 read back by lines 164-180 and 250-270: one experience entry. */
  lemma ReadExperienceEntry(st: ParserState, e: Experience, ids: IdSource)
    requires Valid(st) && st.section == "experience" && ExperienceReadable(e)
    ensures Run(st, ExperienceLines(e), ids)
      == ExperienceOpen(st.data, st.data.experience, PendingExperience(e, ids(ExperienceEntry, |st.data.experience|)))
  {
    var id := ids(ExperienceEntry, |st.data.experience|);
    var top := [ExperienceHeading(e), ExperienceDates(e)];
    var rest := ["", e.description, ""] + (Labelled("**Projects:** ", e.projects) + Labelled("**Scope:** ", e.scope));
    ExperienceLinesSplit(e);
    RunConcat(st, top, rest, ids);
    ReadExperienceTop(st, e, ids);
    ReadExperienceRest(st.data, st.data.experience, e, id, ids);
  }

  // ---------------------------------------------------------------------------
  // Education

  /** A line the parser adds to an education description. */
  predicate EducationProse(d: string) {
    d != "" && d[0] != '#' && d[0] != '-' && !Contains(d, " - ")
  }

  /** An education entry whose every line the parser recognises for what it is. */
  predicate EducationReadable(e: Education) {
    Text(e.degree) && Text(e.field) && Text(e.institution)
    && SplitsLast(" in ", e.field + ", " + e.institution) && SplitsLast(", ", e.institution)
    && Text(e.startDate) && e.startDate[0] != '#'
    && (!e.current ==> Text(e.endDate) && SplitsLast(" - ", e.endDate))
    && Field(e.description) && (e.description != "" ==> EducationProse(e.description))
  }

  /** An education entry as it is read back: a new id, and `Present` as the end date means ongoing. */
  function EducationReadBack(e: Education, id: Id): Education {
    var ongoing := Ongoing(e.current, e.endDate);
    e.(id := id, current := ongoing, endDate := if ongoing then "" else e.endDate)
  }

  function PendingEducation(e: Education, id: Id): Education {
    EducationReadBack(e, id).(description := Pending(e.description))
  }

  function OpenedEducation(e: Education, id: Id): Education {
    Education(id, e.institution, e.degree, e.field, "", "", false, "")
  }

  function DatedEducation(e: Education, id: Id): Education {
    var back := EducationReadBack(e, id);
    OpenedEducation(e, id).(startDate := e.startDate, endDate := back.endDate, current := back.current)
  }

  /** `(.+) in (.+), (.+)` splits an education title back into degree, field and institution. */
  lemma EducationTitleMatch(e: Education)
    requires Text(e.degree) && Text(e.field) && Text(e.institution)
    requires SplitsLast(" in ", e.field + ", " + e.institution) && SplitsLast(", ", e.institution)
    ensures MatchTriple(EducationTitle(e), " in ", ", ") == Some((e.degree, e.field, e.institution))
    ensures IsTrimmed(EducationTitle(e))
  {
    AllDotsConcat(e.field, ", ");
    AllDotsConcat(e.field + ", ", e.institution);
    AllDotsConcat(e.degree, " in ");
    AllDotsConcat(e.degree + " in ", e.field + ", " + e.institution);
    MatchTripleRecovers(e.degree, " in ", e.field, ", ", e.institution);
    TrimmedLine(e.field + ", ", e.institution);
    TrimmedLine(e.degree + " in ", e.field + ", " + e.institution);
  }

  lemma EducationHeadingStep(st: ParserState, e: Education, ids: IdSource)
    requires Valid(st) && st.section == "education" && EducationReadable(e)
    ensures Step(st, EducationHeading(e), ids)
      == EducationOpen(st.data, st.data.education, OpenedEducation(e, ids(EducationEntry, |st.data.education|)))
  {
    EducationTitleMatch(e);
    SubheadingStep(st, EducationTitle(e), ids);
    TrimOfTrimmed(e.degree);
    TrimOfTrimmed(e.field);
    TrimOfTrimmed(e.institution);
  }

  /** `(.+) - (.+)` splits an education date line back into start date and end. */
  lemma EducationDatesMatch(e: Education)
    requires Text(e.startDate) && e.startDate[0] != '#'
    requires !e.current ==> Text(e.endDate) && SplitsLast(" - ", e.endDate)
    ensures MatchPair(DateRange(e.startDate, e.current, e.endDate), " - ") == Some((e.startDate, EndToken(e.current, e.endDate)))
    ensures IsTrimmed(DateRange(e.startDate, e.current, e.endDate))
    ensures DateRange(e.startDate, e.current, e.endDate)[0] != '#'
  {
    var end := EndToken(e.current, e.endDate);
    if e.current {
      PresentSplitsLast();
    }
    assert IsTrimmed(end) && end != "";
    AllDotsConcat(e.startDate, " - ");
    AllDotsConcat(e.startDate + " - ", end);
    MatchPairRecovers(e.startDate, " - ", end);
    TrimmedLine(e.startDate + " - ", end);
  }

  lemma EducationDatesDetail(cur: Education, e: Education)
    requires Text(e.startDate) && e.startDate[0] != '#'
    requires !e.current ==> Text(e.endDate) && SplitsLast(" - ", e.endDate)
    ensures EducationDetail(cur, DateRange(e.startDate, e.current, e.endDate))
      == cur.(startDate := e.startDate, endDate := EducationReadBack(e, cur.id).endDate,
              current := EducationReadBack(e, cur.id).current)
  {
    EducationDatesMatch(e);
    TrimOfTrimmed(e.startDate);
    TrimOfTrimmed(EndToken(e.current, e.endDate));
    EndTokenRead(e.current, e.endDate);
  }

  lemma ReadEducationTop(st: ParserState, e: Education, ids: IdSource)
    requires Valid(st) && st.section == "education" && EducationReadable(e)
    ensures Run(st, [EducationHeading(e), DateRange(e.startDate, e.current, e.endDate)], ids)
      == EducationOpen(st.data, st.data.education, DatedEducation(e, ids(EducationEntry, |st.data.education|)))
  {
    var id := ids(EducationEntry, |st.data.education|);
    var dates := DateRange(e.startDate, e.current, e.endDate);
    RunPair(st, EducationHeading(e), dates, ids);
    EducationHeadingStep(st, e, ids);
    EducationDatesMatch(e);
    EducationStep(st.data, st.data.education, OpenedEducation(e, id), dates, ids);
    EducationDatesDetail(OpenedEducation(e, id), e);
  }

  lemma EducationProseDetail(cur: Education, d: string)
    requires EducationProse(d)
    ensures EducationDetail(cur, d) == cur.(description := cur.description + d + "\n")
  {
    MatchPairHasSep(d, " - ");
  }

  lemma EducationProseStep(data: ParsedResume, before: seq<Education>, cur: Education, d: string, ids: IdSource)
    requires cur.description == "" && IsTrimmed(d) && EducationProse(d)
    ensures Step(EducationOpen(data, before, cur), d, ids) == EducationOpen(data, before, cur.(description := d + "\n"))
  {
    EducationStep(data, before, cur, d, ids);
    EducationProseDetail(cur, d);
    assert cur.description + d == d;
  }

  lemma ReadEducationProse(data: ParsedResume, before: seq<Education>, cur: Education, d: string, ids: IdSource)
    requires cur.description == "" && IsTrimmed(d) && EducationProse(d)
    ensures Run(EducationOpen(data, before, cur), ["", d, ""], ids) == EducationOpen(data, before, cur.(description := d + "\n"))
  {
    RunBetweenBlanks(EducationOpen(data, before, cur), d, ids);
    EducationProseStep(data, before, cur, d, ids);
  }

  /** The blank line after the dates, then the description paragraph if there is one. */
  lemma DescriptionLines(d: string)
    ensures d == "" ==> [""] + OptionalParagraph(d) == [""]
    ensures d != "" ==> [""] + OptionalParagraph(d) == ["", d, ""]
  {
  }

  lemma ReadEducationDescription(data: ParsedResume, before: seq<Education>, cur: Education, d: string, ids: IdSource)
    requires cur.description == "" && IsTrimmed(d) && (d != "" ==> EducationProse(d))
    ensures Run(EducationOpen(data, before, cur), [""] + OptionalParagraph(d), ids)
      == EducationOpen(data, before, cur.(description := Pending(d)))
  {
    DescriptionLines(d);
    if d == "" {
      RunOne(EducationOpen(data, before, cur), "", ids);
      BlankStep(EducationOpen(data, before, cur), ids);
    } else {
      ReadEducationProse(data, before, cur, d, ids);
    }
  }

  lemma PendingEducationFields(e: Education, id: Id)
    ensures DatedEducation(e, id).(description := Pending(e.description)) == PendingEducation(e, id)
  {
  }

  /** After the heading and the dates, the description, if any, completes the entry. */
  lemma ReadEducationRest(data: ParsedResume, before: seq<Education>, e: Education, id: Id, ids: IdSource)
    requires EducationReadable(e)
    ensures Run(EducationOpen(data, before, DatedEducation(e, id)), [""] + OptionalParagraph(e.description), ids)
      == EducationOpen(data, before, PendingEducation(e, id))
  {
    ReadEducationDescription(data, before, DatedEducation(e, id), e.description, ids);
    PendingEducationFields(e, id);
  }

  lemma EducationLinesSplit(e: Education)
    ensures EducationLines(e)
      == [EducationHeading(e), DateRange(e.startDate, e.current, e.endDate)] + ([""] + OptionalParagraph(e.description))
  {
  }

  /** Lines 39-41 read back by lines 181-195 and 271-282: one education entry. */
  lemma ReadEducationEntry(st: ParserState, e: Education, ids: IdSource)
    requires Valid(st) && st.section == "education" && EducationReadable(e)
    ensures Run(st, EducationLines(e), ids)
      == EducationOpen(st.data, st.data.education, PendingEducation(e, ids(EducationEntry, |st.data.education|)))
  {
    var id := ids(EducationEntry, |st.data.education|);
    var top := [EducationHeading(e), DateRange(e.startDate, e.current, e.endDate)];
    var rest := [""] + OptionalParagraph(e.description);
    EducationLinesSplit(e);
    RunConcat(st, top, rest, ids);
    ReadEducationTop(st, e, ids);
    ReadEducationRest(st.data, st.data.education, e, id, ids);
  }

  // ---------------------------------------------------------------------------
  // Projects

  /** A line the parser adds to a project description. */
  predicate ProjectProse(d: string) {
    d != "" && d[0] != '#' && d[0] != '-' && !Contains(d, "URL: ")
  }

  /** A project whose every line the parser recognises for what it is. */
  predicate ProjectReadable(p: Project) {
    Text(p.title) && Field(p.description) && (p.description != "" ==> ProjectProse(p.description)) && Field(p.url)
  }

  function PendingProject(p: Project, id: Id): Project {
    p.(id := id, description := Pending(p.description))
  }

  lemma ReadProjectProse(data: ParsedResume, before: seq<Project>, cur: Project, d: string, ids: IdSource)
    requires cur.description == "" && IsTrimmed(d) && ProjectProse(d)
    ensures Step(ProjectOpen(data, before, cur), d, ids) == ProjectOpen(data, before, cur.(description := d + "\n"))
  {
    ProjectStep(data, before, cur, d, ids);
    MatchUrlHasMarker(d);
    assert cur.description + d == d;
  }

  lemma ReadProjectUrl(data: ParsedResume, before: seq<Project>, cur: Project, url: string, ids: IdSource)
    requires Text(url)
    ensures Step(ProjectOpen(data, before, cur), "URL: " + url, ids) == ProjectOpen(data, before, cur.(url := url))
  {
    TrimmedLine("URL: ", url);
    ProjectStep(data, before, cur, "URL: " + url, ids);
    MatchUrlRecovers(url);
    TrimOfTrimmed(url);
  }

  lemma ProjectHeadingStep(st: ParserState, title: string, ids: IdSource)
    requires Valid(st) && st.section == "projects" && Text(title)
    ensures Step(st, "### " + title, ids)
      == ProjectOpen(st.data, st.data.projects, Project(ids(ProjectEntry, |st.data.projects|), title, "", ""))
  {
    SubheadingStep(st, title, ids);
  }

  /** The project once its title and description are read: no link yet. */
  function DescribedProject(p: Project, id: Id): Project {
    Project(id, p.title, Pending(p.description), "")
  }

  lemma ReadProjectTop(st: ParserState, p: Project, ids: IdSource)
    requires Valid(st) && st.section == "projects" && ProjectReadable(p)
    ensures Run(st, ["### " + p.title, p.description], ids)
      == ProjectOpen(st.data, st.data.projects, DescribedProject(p, ids(ProjectEntry, |st.data.projects|)))
  {
    var start := Project(ids(ProjectEntry, |st.data.projects|), p.title, "", "");
    RunPair(st, "### " + p.title, p.description, ids);
    ProjectHeadingStep(st, p.title, ids);
    if p.description == "" {
      BlankStep(ProjectOpen(st.data, st.data.projects, start), ids);
    } else {
      ReadProjectProse(st.data, st.data.projects, start, p.description, ids);
    }
  }

  lemma ReadProjectEnd(data: ParsedResume, before: seq<Project>, cur: Project, url: string, ids: IdSource)
    requires Field(url)
    ensures Run(ProjectOpen(data, before, cur), OptionalLine("URL: ", url) + [""], ids)
      == ProjectOpen(data, before, if url != "" then cur.(url := url) else cur)
  {
    var st := ProjectOpen(data, before, cur);
    if url != "" {
      assert OptionalLine("URL: ", url) + [""] == ["URL: " + url, ""];
      RunParagraph(st, "URL: " + url, ids);
      ReadProjectUrl(data, before, cur, url, ids);
    } else {
      assert OptionalLine("URL: ", url) + [""] == [""];
      RunOne(st, "", ids);
      BlankStep(st, ids);
    }
  }

  lemma ProjectLinesSplit(p: Project)
    ensures ProjectLines(p) == ["### " + p.title, p.description] + (OptionalLine("URL: ", p.url) + [""])
  {
  }

  /** After the title and the description, the URL line, if any, and the blank line complete the project. */
  lemma ReadProjectRest(data: ParsedResume, before: seq<Project>, p: Project, id: Id, ids: IdSource)
    requires ProjectReadable(p)
    ensures Run(ProjectOpen(data, before, DescribedProject(p, id)), OptionalLine("URL: ", p.url) + [""], ids)
      == ProjectOpen(data, before, PendingProject(p, id))
  {
    ReadProjectEnd(data, before, DescribedProject(p, id), p.url, ids);
  }

  /** Lines 56-59 read back by lines 196-204 and 283-293: one project. */
  lemma ReadProjectEntry(st: ParserState, p: Project, ids: IdSource)
    requires Valid(st) && st.section == "projects" && ProjectReadable(p)
    ensures Run(st, ProjectLines(p), ids)
      == ProjectOpen(st.data, st.data.projects, PendingProject(p, ids(ProjectEntry, |st.data.projects|)))
  {
    var id := ids(ProjectEntry, |st.data.projects|);
    var top := ["### " + p.title, p.description];
    var rest := OptionalLine("URL: ", p.url) + [""];
    ProjectLinesSplit(p);
    ReadProjectTop(st, p, ids);
    ReadProjectRest(st.data, st.data.projects, p, id, ids);
    RunThrough(st, ProjectLines(p), top, rest, ProjectOpen(st.data, st.data.projects, DescribedProject(p, id)),
      ProjectOpen(st.data, st.data.projects, PendingProject(p, id)), ids);
  }
}
