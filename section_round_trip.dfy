/**
 * What the parser makes of each section the serializer writes: the contact
 * block, the summary, the experience, education and project entries, the
 * skills line and the language bullets come back; the certifications,
 * achievements, activities and badges are passed over and lost.
 */
module SectionRoundTrip {
  import opened Options
  import opened JsText
  import opened LinePatterns
  import opened ResumeTypes
  import opened MarkdownWriter
  import opened MarkdownReader
  import opened ReadSteps
  import opened EntryRoundTrip

  // ---------------------------------------------------------------------------
  // Section names, lower-cased as the parser keeps them

  lemma ContactName()
    ensures "## Contact Information" == "## " + "Contact Information" && IsTrimmed("## Contact Information") && ToLower("Contact Information") == "contact information"
  {
  }

  lemma SummaryName()
    ensures "## Summary" == "## " + "Summary" && IsTrimmed("## Summary") && ToLower("Summary") == "summary"
  {
  }

  lemma ExperienceName()
    ensures "## Experience" == "## " + "Experience" && IsTrimmed("## Experience") && ToLower("Experience") == "experience"
  {
  }

  lemma EducationName()
    ensures "## Education" == "## " + "Education" && IsTrimmed("## Education") && ToLower("Education") == "education"
  {
  }

  lemma SkillsName()
    ensures "## Skills" == "## " + "Skills" && IsTrimmed("## Skills") && ToLower("Skills") == "skills"
  {
  }

  lemma ProjectsName()
    ensures "## Projects" == "## " + "Projects" && IsTrimmed("## Projects") && ToLower("Projects") == "projects"
  {
  }

  lemma LanguagesName()
    ensures "## Languages" == "## " + "Languages" && IsTrimmed("## Languages") && ToLower("Languages") == "languages"
  {
  }

  lemma CertificationsName()
    ensures "## Certifications" == "## " + "Certifications" && IsTrimmed("## Certifications") && ToLower("Certifications") == "certifications"
  {
  }

  lemma AchievementsName()
    ensures "## Achievements" == "## " + "Achievements" && IsTrimmed("## Achievements") && ToLower("Achievements") == "achievements"
  {
  }

  lemma ActivitiesName()
    ensures "## Activities" == "## " + "Activities" && IsTrimmed("## Activities") && ToLower("Activities") == "activities"
  {
  }

  lemma BadgesName()
    ensures "## Badges" == "## " + "Badges" && IsTrimmed("## Badges") && ToLower("Badges") == "badges"
  {
  }

  /** A `## ` line with its literal name: the section becomes the lower-cased name and no entry is open. */
  lemma ReadHeading(st: ParserState, heading: string, name: string, lower: string, ids: IdSource)
    requires Valid(st) && heading == "## " + name && IsTrimmed(heading) && ToLower(name) == lower
    ensures Run(st, [heading], ids) == ParserState(lower, false, st.data)
  {
    RunOne(st, heading, ids);
    HeadingStep(st, name, ids);
  }

  // ---------------------------------------------------------------------------
  // Contact information

  /** A contact value: one trimmed line, after whose `: ` no further `: ` follows. */
  predicate ContactValue(v: string) {
    Field(v) && (v != "" ==> SplitsLast(": ", v))
  }

  /** A written `- label: value` bullet comes back as that label and value. */
  lemma BulletLine(name: string, v: string)
    requires name != "" && AllDots(name) && Text(v) && SplitsLast(": ", v)
    ensures MatchBullet("- " + name + ": " + v) == Some((name, v))
  {
    AllDotsConcat(name, ": ");
    AllDotsConcat(name + ": ", v);
    assert ": "[1..] == " ";
    MatchBulletRecovers(name, v);
  }

  function WithEmail(info: PartialInfo, v: string): PartialInfo {
    if v != "" then info.(email := Some(v)) else info
  }

  function WithPhone(info: PartialInfo, v: string): PartialInfo {
    if v != "" then info.(phone := Some(v)) else info
  }

  function WithLocation(info: PartialInfo, v: string): PartialInfo {
    if v != "" then info.(location := Some(v)) else info
  }

  function WithLinkedin(info: PartialInfo, v: string): PartialInfo {
    if v != "" then info.(linkedin := Some(v)) else info
  }

  function WithGithub(info: PartialInfo, v: string): PartialInfo {
    if v != "" then info.(github := Some(v)) else info
  }

  /** The personal fields once the contact block is read: each value written is set, the rest kept. */
  function ContactBack(info: PartialInfo, p: PersonalInfo): PartialInfo {
    WithGithub(WithLinkedin(WithLocation(WithPhone(WithEmail(info, p.email), p.phone), p.location), p.linkedin), p.github)
  }

  /** `email` is the first name the lower-cased label `Email` holds. */
  lemma EmailLabel()
    ensures ToLower("Email") == "email" && Contains("email", "email")
  {
    ContainsAt("email", "email", 0);
  }

  lemma PhoneLabel()
    ensures ToLower("Phone") == "phone" && !Contains("phone", "email") && Contains("phone", "phone")
  {
    NotContainsMissingChar("phone", "email", 1);
    ContainsAt("phone", "phone", 0);
  }

  lemma LocationLabel()
    ensures ToLower("Location") == "location"
    ensures !Contains("location", "email") && !Contains("location", "phone") && Contains("location", "location")
  {
    NotContainsMissingChar("location", "email", 0);
    NotContainsMissingChar("location", "phone", 0);
    ContainsAt("location", "location", 0);
  }

  lemma LinkedinLabel()
    ensures ToLower("LinkedIn") == "linkedin"
    ensures !Contains("linkedin", "email") && !Contains("linkedin", "phone") && !Contains("linkedin", "location")
    ensures Contains("linkedin", "linkedin")
  {
    NotContainsMissingChar("linkedin", "email", 1);
    NotContainsMissingChar("linkedin", "phone", 0);
    NotContainsMissingChar("linkedin", "location", 2);
    ContainsAt("linkedin", "linkedin", 0);
  }

  lemma GithubLabel()
    ensures ToLower("GitHub") == "github"
    ensures !Contains("github", "email") && !Contains("github", "phone") && !Contains("github", "location")
    ensures !Contains("github", "linkedin") && Contains("github", "github")
  {
    NotContainsMissingChar("github", "email", 0);
    NotContainsMissingChar("github", "phone", 0);
    NotContainsMissingChar("github", "location", 0);
    NotContainsMissingChar("github", "linkedin", 0);
    ContainsAt("github", "github", 0);
  }

  /** The email bullet sets the email. */
  lemma EmailLine(info: PartialInfo, v: string)
    requires Text(v) && SplitsLast(": ", v)
    ensures ContactField(info, "- Email: " + v) == info.(email := Some(v))
  {
    assert "- Email: " + v == "- " + "Email" + ": " + v;
    BulletLine("Email", v);
    EmailLabel();
    TrimOfTrimmed(v);
  }

  /** The phone bullet sets the phone: its label holds `phone` and not `email`. */
  lemma PhoneLine(info: PartialInfo, v: string)
    requires Text(v) && SplitsLast(": ", v)
    ensures ContactField(info, "- Phone: " + v) == info.(phone := Some(v))
  {
    assert "- Phone: " + v == "- " + "Phone" + ": " + v;
    BulletLine("Phone", v);
    PhoneLabel();
    TrimOfTrimmed(v);
  }

  lemma LocationLine(info: PartialInfo, v: string)
    requires Text(v) && SplitsLast(": ", v)
    ensures ContactField(info, "- Location: " + v) == info.(location := Some(v))
  {
    assert "- Location: " + v == "- " + "Location" + ": " + v;
    BulletLine("Location", v);
    LocationLabel();
    TrimOfTrimmed(v);
  }

  lemma LinkedinLine(info: PartialInfo, v: string)
    requires Text(v) && SplitsLast(": ", v)
    ensures ContactField(info, "- LinkedIn: " + v) == info.(linkedin := Some(v))
  {
    assert "- LinkedIn: " + v == "- " + "LinkedIn" + ": " + v;
    BulletLine("LinkedIn", v);
    LinkedinLabel();
    TrimOfTrimmed(v);
  }

  lemma GithubLine(info: PartialInfo, v: string)
    requires Text(v) && SplitsLast(": ", v)
    ensures ContactField(info, "- GitHub: " + v) == info.(github := Some(v))
  {
    assert "- GitHub: " + v == "- " + "GitHub" + ": " + v;
    BulletLine("GitHub", v);
    GithubLabel();
    TrimOfTrimmed(v);
  }

  /** Reading the contact block with the personal fields `info` so far. */
  function ContactState(data: ParsedResume, info: PartialInfo): (st: ParserState)
    ensures Valid(st)
  {
    ParserState("contact information", false, data.(personalInfo := info))
  }

  /** A bullet written only when its value is set, read in the contact block. */
  lemma ContactLineRun(data: ParsedResume, info: PartialInfo, prefix: string, v: string, ids: IdSource)
    requires prefix != "" && prefix[0] == '-' && IsTrimmed(v)
    ensures Run(ContactState(data, info), OptionalLine(prefix, v), ids)
      == if v == "" then ContactState(data, info) else ContactState(data, ContactField(info, prefix + v))
  {
    if v != "" {
      TrimmedLine(prefix, v);
      RunOne(ContactState(data, info), prefix + v, ids);
      ContentStep(ContactState(data, info), prefix + v, ids);
    }
  }

  lemma ReadEmail(data: ParsedResume, info: PartialInfo, v: string, ids: IdSource)
    requires ContactValue(v)
    ensures Run(ContactState(data, info), OptionalLine("- Email: ", v), ids) == ContactState(data, WithEmail(info, v))
  {
    ContactLineRun(data, info, "- Email: ", v, ids);
    if v != "" {
      EmailLine(info, v);
    }
  }

  lemma ReadPhone(data: ParsedResume, info: PartialInfo, v: string, ids: IdSource)
    requires ContactValue(v)
    ensures Run(ContactState(data, info), OptionalLine("- Phone: ", v), ids) == ContactState(data, WithPhone(info, v))
  {
    ContactLineRun(data, info, "- Phone: ", v, ids);
    if v != "" {
      PhoneLine(info, v);
    }
  }

  lemma ReadLocation(data: ParsedResume, info: PartialInfo, v: string, ids: IdSource)
    requires ContactValue(v)
    ensures Run(ContactState(data, info), OptionalLine("- Location: ", v), ids) == ContactState(data, WithLocation(info, v))
  {
    ContactLineRun(data, info, "- Location: ", v, ids);
    if v != "" {
      LocationLine(info, v);
    }
  }

  lemma ReadLinkedin(data: ParsedResume, info: PartialInfo, v: string, ids: IdSource)
    requires ContactValue(v)
    ensures Run(ContactState(data, info), OptionalLine("- LinkedIn: ", v), ids) == ContactState(data, WithLinkedin(info, v))
  {
    ContactLineRun(data, info, "- LinkedIn: ", v, ids);
    if v != "" {
      LinkedinLine(info, v);
    }
  }

  lemma ReadGithub(data: ParsedResume, info: PartialInfo, v: string, ids: IdSource)
    requires ContactValue(v)
    ensures Run(ContactState(data, info), OptionalLine("- GitHub: ", v), ids) == ContactState(data, WithGithub(info, v))
  {
    ContactLineRun(data, info, "- GitHub: ", v, ids);
    if v != "" {
      GithubLine(info, v);
    }
  }

  predicate ContactReadable(p: PersonalInfo) {
    ContactValue(p.email) && ContactValue(p.phone) && ContactValue(p.location)
    && ContactValue(p.linkedin) && ContactValue(p.github)
  }

  /** Lines 9-15 read back by lines 234-245: every contact value written is set again. */
  lemma ReadContact(st: ParserState, p: PersonalInfo, ids: IdSource)
    requires Valid(st) && ContactReadable(p)
    ensures Run(st, ContactLines(p), ids) == ContactState(st.data, ContactBack(st.data.personalInfo, p))
  {
    var data := st.data;
    var info := data.personalInfo;
    var h := ["## Contact Information"];
    var e := OptionalLine("- Email: ", p.email);
    var ph := OptionalLine("- Phone: ", p.phone);
    var l := OptionalLine("- Location: ", p.location);
    var li := OptionalLine("- LinkedIn: ", p.linkedin);
    var g := OptionalLine("- GitHub: ", p.github);
    ContactName();
    ReadHeading(st, "## Contact Information", "Contact Information", "contact information", ids);
    assert ContactState(data, info) == ParserState("contact information", false, data);
    RunConcat(st, h, e, ids);
    ReadEmail(data, info, p.email, ids);
    var i1 := WithEmail(info, p.email);
    RunConcat(st, h + e, ph, ids);
    ReadPhone(data, i1, p.phone, ids);
    var i2 := WithPhone(i1, p.phone);
    RunConcat(st, h + e + ph, l, ids);
    ReadLocation(data, i2, p.location, ids);
    var i3 := WithLocation(i2, p.location);
    RunConcat(st, h + e + ph + l, li, ids);
    ReadLinkedin(data, i3, p.linkedin, ids);
    var i4 := WithLinkedin(i3, p.linkedin);
    RunConcat(st, h + e + ph + l + li, g, ids);
    ReadGithub(data, i4, p.github, ids);
    RunConcat(st, h + e + ph + l + li + g, [""], ids);
    RunOne(ContactState(data, WithGithub(i4, p.github)), "", ids);
    BlankStep(ContactState(data, WithGithub(i4, p.github)), ids);
  }

  // ---------------------------------------------------------------------------
  // Summary

  predicate SummaryReadable(summary: string) {
    Field(summary) && (summary != "" ==> summary[0] != '#')
  }

  /** A summary line is appended to the summary, followed by a newline. */
  lemma SummaryContent(data: ParsedResume, line: string, ids: IdSource)
    requires line != "" && line[0] != '#'
    ensures SectionContent(data, "summary", line, ids) == data.(summary := AddSummaryLine(data.summary, line))
  {
  }

  lemma SummaryStep(data: ParsedResume, line: string, ids: IdSource)
    requires IsTrimmed(line) && line != "" && line[0] != '#'
    ensures Step(ParserState("summary", false, data), line, ids)
      == ParserState("summary", false, data.(summary := AddSummaryLine(data.summary, line)))
  {
    ContentStep(ParserState("summary", false, data), line, ids);
    SummaryContent(data, line, ids);
  }

  lemma ReadSummaryParagraph(st: ParserState, summary: string, ids: IdSource)
    requires Valid(st) && IsTrimmed(summary) && summary != "" && summary[0] != '#'
    ensures Run(st, ["## Summary"] + [summary, ""], ids)
      == ParserState("summary", false, st.data.(summary := AddSummaryLine(st.data.summary, summary)))
  {
    SummaryName();
    ReadHeading(st, "## Summary", "Summary", "summary", ids);
    RunConcat(st, ["## Summary"], [summary, ""], ids);
    RunParagraph(ParserState("summary", false, st.data), summary, ids);
    SummaryStep(st.data, summary, ids);
  }

  /** Lines 18-21 read back by lines 209-212: a summary comes back followed by the newline the clean-up trims. */
  lemma ReadSummary(st: ParserState, summary: string, ids: IdSource)
    requires Valid(st) && st.data.summary.None? && SummaryReadable(summary)
    ensures Run(st, SummaryLines(summary), ids).data
      == st.data.(summary := if summary == "" then None else Some(Pending(summary)))
  {
    if summary != "" {
      ReadSummaryParagraph(st, summary, ids);
      assert "" + summary == summary;
    }
  }
}
