/**
 * Properties of `parseMarkdown` that hold for every input text, not only for
 * text the serializer wrote: how the name heading is split, which contact
 * field a bullet sets, which lines extend an experience description, what
 * the section headings do to the state, and which lists the parser never
 * fills.
 */
module ParserProperties {
  import opened Options
  import opened JsText
  import opened LinePatterns
  import opened ResumeTypes
  import opened MarkdownWriter
  import opened MarkdownReader

  // ---------------------------------------------------------------------------
  // The name heading (src/utils/markdownUtils.ts:131-142)

  /** A word of a name: at least one character, no white space, on one line. */
  predicate NameWord(w: string) {
    w != "" && forall i :: 0 <= i < |w| ==> IsDot(w[i]) && !IsJsSpace(w[i])
  }

  predicate NameWords(words: seq<string>) {
    forall k :: 0 <= k < |words| ==> NameWord(words[k])
  }

  /** Words joined by single spaces form a trimmed one-line text that starts with the first word. */
  lemma {:induction false} JoinNameWords(words: seq<string>)
    requires |words| >= 1 && NameWords(words)
    ensures var t := Join(words, " ");
      t != "" && AllDots(t) && IsTrimmed(t) && t[0] == words[0][0]
    decreases |words|
  {
    if |words| > 1 {
      var rest := Join(words[1..], " ");
      JoinNameWords(words[1..]);
      AllDotsConcat(words[0], " ");
      AllDotsConcat(words[0] + " ", rest);
      assert Join(words, " ") == words[0] + " " + rest;
      assert !IsJsSpace(rest[|rest| - 1]);
    }
  }

  /**
   * `# w1 w2 ... wn`: three or more words make the last the name and the ones
   * between the middle name; two words make the first the name and drop the
   * second; fewer leave the fields as they were.
   */
  lemma NameHeading(info: PartialInfo, words: seq<string>)
    requires NameWords(words)
    ensures var r := NameFromHeading(info, "# " + Join(words, " "));
      (|words| > 2 ==> r == info.(name := Some(words[|words| - 1]), middleName := Some(Join(words[1..|words| - 1], " "))))
      && (|words| == 2 ==> r == info.(name := Some(words[0])))
      && (|words| < 2 ==> r == info)
  {
    if words == [] {
      assert MatchHeading("# " + Join(words, " "), "# ").None?;
    } else {
      var t := Join(words, " ");
      JoinNameWords(words);
      MatchHeadingRecovers("# ", t);
      TrimOfTrimmed(t);
      forall p | p in words ensures ' ' !in p {
        var k :| 0 <= k < |words| && words[k] == p;
        assert NameWord(words[k]);
      }
      SplitJoin(words, ' ');
      assert [' '] == " ";
    }
  }

  /**
   * The serializer writes the name before the middle name, so a name with one
   * middle word comes back as the name alone and a missing middle name loses
   * the name: the first line does not survive the round trip.
   */
  lemma NameLineRead(p: PersonalInfo)
    requires NameWord(p.name)
    requires p.middleName == "" || NameWord(p.middleName)
    ensures p.middleName == "" ==> NameFromHeading(NoInfo, NameLine(p)) == NoInfo
    ensures p.middleName != "" ==> NameFromHeading(NoInfo, NameLine(p)) == NoInfo.(name := Some(p.name))
  {
    if p.middleName == "" {
      var t := p.name + " ";
      NameLineAlone(p);
      TrailingSpaceTrim(p.name);
      MatchHeadingRecovers("# ", t);
      SplitWhole(p.name, ' ');
    } else {
      assert NameLine(p) == "# " + Join([p.name, p.middleName], " ");
      NameHeading(NoInfo, [p.name, p.middleName]);
    }
  }

  lemma NameLineAlone(p: PersonalInfo)
    requires p.middleName == ""
    ensures NameLine(p) == "# " + (p.name + " ")
  {
  }

  /** A name word followed by the serializer's space trims back to the word. */
  lemma TrailingSpaceTrim(w: string)
    requires NameWord(w)
    ensures AllDots(w + " ") && Trim(w + " ") == w && ' ' !in w
  {
    var t := w + " ";
    AllDotsConcat(w, " ");
    TrimStartOfTrimmed(t);
    assert t[..|t| - 1] == w;
    TrimEndOfTrimmed(w);
    assert ' ' !in w by {
      forall i | 0 <= i < |w| ensures w[i] != ' ' {
        assert !IsJsSpace(w[i]);
      }
    }
  }

  // ---------------------------------------------------------------------------
  // Contact bullets (src/utils/markdownUtils.ts:234-245)

  /** A contact bullet changes at most one of the five contact fields, and never the name or title. */
  lemma ContactFieldChangesOne(info: PartialInfo, line: string)
    ensures var r := ContactField(info, line);
      r.name == info.name && r.middleName == info.middleName && r.title == info.title
      && (r == info || r == info.(email := r.email) || r == info.(phone := r.phone)
          || r == info.(location := r.location) || r == info.(linkedin := r.linkedin)
          || r == info.(github := r.github))
  {
    match MatchBullet(line)
    case None =>
    case Some((tag, v)) =>
      var field := ToLower(tag);
      if Contains(field, "email") {
        assert ContactField(info, line) == info.(email := Some(Trim(v)));
      } else if Contains(field, "phone") {
        assert ContactField(info, line) == info.(phone := Some(Trim(v)));
      } else if Contains(field, "location") {
        assert ContactField(info, line) == info.(location := Some(Trim(v)));
      } else if Contains(field, "linkedin") {
        assert ContactField(info, line) == info.(linkedin := Some(Trim(v)));
      } else if Contains(field, "github") {
        assert ContactField(info, line) == info.(github := Some(Trim(v)));
      }
  }

  /** A lower-cased label that names none of the five contact fields. */
  predicate NamesNoField(field: string) {
    !Contains(field, "email") && !Contains(field, "phone") && !Contains(field, "location")
    && !Contains(field, "linkedin") && !Contains(field, "github")
  }

  /** A label that contains `email` sets the email, whatever else it names: the first match wins. */
  lemma ContactEmailFirst(info: PartialInfo, line: string, tag: string, value: string)
    requires MatchBullet(line) == Some((tag, value)) && Contains(ToLower(tag), "email")
    ensures ContactField(info, line) == info.(email := Some(Trim(value)))
  {
  }

  /** A label that contains `phone` but not `email` sets the phone. */
  lemma ContactPhoneSecond(info: PartialInfo, line: string, tag: string, value: string)
    requires MatchBullet(line) == Some((tag, value))
    requires !Contains(ToLower(tag), "email") && Contains(ToLower(tag), "phone")
    ensures ContactField(info, line) == info.(phone := Some(Trim(value)))
  {
  }

  /** A label that contains `location` but neither `email` nor `phone` sets the location. */
  lemma ContactLocationThird(info: PartialInfo, line: string, tag: string, value: string)
    requires MatchBullet(line) == Some((tag, value))
    requires !Contains(ToLower(tag), "email") && !Contains(ToLower(tag), "phone")
    requires Contains(ToLower(tag), "location")
    ensures ContactField(info, line) == info.(location := Some(Trim(value)))
  {
  }

  /** A label that contains `linkedin` and none of the three names before it sets the LinkedIn field. */
  lemma ContactLinkedinFourth(info: PartialInfo, line: string, tag: string, value: string)
    requires MatchBullet(line) == Some((tag, value))
    requires !Contains(ToLower(tag), "email") && !Contains(ToLower(tag), "phone")
    requires !Contains(ToLower(tag), "location") && Contains(ToLower(tag), "linkedin")
    ensures ContactField(info, line) == info.(linkedin := Some(Trim(value)))
  {
  }

  /** A label that contains `github` and none of the four names before it sets the GitHub field. */
  lemma ContactGithubFifth(info: PartialInfo, line: string, tag: string, value: string)
    requires MatchBullet(line) == Some((tag, value))
    requires !Contains(ToLower(tag), "email") && !Contains(ToLower(tag), "phone")
    requires !Contains(ToLower(tag), "location") && !Contains(ToLower(tag), "linkedin")
    requires Contains(ToLower(tag), "github")
    ensures ContactField(info, line) == info.(github := Some(Trim(value)))
  {
  }

  /** A label that names none of the five fields is ignored. */
  lemma ContactOtherIgnored(info: PartialInfo, line: string, tag: string, value: string)
    requires MatchBullet(line) == Some((tag, value)) && NamesNoField(ToLower(tag))
    ensures ContactField(info, line) == info
  {
  }

  /** `- label: value` with a one-line label and a trimmed value holding no further `": "`. */
  lemma ContactBullet(tag: string, value: string)
    requires tag != "" && AllDots(tag) && value != "" && AllDots(value) && IsTrimmed(value)
    requires !Contains(" " + value, ": ")
    ensures MatchBullet("- " + tag + ": " + value) == Some((tag, value)) && Trim(value) == value
  {
    AllDotsConcat(tag, ": ");
    AllDotsConcat(tag + ": ", value);
    MatchBulletRecovers(tag, value);
    TrimOfTrimmed(value);
  }

  lemma WorkEmailBullet()
    ensures MatchBullet("- Work Email: jo@x.io") == Some(("Work Email", "jo@x.io"))
    ensures Trim("jo@x.io") == "jo@x.io"
  {
    var tag, value := "Work Email", "jo@x.io";
    assert "- Work Email: jo@x.io" == "- " + tag + ": " + value;
    assert ':' !in " " + value;
    NotContainsMissingChar(" " + value, ": ", 0);
    ContactBullet(tag, value);
  }

  lemma WorkEmailTag()
    ensures Contains(ToLower("Work Email"), "email")
  {
    assert ToLower("Work Email") == "work email";
    ContainsAt("work email", "email", 5);
  }

  /** `- Work Email: jo@x.io` sets the email: the label only has to contain `email`. */
  lemma WorkEmail(info: PartialInfo)
    ensures ContactField(info, "- Work Email: jo@x.io") == info.(email := Some("jo@x.io"))
  {
    WorkEmailBullet();
    WorkEmailTag();
    ContactEmailFirst(info, "- Work Email: jo@x.io", "Work Email", "jo@x.io");
  }

  lemma WebsiteBullet()
    ensures MatchBullet("- Website: example.org") == Some(("Website", "example.org"))
  {
    assert "- Website: example.org" == "- " + "Website" + ": " + "example.org";
    NotContainsMissingChar(" example.org", ": ", 0);
    ContactBullet("Website", "example.org");
  }

  lemma WebsiteTag()
    ensures NamesNoField(ToLower("Website"))
  {
    assert ToLower("Website") == "website";
    NotContainsMissingChar("website", "email", 1);
    NotContainsMissingChar("website", "phone", 0);
    NotContainsMissingChar("website", "location", 0);
    NotContainsMissingChar("website", "linkedin", 0);
    NotContainsMissingChar("website", "github", 0);
  }

  /** `- Website: example.org` names none of the five fields and is ignored. */
  lemma WebsiteIgnored(info: PartialInfo)
    ensures ContactField(info, "- Website: example.org") == info
  {
    WebsiteBullet();
    WebsiteTag();
    ContactOtherIgnored(info, "- Website: example.org", "Website", "example.org");
  }

  // ---------------------------------------------------------------------------
  // Experience detail lines (src/utils/markdownUtils.ts:250-270)

  /**
   * A line that is not a date line extends the description exactly when it is
   * non-empty, is no heading or list item, and names neither `Projects:` nor
   * `Scope:`; nothing but the description changes then.
   */
  lemma ExperienceDescriptionLine(e: Experience, line: string)
    requires MatchTriple(line, " | ", " - ").None?
    ensures ExperienceDetail(e, line).description != e.description <==> IsExperienceDescription(line)
    ensures IsExperienceDescription(line) ==> ExperienceDetail(e, line) == e.(description := e.description + line + "\n")
    ensures !IsExperienceDescription(line) ==> ExperienceDetail(e, line).description == e.description
  {
    if IsExperienceDescription(line) {
      assert |e.description + line + "\n"| > |e.description|;
    }
  }

  /** A `Projects:` or `Scope:` line overwrites the field: what it held before does not matter. */
  lemma ExperienceLabelOverwrites(e1: Experience, e2: Experience, line: string)
    requires MatchTriple(line, " | ", " - ").None?
    requires Contains(line, "Projects:") || Contains(line, "Scope:")
    ensures Contains(line, "Projects:") ==> ExperienceDetail(e1, line).projects == ExperienceDetail(e2, line).projects
    ensures !Contains(line, "Projects:") ==> ExperienceDetail(e1, line).scope == ExperienceDetail(e2, line).scope
    ensures ExperienceDetail(ExperienceDetail(e1, line), line) == ExperienceDetail(e1, line)
  {
  }

  /** A date line sets location, start and end, and `Present` as the end means ongoing with no end date. */
  lemma ExperienceDateLine(e: Experience, line: string, l: string, s: string, d: string)
    requires MatchTriple(line, " | ", " - ") == Some((l, s, d))
    ensures ExperienceDetail(e, line).location == Trim(l) && ExperienceDetail(e, line).startDate == Trim(s)
    ensures ExperienceDetail(e, line).current <==> Trim(d) == "Present"
    ensures ExperienceDetail(e, line).endDate == if Trim(d) == "Present" then "" else Trim(d)
    ensures ExperienceDetail(e, line).description == e.description
  {
  }

  // ---------------------------------------------------------------------------
  // Headings (src/utils/markdownUtils.ts:154-206)

  /** A `## ` line sets the lower-cased section, closes the open entry and keeps the data. */
  lemma SectionHeadingResets(st: ParserState, rawLine: string, ids: IdSource)
    requires Valid(st) && StartsWith(Trim(rawLine), "## ")
    ensures Step(st, rawLine, ids).section == ToLower(Trim(rawLine)[3..])
    ensures !Step(st, rawLine, ids).open && Step(st, rawLine, ids).data == st.data
  {
  }

  /** In the experience section a `### ` line without ` at ` changes nothing, not even the open entry. */
  lemma ExperienceHeadingWithoutAt(st: ParserState, rawLine: string, ids: IdSource)
    requires Valid(st) && st.section == "experience"
    requires var line := Trim(rawLine);
      !StartsWith(line, "## ") && StartsWith(line, "### ") && !Contains(Trim(line[4..]), " at ")
    ensures Step(st, rawLine, ids) == st
  {
    var line := Trim(rawLine);
    MatchPairHasSep(Trim(line[4..]), " at ");
  }

  /** In the experience section a `### ` line with ` at ` opens one new entry, split at the last ` at `. */
  lemma ExperienceHeadingOpens(st: ParserState, rawLine: string, ids: IdSource, t: string, c: string)
    requires Valid(st) && st.section == "experience"
    requires var line := Trim(rawLine);
      !StartsWith(line, "## ") && StartsWith(line, "### ") && MatchPair(Trim(line[4..]), " at ") == Some((t, c))
    ensures var r := Step(st, rawLine, ids);
      r.open && r.section == st.section
      && r.data == st.data.(experience := st.data.experience
           + [Experience(ids(ExperienceEntry, |st.data.experience|), Trim(t), Trim(c), "", "", "", false, "", "", "")])
  {
  }

  /** In the education section a `### ` line that `(.+) in (.+), (.+)` does not match changes nothing. */
  lemma EducationHeadingWithoutMatch(st: ParserState, rawLine: string, ids: IdSource)
    requires Valid(st) && st.section == "education"
    requires var line := Trim(rawLine);
      !StartsWith(line, "## ") && StartsWith(line, "### ") && MatchTriple(Trim(line[4..]), " in ", ", ").None?
    ensures Step(st, rawLine, ids) == st
  {
  }

  /** In particular a `### ` line without ` in ` changes nothing, not even the open entry. */
  lemma EducationHeadingWithoutIn(st: ParserState, rawLine: string, ids: IdSource)
    requires Valid(st) && st.section == "education"
    requires var line := Trim(rawLine);
      !StartsWith(line, "## ") && StartsWith(line, "### ") && !Contains(Trim(line[4..]), " in ")
    ensures Step(st, rawLine, ids) == st
  {
    var line := Trim(rawLine);
    MatchTripleHasFirst(Trim(line[4..]), " in ", ", ");
    EducationHeadingWithoutMatch(st, rawLine, ids);
  }

  /**
   * In the education section a matching `### ` line opens one new entry:
   * degree, field and institution are the trimmed groups of `(.+) in (.+), (.+)`.
   */
  lemma EducationHeadingOpens(st: ParserState, rawLine: string, ids: IdSource, d: string, f: string, inst: string)
    requires Valid(st) && st.section == "education"
    requires var line := Trim(rawLine);
      !StartsWith(line, "## ") && StartsWith(line, "### ") && MatchTriple(Trim(line[4..]), " in ", ", ") == Some((d, f, inst))
    ensures var r := Step(st, rawLine, ids);
      r.open && r.section == st.section
      && r.data == st.data.(education := st.data.education
           + [Education(ids(EducationEntry, |st.data.education|), Trim(inst), Trim(d), Trim(f), "", "", false, "")])
  {
  }

  /** In the projects section every `### ` line opens one new project titled with the trimmed rest. */
  lemma ProjectHeadingOpens(st: ParserState, rawLine: string, ids: IdSource)
    requires Valid(st) && st.section == "projects"
    requires var line := Trim(rawLine); !StartsWith(line, "## ") && StartsWith(line, "### ")
    ensures var r := Step(st, rawLine, ids);
      r.open && r.section == st.section
      && r.data == st.data.(projects := st.data.projects
           + [Project(ids(ProjectEntry, |st.data.projects|), Trim(Trim(rawLine)[4..]), "", "")])
  {
  }

  // ---------------------------------------------------------------------------
  // The lists the parser never fills (src/utils/markdownUtils.ts:112-123)

  /** The four lists no line of the text adds to. */
  predicate SameUnread(a: ParsedResume, b: ParsedResume) {
    a.certifications == b.certifications && a.achievements == b.achievements
    && a.activities == b.activities && a.badges == b.badges
  }

  lemma SubheadingKeepsUnread(st: ParserState, title: string, ids: IdSource)
    requires Valid(st)
    ensures SameUnread(Subheading(st, title, ids).data, st.data)
  {
  }

  lemma ItemDetailKeepsUnread(st: ParserState, line: string)
    requires Valid(st)
    ensures SameUnread(ItemDetail(st, line).data, st.data)
  {
  }

  lemma StepKeepsUnread(st: ParserState, rawLine: string, ids: IdSource)
    requires Valid(st)
    ensures SameUnread(Step(st, rawLine, ids).data, st.data)
  {
    var line := Trim(rawLine);
    if !StartsWith(line, "## ") {
      if StartsWith(line, "### ") {
        SubheadingKeepsUnread(st, Trim(line[4..]), ids);
      } else {
        ItemDetailKeepsUnread(st.(data := SectionContent(st.data, st.section, line, ids)), line);
      }
    }
  }

  lemma {:induction false} RunKeepsUnread(st: ParserState, lines: seq<string>, ids: IdSource)
    requires Valid(st)
    ensures SameUnread(Run(st, lines, ids).data, st.data)
    decreases |lines|
  {
    if lines != [] {
      var front := lines[..|lines| - 1];
      RunKeepsUnread(st, front, ids);
      StepKeepsUnread(Run(st, front, ids), lines[|lines| - 1], ids);
    }
  }

  /** Whatever the text, certifications, achievements, activities and badges come back empty. */
  lemma ParseLeavesUnreadEmpty(markdown: string, ids: IdSource)
    ensures var r := Parse(markdown, ids);
      r.certifications == [] && r.achievements == [] && r.activities == [] && r.badges == []
  {
    var lines := Split(markdown, '\n');
    RunKeepsUnread(StartState(lines), if |lines| > 2 then lines[2..] else [], ids);
  }

  /** The clean-up pass leaves the summary and every description trimmed. */
  lemma ParseTrimsText(markdown: string, ids: IdSource)
    ensures var r := Parse(markdown, ids);
      (r.summary.Some? ==> IsTrimmed(r.summary.value))
      && (forall k :: 0 <= k < |r.experience| ==> IsTrimmed(r.experience[k].description))
      && (forall k :: 0 <= k < |r.education| ==> IsTrimmed(r.education[k].description))
      && (forall k :: 0 <= k < |r.projects| ==> IsTrimmed(r.projects[k].description))
  {
  }

  // ---------------------------------------------------------------------------
  // What the serializer writes (src/utils/markdownUtils.ts:5-106)

  /**
   * The contact block is always written; every later section is written, under
   * its heading, exactly when it has something in it.
   */
  lemma SectionsWritten(r: Resume)
    ensures ContactLines(r.personalInfo)[0] == "## Contact Information"
    ensures SummaryLines(r.summary) == [] <==> r.summary == ""
    ensures r.summary != "" ==> SummaryLines(r.summary)[0] == "## Summary"
    ensures ExperienceSection(r.experience) == [] <==> r.experience == []
    ensures r.experience != [] ==> ExperienceSection(r.experience)[0] == "## Experience"
    ensures EducationSection(r.education) == [] <==> r.education == []
    ensures r.education != [] ==> EducationSection(r.education)[0] == "## Education"
    ensures SkillsSection(r.skills) == [] <==> r.skills == []
    ensures r.skills != [] ==> SkillsSection(r.skills)[0] == "## Skills"
    ensures ProjectsSection(r.projects) == [] <==> r.projects == []
    ensures r.projects != [] ==> ProjectsSection(r.projects)[0] == "## Projects"
  {
  }

  /** The sections after projects, each written under its heading exactly when it has entries. */
  lemma LaterSectionsWritten(r: Resume)
    ensures LanguagesSection(r.languages) == [] <==> r.languages == []
    ensures r.languages != [] ==> LanguagesSection(r.languages)[0] == "## Languages"
    ensures CertificationsSection(r.certifications) == [] <==> r.certifications == []
    ensures r.certifications != [] ==> CertificationsSection(r.certifications)[0] == "## Certifications"
    ensures AchievementsSection(r.achievements) == [] <==> r.achievements == []
    ensures r.achievements != [] ==> AchievementsSection(r.achievements)[0] == "## Achievements"
    ensures ActivitiesSection(r.activities) == [] <==> r.activities == []
    ensures r.activities != [] ==> ActivitiesSection(r.activities)[0] == "## Activities"
    ensures BadgesSection(r.badges) == [] <==> r.badges == []
    ensures r.badges != [] ==> BadgesSection(r.badges)[0] == "## Badges"
  {
  }

  /** An ongoing experience is written with the end `Present`, whatever its end date holds. */
  lemma CurrentWrittenAsPresent(e: Experience)
    requires e.current
    ensures ExperienceDates(e) == e.location + " | " + e.startDate + " - Present"
  {
  }
}
