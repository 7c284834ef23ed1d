/**
 * What the parser makes of the list sections the serializer writes: every
 * experience, education and project entry, every skill and every language
 * comes back in order, with the ids the caller supplies; the lines of the
 * certifications, achievements, activities and badges sections change
 * nothing at all.
 */
module ListRoundTrip {
  import opened Options
  import opened JsText
  import opened LinePatterns
  import opened ResumeTypes
  import opened MarkdownWriter
  import opened MarkdownReader
  import opened ReadSteps
  import opened EntryRoundTrip
  import opened SectionRoundTrip

  /** A property every line of `FlatMap(xs, f)` has when every line of every `f(x)` has it. */
  lemma {:induction false} FlatMapAll<T>(xs: seq<T>, f: T -> seq<string>, P: string -> bool)
    requires forall j, k :: 0 <= j < |xs| && 0 <= k < |f(xs[j])| ==> P(f(xs[j])[k])
    ensures forall k :: 0 <= k < |FlatMap(xs, f)| ==> P(FlatMap(xs, f)[k])
    decreases |xs|
  {
    if xs != [] {
      var init := xs[..|xs| - 1];
      assert forall j :: 0 <= j < |init| ==> init[j] == xs[j];
      FlatMapAll(init, f, P);
      var last := f(xs[|xs| - 1]);
      forall k | 0 <= k < |FlatMap(xs, f)|
        ensures P(FlatMap(xs, f)[k])
      {
        if k >= |FlatMap(init, f)| {
          assert FlatMap(xs, f)[k] == last[k - |FlatMap(init, f)|];
        }
      }
    }
  }

  /** Reading the lines written for a list is reading those of all but the last item, then the last item's. */
  lemma RunFlatMapLast<T>(st: ParserState, xs: seq<T>, f: T -> seq<string>, ids: IdSource)
    requires Valid(st) && xs != []
    ensures Run(st, FlatMap(xs, f), ids) == Run(Run(st, FlatMap(xs[..|xs| - 1], f), ids), f(xs[|xs| - 1]), ids)
  {
    assert FlatMap(xs, f) == FlatMap(xs[..|xs| - 1], f) + f(xs[|xs| - 1]);
    RunConcat(st, FlatMap(xs[..|xs| - 1], f), f(xs[|xs| - 1]), ids);
  }

  /** The state after applying `g` to each item in turn. */
  function Fold<T>(st: ParserState, xs: seq<T>, g: (ParserState, T) -> ParserState): ParserState
    decreases |xs|
  {
    if xs == [] then st else g(Fold(st, xs[..|xs| - 1], g), xs[|xs| - 1])
  }

  /**
   * When the lines written for one item take every state satisfying `Inv` to
   * `g` of it, the lines written for a list take it to the fold of `g`.
   */
  lemma {:induction false} RunFlatMap<T>(st: ParserState, xs: seq<T>, f: T -> seq<string>,
                                         g: (ParserState, T) -> ParserState, ok: T -> bool,
                                         Inv: ParserState -> bool, ids: IdSource)
    requires Inv(st) && forall k :: 0 <= k < |xs| ==> ok(xs[k])
    requires forall s :: Inv(s) ==> Valid(s)
    requires forall s, x :: Inv(s) && ok(x) ==> Inv(g(s, x)) && Run(s, f(x), ids) == g(s, x)
    ensures Inv(Fold(st, xs, g)) && Run(st, FlatMap(xs, f), ids) == Fold(st, xs, g)
    decreases |xs|
  {
    if xs != [] {
      var init := xs[..|xs| - 1];
      assert forall k :: 0 <= k < |init| ==> init[k] == xs[k];
      RunFlatMap(st, init, f, g, ok, Inv, ids);
      RunFlatMapLast(st, xs, f, ids);
    }
  }

  // ---------------------------------------------------------------------------
  // Experience

  /** The experience entries as the parser holds them, ids numbered from `start`. */
  function PendingExperiences(xs: seq<Experience>, start: nat, ids: IdSource): (r: seq<Experience>)
    ensures |r| == |xs|
  {
    seq(|xs|, k requires 0 <= k < |xs| => PendingExperience(xs[k], ids(ExperienceEntry, start + k)))
  }

  predicate ExperiencesReadable(xs: seq<Experience>) {
    forall k :: 0 <= k < |xs| ==> ExperienceReadable(xs[k])
  }

  /** What one experience entry does to the state of an experience section. */
  function TakeExperience(ids: IdSource): (ParserState, Experience) -> ParserState {
    (s: ParserState, p: Experience) =>
      ExperienceOpen(s.data, s.data.experience, PendingExperience(p, ids(ExperienceEntry, |s.data.experience|)))
  }

  predicate InExperience(s: ParserState) {
    Valid(s) && s.section == "experience"
  }

  /** Numbering the entries one by one: the last one gets the next id. */
  lemma PendingExperiencesSnoc(prior: seq<Experience>, xs: seq<Experience>, ids: IdSource)
    requires xs != []
    ensures var before := prior + PendingExperiences(xs[..|xs| - 1], |prior|, ids);
      before + [PendingExperience(xs[|xs| - 1], ids(ExperienceEntry, |before|))] == prior + PendingExperiences(xs, |prior|, ids)
  {
    var init := xs[..|xs| - 1];
    assert PendingExperiences(xs, |prior|, ids)
      == PendingExperiences(init, |prior|, ids) + [PendingExperience(xs[|xs| - 1], ids(ExperienceEntry, |prior| + |init|))];
  }

  lemma {:induction false} FoldExperiences(data: ParsedResume, xs: seq<Experience>, ids: IdSource)
    ensures Fold(ParserState("experience", false, data), xs, TakeExperience(ids))
      == ParserState("experience", |xs| > 0, data.(experience := data.experience + PendingExperiences(xs, |data.experience|, ids)))
    decreases |xs|
  {
    if xs == [] {
      assert data.experience + PendingExperiences(xs, |data.experience|, ids) == data.experience;
    } else {
      FoldExperiences(data, xs[..|xs| - 1], ids);
      PendingExperiencesSnoc(data.experience, xs, ids);
    }
  }

  lemma ReadExperiences(data: ParsedResume, xs: seq<Experience>, ids: IdSource)
    requires ExperiencesReadable(xs)
    ensures Run(ParserState("experience", false, data), FlatMap(xs, ExperienceLines), ids)
      == ParserState("experience", |xs| > 0,
           data.(experience := data.experience + PendingExperiences(xs, |data.experience|, ids)))
  {
    forall s, p | InExperience(s) && ExperienceReadable(p)
      ensures InExperience(TakeExperience(ids)(s, p)) && Run(s, ExperienceLines(p), ids) == TakeExperience(ids)(s, p)
    {
      ReadExperienceEntry(s, p, ids);
    }
    RunFlatMap(ParserState("experience", false, data), xs, ExperienceLines, TakeExperience(ids), ExperienceReadable, InExperience, ids);
    FoldExperiences(data, xs, ids);
  }

  /** Lines 24-33 read back: the experience entries, in order, appended to those read before. */
  lemma ReadExperienceSection(st: ParserState, xs: seq<Experience>, ids: IdSource)
    requires Valid(st) && ExperiencesReadable(xs)
    ensures Run(st, ExperienceSection(xs), ids).data
      == st.data.(experience := st.data.experience + PendingExperiences(xs, |st.data.experience|, ids))
  {
    if xs == [] {
      assert ExperienceSection(xs) == [];
      assert Run(st, ExperienceSection(xs), ids) == st;
      AppendNone(st.data.experience, PendingExperiences(xs, |st.data.experience|, ids));
    } else {
      assert ExperienceSection(xs) == ["## Experience"] + FlatMap(xs, ExperienceLines);
      ReadExperienceHeaded(st, xs, ids);
    }
  }

  /** The heading, then the entries. */
  lemma ReadExperienceHeaded(st: ParserState, xs: seq<Experience>, ids: IdSource)
    requires Valid(st) && ExperiencesReadable(xs)
    ensures Run(st, ["## Experience"] + FlatMap(xs, ExperienceLines), ids).data
      == st.data.(experience := st.data.experience + PendingExperiences(xs, |st.data.experience|, ids))
  {
    ExperienceName();
    ReadHeading(st, "## Experience", "Experience", "experience", ids);
    RunConcat(st, ["## Experience"], FlatMap(xs, ExperienceLines), ids);
    ReadExperiences(st.data, xs, ids);
  }

  // ---------------------------------------------------------------------------
  // Education

  /** The education entries as the parser holds them, ids numbered from `start`. */
  function PendingEducations(xs: seq<Education>, start: nat, ids: IdSource): (r: seq<Education>)
    ensures |r| == |xs|
  {
    seq(|xs|, k requires 0 <= k < |xs| => PendingEducation(xs[k], ids(EducationEntry, start + k)))
  }

  predicate EducationsReadable(xs: seq<Education>) {
    forall k :: 0 <= k < |xs| ==> EducationReadable(xs[k])
  }

  /** What one education entry does to the state of an education section. */
  function TakeEducation(ids: IdSource): (ParserState, Education) -> ParserState {
    (s: ParserState, p: Education) =>
      EducationOpen(s.data, s.data.education, PendingEducation(p, ids(EducationEntry, |s.data.education|)))
  }

  predicate InEducation(s: ParserState) {
    Valid(s) && s.section == "education"
  }

  /** Numbering the entries one by one: the last one gets the next id. */
  lemma PendingEducationsSnoc(prior: seq<Education>, xs: seq<Education>, ids: IdSource)
    requires xs != []
    ensures var before := prior + PendingEducations(xs[..|xs| - 1], |prior|, ids);
      before + [PendingEducation(xs[|xs| - 1], ids(EducationEntry, |before|))] == prior + PendingEducations(xs, |prior|, ids)
  {
    var init := xs[..|xs| - 1];
    assert PendingEducations(xs, |prior|, ids)
      == PendingEducations(init, |prior|, ids) + [PendingEducation(xs[|xs| - 1], ids(EducationEntry, |prior| + |init|))];
  }

  lemma {:induction false} FoldEducations(data: ParsedResume, xs: seq<Education>, ids: IdSource)
    ensures Fold(ParserState("education", false, data), xs, TakeEducation(ids))
      == ParserState("education", |xs| > 0, data.(education := data.education + PendingEducations(xs, |data.education|, ids)))
    decreases |xs|
  {
    if xs == [] {
      assert data.education + PendingEducations(xs, |data.education|, ids) == data.education;
    } else {
      FoldEducations(data, xs[..|xs| - 1], ids);
      PendingEducationsSnoc(data.education, xs, ids);
    }
  }

  lemma ReadEducations(data: ParsedResume, xs: seq<Education>, ids: IdSource)
    requires EducationsReadable(xs)
    ensures Run(ParserState("education", false, data), FlatMap(xs, EducationLines), ids)
      == ParserState("education", |xs| > 0,
           data.(education := data.education + PendingEducations(xs, |data.education|, ids)))
  {
    forall s, p | InEducation(s) && EducationReadable(p)
      ensures InEducation(TakeEducation(ids)(s, p)) && Run(s, EducationLines(p), ids) == TakeEducation(ids)(s, p)
    {
      ReadEducationEntry(s, p, ids);
    }
    RunFlatMap(ParserState("education", false, data), xs, EducationLines, TakeEducation(ids), EducationReadable, InEducation, ids);
    FoldEducations(data, xs, ids);
  }

  /** Lines 36-43 read back: the education entries, in order. */
  lemma ReadEducationSection(st: ParserState, xs: seq<Education>, ids: IdSource)
    requires Valid(st) && EducationsReadable(xs)
    ensures Run(st, EducationSection(xs), ids).data
      == st.data.(education := st.data.education + PendingEducations(xs, |st.data.education|, ids))
  {
    if xs == [] {
      assert EducationSection(xs) == [];
      assert Run(st, EducationSection(xs), ids) == st;
      AppendNone(st.data.education, PendingEducations(xs, |st.data.education|, ids));
    } else {
      assert EducationSection(xs) == ["## Education"] + FlatMap(xs, EducationLines);
      ReadEducationHeaded(st, xs, ids);
    }
  }

  /** The heading, then the entries. */
  lemma ReadEducationHeaded(st: ParserState, xs: seq<Education>, ids: IdSource)
    requires Valid(st) && EducationsReadable(xs)
    ensures Run(st, ["## Education"] + FlatMap(xs, EducationLines), ids).data
      == st.data.(education := st.data.education + PendingEducations(xs, |st.data.education|, ids))
  {
    EducationName();
    ReadHeading(st, "## Education", "Education", "education", ids);
    RunConcat(st, ["## Education"], FlatMap(xs, EducationLines), ids);
    ReadEducations(st.data, xs, ids);
  }

  // ---------------------------------------------------------------------------
  // Projects

  /** The projects as the parser holds them, ids numbered from `start`. */
  function PendingProjects(xs: seq<Project>, start: nat, ids: IdSource): (r: seq<Project>)
    ensures |r| == |xs|
  {
    seq(|xs|, k requires 0 <= k < |xs| => PendingProject(xs[k], ids(ProjectEntry, start + k)))
  }

  predicate ProjectsReadable(xs: seq<Project>) {
    forall k :: 0 <= k < |xs| ==> ProjectReadable(xs[k])
  }

  /** What one project does to the state of a projects section. */
  function TakeProject(ids: IdSource): (ParserState, Project) -> ParserState {
    (s: ParserState, p: Project) =>
      ProjectOpen(s.data, s.data.projects, PendingProject(p, ids(ProjectEntry, |s.data.projects|)))
  }

  predicate InProjects(s: ParserState) {
    Valid(s) && s.section == "projects"
  }

  /** Numbering the entries one by one: the last one gets the next id. */
  lemma PendingProjectsSnoc(prior: seq<Project>, xs: seq<Project>, ids: IdSource)
    requires xs != []
    ensures var before := prior + PendingProjects(xs[..|xs| - 1], |prior|, ids);
      before + [PendingProject(xs[|xs| - 1], ids(ProjectEntry, |before|))] == prior + PendingProjects(xs, |prior|, ids)
  {
    var init := xs[..|xs| - 1];
    assert PendingProjects(xs, |prior|, ids)
      == PendingProjects(init, |prior|, ids) + [PendingProject(xs[|xs| - 1], ids(ProjectEntry, |prior| + |init|))];
  }

  lemma {:induction false} FoldProjects(data: ParsedResume, xs: seq<Project>, ids: IdSource)
    ensures Fold(ParserState("projects", false, data), xs, TakeProject(ids))
      == ParserState("projects", |xs| > 0, data.(projects := data.projects + PendingProjects(xs, |data.projects|, ids)))
    decreases |xs|
  {
    if xs == [] {
      assert data.projects + PendingProjects(xs, |data.projects|, ids) == data.projects;
    } else {
      FoldProjects(data, xs[..|xs| - 1], ids);
      PendingProjectsSnoc(data.projects, xs, ids);
    }
  }

  lemma ReadProjects(data: ParsedResume, xs: seq<Project>, ids: IdSource)
    requires ProjectsReadable(xs)
    ensures Run(ParserState("projects", false, data), FlatMap(xs, ProjectLines), ids)
      == ParserState("projects", |xs| > 0,
           data.(projects := data.projects + PendingProjects(xs, |data.projects|, ids)))
  {
    forall s, p | InProjects(s) && ProjectReadable(p)
      ensures InProjects(TakeProject(ids)(s, p)) && Run(s, ProjectLines(p), ids) == TakeProject(ids)(s, p)
    {
      ReadProjectEntry(s, p, ids);
    }
    RunFlatMap(ParserState("projects", false, data), xs, ProjectLines, TakeProject(ids), ProjectReadable, InProjects, ids);
    FoldProjects(data, xs, ids);
  }

  /** Lines 53-61 read back: the projects, in order. */
  lemma ReadProjectsSection(st: ParserState, xs: seq<Project>, ids: IdSource)
    requires Valid(st) && ProjectsReadable(xs)
    ensures Run(st, ProjectsSection(xs), ids).data
      == st.data.(projects := st.data.projects + PendingProjects(xs, |st.data.projects|, ids))
  {
    if xs == [] {
      assert ProjectsSection(xs) == [];
      assert Run(st, ProjectsSection(xs), ids) == st;
      AppendNone(st.data.projects, PendingProjects(xs, |st.data.projects|, ids));
    } else {
      assert ProjectsSection(xs) == ["## Projects"] + FlatMap(xs, ProjectLines);
      ReadProjectsHeaded(st, xs, ids);
    }
  }

  /** The heading, then the entries. */
  lemma ReadProjectsHeaded(st: ParserState, xs: seq<Project>, ids: IdSource)
    requires Valid(st) && ProjectsReadable(xs)
    ensures Run(st, ["## Projects"] + FlatMap(xs, ProjectLines), ids).data
      == st.data.(projects := st.data.projects + PendingProjects(xs, |st.data.projects|, ids))
  {
    ProjectsName();
    ReadHeading(st, "## Projects", "Projects", "projects", ids);
    RunConcat(st, ["## Projects"], FlatMap(xs, ProjectLines), ids);
    ReadProjects(st.data, xs, ids);
  }

  // ---------------------------------------------------------------------------
  // Skills

  /** The pieces `split(',')` cuts the skills line into: every name after the first keeps its space. */
  function Spaced(names: seq<string>): (r: seq<string>)
    ensures |r| == |names|
  {
    seq(|names|, k requires 0 <= k < |names| => if k == 0 then names[0] else " " + names[k])
  }

  lemma SpacedPrefix(names: seq<string>, m: nat)
    requires m <= |names|
    ensures Spaced(names)[..m] == Spaced(names[..m])
  {
  }

  /** Joining with `, ` is joining the spaced names with `,`. */
  lemma {:induction false} JoinSpaced(names: seq<string>)
    requires |names| >= 1
    ensures Join(names, ", ") == Join(Spaced(names), ",")
    decreases |names|
  {
    if |names| > 1 {
      JoinSpaced(names[1..]);
      SpacedShift(names);
    }
  }

  /** After the first name, the spaced list is a space before the spaced rest. */
  lemma SpacedShift(names: seq<string>)
    requires |names| > 1
    ensures Join(Spaced(names)[1..], ",") == " " + Join(Spaced(names[1..]), ",")
  {
    var rest := names[1..];
    var tail := Spaced(names)[1..];
    assert tail[0] == " " + rest[0];
    if |rest| > 1 {
      SpacedDrop(names);
      var j := Join(Spaced(rest)[1..], ",");
      assert Join(tail, ",") == (" " + rest[0]) + "," + j;
      assert Join(Spaced(rest), ",") == rest[0] + "," + j;
    }
  }

  lemma SpacedDrop(names: seq<string>)
    requires |names| > 1
    ensures Spaced(names)[2..] == Spaced(names[1..])[1..]
  {
  }

  /** The first character of a join is that of the first part. */
  lemma JoinFirst(parts: seq<string>, sep: string)
    requires |parts| >= 1 && parts[0] != ""
    ensures Join(parts, sep) != "" && Join(parts, sep)[0] == parts[0][0]
  {
  }

  /** A join ends with the last character of its last part. */
  lemma {:induction false} JoinLastChar(parts: seq<string>, sep: string)
    requires |parts| >= 1 && parts[|parts| - 1] != ""
    ensures var j, last := Join(parts, sep), parts[|parts| - 1];
      j != "" && j[|j| - 1] == last[|last| - 1]
    decreases |parts|
  {
    if |parts| > 1 {
      JoinLastChar(parts[1..], sep);
      assert parts[1..][|parts| - 2] == parts[|parts| - 1];
    }
  }

  /** A join of one-line parts around a one-line separator is one line. */
  lemma {:induction false} JoinOneLine(parts: seq<string>, sep: string)
    requires OneLine(sep) && forall k :: 0 <= k < |parts| ==> OneLine(parts[k])
    ensures OneLine(Join(parts, sep))
    decreases |parts|
  {
    if |parts| > 1 {
      JoinOneLine(parts[1..], sep);
      AllDotsConcat(parts[0], sep);
      AllDotsConcat(parts[0] + sep, Join(parts[1..], sep));
    }
  }

  /** The skills as the parser holds them, ids numbered from `start`. */
  function PendingSkills(xs: seq<Skill>, start: nat, ids: IdSource): (r: seq<Skill>)
    ensures |r| == |xs|
  {
    seq(|xs|, k requires 0 <= k < |xs| => xs[k].(id := ids(SkillEntry, start + k)))
  }

  /** The skills named `names`, ids numbered from `start`. */
  function NamedSkills(names: seq<string>, start: nat, ids: IdSource): (r: seq<Skill>)
    ensures |r| == |names|
  {
    seq(|names|, k requires 0 <= k < |names| => Skill(ids(SkillEntry, start + k), names[k]))
  }

  lemma AddSkillsSnoc(skills: seq<Skill>, parts: seq<string>, ids: IdSource)
    requires parts != [] && Trim(parts[|parts| - 1]) != ""
    ensures var before := AddSkills(skills, parts[..|parts| - 1], ids);
      AddSkills(skills, parts, ids) == before + [Skill(ids(SkillEntry, |before|), Trim(parts[|parts| - 1]))]
  {
  }

  lemma NamedSkillsSnoc(prior: seq<Skill>, names: seq<string>, ids: IdSource)
    requires names != []
    ensures var before := prior + NamedSkills(names[..|names| - 1], |prior|, ids);
      before + [Skill(ids(SkillEntry, |before|), names[|names| - 1])] == prior + NamedSkills(names, |prior|, ids)
  {
    var init := names[..|names| - 1];
    assert NamedSkills(names, |prior|, ids)
      == NamedSkills(init, |prior|, ids) + [Skill(ids(SkillEntry, |prior| + |init|), names[|names| - 1])];
  }

  /** Adding the spaced names one by one gives the skills back, in order. */
  lemma {:induction false} AddSpacedSkills(skills: seq<Skill>, names: seq<string>, ids: IdSource)
    requires forall k :: 0 <= k < |names| ==> names[k] != "" && IsTrimmed(names[k])
    ensures AddSkills(skills, Spaced(names), ids) == skills + NamedSkills(names, |skills|, ids)
    decreases |names|
  {
    var parts := Spaced(names);
    if names == [] {
      assert parts == [];
      assert skills + NamedSkills(names, |skills|, ids) == skills;
    } else {
      var m := |names| - 1;
      var init := names[..m];
      assert forall k :: 0 <= k < |init| ==> init[k] == names[k];
      AddSpacedSkills(skills, init, ids);
      SpacedPrefix(names, m);
      var before := skills + NamedSkills(init, |skills|, ids);
      assert AddSkills(skills, parts[..m], ids) == before;
      var piece := parts[m];
      if m == 0 {
        TrimOfTrimmed(piece);
      } else {
        TrimAfterSpace(names[m]);
      }
      assert Trim(piece) == names[m] && names[m] != "";
      AddSkillsSnoc(skills, parts, ids);
      NamedSkillsSnoc(skills, names, ids);
    }
  }

  /** Names a skills line can hold: one trimmed, non-empty line each, without a comma. */
  predicate SkillName(name: string) {
    Text(name) && ',' !in name
  }

  /** The skills line is trimmed, one line, and neither blank nor a heading. */
  lemma SkillsLineShape(names: seq<string>)
    requires |names| > 0 && forall k :: 0 <= k < |names| ==> SkillName(names[k])
    requires names[0] != "" && names[0][0] != '#'
    ensures var line := Join(names, ", ");
      IsTrimmed(line) && line != "" && line[0] != '#' && OneLine(line)
  {
    var line := Join(names, ", ");
    JoinFirst(names, ", ");
    var last := names[|names| - 1];
    assert IsTrimmed(last) && last != "";
    JoinLastChar(names, ", ");
    assert OneLine(line) by {
      assert OneLine(", ");
      JoinOneLine(names, ", ");
    }
  }

  /** `split(',')` cuts the skills line back into the spaced names. */
  lemma SplitSkillsLine(names: seq<string>)
    requires |names| > 0
    requires forall k :: 0 <= k < |names| ==> ',' !in names[k]
    ensures Split(Join(names, ", "), ',') == Spaced(names)
  {
    JoinSpaced(names);
    forall piece | piece in Spaced(names)
      ensures ',' !in piece
    {
      var k :| 0 <= k < |names| && Spaced(names)[k] == piece;
    }
    SplitJoin(Spaced(names), ',');
  }

  /** Each name can be read back, and the first does not turn the line into a heading. */
  predicate SkillsReadable(xs: seq<Skill>) {
    (forall k :: 0 <= k < |xs| ==> SkillName(xs[k].name)) && (|xs| > 0 ==> xs[0].name[0] != '#')
  }

  /** The skills line read in the skills section: its names, in order, become skills. */
  lemma ReadSkillsLine(data: ParsedResume, names: seq<string>, ids: IdSource)
    requires |names| > 0 && forall k :: 0 <= k < |names| ==> SkillName(names[k])
    requires names[0] != "" && names[0][0] != '#'
    ensures Run(ParserState("skills", false, data), [Join(names, ", "), ""], ids)
      == ParserState("skills", false, data.(skills := data.skills + NamedSkills(names, |data.skills|, ids)))
  {
    var st := ParserState("skills", false, data);
    var line := Join(names, ", ");
    RunParagraph(st, line, ids);
    SkillsLineShape(names);
    SplitSkillsLine(names);
    ContentStep(st, line, ids);
    AddSpacedSkills(data.skills, names, ids);
  }

  lemma SkillNamesNamed(xs: seq<Skill>, start: nat, ids: IdSource)
    ensures NamedSkills(SkillNames(xs), start, ids) == PendingSkills(xs, start, ids)
  {
  }

  /** The names a readable skills list writes satisfy what `ReadSkillsLine` asks of them. */
  lemma ReadableNames(xs: seq<Skill>)
    requires |xs| > 0 && SkillsReadable(xs)
    ensures var names := SkillNames(xs);
      |names| > 0 && (forall k :: 0 <= k < |names| ==> SkillName(names[k]))
      && names[0] != "" && names[0][0] != '#'
  {
  }

  /** The skills heading and line read from any state. */
  lemma ReadSkillsLines(st: ParserState, names: seq<string>, ids: IdSource)
    requires Valid(st)
    requires |names| > 0 && forall k :: 0 <= k < |names| ==> SkillName(names[k])
    requires names[0] != "" && names[0][0] != '#'
    ensures Run(st, ["## Skills", Join(names, ", "), ""], ids).data
      == st.data.(skills := st.data.skills + NamedSkills(names, |st.data.skills|, ids))
  {
    var line := Join(names, ", ");
    SkillsName();
    ReadHeading(st, "## Skills", "Skills", "skills", ids);
    assert ["## Skills", line, ""] == ["## Skills"] + [line, ""];
    RunConcat(st, ["## Skills"], [line, ""], ids);
    ReadSkillsLine(st.data, names, ids);
  }

  /** Lines 46-50 read back by lines 216-222: the skills, in order. */
  lemma ReadSkillsSection(st: ParserState, xs: seq<Skill>, ids: IdSource)
    requires Valid(st) && SkillsReadable(xs)
    ensures Run(st, SkillsSection(xs), ids).data
      == st.data.(skills := st.data.skills + PendingSkills(xs, |st.data.skills|, ids))
  {
    if xs == [] {
      assert SkillsSection(xs) == [];
      assert Run(st, SkillsSection(xs), ids) == st;
      AppendNone(st.data.skills, PendingSkills(xs, |st.data.skills|, ids));
    } else {
      assert SkillsSection(xs) == ["## Skills", Join(SkillNames(xs), ", "), ""];
      ReadableNames(xs);
      ReadSkillsLines(st, SkillNames(xs), ids);
      SkillNamesNamed(xs, |st.data.skills|, ids);
    }
  }

  // ---------------------------------------------------------------------------
  // Languages

  /** The languages as the parser holds them, ids numbered from `start`. */
  function PendingLanguages(xs: seq<Language>, start: nat, ids: IdSource): (r: seq<Language>)
    ensures |r| == |xs|
  {
    seq(|xs|, k requires 0 <= k < |xs| => xs[k].(id := ids(LanguageEntry, start + k)))
  }

  /** The bullet splits at the `: ` the serializer wrote: the proficiency holds no later one. */
  predicate LanguageReadable(l: Language) {
    Text(l.name) && Text(l.proficiency) && SplitsLast(": ", l.proficiency)
  }

  predicate LanguagesReadable(xs: seq<Language>) {
    forall k :: 0 <= k < |xs| ==> LanguageReadable(xs[k])
  }

  /** What one language line does to the state of the languages section. */
  function TakeLanguage(ids: IdSource): (ParserState, Language) -> ParserState {
    (s: ParserState, l: Language) =>
      s.(data := s.data.(languages := s.data.languages + [l.(id := ids(LanguageEntry, |s.data.languages|))]))
  }

  predicate InLanguages(s: ParserState) {
    Valid(s) && s.section == "languages" && !s.open
  }

  /** One `- name: proficiency` line read in the languages section. */
  lemma ReadLanguageLine(s: ParserState, l: Language, ids: IdSource)
    requires InLanguages(s) && LanguageReadable(l)
    ensures InLanguages(TakeLanguage(ids)(s, l)) && Run(s, LanguageLines(l), ids) == TakeLanguage(ids)(s, l)
  {
    var line := LanguageLine(l);
    RunOne(s, line, ids);
    TrimmedLine("- " + l.name + ": ", l.proficiency);
    ContentStep(s, line, ids);
    BulletLine(l.name, l.proficiency);
    TrimOfTrimmed(l.name);
    TrimOfTrimmed(l.proficiency);
  }

  lemma {:induction false} FoldLanguages(data: ParsedResume, xs: seq<Language>, ids: IdSource)
    ensures Fold(ParserState("languages", false, data), xs, TakeLanguage(ids))
      == ParserState("languages", false, data.(languages := data.languages + PendingLanguages(xs, |data.languages|, ids)))
    decreases |xs|
  {
    if xs == [] {
      assert data.languages + PendingLanguages(xs, |data.languages|, ids) == data.languages;
    } else {
      var init := xs[..|xs| - 1];
      FoldLanguages(data, init, ids);
      var before := data.languages + PendingLanguages(init, |data.languages|, ids);
      assert PendingLanguages(xs, |data.languages|, ids)
        == PendingLanguages(init, |data.languages|, ids) + [xs[|xs| - 1].(id := ids(LanguageEntry, |before|))];
    }
  }

  /** Lines 64-69 read back by lines 225-233: the languages, in order. */
  lemma ReadLanguagesSection(st: ParserState, xs: seq<Language>, ids: IdSource)
    requires Valid(st) && LanguagesReadable(xs)
    ensures Run(st, LanguagesSection(xs), ids).data
      == st.data.(languages := st.data.languages + PendingLanguages(xs, |st.data.languages|, ids))
  {
    if xs == [] {
      assert LanguagesSection(xs) == [];
      assert Run(st, LanguagesSection(xs), ids) == st;
      AppendNone(st.data.languages, PendingLanguages(xs, |st.data.languages|, ids));
    } else {
      var body := FlatMap(xs, LanguageLines);
      assert LanguagesSection(xs) == ["## Languages"] + body + [""];
      ReadLanguagesHeaded(st, xs, ids);
      RunConcat(st, ["## Languages"] + body, [""], ids);
      RunOne(Run(st, ["## Languages"] + body, ids), "", ids);
      BlankStep(Run(st, ["## Languages"] + body, ids), ids);
    }
  }

  /** The heading, then the language lines. */
  lemma ReadLanguagesHeaded(st: ParserState, xs: seq<Language>, ids: IdSource)
    requires Valid(st) && LanguagesReadable(xs)
    ensures Run(st, ["## Languages"] + FlatMap(xs, LanguageLines), ids).data
      == st.data.(languages := st.data.languages + PendingLanguages(xs, |st.data.languages|, ids))
  {
    LanguagesName();
    var mid := ParserState("languages", false, st.data);
    ReadHeading(st, "## Languages", "Languages", "languages", ids);
    forall s, l | InLanguages(s) && LanguageReadable(l)
      ensures InLanguages(TakeLanguage(ids)(s, l)) && Run(s, LanguageLines(l), ids) == TakeLanguage(ids)(s, l)
    {
      ReadLanguageLine(s, l, ids);
    }
    RunFlatMap(mid, xs, LanguageLines, TakeLanguage(ids), LanguageReadable, InLanguages, ids);
    FoldLanguages(st.data, xs, ids);
    RunConcat(st, ["## Languages"], FlatMap(xs, LanguageLines), ids);
  }

  // ---------------------------------------------------------------------------
  // Sections the parser does not read

  /** A section under a heading the parser has no case for, all of whose lines are inert, changes no data. */
  lemma SkipSection(st: ParserState, name: string, lower: string, lines: seq<string>, ids: IdSource)
    requires Valid(st) && IsTrimmed("## " + name) && ToLower(name) == lower && !ContentSection(lower)
    requires forall k :: 0 <= k < |lines| ==> Inert(lines[k])
    ensures Run(st, ["## " + name] + lines, ids).data == st.data
  {
    ReadHeading(st, "## " + name, name, lower, ids);
    RunConcat(st, ["## " + name], lines, ids);
    InertRun(ParserState(lower, false, st.data), lines, ids);
  }

  /** A list of items whose every line is inert, followed by a blank line, is inert throughout. */
  lemma {:induction false} InertList<T>(xs: seq<T>, f: T -> seq<string>)
    requires forall j, k :: 0 <= j < |xs| && 0 <= k < |f(xs[j])| ==> Inert(f(xs[j])[k])
    ensures var lines := FlatMap(xs, f) + [""];
      forall k :: 0 <= k < |lines| ==> Inert(lines[k])
  {
    FlatMapAll(xs, f, Inert);
    var lines := FlatMap(xs, f) + [""];
    forall k | 0 <= k < |lines|
      ensures Inert(lines[k])
    {
      if k == |lines| - 1 {
        assert lines[k] == "";
      } else {
        assert lines[k] == FlatMap(xs, f)[k];
      }
    }
  }

  /** An indented `URL: ` line is never a heading. */
  lemma UrlInert(url: string)
    ensures forall k :: 0 <= k < |OptionalLine("  URL: ", url)| ==> Inert(OptionalLine("  URL: ", url)[k])
  {
    if url != "" {
      var line := "URL: " + url;
      InertByFirst(line);
      InertIndented("  ", line);
      IndentedUrlSplit();
      AppendAssoc("  ", "URL: ", url);
    }
  }

  lemma IndentedUrlSplit()
    ensures "  URL: " == "  " + "URL: "
  {
  }

  /** A section of items whose every line is inert, read under a heading the parser has no case for. */
  lemma SkipItems<T>(st: ParserState, name: string, lower: string, xs: seq<T>, f: T -> seq<string>, ids: IdSource)
    requires Valid(st) && IsTrimmed("## " + name) && ToLower(name) == lower && !ContentSection(lower)
    requires forall j, k :: 0 <= j < |xs| && 0 <= k < |f(xs[j])| ==> Inert(f(xs[j])[k])
    ensures Run(st, ["## " + name] + FlatMap(xs, f) + [""], ids).data == st.data
  {
    InertList(xs, f);
    assert ["## " + name] + FlatMap(xs, f) + [""] == ["## " + name] + (FlatMap(xs, f) + [""]);
    SkipSection(st, name, lower, FlatMap(xs, f) + [""], ids);
  }

  lemma CertificationInert(c: Certification)
    ensures forall k :: 0 <= k < |CertificationLines(c)| ==> Inert(CertificationLines(c)[k])
  {
    assert CertificationLine(c)[0] == '-';
    InertByFirst(CertificationLine(c));
    UrlInert(c.url);
    forall k | 1 <= k < |CertificationLines(c)|
      ensures CertificationLines(c)[k] == OptionalLine("  URL: ", c.url)[k - 1]
    {
    }
  }

  lemma IndentBlank()
    ensures TrimStart("  ") == ""
  {
  }

  lemma BadgeInert(b: Badge)
    ensures forall k :: 0 <= k < |BadgeLines(b)| ==> Inert(BadgeLines(b)[k])
  {
    assert BadgeLine(b)[0] == '-';
    InertByFirst(BadgeLine(b));
  }

  /** Every line written for the list reads as inert. */
  lemma CertificationsInert(xs: seq<Certification>)
    ensures forall j, k :: 0 <= j < |xs| && 0 <= k < |CertificationLines(xs[j])| ==> Inert(CertificationLines(xs[j])[k])
  {
    forall j | 0 <= j < |xs|
      ensures forall k :: 0 <= k < |CertificationLines(xs[j])| ==> Inert(CertificationLines(xs[j])[k])
    {
      CertificationInert(xs[j]);
    }
  }

  /** Lines 72-80 are not read back: the certifications section leaves the parsed data as it is. */
  lemma SkipCertifications(st: ParserState, xs: seq<Certification>, ids: IdSource)
    requires Valid(st)
    ensures Run(st, CertificationsSection(xs), ids).data == st.data
  {
    if xs != [] {
      CertificationsInert(xs);
      CertificationsName();
      SkipItems(st, "Certifications", "certifications", xs, CertificationLines, ids);
    }
  }

  /** An achievement whose description does not read as a heading. */
  predicate AchievementReadable(a: Achievement) {
    Inert(a.description)
  }

  lemma AchievementInert(a: Achievement)
    requires AchievementReadable(a)
    ensures forall k :: 0 <= k < |AchievementLines(a)| ==> Inert(AchievementLines(a)[k])
  {
    var first := "- " + a.title + " (" + a.date + ")";
    assert first[0] == '-';
    InertByFirst(first);
    IndentBlank();
    InertIndented("  ", a.description);
  }

  /** Every line written for the list reads as inert. */
  lemma AchievementsInert(xs: seq<Achievement>)
    requires forall k :: 0 <= k < |xs| ==> AchievementReadable(xs[k])
    ensures forall j, k :: 0 <= j < |xs| && 0 <= k < |AchievementLines(xs[j])| ==> Inert(AchievementLines(xs[j])[k])
  {
    forall j | 0 <= j < |xs|
      ensures forall k :: 0 <= k < |AchievementLines(xs[j])| ==> Inert(AchievementLines(xs[j])[k])
    {
      AchievementInert(xs[j]);
    }
  }

  /** Lines 83-89 are not read back: the achievements section leaves the parsed data as it is. */
  lemma SkipAchievements(st: ParserState, xs: seq<Achievement>, ids: IdSource)
    requires Valid(st) && forall k :: 0 <= k < |xs| ==> AchievementReadable(xs[k])
    ensures Run(st, AchievementsSection(xs), ids).data == st.data
  {
    if xs != [] {
      AchievementsInert(xs);
      AchievementsName();
      SkipItems(st, "Achievements", "achievements", xs, AchievementLines, ids);
    }
  }

  /** An activity whose description does not read as a heading. */
  predicate ActivityReadable(a: Activity) {
    Inert(a.description)
  }

  lemma ActivityInert(a: Activity)
    requires ActivityReadable(a)
    ensures forall k :: 0 <= k < |ActivityLines(a)| ==> Inert(ActivityLines(a)[k])
  {
    var first := "- " + a.name;
    assert first[0] == '-';
    InertByFirst(first);
    IndentBlank();
    InertIndented("  ", a.description);
  }

  /** Every line written for the list reads as inert. */
  lemma ActivitiesInert(xs: seq<Activity>)
    requires forall k :: 0 <= k < |xs| ==> ActivityReadable(xs[k])
    ensures forall j, k :: 0 <= j < |xs| && 0 <= k < |ActivityLines(xs[j])| ==> Inert(ActivityLines(xs[j])[k])
  {
    forall j | 0 <= j < |xs|
      ensures forall k :: 0 <= k < |ActivityLines(xs[j])| ==> Inert(ActivityLines(xs[j])[k])
    {
      ActivityInert(xs[j]);
    }
  }

  /** Lines 92-98 are not read back: the activities section leaves the parsed data as it is. */
  lemma SkipActivities(st: ParserState, xs: seq<Activity>, ids: IdSource)
    requires Valid(st) && forall k :: 0 <= k < |xs| ==> ActivityReadable(xs[k])
    ensures Run(st, ActivitiesSection(xs), ids).data == st.data
  {
    if xs != [] {
      ActivitiesInert(xs);
      ActivitiesName();
      SkipItems(st, "Activities", "activities", xs, ActivityLines, ids);
    }
  }

  /** Lines 101-106 are not read back: the badges section leaves the parsed data as it is. */
  lemma SkipBadges(st: ParserState, xs: seq<Badge>, ids: IdSource)
    requires Valid(st)
    ensures Run(st, BadgesSection(xs), ids).data == st.data
  {
    if xs != [] {
      forall j | 0 <= j < |xs|
        ensures forall k :: 0 <= k < |BadgeLines(xs[j])| ==> Inert(BadgeLines(xs[j])[k])
      {
        BadgeInert(xs[j]);
      }
      FlatMapAll(xs, BadgeLines, Inert);
      BadgesName();
      SkipSection(st, "Badges", "badges", FlatMap(xs, BadgeLines), ids);
    }
  }
}
