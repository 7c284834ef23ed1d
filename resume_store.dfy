/**
 * The resume the editor holds (src/contexts/ResumeContext.tsx): one state
 * cell, replaced by each operation with a new value built from the old one.
 * Each new value is a function of the old value (spread, `map`, `filter`);
 * `ResumeProvider` is the cell and its setters.
 */
module ResumeStore {
  import opened Options
  import opened ResumeTypes

  // ---------------------------------------------------------------------------
  // Partial records: `{ ...old, ...partial }`

  /** One field of `{ ...old, ...partial }`: the partial's value when it supplies one. */
  function Pick<T>(current: T, supplied: Option<T>): T {
    if supplied.Some? then supplied.value else current
  }

  /** `{ ...prev.personalInfo, ...info }` */
  function MergeInfo(p: PersonalInfo, info: PartialInfo): PersonalInfo {
    PersonalInfo(
      Pick(p.name, info.name), Pick(p.middleName, info.middleName), Pick(p.title, info.title),
      Pick(p.email, info.email), Pick(p.phone, info.phone), Pick(p.location, info.location),
      Pick(p.linkedin, info.linkedin), Pick(p.github, info.github))
  }

  /** `Partial<Experience>`: any field, the id included, may be supplied. */
  datatype ExperiencePatch = ExperiencePatch(
    id: Option<Id>,
    title: Option<string>,
    company: Option<string>,
    location: Option<string>,
    startDate: Option<string>,
    endDate: Option<string>,
    current: Option<bool>,
    description: Option<string>,
    projects: Option<string>,
    scope: Option<string>)

  /** `{ ...exp, ...experience }` */
  function PatchExperience(e: Experience, p: ExperiencePatch): Experience {
    Experience(
      Pick(e.id, p.id), Pick(e.title, p.title), Pick(e.company, p.company), Pick(e.location, p.location),
      Pick(e.startDate, p.startDate), Pick(e.endDate, p.endDate), Pick(e.current, p.current),
      Pick(e.description, p.description), Pick(e.projects, p.projects), Pick(e.scope, p.scope))
  }

  /** `Partial<Education>` */
  datatype EducationPatch = EducationPatch(
    id: Option<Id>,
    institution: Option<string>,
    degree: Option<string>,
    field: Option<string>,
    startDate: Option<string>,
    endDate: Option<string>,
    current: Option<bool>,
    description: Option<string>)

  /** `{ ...edu, ...education }` */
  function PatchEducation(e: Education, p: EducationPatch): Education {
    Education(
      Pick(e.id, p.id), Pick(e.institution, p.institution), Pick(e.degree, p.degree), Pick(e.field, p.field),
      Pick(e.startDate, p.startDate), Pick(e.endDate, p.endDate), Pick(e.current, p.current),
      Pick(e.description, p.description))
  }

  /** `Partial<Skill>` */
  datatype SkillPatch = SkillPatch(id: Option<Id>, name: Option<string>)

  /** `{ ...s, ...skill }` */
  function PatchSkill(s: Skill, p: SkillPatch): Skill {
    Skill(Pick(s.id, p.id), Pick(s.name, p.name))
  }

  /** A partial personal record supplies exactly its own fields; the others are kept. */
  lemma MergeInfoFields(p: PersonalInfo, info: PartialInfo)
    ensures info.name.Some? ==> MergeInfo(p, info).name == info.name.value
    ensures info.name.None? ==> MergeInfo(p, info).name == p.name
    ensures info.title.Some? ==> MergeInfo(p, info).title == info.title.value
    ensures info.title.None? ==> MergeInfo(p, info).title == p.title
    ensures info.email.Some? ==> MergeInfo(p, info).email == info.email.value
    ensures info.email.None? ==> MergeInfo(p, info).email == p.email
    ensures MergeInfo(p, NoInfo) == p
  {
  }

  /** Merging the same partial record twice is merging it once. */
  lemma MergeInfoIdempotent(p: PersonalInfo, info: PartialInfo)
    ensures MergeInfo(MergeInfo(p, info), info) == MergeInfo(p, info)
  {
  }

  /** An experience patch with nothing in it changes nothing; applying one twice is applying it once. */
  lemma PatchExperienceLaws(e: Experience, p: ExperiencePatch)
    ensures PatchExperience(e, ExperiencePatch(None, None, None, None, None, None, None, None, None, None)) == e
    ensures PatchExperience(PatchExperience(e, p), p) == PatchExperience(e, p)
    ensures p.id.None? ==> PatchExperience(e, p).id == e.id
  {
  }

  // ---------------------------------------------------------------------------
  // `map` and `filter` over an entry list, by id

  /** `xs.map(x => idOf(x) === id ? patch(x) : x)` */
  function Replace<T>(xs: seq<T>, idOf: T -> Id, id: Id, patch: T -> T): seq<T>
    decreases |xs|
  {
    if xs == [] then []
    else [if idOf(xs[0]) == id then patch(xs[0]) else xs[0]] + Replace(xs[1..], idOf, id, patch)
  }

  /** `xs.filter(x => idOf(x) !== id)`: what remains never has the id and comes from `xs`. */
  function Without<T>(xs: seq<T>, idOf: T -> Id, id: Id): (r: seq<T>)
    ensures |r| <= |xs|
    ensures forall k :: 0 <= k < |r| ==> idOf(r[k]) != id
    ensures forall x :: x in r ==> x in xs
    decreases |xs|
  {
    if xs == [] then []
    else (if idOf(xs[0]) == id then [] else [xs[0]]) + Without(xs[1..], idOf, id)
  }

  /** `filter` keeps every entry without the id exactly as many times as the list holds it. */
  lemma {:induction false} WithoutCount<T>(xs: seq<T>, idOf: T -> Id, id: Id)
    ensures forall x :: multiset(Without(xs, idOf, id))[x] == if idOf(x) == id then 0 else multiset(xs)[x]
    decreases |xs|
  {
    if xs != [] {
      WithoutCount(xs[1..], idOf, id);
      assert xs == [xs[0]] + xs[1..];
    }
  }

  /** `filter` on one entry keeps it exactly when its id differs. */
  lemma WithoutOne<T>(x: T, idOf: T -> Id, id: Id)
    ensures Without([x], idOf, id) == if idOf(x) == id then [] else [x]
  {
    assert [x][1..] == [];
  }

  /** `map` keeps the length and the order; only the entries with the id are patched. */
  lemma {:induction false} ReplaceAt<T>(xs: seq<T>, idOf: T -> Id, id: Id, patch: T -> T)
    ensures |Replace(xs, idOf, id, patch)| == |xs|
    ensures forall k :: 0 <= k < |xs| ==>
      Replace(xs, idOf, id, patch)[k] == if idOf(xs[k]) == id then patch(xs[k]) else xs[k]
    decreases |xs|
  {
    if xs != [] {
      ReplaceAt(xs[1..], idOf, id, patch);
    }
  }

  /** Updating an id no entry has is a no-op. */
  lemma ReplaceAbsent<T>(xs: seq<T>, idOf: T -> Id, id: Id, patch: T -> T)
    requires forall k :: 0 <= k < |xs| ==> idOf(xs[k]) != id
    ensures Replace(xs, idOf, id, patch) == xs
  {
    ReplaceAt(xs, idOf, id, patch);
  }

  /** Every entry without the id survives `filter`. */
  lemma {:induction false} WithoutKeeps<T>(xs: seq<T>, idOf: T -> Id, id: Id, x: T)
    requires x in xs && idOf(x) != id
    ensures x in Without(xs, idOf, id)
    decreases |xs|
  {
    if xs[0] != x {
      assert x in xs[1..];
      WithoutKeeps(xs[1..], idOf, id, x);
    }
  }

  /** `filter` works piece by piece, so the entries it keeps stay in their order. */
  lemma {:induction false} WithoutConcat<T>(a: seq<T>, b: seq<T>, idOf: T -> Id, id: Id)
    ensures Without(a + b, idOf, id) == Without(a, idOf, id) + Without(b, idOf, id)
    decreases |a|
  {
    ConsAppend(a, b);
    if a != [] {
      WithoutConcat(a[1..], b, idOf, id);
    }
  }

  lemma ConsAppend<T>(a: seq<T>, b: seq<T>)
    ensures a == [] ==> a + b == b
    ensures a != [] ==> (a + b)[0] == a[0] && (a + b)[1..] == a[1..] + b
  {
  }

  /** Removing an id no entry has is a no-op. */
  lemma {:induction false} WithoutAbsent<T>(xs: seq<T>, idOf: T -> Id, id: Id)
    requires forall k :: 0 <= k < |xs| ==> idOf(xs[k]) != id
    ensures Without(xs, idOf, id) == xs
    decreases |xs|
  {
    if xs != [] {
      WithoutAbsent(xs[1..], idOf, id);
      assert [xs[0]] + xs[1..] == xs;
    }
  }

  /** Removing twice is removing once. */
  lemma WithoutIdempotent<T>(xs: seq<T>, idOf: T -> Id, id: Id)
    ensures Without(Without(xs, idOf, id), idOf, id) == Without(xs, idOf, id)
  {
    WithoutAbsent(Without(xs, idOf, id), idOf, id);
  }

  /** An entry added with an id and then removed by that id leaves the other entries as they were. */
  lemma WithoutAdded<T>(xs: seq<T>, x: T, idOf: T -> Id)
    ensures Without(xs + [x], idOf, idOf(x)) == Without(xs, idOf, idOf(x))
  {
    WithoutConcat(xs, [x], idOf, idOf(x));
    assert Without([x], idOf, idOf(x)) == [];
  }

  // ---------------------------------------------------------------------------
  // The new state each operation computes from the previous one (`prev`)

  function ExperienceId(e: Experience): Id { e.id }
  function EducationId(e: Education): Id { e.id }
  function SkillId(s: Skill): Id { s.id }

  /** `updatePersonalInfo` (lines 145-150): only the supplied personal fields change. */
  function PersonalInfoUpdated(prev: Resume, info: PartialInfo): (r: Resume)
    ensures r.(personalInfo := prev.personalInfo) == prev
    ensures r.personalInfo == MergeInfo(prev.personalInfo, info)
  {
    prev.(personalInfo := MergeInfo(prev.personalInfo, info))
  }

  /** `updateSummary` (lines 152-154): only the summary changes. */
  function SummaryUpdated(prev: Resume, summary: string): (r: Resume)
    ensures r.(summary := prev.summary) == prev && r.summary == summary
  {
    prev.(summary := summary)
  }

  /** `addExperience` (lines 156-162): one entry, with the given id, after all the others. */
  function ExperienceAdded(prev: Resume, experience: Experience, id: Id): (r: Resume)
    ensures r.(experience := prev.experience) == prev
    ensures |r.experience| == |prev.experience| + 1 && r.experience[..|prev.experience|] == prev.experience
    ensures r.experience[|prev.experience|] == experience.(id := id)
  {
    prev.(experience := prev.experience + [experience.(id := id)])
  }

  /** `updateExperience` (lines 164-171): the entries with the id are patched, in place. */
  function ExperienceUpdated(prev: Resume, id: Id, patch: ExperiencePatch): (r: Resume)
    ensures r.(experience := prev.experience) == prev
    ensures |r.experience| == |prev.experience|
    ensures forall k :: 0 <= k < |prev.experience| ==>
      r.experience[k] == if prev.experience[k].id == id then PatchExperience(prev.experience[k], patch) else prev.experience[k]
  {
    ReplaceAt(prev.experience, ExperienceId, id, e => PatchExperience(e, patch));
    prev.(experience := Replace(prev.experience, ExperienceId, id, e => PatchExperience(e, patch)))
  }

  /** `removeExperience` (lines 173-178): every entry with the id goes, every other one stays. */
  function ExperienceRemoved(prev: Resume, id: Id): (r: Resume)
    ensures r.(experience := prev.experience) == prev
    ensures forall k :: 0 <= k < |r.experience| ==> r.experience[k].id != id
    ensures forall e :: e in prev.experience ==> (e in r.experience <==> e.id != id)
    ensures forall e :: e in r.experience ==> e in prev.experience
    ensures r.experience == Without(prev.experience, ExperienceId, id)
  {
    var kept := Without(prev.experience, ExperienceId, id);
    forall e | e in prev.experience && e.id != id
      ensures e in kept
    {
      WithoutKeeps(prev.experience, ExperienceId, id, e);
    }
    prev.(experience := kept)
  }

  /** `addEducation` (lines 180-186) */
  function EducationAdded(prev: Resume, education: Education, id: Id): (r: Resume)
    ensures r.(education := prev.education) == prev
    ensures |r.education| == |prev.education| + 1 && r.education[..|prev.education|] == prev.education
    ensures r.education[|prev.education|] == education.(id := id)
  {
    prev.(education := prev.education + [education.(id := id)])
  }

  /** `updateEducation` (lines 188-195) */
  function EducationUpdated(prev: Resume, id: Id, patch: EducationPatch): (r: Resume)
    ensures r.(education := prev.education) == prev
    ensures |r.education| == |prev.education|
    ensures forall k :: 0 <= k < |prev.education| ==>
      r.education[k] == if prev.education[k].id == id then PatchEducation(prev.education[k], patch) else prev.education[k]
  {
    ReplaceAt(prev.education, EducationId, id, e => PatchEducation(e, patch));
    prev.(education := Replace(prev.education, EducationId, id, e => PatchEducation(e, patch)))
  }

  /** `removeEducation` (lines 197-202) */
  function EducationRemoved(prev: Resume, id: Id): (r: Resume)
    ensures r.(education := prev.education) == prev
    ensures forall k :: 0 <= k < |r.education| ==> r.education[k].id != id
    ensures forall e :: e in prev.education ==> (e in r.education <==> e.id != id)
    ensures forall e :: e in r.education ==> e in prev.education
    ensures r.education == Without(prev.education, EducationId, id)
  {
    var kept := Without(prev.education, EducationId, id);
    forall e | e in prev.education && e.id != id
      ensures e in kept
    {
      WithoutKeeps(prev.education, EducationId, id, e);
    }
    prev.(education := kept)
  }

  /** `addSkill` (lines 204-210) */
  function SkillAdded(prev: Resume, skill: Skill, id: Id): (r: Resume)
    ensures r.(skills := prev.skills) == prev
    ensures |r.skills| == |prev.skills| + 1 && r.skills[..|prev.skills|] == prev.skills
    ensures r.skills[|prev.skills|] == skill.(id := id)
  {
    prev.(skills := prev.skills + [skill.(id := id)])
  }

  /** `updateSkill` (lines 212-217) */
  function SkillUpdated(prev: Resume, id: Id, patch: SkillPatch): (r: Resume)
    ensures r.(skills := prev.skills) == prev
    ensures |r.skills| == |prev.skills|
    ensures forall k :: 0 <= k < |prev.skills| ==>
      r.skills[k] == if prev.skills[k].id == id then PatchSkill(prev.skills[k], patch) else prev.skills[k]
  {
    ReplaceAt(prev.skills, SkillId, id, s => PatchSkill(s, patch));
    prev.(skills := Replace(prev.skills, SkillId, id, s => PatchSkill(s, patch)))
  }

  /** `removeSkill` (lines 219-224) */
  function SkillRemoved(prev: Resume, id: Id): (r: Resume)
    ensures r.(skills := prev.skills) == prev
    ensures forall k :: 0 <= k < |r.skills| ==> r.skills[k].id != id
    ensures forall s :: s in prev.skills ==> (s in r.skills <==> s.id != id)
    ensures forall s :: s in r.skills ==> s in prev.skills
    ensures r.skills == Without(prev.skills, SkillId, id)
  {
    var kept := Without(prev.skills, SkillId, id);
    forall s | s in prev.skills && s.id != id
      ensures s in kept
    {
      WithoutKeeps(prev.skills, SkillId, id, s);
    }
    prev.(skills := kept)
  }

  /** Updating or removing an experience id that no entry has leaves the resume as it was. */
  lemma ExperienceAbsentId(prev: Resume, id: Id, patch: ExperiencePatch)
    requires forall k :: 0 <= k < |prev.experience| ==> prev.experience[k].id != id
    ensures ExperienceUpdated(prev, id, patch) == prev
    ensures ExperienceRemoved(prev, id) == prev
  {
    ReplaceAbsent(prev.experience, ExperienceId, id, e => PatchExperience(e, patch));
    WithoutAbsent(prev.experience, ExperienceId, id);
  }

  /** Adding an experience and removing it by its id gives back the other entries, in order. */
  lemma AddThenRemoveExperience(prev: Resume, experience: Experience, id: Id)
    ensures ExperienceRemoved(ExperienceAdded(prev, experience, id), id) == ExperienceRemoved(prev, id)
  {
    WithoutAdded(prev.experience, experience.(id := id), ExperienceId);
  }

  /** The experience entries that `removeExperience` keeps are in their original order. */
  lemma RemoveExperienceOrder(prev: Resume, front: seq<Experience>, back: seq<Experience>, id: Id)
    requires prev.experience == front + back
    ensures ExperienceRemoved(prev, id).experience
      == Without(front, ExperienceId, id) + Without(back, ExperienceId, id)
  {
    WithoutConcat(front, back, ExperienceId, id);
  }

  /** The education entries that `removeEducation` keeps are in their original order. */
  lemma RemoveEducationOrder(prev: Resume, front: seq<Education>, back: seq<Education>, id: Id)
    requires prev.education == front + back
    ensures EducationRemoved(prev, id).education
      == Without(front, EducationId, id) + Without(back, EducationId, id)
  {
    WithoutConcat(front, back, EducationId, id);
  }

  /** The skills that `removeSkill` keeps are in their original order. */
  lemma RemoveSkillOrder(prev: Resume, front: seq<Skill>, back: seq<Skill>, id: Id)
    requires prev.skills == front + back
    ensures SkillRemoved(prev, id).skills == Without(front, SkillId, id) + Without(back, SkillId, id)
  {
    WithoutConcat(front, back, SkillId, id);
  }

  lemma EducationAbsentId(prev: Resume, id: Id, patch: EducationPatch)
    requires forall k :: 0 <= k < |prev.education| ==> prev.education[k].id != id
    ensures EducationUpdated(prev, id, patch) == prev
    ensures EducationRemoved(prev, id) == prev
  {
    ReplaceAbsent(prev.education, EducationId, id, e => PatchEducation(e, patch));
    WithoutAbsent(prev.education, EducationId, id);
  }

  lemma SkillAbsentId(prev: Resume, id: Id, patch: SkillPatch)
    requires forall k :: 0 <= k < |prev.skills| ==> prev.skills[k].id != id
    ensures SkillUpdated(prev, id, patch) == prev
    ensures SkillRemoved(prev, id) == prev
  {
    ReplaceAbsent(prev.skills, SkillId, id, s => PatchSkill(s, patch));
    WithoutAbsent(prev.skills, SkillId, id);
  }

  // ---------------------------------------------------------------------------
  // The state cell

  /** Lines 47-111: the resume the editor starts with; the wider record's other fields are empty. */
  const DefaultResume := Resume(
    PersonalInfo("John Doe", "", "Software Engineer", "john.doe@example.com", "(123) 456-7890",
      "San Francisco, CA", "", ""),
    "Experienced software engineer with a passion for developing innovative solutions. "
      + "Proven track record in building scalable applications and leading development teams.",
    [
      Experience("exp1", "Senior Software Engineer", "Tech Innovations Inc.", "San Francisco, CA",
        "2020-01", "", true,
        "Led the development of cloud-based solutions, improved system performance by 40%, "
          + "and mentored junior developers.", "", ""),
      Experience("exp2", "Software Engineer", "Digital Solutions LLC", "San Jose, CA",
        "2017-06", "2019-12", false,
        "Developed and maintained web applications using React and Node.js. "
          + "Collaborated with cross-functional teams to deliver projects on time.", "", "")
    ],
    [
      Education("edu1", "University of California", "Master's", "Computer Science", "2015-09", "2017-05", false,
        "Specialized in Artificial Intelligence and Machine Learning."),
      Education("edu2", "State University", "Bachelor's", "Computer Engineering", "2011-09", "2015-05", false,
        "Graduated with honors. Active member of the Robotics Club.")
    ],
    [Skill("skill1", "JavaScript"), Skill("skill2", "React"), Skill("skill3", "Node.js"),
     Skill("skill4", "TypeScript"), Skill("skill5", "Python"), Skill("skill6", "Git")],
    [], [], [], [], [], [])

  /**
   * `ResumeProvider` (lines 142-224): the `resumeData` cell and the setters
   * the editor calls. Ids, which the source takes from the clock, are
   * arguments.
   */
  class ResumeProvider {
    var resumeData: Resume

    constructor ()
      ensures resumeData == DefaultResume
    {
      resumeData := DefaultResume;
    }

    method UpdatePersonalInfo(info: PartialInfo)
      modifies this
      ensures resumeData == PersonalInfoUpdated(old(resumeData), info)
    {
      resumeData := PersonalInfoUpdated(resumeData, info);
    }

    method UpdateSummary(summary: string)
      modifies this
      ensures resumeData == SummaryUpdated(old(resumeData), summary)
    {
      resumeData := SummaryUpdated(resumeData, summary);
    }

    method AddExperience(experience: Experience, id: Id)
      modifies this
      ensures resumeData == ExperienceAdded(old(resumeData), experience, id)
    {
      resumeData := ExperienceAdded(resumeData, experience, id);
    }

    method UpdateExperience(id: Id, patch: ExperiencePatch)
      modifies this
      ensures resumeData == ExperienceUpdated(old(resumeData), id, patch)
    {
      resumeData := ExperienceUpdated(resumeData, id, patch);
    }

    method RemoveExperience(id: Id)
      modifies this
      ensures resumeData == ExperienceRemoved(old(resumeData), id)
    {
      resumeData := ExperienceRemoved(resumeData, id);
    }

    method AddEducation(education: Education, id: Id)
      modifies this
      ensures resumeData == EducationAdded(old(resumeData), education, id)
    {
      resumeData := EducationAdded(resumeData, education, id);
    }

    method UpdateEducation(id: Id, patch: EducationPatch)
      modifies this
      ensures resumeData == EducationUpdated(old(resumeData), id, patch)
    {
      resumeData := EducationUpdated(resumeData, id, patch);
    }

    method RemoveEducation(id: Id)
      modifies this
      ensures resumeData == EducationRemoved(old(resumeData), id)
    {
      resumeData := EducationRemoved(resumeData, id);
    }

    method AddSkill(skill: Skill, id: Id)
      modifies this
      ensures resumeData == SkillAdded(old(resumeData), skill, id)
    {
      resumeData := SkillAdded(resumeData, skill, id);
    }

    method UpdateSkill(id: Id, patch: SkillPatch)
      modifies this
      ensures resumeData == SkillUpdated(old(resumeData), id, patch)
    {
      resumeData := SkillUpdated(resumeData, id, patch);
    }

    method RemoveSkill(id: Id)
      modifies this
      ensures resumeData == SkillRemoved(old(resumeData), id)
    {
      resumeData := SkillRemoved(resumeData, id);
    }
  }
}
