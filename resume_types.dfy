/**
 * The resume record as the Markdown serializer reads it (the wider record,
 * with middle name, profile handles, experience projects and scope, and
 * the nine entry lists), and the partial record the parser returns.
 */
module ResumeTypes {
  import opened Options

  /** Entry identifiers are opaque strings chosen by whoever creates the entry. */
  type Id = string

  datatype PersonalInfo = PersonalInfo(
    name: string,
    middleName: string,
    title: string,
    email: string,
    phone: string,
    location: string,
    linkedin: string,
    github: string)

  /** `endDate` is meaningless while `current` holds: the job is ongoing. */
  datatype Experience = Experience(
    id: Id,
    title: string,
    company: string,
    location: string,
    startDate: string,
    endDate: string,
    current: bool,
    description: string,
    projects: string,
    scope: string)

  datatype Education = Education(
    id: Id,
    institution: string,
    degree: string,
    field: string,
    startDate: string,
    endDate: string,
    current: bool,
    description: string)

  datatype Skill = Skill(id: Id, name: string)

  /** An empty `url` stands for an absent one, as the serializer treats both alike. */
  datatype Project = Project(id: Id, title: string, description: string, url: string)

  datatype Language = Language(id: Id, name: string, proficiency: string)

  datatype Certification = Certification(
    id: Id, name: string, issuer: string, date: string, expiry: string, url: string, project: string)

  datatype Achievement = Achievement(
    id: Id, title: string, description: string, date: string, url: string, project: string)

  datatype Activity = Activity(id: Id, name: string, description: string, url: string, project: string)

  datatype Badge = Badge(id: Id, name: string, issuer: string, date: string, url: string, project: string)

  datatype Resume = Resume(
    personalInfo: PersonalInfo,
    summary: string,
    experience: seq<Experience>,
    education: seq<Education>,
    skills: seq<Skill>,
    projects: seq<Project>,
    languages: seq<Language>,
    certifications: seq<Certification>,
    achievements: seq<Achievement>,
    activities: seq<Activity>,
    badges: seq<Badge>)

  /**
   * `Partial<PersonalInfo>`: each field either supplied or left out. The
   * parser fills one from the text; `updatePersonalInfo` merges one in.
   */
  datatype PartialInfo = PartialInfo(
    name: Option<string>,
    middleName: Option<string>,
    title: Option<string>,
    email: Option<string>,
    phone: Option<string>,
    location: Option<string>,
    linkedin: Option<string>,
    github: Option<string>)

  const NoInfo := PartialInfo(None, None, None, None, None, None, None, None)

  /** What the parser returns: every list present, personal fields and summary only when found. */
  datatype ParsedResume = ParsedResume(
    personalInfo: PartialInfo,
    summary: Option<string>,
    experience: seq<Experience>,
    education: seq<Education>,
    skills: seq<Skill>,
    projects: seq<Project>,
    languages: seq<Language>,
    certifications: seq<Certification>,
    achievements: seq<Achievement>,
    activities: seq<Activity>,
    badges: seq<Badge>)
}
