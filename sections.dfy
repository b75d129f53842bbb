/** The structured resume content that the optimiser threads through its
    state: the four sections of `resume_sections`, the ATS analysis record
    and the shape the tailor/improve stages hand back. Python dictionaries
    with fixed keys become records; a key that may be absent becomes an
    Option. */
module ResumeTypes {

  datatype Option<+T> = None | Some(value: T) {
    /** `d.get(key, default)` on a key that may be absent */
    function GetOr(default: T): T {
      match this
      case Some(v) => v
      case None => default
    }
  }

  /** One experience entry; every key may be missing from the dictionary. */
  datatype Job = Job(
    title: Option<string>,
    company: Option<string>,
    location: Option<string>,
    dates: Option<string>,
    bullets: Option<seq<string>>)

  /** One education entry, kept as-is from the uploaded resume. */
  datatype Education = Education(
    degree: Option<string>,
    institution: Option<string>,
    location: Option<string>,
    dates: Option<string>)

  /** One entry of the skills mapping, in the mapping's iteration order. */
  datatype SkillGroup = SkillGroup(category: string, skills: seq<string>)

  /** The working resume: the dictionary `resume_sections`. */
  datatype ResumeSections = ResumeSections(
    summary: string,
    experience: seq<Job>,
    education: seq<Education>,
    skills: seq<SkillGroup>)

  /** The scorer's diagnosis, stored in `state.analysis`. */
  datatype Analysis = Analysis(
    missingKeywords: seq<string>,
    weakAreas: string,
    recommendations: string)

  /** What the tailor and improve stages return: new summary, experience
      and skills (any education they might return is never read). */
  datatype Transformed = Transformed(
    summary: string,
    experience: seq<Job>,
    skills: seq<SkillGroup>)

  /** What the ATS scorer returns. */
  datatype AtsResult = AtsResult(score: int, analysis: Analysis)

  /** `original_experience_positions`: the protected-facts map, passed to
      the transform stages untouched. */
  type Locks = map<string, string>
}
