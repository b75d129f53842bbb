/** The single mutable record the optimisation graph threads through its
    nodes (`ResumeOptimizerState`). Every node updates its fields in place. */
module State {
  import opened ResumeTypes

  class ResumeOptimizerState {
    /** current working resume sections */
    var resumeSections: ResumeSections

    /** contact details supplied by the user; all optional */
    var phone: Option<string>
    var fullName: Option<string>
    var email: Option<string>
    var linkedin: Option<string>
    var github: Option<string>

    /** frozen copy of the education list taken when the state is built */
    var originalEducation: seq<Education>
    /** protected experience facts handed to the transform stages */
    var originalExperiencePositions: Locks
    var jobDescription: string

    /** results of the latest ATS pass */
    var atsScore: Option<int>
    var analysis: Option<Analysis>

    var iterationCount: int
    var passed: bool
    var finalDocxPath: Option<string>

    /** Building the record: the four required fields have no default, the
        five contact fields default to None, and
        every other field takes its declared default. */
    constructor (
      resumeSections: ResumeSections,
      originalEducation: seq<Education>,
      originalExperiencePositions: Locks,
      jobDescription: string,
      phone: Option<string> := None,
      fullName: Option<string> := None,
      email: Option<string> := None,
      linkedin: Option<string> := None,
      github: Option<string> := None)
      ensures this.resumeSections == resumeSections
      ensures this.originalEducation == originalEducation
      ensures this.originalExperiencePositions == originalExperiencePositions
      ensures this.jobDescription == jobDescription
      ensures this.phone == phone && this.fullName == fullName && this.email == email
      ensures this.linkedin == linkedin && this.github == github
      ensures atsScore == None && analysis == None
      ensures iterationCount == 0
      ensures !passed && finalDocxPath == None
    {
      this.resumeSections := resumeSections;
      this.phone := phone;
      this.fullName := fullName;
      this.email := email;
      this.linkedin := linkedin;
      this.github := github;
      this.originalEducation := originalEducation;
      this.originalExperiencePositions := originalExperiencePositions;
      this.jobDescription := jobDescription;
      atsScore := None;
      analysis := None;
      iterationCount := 0;
      passed := false;
      finalDocxPath := None;
    }

    /** The fields no node writes: contact details, the frozen originals
        and the job description. */
    twostate predicate ContextUnchanged()
      reads this
    {
      && phone == old(phone) && fullName == old(fullName) && email == old(email)
      && linkedin == old(linkedin) && github == old(github)
      && originalEducation == old(originalEducation)
      && originalExperiencePositions == old(originalExperiencePositions)
      && jobDescription == old(jobDescription)
    }
  }
}
