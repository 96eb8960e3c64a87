/** The records the pipeline passes around: a raw job posting row, the tech
    profile derived from it, and a twin found for a profile. */
module Profiles {

  datatype Option<T> = None | Some(value: T)

  /** One step of a career path: a role held for `duration` years. */
  datatype CareerStep = CareerStep(role: string, duration: int)

  /** The keys a salary dictionary may hold: 'min', 'max' and 'median'. */
  datatype SalaryKey = Min | Max | Median

  /** A job posting row. Every column is present; `None` is a missing (NaN)
      cell. */
  datatype JobRow = JobRow(
    title: Option<string>,
    companyName: Option<string>,
    description: Option<string>,
    skillsDesc: Option<string>,
    location: Option<string>,
    formattedExperienceLevel: Option<string>,
    formattedWorkType: Option<string>,
    remoteAllowed: Option<real>,
    minSalary: Option<real>,
    maxSalary: Option<real>,
    medSalary: Option<real>,
    payPeriod: Option<string>)

  /** A tech profile. `None` stands for a value that is missing (NaN) or,
      for the salary, for a posting without any salary figure. */
  datatype Profile = Profile(
    profileId: string,
    currentRole: string,
    currentCompany: Option<string>,
    location: Option<string>,
    skills: seq<string>,
    experienceLevel: int,
    careerPath: seq<CareerStep>,
    salaryInfo: Option<map<SalaryKey, real>>,
    workType: Option<string>,
    remoteAllowed: Option<real>,
    industry: string,
    specialization: string,
    companyType: string)

  /** A profile found similar to a query profile, its similarity to the
      query and its index in the corpus. */
  datatype Twin = Twin(profile: Profile, similarity: real, index: nat)

  /** Python's str() of a cell that may be NaN. */
  function PyStr(s: Option<string>): (r: string)
    ensures s.Some? ==> r == s.value
    ensures s.None? ==> r == "nan"
  {
    match s
    case None => "nan"
    case Some(v) => v
  }

  /** Years spent along a career path: the sum of the step durations. */
  function TotalYears(path: seq<CareerStep>): int {
    if path == [] then 0 else path[0].duration + TotalYears(path[1..])
  }
}
