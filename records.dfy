/** Rows of the hosted data store that several pages read, the tables as maps
    keyed by id, and a file bucket. Only the columns the modelled code
    looks at are kept. */
module Records {
  import opened Optional

  /** A row of `jobs`. */
  datatype Job = Job(
    id: string,
    companyId: string,
    title: string,
    description: string,
    collarType: Option<string>,
    tradeId: Option<int>,
    requiredExperienceYears: Option<int>,
    requiredSkills: Option<string>,
    location: Option<string>,
    isRemote: Option<bool>,
    educationLevel: Option<string>,
    educationDegree: Option<string>,
    educationMajor: Option<string>)

  /** A row of `job_seekers`. */
  datatype Seeker = Seeker(
    id: string,
    fullName: string,
    phone: string,
    collar: Option<string>,
    experience: Option<string>,
    education: Option<string>,
    skills: Option<string>,
    profileImage: Option<string>,
    cvUrl: Option<string>)

  /** The `job_seekers` table: at most one row per id, so `maybeSingle` on the id
      finds the row or nothing. */
  class SeekerTable {
    var rows: map<string, Seeker>

    constructor (initial: map<string, Seeker>)
      ensures rows == initial
    {
      rows := initial;
    }
  }

  /** The `jobs` table, keyed by id. */
  class JobTable {
    var rows: map<string, Job>

    constructor (initial: map<string, Job>)
      ensures rows == initial
    {
      rows := initial;
    }
  }

  /** A row of `company_profiles`; its id is the owning user's id. */
  datatype CompanyProfile = CompanyProfile(
    id: string,
    companyName: Option<string>,
    location: Option<string>,
    description: Option<string>,
    profileImage: Option<string>)

  /** The `company_profiles` table, keyed by id. */
  class CompanyTable {
    var rows: map<string, CompanyProfile>

    constructor (initial: map<string, CompanyProfile>)
      ensures rows == initial
    {
      rows := initial;
    }
  }

  /** A storage bucket, as the set of object paths it holds. */
  class Bucket {
    var objects: set<string>

    constructor (initial: set<string>)
      ensures objects == initial
    {
      objects := initial;
    }
  }
}
