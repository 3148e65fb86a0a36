/** The company's job editor: `load` checks the user, the company profile and, when
    editing, that the job is the company's own; `handleSave` builds the row payload and
    updates or inserts it. */
module CompanyJobsForm {
  import opened Optional
  import opened Records

  const LoginRoute: string := "/login"
  const CompanyProfileRoute: string := "/company-profile"
  const NoCompanyMessage: string := "You must have a company profile to post jobs."
  const NotOwnerMessage: string := "You can only edit your own jobs."
  const SaveFailedMessage: string := "Failed to save job."
  const SavedMessage: string := "Job saved successfully ✔"
  const University: string := "university"

  /** A value held in form state: `null`, text typed or picked in an input, or a
      number copied from a loaded row. */
  datatype Value = Null | Text(s: string) | Number(n: int)

  /** JavaScript truthiness of a held value. */
  predicate Truthy(v: Value) {
    match v
    case Null => false
    case Text(s) => s != ""
    case Number(n) => n != 0
  }

  /** `Number(v)`; `parse` stands for the conversion of text, see README. */
  function ToNumber(v: Value, parse: string -> int): int {
    match v
    case Null => 0
    case Text(s) => parse(s)
    case Number(n) => n
  }

  /** The form's fields. */
  datatype JobForm = JobForm(
    title: string,
    description: string,
    collarType: Option<string>,
    tradeId: Value,
    requiredExperienceYears: Value,
    requiredSkills: string,
    location: string,
    isRemote: bool,
    educationLevel: string,
    educationDegree: string,
    educationMajor: string)

  /** The fields before anything is loaded or typed. */
  const InitialForm: JobForm :=
    JobForm("", "", Some("blue"), Null, Text(""), "", "", false, "none", "", "")

  /** The columns `handleSave` writes (the `updated_at` clock value is left out). */
  datatype Payload = Payload(
    companyId: string,
    title: string,
    description: string,
    collarType: Option<string>,
    tradeId: Option<int>,
    requiredExperienceYears: Option<int>,
    requiredSkills: string,
    location: string,
    isRemote: bool,
    educationLevel: string,
    educationDegree: Option<string>,
    educationMajor: Option<string>)

  /** `v ? Number(v) : null`. */
  function NumberOrNull(v: Value, parse: string -> int): Option<int> {
    if Truthy(v) then Some(ToNumber(v, parse)) else None
  }

  /** `educationLevel === "university" ? v || null : null`. */
  function UniversityOnly(level: string, v: string): Option<string> {
    if level == University then EmptyToNull(v) else None
  }

  /** The `payload` object of `handleSave`. */
  function BuildPayload(companyId: string, f: JobForm, parse: string -> int): Payload {
    Payload(
      companyId, f.title, f.description, f.collarType,
      NumberOrNull(f.tradeId, parse), NumberOrNull(f.requiredExperienceYears, parse),
      f.requiredSkills, f.location, f.isRemote, f.educationLevel,
      UniversityOnly(f.educationLevel, f.educationDegree),
      UniversityOnly(f.educationLevel, f.educationMajor))
  }

  /** The setters that fill the form from a loaded job. */
  function Fill(job: Job): JobForm {
    JobForm(
      job.title, job.description, job.collarType,
      if job.tradeId.Some? then Number(job.tradeId.value) else Null,
      if job.requiredExperienceYears.Some? && job.requiredExperienceYears.value != 0
      then Number(job.requiredExperienceYears.value) else Text(""),
      OrEmpty(job.requiredSkills), OrEmpty(job.location),
      job.isRemote == Some(true),
      if job.educationLevel.Some? && job.educationLevel.value != "" then job.educationLevel.value else "none",
      OrEmpty(job.educationDegree), OrEmpty(job.educationMajor))
  }

  /** `update(payload)` on one row. */
  function Apply(job: Job, p: Payload): Job {
    job.(companyId := p.companyId, title := p.title, description := p.description,
         collarType := p.collarType, tradeId := p.tradeId,
         requiredExperienceYears := p.requiredExperienceYears,
         requiredSkills := Some(p.requiredSkills), location := Some(p.location),
         isRemote := Some(p.isRemote), educationLevel := Some(p.educationLevel),
         educationDegree := p.educationDegree, educationMajor := p.educationMajor)
  }

  /** `insert(payload)` as a row with the id the store assigns. */
  function RowOf(id: string, p: Payload): Job {
    Apply(Job(id, "", "", "", None, None, None, None, None, None, None, None, None), p)
  }

  // ----- the payload -----

  /** Degree and major are written only for a university requirement, and then "" is
      written as null. */
  lemma EducationOnlyForUniversity(companyId: string, f: JobForm, parse: string -> int)
    ensures var p := BuildPayload(companyId, f, parse);
      && (f.educationLevel != University ==> p.educationDegree == None && p.educationMajor == None)
      && (f.educationLevel == University ==>
            (p.educationDegree == None <==> f.educationDegree == "")
            && (p.educationMajor == None <==> f.educationMajor == "")
            && (p.educationDegree.Some? ==> p.educationDegree.value == f.educationDegree)
            && (p.educationMajor.Some? ==> p.educationMajor.value == f.educationMajor))
  {
  }

  /** The trade and the experience years are null exactly when the field is falsy. */
  lemma NumbersNullIffFalsy(companyId: string, f: JobForm, parse: string -> int)
    ensures var p := BuildPayload(companyId, f, parse);
      && (p.tradeId == None <==> !Truthy(f.tradeId))
      && (p.requiredExperienceYears == None <==> !Truthy(f.requiredExperienceYears))
      && (f.tradeId.Number? && f.tradeId.n != 0 ==> p.tradeId == Some(f.tradeId.n))
  {
  }

  /** Saving what was loaded and saving it again writes the same columns, as long as no
      number is 0 and the education level is not "". */
  lemma ReloadedPayloadIsStable(job: Job, companyId: string, f: JobForm, parse: string -> int)
    requires BuildPayload(companyId, f, parse).tradeId != Some(0)
    requires BuildPayload(companyId, f, parse).requiredExperienceYears != Some(0)
    requires f.educationLevel != ""
    ensures var p := BuildPayload(companyId, f, parse);
            BuildPayload(companyId, Fill(Apply(job, p)), parse) == p
  {
    var p := BuildPayload(companyId, f, parse);
    var g := Fill(Apply(job, p));
    assert EmptyToNull(OrEmpty(EmptyToNull(f.educationDegree))) == EmptyToNull(f.educationDegree);
    assert EmptyToNull(OrEmpty(EmptyToNull(f.educationMajor))) == EmptyToNull(f.educationMajor);
    assert g.educationDegree == OrEmpty(p.educationDegree);
  }

  /** Zero experience years do not survive a reload: the form shows "" and the next
      save writes null. */
  lemma ZeroYearsBecomeNull(job: Job, p: Payload, parse: string -> int)
    requires p.requiredExperienceYears == Some(0)
    ensures BuildPayload(p.companyId, Fill(Apply(job, p)), parse).requiredExperienceYears == None
  {
  }

  // ----- the table -----

  /** `update(payload).eq("id", jobId)` as written: it does not look at who owns the row. */
  function UpdateAsWritten(rows: map<string, Job>, jobId: string, p: Payload): map<string, Job> {
    if jobId in rows then rows[jobId := Apply(rows[jobId], p)] else rows
  }

  /** The update restricted to the company's own row, `.eq("company_id", companyId)`. */
  function UpdateOwn(rows: map<string, Job>, jobId: string, p: Payload): map<string, Job> {
    if jobId in rows && rows[jobId].companyId == p.companyId then rows[jobId := Apply(rows[jobId], p)]
    else rows
  }

  /** After the ownership error on load, saving as written rewrites the other company's
      job with the saver's payload and hands it to the saving company; every other row
      is left alone. */
  lemma ForeignJobTakenOver(rows: map<string, Job>, jobId: string, companyId: string, f: JobForm,
                            parse: string -> int)
    requires jobId in rows && rows[jobId].companyId != companyId
    ensures var after := UpdateAsWritten(rows, jobId, BuildPayload(companyId, f, parse));
            && after.Keys == rows.Keys
            && after[jobId] == Apply(rows[jobId], BuildPayload(companyId, f, parse))
            && after[jobId].companyId == companyId
            && (forall k :: k in rows && k != jobId ==> after[k] == rows[k])
  {
  }

  /** With the restriction, no other company's row changes, and the own row gets exactly
      the payload. */
  lemma UpdateOwnSparesOthers(rows: map<string, Job>, jobId: string, p: Payload)
    ensures UpdateOwn(rows, jobId, p).Keys == rows.Keys
    ensures forall k :: k in rows && rows[k].companyId != p.companyId ==> UpdateOwn(rows, jobId, p)[k] == rows[k]
    ensures forall k :: k in rows && k != jobId ==> UpdateOwn(rows, jobId, p)[k] == rows[k]
    ensures jobId in rows && rows[jobId].companyId == p.companyId ==>
              UpdateOwn(rows, jobId, p)[jobId] == Apply(rows[jobId], p)
  {
  }

  /** What the user, the company profile and the job lookup give `load`. */
  datatype Auth = AuthError(message: string) | NoUser | SignedIn(id: string)

  /** The store's answer to a write: the error's message may be empty. */
  datatype WriteResult = Written | Failed(message: string)

  /** The editor's state. `jobId` is the route parameter: present when editing. */
  class FormPage {
    const jobId: Option<string>
    var companyId: Option<string>
    var loading: bool
    var saving: bool
    var error: string
    var success: string
    var form: JobForm

    constructor (jobId: Option<string>)
      ensures this.jobId == jobId && companyId == None && loading && !saving
      ensures error == "" && success == "" && form == InitialForm
    {
      this.jobId := jobId;
      companyId := None;
      loading, saving := true, false;
      error, success := "", "";
      form := InitialForm;
    }

    /** `load`. `hasCompany` is whether the user has a `company_profiles` row (whose id is
        the user's); `lookupError` is the store's message when the job row is missing. */
    method Load(auth: Auth, hasCompany: bool, jobs: JobTable, lookupError: string) returns (nav: Option<string>)
      modifies this
      ensures saving == old(saving) && success == old(success)
      ensures auth.AuthError? ==>
                nav == None && error == auth.message && !loading && companyId == old(companyId) && form == old(form)
      ensures auth.NoUser? ==>
                nav == Some(LoginRoute) && loading && error == "" && companyId == old(companyId) && form == old(form)
      ensures auth.SignedIn? && !hasCompany ==>
                nav == None && error == NoCompanyMessage && !loading && companyId == old(companyId) && form == old(form)
      ensures auth.SignedIn? && hasCompany ==> nav == None && !loading && companyId == Some(auth.id)
      ensures auth.SignedIn? && hasCompany && jobId.None? ==> error == "" && form == old(form)
      ensures auth.SignedIn? && hasCompany && jobId.Some? && jobId.value !in jobs.rows ==>
                error == lookupError && form == old(form)
      ensures auth.SignedIn? && hasCompany && jobId.Some? && jobId.value in jobs.rows ==>
                var job := jobs.rows[jobId.value];
                if job.companyId != auth.id then error == NotOwnerMessage && form == old(form)
                else error == "" && form == Fill(job)
    {
      loading := true;
      error := "";
      nav := None;
      match auth {
        case AuthError(m) =>
          error := m;
          loading := false;
          return;
        case NoUser =>
          return Some(LoginRoute);
        case SignedIn(id) =>
          if !hasCompany {
            error := NoCompanyMessage;
            loading := false;
            return;
          }
          companyId := Some(id);
          if jobId.Some? {
            if jobId.value !in jobs.rows {
              error := lookupError;
            } else if jobs.rows[jobId.value].companyId != id {
              error := NotOwnerMessage;
            } else {
              form := Fill(jobs.rows[jobId.value]);
            }
          }
          loading := false;
      }
    }

    /** `handleSave`, as written: when editing, the row with the route's id is updated
        whoever owns it (see README, Findings). `result` is the store's answer, `newId`
        the id the store gives an inserted row, and `parse` stands for `Number` on text. */
    method HandleSave(jobs: JobTable, result: WriteResult, newId: string, parse: string -> int)
      returns (nav: Option<string>)
      requires jobId.None? ==> newId !in jobs.rows
      modifies this, jobs
      ensures companyId.None? ==> unchanged(this) && jobs.rows == old(jobs.rows) && nav == None
      ensures companyId.Some? ==> !saving
      ensures companyId.Some? && result.Failed? ==>
                jobs.rows == old(jobs.rows) && nav == None && success == ""
                && error == (if result.message != "" then result.message else SaveFailedMessage)
      ensures companyId.Some? && result.Written? ==>
                error == "" && success == SavedMessage && nav == Some(CompanyProfileRoute)
      ensures companyId.Some? && result.Written? && jobId.Some? ==>
                jobs.rows == UpdateAsWritten(old(jobs.rows), jobId.value, BuildPayload(companyId.value, form, parse))
      ensures companyId.Some? && result.Written? && jobId.Some? && jobId.value in old(jobs.rows) ==>
                jobs.rows[jobId.value].companyId == companyId.value
      ensures companyId.Some? && result.Written? && jobId.None? ==>
                jobs.rows == old(jobs.rows)[newId := RowOf(newId, BuildPayload(companyId.value, form, parse))]
      ensures form == old(form) && companyId == old(companyId) && loading == old(loading)
    {
      nav := None;
      if companyId.None? {
        return;
      }
      saving := true;
      error := "";
      success := "";
      var payload := BuildPayload(companyId.value, form, parse);
      if result.Failed? {
        error := if result.message != "" then result.message else SaveFailedMessage;
      } else {
        if jobId.Some? {
          jobs.rows := UpdateAsWritten(jobs.rows, jobId.value, payload);
        } else {
          jobs.rows := jobs.rows[newId := RowOf(newId, payload)];
        }
        success := SavedMessage;
        nav := Some(CompanyProfileRoute);
      }
      saving := false;
    }
  }
}
