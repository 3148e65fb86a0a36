/** The applicants page of one job: only the job's company may see it; the job's
    applications are joined with the seekers' profiles. */
module JobApplicants {
  import opened Optional
  import opened Seqs
  import opened Records

  const LoginRoute: string := "/login"
  const NotFoundMessage: string := "Job not found"
  const NotOwnerMessage: string := "You cannot view applicants for a job you don't own."

  /** The selected columns of an `applications` row. */
  datatype AppRow = AppRow(id: string, userId: string, createdAt: string)

  /** An application with the seeker found for it, if any. */
  datatype Applicant = Applicant(app: AppRow, seeker: Option<Seeker>)

  /** `apps.map(a => a.user_id)`. */
  function SeekerIds(apps: seq<AppRow>): (ids: seq<string>)
    ensures |ids| == |apps|
    ensures forall i :: 0 <= i < |apps| ==> ids[i] == apps[i].userId
  {
    Map(apps, (a: AppRow) => a.userId)
  }

  /** The index `find` stops at: the first seeker with the id, or `|seekers|`. */
  function FirstIndex(seekers: seq<Seeker>, id: string): (i: nat)
    ensures i <= |seekers|
    ensures i < |seekers| ==> seekers[i].id == id
    ensures forall j :: 0 <= j < i ==> seekers[j].id != id
  {
    if |seekers| == 0 then 0
    else if seekers[0].id == id then 0
    else 1 + FirstIndex(seekers[1..], id)
  }

  /** `seekers.find(s => s.id === id)`. */
  function Find(seekers: seq<Seeker>, id: string): (r: Option<Seeker>)
    ensures r.Some? ==> r.value in seekers && r.value.id == id
    ensures r.Some? ==> FirstIndex(seekers, id) < |seekers| && r.value == seekers[FirstIndex(seekers, id)]
    ensures r.None? <==> forall s :: s in seekers ==> s.id != id
  {
    var i := FirstIndex(seekers, id);
    if i < |seekers| then Some(seekers[i]) else None
  }

  /** `apps.map(app => ({...app, seeker: seekers.find(...)}))`. */
  function Merge(apps: seq<AppRow>, seekers: seq<Seeker>): seq<Applicant> {
    Map(apps, (a: AppRow) => Applicant(a, Find(seekers, a.userId)))
  }

  /** One entry per application, in application order, each with the first seeker of
      the application's user when there is one. */
  lemma MergeFacts(apps: seq<AppRow>, seekers: seq<Seeker>)
    ensures |Merge(apps, seekers)| == |apps|
    ensures forall i :: 0 <= i < |apps| ==> Merge(apps, seekers)[i].app == apps[i]
    ensures forall i :: 0 <= i < |apps| && Merge(apps, seekers)[i].seeker.Some? ==>
              Merge(apps, seekers)[i].seeker.value.id == apps[i].userId
              && Merge(apps, seekers)[i].seeker.value in seekers
    ensures forall i :: 0 <= i < |apps| && Merge(apps, seekers)[i].seeker.Some? ==>
              FirstIndex(seekers, apps[i].userId) < |seekers|
              && Merge(apps, seekers)[i].seeker.value == seekers[FirstIndex(seekers, apps[i].userId)]
    ensures forall i :: 0 <= i < |apps| ==>
              (Merge(apps, seekers)[i].seeker.None? <==> forall s :: s in seekers ==> s.id != apps[i].userId)
  {
  }

  /** When the seekers returned are the table's rows whose id is in `SeekerIds(apps)`
      (the `.in("id", seekerIds)` query), each entry carries the table's row for its
      user, or none when the user has no profile. */
  lemma MergeAgreesWithTable(apps: seq<AppRow>, seekers: seq<Seeker>, table: map<string, Seeker>)
    requires forall k :: k in table ==> table[k].id == k
    requires forall s :: s in seekers ==> s.id in table && table[s.id] == s
    requires forall id :: id in SeekerIds(apps) && id in table ==> table[id] in seekers
    ensures forall i :: 0 <= i < |apps| ==>
              Merge(apps, seekers)[i].seeker == (if apps[i].userId in table then Some(table[apps[i].userId]) else None)
  {
    forall i | 0 <= i < |apps|
      ensures Merge(apps, seekers)[i].seeker == (if apps[i].userId in table then Some(table[apps[i].userId]) else None)
    {
      var id := apps[i].userId;
      var r := Find(seekers, id);
      assert Merge(apps, seekers)[i].seeker == r;
      if id in table {
        assert id == SeekerIds(apps)[i];
        assert table[id] in seekers && table[id].id == id;
      }
    }
  }

  /** The page's state. `jobId` is the route parameter. */
  class ApplicantsPage {
    const jobId: string
    var job: Option<Job>
    var applicants: seq<Applicant>
    var loading: bool
    var error: string

    constructor (jobId: string)
      ensures this.jobId == jobId && job == None && applicants == [] && loading && error == ""
    {
      this.jobId := jobId;
      job := None;
      applicants := [];
      loading := true;
      error := "";
    }

    /** `loadData`. `apps` is what the applications query returns (None for null) and
        `seekers` what the profiles query returns (None for null, on which `find`
        throws and the page stays loading). `queried` says whether the applications
        were asked for. */
    method LoadData(user: Option<string>, jobs: JobTable, apps: Option<seq<AppRow>>, seekers: Option<seq<Seeker>>)
      returns (nav: Option<string>, queried: bool)
      modifies this
      ensures user.None? ==>
                nav == Some(LoginRoute) && !queried && loading
                && job == old(job) && applicants == old(applicants) && error == old(error)
      ensures user.Some? ==> nav == None
      ensures user.Some? && jobId !in jobs.rows ==>
                !queried && error == NotFoundMessage && !loading && job == old(job) && applicants == old(applicants)
      ensures user.Some? && jobId in jobs.rows && jobs.rows[jobId].companyId != user.value ==>
                !queried && error == NotOwnerMessage && !loading && job == old(job) && applicants == old(applicants)
      ensures user.Some? && jobId in jobs.rows && jobs.rows[jobId].companyId == user.value ==>
                queried && job == Some(jobs.rows[jobId]) && error == old(error)
      ensures queried && (apps.None? || apps.value == []) ==> applicants == [] && !loading
      ensures queried && apps.Some? && apps.value != [] && seekers.None? ==>
                applicants == old(applicants) && loading
      ensures queried && apps.Some? && apps.value != [] && seekers.Some? ==>
                applicants == Merge(apps.value, seekers.value) && !loading
    {
      loading := true;
      queried := false;
      nav := None;
      if user.None? {
        return Some(LoginRoute), false;
      }
      if jobId !in jobs.rows {
        error := NotFoundMessage;
        loading := false;
        return;
      }
      var jobData := jobs.rows[jobId];
      if jobData.companyId != user.value {
        error := NotOwnerMessage;
        loading := false;
        return;
      }
      job := Some(jobData);
      queried := true;
      if apps.None? || |apps.value| == 0 {
        applicants := [];
        loading := false;
        return;
      }
      if seekers.None? {
        return;
      }
      applicants := Merge(apps.value, seekers.value);
      loading := false;
    }
  }
}
