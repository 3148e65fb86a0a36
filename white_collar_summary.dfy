/** pages/WhiteCollarSummary.jsx: the seeker's "find matching jobs" run and the
    duplicate-guarded apply. */
module WhiteCollarSummary {
  import opened Optional
  import opened Records
  import Seqs
  import Matching
  import opened AiMatching

  const AiFailedReason := "AI failed to evaluate this job."
  const LoadFailedMessage := "Failed to load jobs."
  const NoWhiteJobsMessage := "No white-collar jobs found."
  const NoStrongMatchesMessage := "No strong matches found (75%+)."
  const Threshold := 75.0

  /** `job.collar_type === "white"`. */
  predicate IsWhite(job: Job) {
    job.collarType == Some("white")
  }

  function WhiteJobs(jobs: seq<Job>): seq<Job> {
    Seqs.Filter(jobs, IsWhite)
  }

  /** One job's evaluation inside the loop. A thrown provider call scores 0 with its
      own reason, so the job blends to at most 30. */
  function Evaluate(profileSkills: Option<string>, job: Job, ai: Call<ScoreObject>): (m: MatchResult)
    ensures ai.Threw? ==> m.aiScore == 0.0 && m.reason == AiFailedReason && m.finalScore <= 30.0
  {
    var baseScore := Matching.MatchPercentage(Some(OrEmpty(profileSkills)), Some(OrEmpty(job.requiredSkills)));
    var aiScore := if ai.Returned? then ScoreOrZero(ai.value.score) else 0.0;
    var aiReason := if ai.Returned? then OrEmpty(ai.value.reason) else AiFailedReason;
    MatchResult(baseScore, aiScore, Blend(baseScore, aiScore), aiReason)
  }

  /** The loop scores a job exactly as getOrCreateMatch computes it, except for the
      reason given when the provider call threw. */
  lemma EvaluateAgreesWithGetOrCreate(profileSkills: Option<string>, job: Job, ai: Call<ScoreObject>)
    ensures var c := ComputeMatch(profileSkills, job.requiredSkills, ai);
      Evaluate(profileSkills, job, ai) == c.(reason := if ai.Threw? then AiFailedReason else c.reason)
  {
  }

  /** Each job's evaluation when the provider would answer `replyFor(job)`. */
  function Evaluator(profileSkills: Option<string>, hasKey: bool, replyFor: Job -> Reply<ScoreObject>): Job -> MatchResult {
    job => Evaluate(profileSkills, job, AiMatchJob(hasKey, replyFor(job)))
  }

  /** A pushed result: the job's id, title and company, its score and the reason. */
  datatype MatchEntry = MatchEntry(jobId: string, title: string, companyId: string, score: real, reason: string, job: Job)

  function EntryOf(job: Job, m: MatchResult): MatchEntry {
    MatchEntry(job.id, job.title, job.companyId, m.finalScore, m.reason, job)
  }

  /** The results of the loop over `jobs`, each job evaluated by `eval`. Each entry
      reaches the threshold and belongs to one of the jobs. */
  function StrongMatches(jobs: seq<Job>, eval: Job -> MatchResult): (r: seq<MatchEntry>)
    ensures |r| <= |jobs|
    ensures forall i :: 0 <= i < |r| ==> r[i].score >= Threshold && r[i].job in jobs
    decreases |jobs|
  {
    if jobs == [] then []
    else
      var job := jobs[|jobs| - 1];
      StrongMatches(jobs[..|jobs| - 1], eval)
        + (if eval(job).finalScore >= Threshold then [EntryOf(job, eval(job))] else [])
  }

  function QualifiesFn(eval: Job -> MatchResult): Job -> bool {
    job => eval(job).finalScore >= Threshold
  }

  function EntryFn(eval: Job -> MatchResult): Job -> MatchEntry {
    job => EntryOf(job, eval(job))
  }

  /** The results are exactly the entries of the qualifying jobs, in job-list order. */
  lemma {:induction false} StrongMatchesAreQualifyingJobs(jobs: seq<Job>, eval: Job -> MatchResult)
    ensures StrongMatches(jobs, eval) == Seqs.Map(Seqs.Filter(jobs, QualifiesFn(eval)), EntryFn(eval))
    decreases |jobs|
  {
    if jobs != [] {
      var init := jobs[..|jobs| - 1];
      var job := jobs[|jobs| - 1];
      StrongMatchesAreQualifyingJobs(init, eval);
      Seqs.MapAppend(Seqs.Filter(init, QualifiesFn(eval)), if QualifiesFn(eval)(job) then [job] else [], EntryFn(eval));
    }
  }

  /** Completeness: every qualifying job has its entry among the results. */
  lemma StrongMatchesComplete(jobs: seq<Job>, eval: Job -> MatchResult, i: int)
    requires 0 <= i < |jobs| && eval(jobs[i]).finalScore >= Threshold
    ensures EntryOf(jobs[i], eval(jobs[i])) in StrongMatches(jobs, eval)
  {
    StrongMatchesAreQualifyingJobs(jobs, eval);
    var kept := Seqs.Filter(jobs, QualifiesFn(eval));
    assert QualifiesFn(eval)(jobs[i]);
    Seqs.FilterMembers(jobs, QualifiesFn(eval));
    assert jobs[i] in kept;
    var k :| 0 <= k < |kept| && kept[k] == jobs[i];
    assert Seqs.Map(kept, EntryFn(eval))[k] == EntryFn(eval)(jobs[i]);
  }

  /** Order: the results for a concatenation are the results of the parts, in order. */
  lemma {:induction false} StrongMatchesAppend(a: seq<Job>, b: seq<Job>, eval: Job -> MatchResult)
    ensures StrongMatches(a + b, eval) == StrongMatches(a, eval) + StrongMatches(b, eval)
    decreases |b|
  {
    if b == [] {
      assert a + b == a;
    } else {
      var b' := b[..|b| - 1];
      assert (a + b)[..|a + b| - 1] == a + b';
      StrongMatchesAppend(a, b', eval);
    }
  }

  /** Without an API key every job blends to at most 30, so nothing qualifies. */
  lemma {:induction false} NoKeyNoMatches(jobs: seq<Job>, profileSkills: Option<string>, replyFor: Job -> Reply<ScoreObject>)
    ensures StrongMatches(jobs, Evaluator(profileSkills, false, replyFor)) == []
    decreases |jobs|
  {
    if jobs != [] {
      NoKeyNoMatches(jobs[..|jobs| - 1], profileSkills, replyFor);
    }
  }

  /** The worked example: tokens "python" and "sql" of a three-token job give a basic
      score of 200/3, and an AI score of 90 lifts it to 83, a strong match. */
  lemma WorkedExample()
    ensures Matching.Percentage(["python", "sql"], ["python", "sql", "excel"]) == 200.0 / 3.0
    ensures Blend(200.0 / 3.0, 90.0) == 83.0 >= Threshold
  {
    var setUser := Matching.ToSet(["python", "sql"]);
    assert "excel" !in setUser;
    assert Matching.Intersection(["python", "sql", "excel"], setUser) == ["python", "sql"] by {
      assert ["python", "sql", "excel"][..2] == ["python", "sql"];
      assert ["python", "sql"][..1] == ["python"];
      assert ["python"][..0] == [];
    }
  }

  /** One more job extends the results by that job's entry when it qualifies. */
  lemma StrongMatchesStep(jobs: seq<Job>, i: int, eval: Job -> MatchResult)
    requires 0 <= i < |jobs|
    ensures StrongMatches(jobs[..i + 1], eval)
         == StrongMatches(jobs[..i], eval)
            + (if eval(jobs[i]).finalScore >= Threshold then [EntryOf(jobs[i], eval(jobs[i]))] else [])
  {
    assert jobs[..i + 1][..i] == jobs[..i];
  }

  /** The body of the loop for one job: the basic score, then the provider call whose
      exception is caught, then the blend. */
  method ScoreJob(skills: Option<string>, job: Job, hasKey: bool, replyFor: Job -> Reply<ScoreObject>)
    returns (m: MatchResult)
    ensures m == Evaluator(skills, hasKey, replyFor)(job)
  {
    var baseScore := Matching.MatchPercentage(Some(OrEmpty(skills)), Some(OrEmpty(job.requiredSkills)));
    var aiScore := 0.0;
    var aiReason := "";
    var ai := AiMatchJob(hasKey, replyFor(job));
    if ai.Returned? {
      aiScore := ScoreOrZero(ai.value.score);
      aiReason := OrEmpty(ai.value.reason);
    } else {
      aiScore := 0.0;
      aiReason := AiFailedReason;
    }
    var finalScore := Blend(baseScore, aiScore);
    m := MatchResult(baseScore, aiScore, finalScore, aiReason);
  }

  /** The `for (const job of whiteJobs)` loop: each job is scored, a thrown provider
      call costs that job its AI score and the loop goes on, and jobs reaching the
      threshold are pushed in order. */
  method ScoreJobs(jobs: seq<Job>, skills: Option<string>, hasKey: bool, replyFor: Job -> Reply<ScoreObject>)
    returns (results: seq<MatchEntry>)
    ensures results == StrongMatches(jobs, Evaluator(skills, hasKey, replyFor))
  {
    results := [];
    for i := 0 to |jobs|
      invariant results == StrongMatches(jobs[..i], Evaluator(skills, hasKey, replyFor))
    {
      var job := jobs[i];
      var m := ScoreJob(skills, job, hasKey, replyFor);
      StrongMatchesStep(jobs, i, Evaluator(skills, hasKey, replyFor));
      if m.finalScore >= Threshold {
        results := results + [MatchEntry(job.id, job.title, job.companyId, m.finalScore, m.reason, job)];
      }
    }
    assert jobs[..|jobs|] == jobs;
  }

  /** A row of `applications`. */
  datatype Application = Application(jobId: string, userId: string)

  /** The `applications` table. */
  class Applications {
    var rows: seq<Application>

    constructor (initial: seq<Application>)
      ensures rows == initial
    {
      rows := initial;
    }

    function Count(a: Application): nat
      reads this
    {
      multiset(rows)[a]
    }
  }

  /** The outcome `handleApply` reports with an alert. */
  datatype ApplyNotice = AlreadyApplied | ApplyError(message: string) | Sent

  /** The page's state. */
  class SummaryPage {
    var profile: Option<Seeker>
    var loading: bool
    var matches: seq<MatchEntry>
    var matchError: string
    var checking: bool

    constructor ()
      ensures profile == None && loading && matches == [] && matchError == "" && !checking
    {
      profile := None;
      loading := true;
      matches := [];
      matchError := "";
      checking := false;
    }

    /** The page's load: no user goes to /login; a failed select leaves the page loading;
        otherwise the seeker row becomes the profile. */
    method Load(userId: Option<string>, row: Option<Seeker>) returns (toLogin: bool)
      modifies this
      ensures toLogin <==> userId.None?
      ensures if userId.Some? && row.Some? then profile == row && !loading
              else profile == old(profile) && loading == old(loading)
      ensures matches == old(matches) && matchError == old(matchError) && checking == old(checking)
    {
      if userId.None? {
        return true;
      }
      if row.None? {
        return false;
      }
      profile := row;
      loading := false;
      return false;
    }

    /** `checkMatchingJobs`. `jobsLoad` is the jobs select (None when it failed or
        returned no data) and `replyFor` what the provider answers for each job. */
    method CheckMatchingJobs(jobsLoad: Option<seq<Job>>, hasKey: bool, replyFor: Job -> Reply<ScoreObject>)
      modifies this
      ensures profile == old(profile) && loading == old(loading)
      ensures old(profile).None? ==>
                matches == old(matches) && matchError == old(matchError) && checking == old(checking)
      ensures old(profile).Some? ==> !checking
      ensures old(profile).Some? && jobsLoad.None? ==> matches == [] && matchError == LoadFailedMessage
      ensures old(profile).Some? && jobsLoad.Some? && WhiteJobs(jobsLoad.value) == [] ==>
                matches == [] && matchError == NoWhiteJobsMessage
      ensures old(profile).Some? && jobsLoad.Some? && WhiteJobs(jobsLoad.value) != [] ==>
                && matches == StrongMatches(WhiteJobs(jobsLoad.value), Evaluator(old(profile).value.skills, hasKey, replyFor))
                && (matches == [] <==> matchError == NoStrongMatchesMessage)
                && (matches != [] ==> matchError == "")
    {
      if profile.None? {
        return;
      }
      var skills := profile.value.skills;
      checking := true;
      matchError := "";
      matches := [];
      if jobsLoad.None? {
        matchError := LoadFailedMessage;
        checking := false;
        return;
      }
      var whiteJobs := Seqs.Filter(jobsLoad.value, IsWhite);
      if |whiteJobs| == 0 {
        matchError := NoWhiteJobsMessage;
        checking := false;
        return;
      }
      var results := ScoreJobs(whiteJobs, skills, hasKey, replyFor);
      if |results| == 0 {
        matchError := NoStrongMatchesMessage;
      }
      matches := results;
      checking := false;
    }

    /** `handleApply(jobId)`. The existence check is `maybeSingle`: it finds a row only
        when exactly one matches, and `checkFails` says whether the select itself failed
        (logged, then treated as no row). `insertError` is the insert's error message. */
    method HandleApply(store: Applications, jobId: string, checkFails: bool, insertError: Option<string>)
      returns (notice: Option<ApplyNotice>)
      modifies store
      ensures old(profile).None? ==> notice.None? && store.rows == old(store.rows)
      ensures old(profile).Some? ==>
        var a := Application(jobId, old(profile).value.id);
        if !checkFails && old(store.Count(a)) == 1 then
          notice == Some(AlreadyApplied) && store.rows == old(store.rows)
        else if insertError.Some? then
          notice == Some(ApplyError("Error applying: " + insertError.value)) && store.rows == old(store.rows)
        else
          notice == Some(Sent) && store.rows == old(store.rows) + [a]
      ensures old(profile).Some? ==>
        var a := Application(jobId, old(profile).value.id);
        && old(store.Count(a)) <= store.Count(a) <= old(store.Count(a)) + 1
        && (!checkFails && old(store.Count(a)) <= 1 ==> store.Count(a) <= 1)
        && (forall b :: b != a ==> store.Count(b) == old(store.Count(b)))
    {
      if profile.None? {
        return None;
      }
      var a := Application(jobId, profile.value.id);
      var existing := !checkFails && multiset(store.rows)[a] == 1;
      if existing {
        return Some(AlreadyApplied);
      }
      if insertError.Some? {
        return Some(ApplyError("Error applying: " + insertError.value));
      }
      store.rows := store.rows + [a];
      return Some(Sent);
    }
  }
}
