/** utils/aiMatching.js: the provider-backed score and gap analysis, both failing
    soft, and the two caches in front of them: the `job_matches` table keyed by
    (user_id, job_id) and the browser's local storage. */
module AiMatching {
  import opened Optional
  import opened Records
  import Matching

  // ---------------------------------------------------------------------------
  // The provider call
  // ---------------------------------------------------------------------------

  /** How one chat-completion request ended, as far as the code can tell. */
  datatype Reply<T> =
    | NetworkFailure          // `fetch` or reading the body threw; for the score request
                              // also content that parses to JSON `null`, whose `.score`
                              // throws inside the callers' own catch
    | HttpFailure             // the response was not ok
    | Unparsable              // the reply content was missing or not JSON
    | Parsed(content: T)      // the reply content parsed to this object

  /** The object the scoring prompt asks for; either field may be absent. */
  datatype ScoreObject = ScoreObject(score: Option<real>, reason: Option<string>)

  /** The gap analysis the advice prompt asks for. */
  datatype GapAnalysis = GapAnalysis(
    missingSkills: seq<string>,
    missingExperience: string,
    missingEducation: string,
    suggestedCourses: seq<string>)

  const EmptyGap := GapAnalysis([], "", "", [])

  /** An awaited call: the value it resolved to, or an exception its caller sees. */
  datatype Call<T> = Returned(value: T) | Threw

  const MissingKeyReason := "Missing API key"
  const RequestFailedReason := "AI request failed"
  const InvalidResponseReason := "Invalid AI response"

  /** `aiMatchJob`, with the provider's reply as a parameter. */
  function AiMatchJob(hasKey: bool, reply: Reply<ScoreObject>): Call<ScoreObject> {
    if !hasKey then Returned(ScoreObject(Some(0.0), Some(MissingKeyReason)))
    else match reply
      case NetworkFailure => Threw
      case HttpFailure => Returned(ScoreObject(Some(0.0), Some(RequestFailedReason)))
      case Unparsable => Returned(ScoreObject(Some(0.0), Some(InvalidResponseReason)))
      case Parsed(obj) => Returned(obj)
  }

  /** aiMatchJob fails soft: only a network exception escapes; without a key, on an
      HTTP error or on an unparsable reply it resolves to score 0 with a non-empty
      reason, and a parsed reply is returned as it is. */
  lemma AiMatchJobFailsSoft(hasKey: bool, reply: Reply<ScoreObject>)
    ensures var r := AiMatchJob(hasKey, reply);
      && (r.Threw? <==> hasKey && reply.NetworkFailure?)
      && (hasKey && reply.Parsed? ==> r == Returned(reply.content))
      && (r.Returned? && !(hasKey && reply.Parsed?) ==>
            r.value.score == Some(0.0) && r.value.reason.Some? && r.value.reason.value != "")
      && (!hasKey ==> r.Returned? && r.value.reason == Some(MissingKeyReason))
      && (hasKey && reply.HttpFailure? ==> r.Returned? && r.value.reason == Some(RequestFailedReason))
      && (hasKey && reply.Unparsable? ==> r.Returned? && r.value.reason == Some(InvalidResponseReason))
  {
  }

  /** `aiSuggestImprovements`: only a network exception escapes; every other failure
      resolves to the empty gap analysis, and a parsed reply is returned as it is. */
  function AiSuggestImprovements(hasKey: bool, reply: Reply<GapAnalysis>): (r: Call<GapAnalysis>)
    ensures r.Threw? <==> hasKey && reply.NetworkFailure?
    ensures hasKey && reply.Parsed? ==> r == Returned(reply.content)
    ensures r.Returned? && !(hasKey && reply.Parsed?) ==> r.value == EmptyGap
  {
    if !hasKey then Returned(EmptyGap)
    else match reply
      case NetworkFailure => Threw
      case HttpFailure => Returned(EmptyGap)
      case Unparsable => Returned(EmptyGap)
      case Parsed(gap) => Returned(gap)
  }

  // ---------------------------------------------------------------------------
  // Blending
  // ---------------------------------------------------------------------------

  /** `basicScore * 0.3 + aiScore * 0.7`. */
  function Blend(basic: real, ai: real): real {
    basic * 0.3 + ai * 0.7
  }

  /** The blend is a weighted mean: it lies between the two scores, so two scores in
      [0, 100] blend to a score in [0, 100], and the AI score carries more weight. */
  lemma BlendBetween(basic: real, ai: real)
    ensures basic <= ai ==> basic <= Blend(basic, ai) <= ai
    ensures ai <= basic ==> ai <= Blend(basic, ai) <= basic
    ensures 0.0 <= basic <= 100.0 && 0.0 <= ai <= 100.0 ==> 0.0 <= Blend(basic, ai) <= 100.0
    ensures basic < ai ==> Blend(basic, ai) - basic > ai - Blend(basic, ai)
  {
  }

  /** `ai.score || 0` (a NaN score is not modelled). */
  function ScoreOrZero(score: Option<real>): real {
    score.GetOr(0.0)
  }

  /** What getOrCreateMatch returns. */
  datatype MatchResult = MatchResult(basicScore: real, aiScore: real, finalScore: real, reason: string)

  /** The freshly computed result of getOrCreateMatch: the overlap score of the two
      skill fields, the provider's score (0 and reason "" when the call threw), and
      their blend. */
  function ComputeMatch(profileSkills: Option<string>, jobSkills: Option<string>, ai: Call<ScoreObject>): (m: MatchResult)
    ensures 0.0 <= m.basicScore <= 100.0
    ensures m.basicScore == Matching.MatchPercentage(profileSkills, jobSkills)
    ensures ai.Threw? ==> m.aiScore == 0.0 && m.reason == ""
    ensures ai.Returned? ==> m.aiScore == ScoreOrZero(ai.value.score) && m.reason == OrEmpty(ai.value.reason)
    ensures m.finalScore == Blend(m.basicScore, m.aiScore)
    ensures 0.0 <= m.aiScore <= 100.0 ==> 0.0 <= m.finalScore <= 100.0
  {
    var basicScore := Matching.MatchPercentage(Some(OrEmpty(profileSkills)), Some(OrEmpty(jobSkills)));
    var aiScore := if ai.Threw? then 0.0 else ScoreOrZero(ai.value.score);
    var reason := if ai.Threw? then "" else OrEmpty(ai.value.reason);
    BlendBetween(basicScore, aiScore);
    MatchResult(basicScore, aiScore, Blend(basicScore, aiScore), reason)
  }

  // ---------------------------------------------------------------------------
  // The job_matches table
  // ---------------------------------------------------------------------------

  /** A `job_matches` row; a column never written is null. */
  datatype MatchRow = MatchRow(
    basicScore: Option<real>,
    aiScore: Option<real>,
    finalScore: Option<real>,
    aiReason: Option<string>,
    improvement: Option<GapAnalysis>)

  const EmptyRow := MatchRow(None, None, None, None, None)

  /** The table's unique key: (user_id, job_id). */
  type MatchKey = (string, string)

  /** The row an upsert for `key` starts from. */
  function RowAt(rows: map<MatchKey, MatchRow>, key: MatchKey): MatchRow {
    if key in rows then rows[key] else EmptyRow
  }

  /** A row counts as a cached score when it exists and its final score is not null. */
  predicate HasScore(rows: map<MatchKey, MatchRow>, key: MatchKey) {
    key in rows && rows[key].finalScore.Some?
  }

  /** The result served from a stored row: null numbers read as 0, a null reason as "". */
  function Served(row: MatchRow): MatchResult {
    MatchResult(row.basicScore.GetOr(0.0), row.aiScore.GetOr(0.0), row.finalScore.GetOr(0.0), OrEmpty(row.aiReason))
  }

  /** The upsert of getOrCreateMatch writes the four score columns and keeps the rest. */
  function WithMatch(row: MatchRow, m: MatchResult): MatchRow {
    row.(basicScore := Some(m.basicScore), aiScore := Some(m.aiScore),
         finalScore := Some(m.finalScore), aiReason := Some(m.reason))
  }

  /** A score that getOrCreateMatch stored is served back unchanged on the next read,
      and the row's improvement column survives the upsert. */
  lemma StoredMatchServedBack(rows: map<MatchKey, MatchRow>, key: MatchKey, m: MatchResult)
    ensures HasScore(rows[key := WithMatch(RowAt(rows, key), m)], key)
    ensures Served(WithMatch(RowAt(rows, key), m)) == m
    ensures WithMatch(RowAt(rows, key), m).improvement == RowAt(rows, key).improvement
  {
  }

  /** The store of `job_matches` rows: at most one row per (user_id, job_id). */
  class JobMatches {
    var rows: map<MatchKey, MatchRow>

    constructor (initial: map<MatchKey, MatchRow>)
      ensures rows == initial
    {
      rows := initial;
    }

    /** `getOrCreateMatch(userId, profile, job)`. `readOk` says whether the select
        succeeded (a failed select reads as no row), `reply` is what the provider would
        answer, and `writeOk` whether the upsert succeeded (its error is ignored).
        `calledAi` reports whether the provider was consulted. */
    method GetOrCreateMatch(userId: string, profileSkills: Option<string>, job: Job,
                            hasKey: bool, reply: Reply<ScoreObject>, readOk: bool, writeOk: bool)
      returns (m: MatchResult, calledAi: bool)
      modifies this
      ensures var key := (userId, job.id);
        if readOk && HasScore(old(rows), key) then
          m == Served(old(rows)[key]) && !calledAi && rows == old(rows)
        else
          && calledAi
          && m == ComputeMatch(profileSkills, job.requiredSkills, AiMatchJob(hasKey, reply))
          && rows == if writeOk then old(rows)[key := WithMatch(RowAt(old(rows), key), m)] else old(rows)
    {
      var key := (userId, job.id);
      var existing: Option<MatchRow> := if readOk && key in rows then Some(rows[key]) else None;
      if existing.Some? && existing.value.finalScore.Some? {
        return Served(existing.value), false;
      }
      var basicScore := Matching.MatchPercentage(Some(OrEmpty(profileSkills)), Some(OrEmpty(job.requiredSkills)));
      var aiScore := 0.0;
      var reason := "";
      var ai := AiMatchJob(hasKey, reply);
      calledAi := true;
      if ai.Returned? {
        aiScore := ScoreOrZero(ai.value.score);
        reason := OrEmpty(ai.value.reason);
      }
      var finalScore := Blend(basicScore, aiScore);
      m := MatchResult(basicScore, aiScore, finalScore, reason);
      if writeOk {
        rows := rows[key := WithMatch(RowAt(rows, key), m)];
      }
    }

    /** `getOrCreateImprovements(userId, profile, job)`: a stored improvement is returned
        without asking the provider; otherwise the provider's answer is upserted into the
        improvement column alone and returned. A network exception propagates and
        writes nothing. */
    method GetOrCreateImprovements(userId: string, job: Job, hasKey: bool, reply: Reply<GapAnalysis>,
                                   readOk: bool, writeOk: bool)
      returns (r: Call<GapAnalysis>, calledAi: bool)
      modifies this
      ensures var key := (userId, job.id);
        if readOk && key in old(rows) && old(rows)[key].improvement.Some? then
          r == Returned(old(rows)[key].improvement.value) && !calledAi && rows == old(rows)
        else
          && calledAi
          && r == AiSuggestImprovements(hasKey, reply)
          && rows == if writeOk && r.Returned? then old(rows)[key := RowAt(old(rows), key).(improvement := Some(r.value))]
                     else old(rows)
    {
      var key := (userId, job.id);
      if readOk && key in rows && rows[key].improvement.Some? {
        return Returned(rows[key].improvement.value), false;
      }
      r := AiSuggestImprovements(hasKey, reply);
      calledAi := true;
      if r.Threw? {
        return;
      }
      if writeOk {
        rows := rows[key := RowAt(rows, key).(improvement := Some(r.value))];
      }
    }
  }

  /** Two successive getOrCreateMatch calls for the same pair, with a working store:
      the second is served from the table, returns exactly the first result and does
      not ask the provider. */
  method MatchIsStable(store: JobMatches, userId: string, profileSkills: Option<string>, job: Job,
                       hasKey: bool, reply1: Reply<ScoreObject>, reply2: Reply<ScoreObject>)
    returns (first: MatchResult, second: MatchResult, askedAgain: bool)
    modifies store
    ensures second == first && !askedAgain
  {
    var asked;
    first, asked := store.GetOrCreateMatch(userId, profileSkills, job, hasKey, reply1, true, true);
    second, askedAgain := store.GetOrCreateMatch(userId, profileSkills, job, hasKey, reply2, true, true);
  }

  /** Likewise for getOrCreateImprovements: once an answer is stored, the next call
      returns it without asking the provider. */
  method ImprovementsAreStable(store: JobMatches, userId: string, job: Job, hasKey: bool,
                               reply1: Reply<GapAnalysis>, reply2: Reply<GapAnalysis>)
    returns (first: Call<GapAnalysis>, second: Call<GapAnalysis>, askedAgain: bool)
    modifies store
    ensures first.Returned? ==> second == first && !askedAgain
  {
    var asked;
    first, asked := store.GetOrCreateImprovements(userId, job, hasKey, reply1, true, true);
    second, askedAgain := store.GetOrCreateImprovements(userId, job, hasKey, reply2, true, true);
  }

  // ---------------------------------------------------------------------------
  // The local-storage suggestions cache
  // ---------------------------------------------------------------------------

  /** The text stored under a key: a serialized value, or text that does not parse. */
  datatype Stored<T> = Serialized(value: T) | Corrupt

  /** `suggestions_${userId}_${jobId}`. */
  function CacheKey(userId: string, jobId: string): string {
    "suggestions_" + userId + "_" + jobId
  }

  /** Where a '_'-free first part is shorter than another, the two joined strings
      differ at the position of its separator. */
  lemma SeparatorPositionDiffers(a: string, b: string, c: string, d: string)
    requires '_' !in c && |a| < |c|
    ensures (a + "_" + b)[|a|] != (c + "_" + d)[|a|]
  {
    assert (c + "_" + d)[|a|] == c[|a|];
  }

  /** Keys of distinct pairs are distinct as long as user ids hold no '_' (as UUIDs do). */
  lemma CacheKeyInjective(u1: string, j1: string, u2: string, j2: string)
    requires '_' !in u1 && '_' !in u2
    requires CacheKey(u1, j1) == CacheKey(u2, j2)
    ensures u1 == u2 && j1 == j2
  {
    var n := |"suggestions_"|;
    var t := CacheKey(u1, j1)[n..];
    assert t == u1 + "_" + j1;
    assert t == u2 + "_" + j2;
    if |u1| < |u2| {
      SeparatorPositionDiffers(u1, j1, u2, j2);
    } else if |u2| < |u1| {
      SeparatorPositionDiffers(u2, j2, u1, j1);
    } else {
      assert u1 == t[..|u1|] == u2;
      assert j1 == t[|u1| + 1..] == j2;
    }
  }

  /** Without that restriction two pairs can share a key. */
  lemma CacheKeysCanCollide()
    ensures CacheKey("a_b", "c") == CacheKey("a", "b_c")
  {
  }

  /** The browser's local storage, as far as the suggestions cache uses it. */
  class SuggestionCache<T> {
    var items: map<string, Stored<T>>

    constructor (initial: map<string, Stored<T>>)
      ensures items == initial
    {
      items := initial;
    }

    /** `loadSuggestionsFromCache`: null for a missing key or text that does not parse. */
    function Load(userId: string, jobId: string): (r: Option<T>)
      reads this
      ensures r.Some? <==> CacheKey(userId, jobId) in items && items[CacheKey(userId, jobId)].Serialized?
      ensures r.Some? ==> items[CacheKey(userId, jobId)] == Serialized(r.value)
    {
      var key := CacheKey(userId, jobId);
      if key in items && items[key].Serialized? then Some(items[key].value) else None
    }

    /** `saveSuggestionsToCache`: `writeOk` is false when setItem throws, which is swallowed.
        A successful save is read back by the next load of the same pair, and loads of
        other pairs are unaffected. */
    method Save(userId: string, jobId: string, suggestions: T, writeOk: bool)
      modifies this
      ensures items == if writeOk then old(items)[CacheKey(userId, jobId) := Serialized(suggestions)] else old(items)
      ensures writeOk ==> Load(userId, jobId) == Some(suggestions)
      ensures forall u, j :: '_' !in u && '_' !in userId && (u, j) != (userId, jobId) ==>
                Load(u, j) == old(Load(u, j))
    {
      if writeOk {
        items := items[CacheKey(userId, jobId) := Serialized(suggestions)];
      }
      forall u, j | '_' !in u && '_' !in userId && (u, j) != (userId, jobId)
        ensures CacheKey(u, j) != CacheKey(userId, jobId)
      {
        if CacheKey(u, j) == CacheKey(userId, jobId) {
          CacheKeyInjective(u, j, userId, jobId);
        }
      }
    }
  }
}
