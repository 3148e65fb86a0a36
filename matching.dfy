/** The skill-overlap score of utils/matching.js: the percentage of the job's
    skill tokens (with repetition) that occur among the user's skill tokens. */
module Matching {
  import opened Optional
  import opened Seqs
  import opened Text

  /** One skill as it is compared: trimmed, then lower-cased. */
  function Normalize(piece: string): string {
    ToLower(Trim(piece))
  }

  predicate NonEmpty(t: string) {
    t != ""
  }

  /** The cleaned tokens of a comma-separated skills field; a null or empty field has none. */
  function Tokens(csv: Option<string>): (r: seq<string>)
    ensures forall i :: 0 <= i < |r| ==> r[i] != ""
  {
    if csv.None? || csv.value == "" then []
    else Filter(Map(Split(csv.value, ','), Normalize), NonEmpty)
  }

  /** `new Set(userSkills)`. */
  function ToSet(userSkills: seq<string>): set<string> {
    set t | t in userSkills
  }

  /** `skill => setUser.has(skill)`. */
  function InSet(setUser: set<string>): string -> bool {
    t => t in setUser
  }

  /** `jobSkills.filter(skill => setUser.has(skill))`. */
  function Intersection(jobSkills: seq<string>, setUser: set<string>): seq<string> {
    Filter(jobSkills, InSet(setUser))
  }

  /** The score on token lists: 0 without job tokens, otherwise 100 times the share of
      job tokens present in the user's token set. */
  function Percentage(userSkills: seq<string>, jobSkills: seq<string>): (r: real)
    ensures 0.0 <= r <= 100.0
    ensures jobSkills == [] ==> r == 0.0
  {
    if |jobSkills| == 0 then 0.0
    else
      var setUser := ToSet(userSkills);
      PercentBounds(|Intersection(jobSkills, setUser)|, |jobSkills|);
      (|Intersection(jobSkills, setUser)| as real) / (|jobSkills| as real) * 100.0
  }

  lemma PercentBounds(hits: nat, total: nat)
    requires 0 < total && hits <= total
    ensures 0.0 <= (hits as real) / (total as real) * 100.0 <= 100.0
  {
    assert (hits as real) / (total as real) <= 1.0;
  }

  lemma DivideMonotone(a: real, b: real, n: real)
    requires a <= b && 0.0 < n
    ensures a / n <= b / n
  {
    assert b / n - a / n == (b - a) / n;
  }

  /** `computeMatchPercentage(userSkillsCSV, jobSkillsCSV)`. */
  function MatchPercentage(userCsv: Option<string>, jobCsv: Option<string>): (r: real)
    ensures 0.0 <= r <= 100.0
    ensures Tokens(jobCsv) == [] ==> r == 0.0
  {
    Percentage(Tokens(userCsv), Tokens(jobCsv))
  }

  // ---------------------------------------------------------------------------
  // Properties of the score
  // ---------------------------------------------------------------------------

  /** A field holding only commas and white space has no tokens, so a job whose
      required skills are null, empty or blank scores 0. */
  lemma BlankJobScoresZero(userCsv: Option<string>, jobCsv: Option<string>)
    requires jobCsv.Some? ==> forall i :: 0 <= i < |jobCsv.value| ==> jobCsv.value[i] == ',' || IsSpace(jobCsv.value[i])
    ensures Tokens(jobCsv) == []
    ensures MatchPercentage(userCsv, jobCsv) == 0.0
  {
    if jobCsv.Some? && jobCsv.value != "" {
      var pieces := Split(jobCsv.value, ',');
      BlankPieces(jobCsv.value, ',');
      var normalized := Map(pieces, Normalize);
      forall i | 0 <= i < |normalized| ensures !NonEmpty(normalized[i]) {
        TrimBlank(pieces[i]);
      }
      FilterNone(normalized, NonEmpty);
    }
  }

  /** Every piece of a string made of separators and white space is blank. */
  lemma {:induction false} BlankPieces(s: string, sep: char)
    requires forall i :: 0 <= i < |s| ==> s[i] == sep || IsSpace(s[i])
    requires !IsSpace(sep)
    ensures forall k, i :: 0 <= k < |Split(s, sep)| && 0 <= i < |Split(s, sep)[k]| ==> IsSpace(Split(s, sep)[k][i])
    decreases |s|
  {
    if |s| > 0 {
      BlankPieces(s[1..], sep);
    }
  }

  /** If every job token is among the user's tokens, the score is exactly 100. */
  lemma FullOverlap(userSkills: seq<string>, jobSkills: seq<string>)
    requires jobSkills != []
    requires forall i :: 0 <= i < |jobSkills| ==> jobSkills[i] in userSkills
    ensures Percentage(userSkills, jobSkills) == 100.0
  {
    var setUser := ToSet(userSkills);
    var hits := |Intersection(jobSkills, setUser)|;
    assert hits == |jobSkills| by {
      forall i | 0 <= i < |jobSkills|
        ensures InSet(setUser)(jobSkills[i])
      {
      }
      FilterAllTrue(jobSkills, InSet(setUser));
    }
    assert (hits as real) / (|jobSkills| as real) == 1.0;
  }

  lemma FullOverlapScoresHundred(userCsv: Option<string>, jobCsv: Option<string>)
    requires Tokens(jobCsv) != []
    requires forall i :: 0 <= i < |Tokens(jobCsv)| ==> Tokens(jobCsv)[i] in Tokens(userCsv)
    ensures MatchPercentage(userCsv, jobCsv) == 100.0
  {
    FullOverlap(Tokens(userCsv), Tokens(jobCsv));
  }

  /** An empty user list scores 0 against any job list. */
  lemma NoUserSkills(jobSkills: seq<string>)
    ensures Percentage([], jobSkills) == 0.0
  {
    if jobSkills != [] {
      var empty: seq<string> := [];
      assert ToSet(empty) == {};
      FilterNone(jobSkills, InSet({}));
      assert |Intersection(jobSkills, ToSet(empty))| == 0;
      assert 0.0 / (|jobSkills| as real) == 0.0;
    }
  }

  lemma EmptyUserScoresZero(jobCsv: Option<string>)
    ensures MatchPercentage(None, jobCsv) == 0.0
    ensures MatchPercentage(Some(""), jobCsv) == 0.0
  {
    assert Tokens(None) == [] && Tokens(Some("")) == [];
    NoUserSkills(Tokens(jobCsv));
  }

  /** Only membership in the user's token set matters: reordering or repeating
      user tokens never changes the score. */
  lemma UserOrderAndRepetitionIrrelevant(user1: seq<string>, user2: seq<string>, jobSkills: seq<string>)
    requires forall t :: t in user1 <==> t in user2
    ensures Percentage(user1, jobSkills) == Percentage(user2, jobSkills)
  {
    assert ToSet(user1) == ToSet(user2);
  }

  /** Job tokens are not de-duplicated: every occurrence counts in both the numerator
      and the denominator, so the hits of two job lists add up. */
  lemma JobOccurrencesAdd(a: seq<string>, b: seq<string>, setUser: set<string>)
    ensures |Intersection(a + b, setUser)| == |Intersection(a, setUser)| + |Intersection(b, setUser)|
  {
    FilterAppend(a, b, InSet(setUser));
  }

  /** Repeating a matched job token raises the score: ["a"] against ["a", "b"] scores 50,
      against ["a", "a", "b"] it scores 200/3. */
  lemma RepeatedJobTokenCountsTwice()
    ensures Percentage(["a"], ["a", "b"]) == 50.0
    ensures Percentage(["a"], ["a", "a", "b"]) == 200.0 / 3.0
  {
    var setUser := ToSet(["a"]);
    assert "b" !in setUser;
    assert Intersection(["a", "b"], setUser) == ["a"] by {
      assert ["a", "b"][..1] == ["a"];
      assert [] + ["a"] == ["a"];
    }
    assert Intersection(["a", "a", "b"], setUser) == ["a", "a"] by {
      assert ["a", "a", "b"][..2] == ["a", "a"];
      assert ["a", "a"][..1] == ["a"];
    }
  }

  /** More user tokens never mean fewer hits. */
  lemma {:induction false} IntersectionMonotone(jobSkills: seq<string>, s1: set<string>, s2: set<string>)
    requires s1 <= s2
    ensures |Intersection(jobSkills, s1)| <= |Intersection(jobSkills, s2)|
    decreases |jobSkills|
  {
    if |jobSkills| > 0 {
      IntersectionMonotone(jobSkills[..|jobSkills| - 1], s1, s2);
    }
  }

  /** The tokens of "u,t" are the tokens of u followed by those of t. */
  lemma TokensAppend(u: string, t: string)
    requires u != ""
    ensures Tokens(Some(u + [','] + t)) == Tokens(Some(u)) + Filter(Map(Split(t, ','), Normalize), NonEmpty)
  {
    SplitAppend(u, t, ',');
    MapAppend(Split(u, ','), Split(t, ','), Normalize);
    FilterAppend(Map(Split(u, ','), Normalize), Map(Split(t, ','), Normalize), NonEmpty);
  }

  /** A user list whose tokens include another's scores at least as high. */
  lemma PercentageMonotone(user1: seq<string>, user2: seq<string>, jobSkills: seq<string>)
    requires forall i :: 0 <= i < |user1| ==> user1[i] in user2
    ensures Percentage(user1, jobSkills) <= Percentage(user2, jobSkills)
  {
    var s1 := ToSet(user1);
    var s2 := ToSet(user2);
    assert s1 <= s2;
    if jobSkills != [] {
      IntersectionMonotone(jobSkills, s1, s2);
      DivideMonotone(|Intersection(jobSkills, s1)| as real, |Intersection(jobSkills, s2)| as real, |jobSkills| as real);
    }
  }

  /** Adding a skill to the user's list never lowers the score. */
  lemma AddingUserSkillNeverLowers(u: string, t: string, jobCsv: Option<string>)
    ensures MatchPercentage(Some(u), jobCsv) <= MatchPercentage(Some(u + [','] + t), jobCsv)
  {
    var before := Tokens(Some(u));
    var after := Tokens(Some(u + [','] + t));
    if u != "" {
      TokensAppend(u, t);
      assert forall i :: 0 <= i < |before| ==> before[i] == after[i];
    }
    PercentageMonotone(before, after, Tokens(jobCsv));
  }

  /** A skill compared once more is unchanged: normalizing is idempotent. */
  lemma NormalizeIdempotent(piece: string)
    ensures Normalize(Normalize(piece)) == Normalize(piece)
  {
    var t := Trim(piece);
    var l := ToLower(t);
    TrimIsTrimmed(piece);
    if l != [] {
      assert l[0] == LowerChar(t[0]);
      assert l[|l| - 1] == LowerChar(t[|t| - 1]);
    }
    assert Trimmed(l);
    TrimTrimmed(l);
    assert ToLower(l) == l;
  }

  /** Case and surrounding white space do not matter: two fields whose pieces agree
      after trimming and lower-casing have the same tokens, hence the same scores. */
  lemma CaseAndSpaceInsensitive(a: string, b: string)
    requires a != "" && b != ""
    requires |Split(a, ',')| == |Split(b, ',')|
    requires forall i :: 0 <= i < |Split(a, ',')| ==> Normalize(Split(a, ',')[i]) == Normalize(Split(b, ',')[i])
    ensures Tokens(Some(a)) == Tokens(Some(b))
    ensures forall other :: MatchPercentage(Some(a), other) == MatchPercentage(Some(b), other)
    ensures forall other :: MatchPercentage(other, Some(a)) == MatchPercentage(other, Some(b))
  {
    assert Map(Split(a, ','), Normalize) == Map(Split(b, ','), Normalize);
  }
}
