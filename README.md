# yala-hire: a verified model of the matching, profile and routing logic

yala-hire is a React front-end for a job board with two kinds of users: job seekers
(blue-collar or white-collar) and companies. It keeps its data in a hosted store with
these parts:

- the tables `jobs`, `job_seekers`, `company_profiles`, `applications` and `job_matches`;
- a file bucket.

It asks a chat-completion provider for a compatibility score and for a gap analysis.

This project models the logic that the pages and the two utility modules run between
those calls:

- **Skill-overlap score** (`Matching`): `computeMatchPercentage` tokenises two
  comma-separated skill lists. It returns 100 × (job tokens found among the user's
  tokens) / (job tokens), and 0 for a job without tokens.
- **Provider calls, blend and caches** (`AiMatching`):
  - `aiMatchJob` and `aiSuggestImprovements` fall back to fixed results.
  - The blend is `0.3·basic + 0.7·ai`.
  - `getOrCreateMatch` and `getOrCreateImprovements` read, then upsert, the
    `job_matches` table. It is a class over a map keyed by (user id, job id).
  - The local-storage suggestions cache is a class over a string map.
- **"Find matching jobs"** (`WhiteCollarSummary`): the loop over white-collar jobs keeps
  those whose blend reaches 75, in job-list order. Apply is a duplicate-guarded insert.
- **Skill-list codec** (`SkillLists`, `BlueCollarProfile`, `WhiteCollarProfile`):
  - load splits the stored `skills` column into ticked checkboxes and an "Other" text
    field;
  - the checkboxes toggle;
  - save joins the selection back.

  The two pages differ on a literal "Other" and on blank pieces. The blue page also
  derives the storage paths of the photo and the CV.
- **Company job editor** (`CompanyJobsForm`): the checks in `load`, the form-to-payload
  mapping, and the choice between update and insert in `handleSave`.
- **Company profile editor** (`EditCompanyProfile`): logo path derivation, the payload
  with its empty-to-null defaults, and the loop that deletes undefined keys.
- **Applicants page** (`JobApplicants`): the ownership gate, then the join of
  applications to seeker profiles.
- **Routing** (`Routing`):
  - the profile page's dispatch on (type, collar);
  - the route table of `App.js` with its guards and `*` fallback;
  - the navigation bar's links.

Every call to the store, to storage or to the provider becomes a parameter of the
modelled operation: the row that a select returns, whether a write succeeded, and the
reply the provider gives. The tables and the bucket are classes whose methods change a
`map` or `set` field.

`Optional`, `Seqs`, `Text` and `Records` hold shared pieces:

- an `Option` type and the `||` defaults;
- `filter` and `map`;
- `split`, `trim`, `toLowerCase`, `join` and "text after the last separator";
- the table rows.

Routes are modelled as lists of path segments: "/" is `[]`, and
"/jobs/:jobId/applicants" is `[Lit("jobs"), Param("jobId"), Lit("applicants")]`.

## Notes on the code

A few behaviours of the code are easy to misread:

- Repeated job tokens are not collapsed. `setJob` is built but never used, so each
  occurrence counts in both the numerator and the denominator
  (`Matching.RepeatedJobTokenCountsTwice`).
- The "find matching jobs" loop keeps the qualifying jobs in job-list order. It does not
  sort them by score.
- The loop keeps one list only: a job whose blend is below 75 is dropped, with no second,
  lower threshold.
- The loop calls `aiMatchJob` directly, not through the `job_matches` cache. It differs
  from `getOrCreateMatch` only in the reason it gives when the call throws
  (`WhiteCollarSummary.EvaluateAgreesWithGetOrCreate`).

## Model

| member | source | states |
|---|---|---|
| Matching.Tokens | yala-hire-app/src/utils/matching.js:3-9 | every token of a parsed list is non-empty: blank pieces are dropped |
| Matching.Percentage | yala-hire-app/src/utils/matching.js:12-20 | the score of two token lists lies in [0,100] and is 0 when the job has no tokens |
| Matching.MatchPercentage | yala-hire-app/src/utils/matching.js:1-22 | the score of two CSV strings lies in [0,100] and is 0 when the job list has no tokens |
| Matching.BlankJobScoresZero | yala-hire-app/src/utils/matching.js:7-12 | a null job list, or one of only commas and white space, has no tokens and scores 0 |
| Matching.FullOverlap | yala-hire-app/src/utils/matching.js:18-20 | when every job token is among the user's tokens, the score is exactly 100 |
| Matching.FullOverlapScoresHundred | yala-hire-app/src/utils/matching.js:1-22 | the same for the CSV strings: every job token present gives exactly 100 |
| Matching.NoUserSkills | yala-hire-app/src/utils/matching.js:14-20 | an empty user token list scores 0 |
| Matching.EmptyUserScoresZero | yala-hire-app/src/utils/matching.js:3-5 | a null or empty user list scores 0 against any job list |
| Matching.UserOrderAndRepetitionIrrelevant | yala-hire-app/src/utils/matching.js:14-18 | two user lists with the same members give the same score, whatever their order and repetition |
| Matching.JobOccurrencesAdd | yala-hire-app/src/utils/matching.js:18 | the number of job tokens found in the user set is additive over concatenation of job lists |
| Matching.RepeatedJobTokenCountsTwice | yala-hire-app/src/utils/matching.js:15-20 | a repeated job token counts twice: user "a" against "a,b" gives 50, against "a,a,b" gives 200/3 |
| Matching.IntersectionMonotone | yala-hire-app/src/utils/matching.js:18 | a larger user set finds at least as many job tokens |
| Matching.TokensAppend | yala-hire-app/src/utils/matching.js:3-5 | appending ",t" to a user list adds the tokens of t after the existing ones |
| Matching.PercentageMonotone | yala-hire-app/src/utils/matching.js:14-20 | a user list whose tokens all occur in another scores no more than that other |
| Matching.AddingUserSkillNeverLowers | yala-hire-app/src/utils/matching.js:3-18 | appending a skill to the user's CSV never lowers the score |
| Matching.NormalizeIdempotent | yala-hire-app/src/utils/matching.js:4-8 | trimming and lower-casing a trimmed lower-case token changes nothing |
| Matching.CaseAndSpaceInsensitive | yala-hire-app/src/utils/matching.js:3-9 | two CSV strings whose pieces agree up to case and surrounding space have the same tokens and give the same score on either side |
| AiMatching.AiMatchJobFailsSoft | yala-hire-app/src/utils/aiMatching.js:9-60 | only a network exception (or score content that parses to JSON `null`) escapes; no key gives score 0 with "Missing API key", a non-ok reply "AI request failed", unparsable content "Invalid AI response"; a parsed reply is returned as is |
| AiMatching.AiSuggestImprovements | yala-hire-app/src/utils/aiMatching.js:65-135 | throws iff a key is present and the network fails; a parsed reply is returned; every other case returns the all-empty gap analysis |
| AiMatching.BlendBetween | yala-hire-app/src/utils/aiMatching.js:170 | the blend lies between the two scores, in [0,100] when both are, and nearer the AI score |
| AiMatching.ComputeMatch | yala-hire-app/src/utils/aiMatching.js:157-170 | the basic score is the overlap score of the two skill lists; a thrown call gives AI score 0 and reason ""; otherwise the score or 0 and the reason or ""; the final score is the blend and lies in [0,100] when the AI score does |
| AiMatching.StoredMatchServedBack | yala-hire-app/src/utils/aiMatching.js:148-184 | after the upsert the pair has a final score, the row serves back exactly the computed result, and the improvement column is kept |
| AiMatching.JobMatches.GetOrCreateMatch | yala-hire-app/src/utils/aiMatching.js:140-185 | a readable row with a final score is served without calling `aiMatchJob` and nothing is written; otherwise `aiMatchJob` is called, the computed match is returned, and it is upserted under (user id, job id) when the write succeeds |
| AiMatching.JobMatches.GetOrCreateImprovements | yala-hire-app/src/utils/aiMatching.js:190-214 | a stored improvement is returned without asking the provider; otherwise the provider's answer is returned and upserted into the improvement column alone, and a thrown call writes nothing |
| AiMatching.MatchIsStable | yala-hire-app/src/utils/aiMatching.js:140-185 | with a working store, a second call for the same pair returns the first result without asking the provider |
| AiMatching.ImprovementsAreStable | yala-hire-app/src/utils/aiMatching.js:190-214 | once an improvement is stored, the next call returns it without asking the provider |
| AiMatching.SeparatorPositionDiffers | yala-hire-app/src/utils/aiMatching.js:222 | two keys whose '_'-free user parts differ in length differ at the shorter part's separator |
| AiMatching.CacheKeyInjective | yala-hire-app/src/utils/aiMatching.js:222-230 | two pairs with the same cache key are the same pair when user ids hold no '_' |
| AiMatching.CacheKeysCanCollide | yala-hire-app/src/utils/aiMatching.js:222-230 | without that condition ("a_b","c") and ("a","b_c") share a key |
| AiMatching.SuggestionCache.Load | yala-hire-app/src/utils/aiMatching.js:228-235 | a value comes back iff its key holds parsable text, and it is that text's value; a missing key or unparsable text gives null |
| AiMatching.SuggestionCache.Save | yala-hire-app/src/utils/aiMatching.js:219-226 | a successful write stores the value under its key, so a load then returns it, and leaves the loads of other pairs alone when user ids hold no '_'; a failed write changes nothing |
| WhiteCollarSummary.Evaluate | yala-hire-app/src/pages/WhiteCollarSummary.jsx:122-144 | a thrown provider call gives AI score 0, reason "AI failed to evaluate this job." and a final score of at most 30 |
| WhiteCollarSummary.EvaluateAgreesWithGetOrCreate | yala-hire-app/src/pages/WhiteCollarSummary.jsx:122-144 | the loop's evaluation equals getOrCreateMatch's computation except for the reason after a thrown call |
| WhiteCollarSummary.StrongMatches | yala-hire-app/src/pages/WhiteCollarSummary.jsx:120-157 | every result reaches 75 and belongs to one of the jobs, and there are at most as many results as jobs |
| WhiteCollarSummary.StrongMatchesAreQualifyingJobs | yala-hire-app/src/pages/WhiteCollarSummary.jsx:120-157 | the results are exactly the entries of the jobs whose blend reaches 75, in job-list order |
| WhiteCollarSummary.StrongMatchesComplete | yala-hire-app/src/pages/WhiteCollarSummary.jsx:147-156 | every job reaching 75 has its entry among the results |
| WhiteCollarSummary.StrongMatchesAppend | yala-hire-app/src/pages/WhiteCollarSummary.jsx:120-157 | the results for a concatenation of job lists are the results of the parts, in order |
| WhiteCollarSummary.NoKeyNoMatches | yala-hire-app/src/pages/WhiteCollarSummary.jsx:133-147 | without an API key no job reaches 75 |
| WhiteCollarSummary.WorkedExample | yala-hire-app/src/pages/WhiteCollarSummary.jsx:127-147 | "python, sql" against "python, sql, excel" scores 200/3 and an AI score of 90 blends to 83, a strong match |
| WhiteCollarSummary.StrongMatchesStep | yala-hire-app/src/pages/WhiteCollarSummary.jsx:122-157 | one more job extends the results by that job's entry exactly when it reaches 75 |
| WhiteCollarSummary.ScoreJob | yala-hire-app/src/pages/WhiteCollarSummary.jsx:123-144 | the loop body computes the job's evaluation, catching the provider's exception |
| WhiteCollarSummary.ScoreJobs | yala-hire-app/src/pages/WhiteCollarSummary.jsx:120-157 | the loop returns exactly the strong matches of the jobs, in order |
| WhiteCollarSummary.SummaryPage.constructor | yala-hire-app/src/pages/WhiteCollarSummary.jsx:12-18 | no profile, loading, no matches, no error, not checking |
| WhiteCollarSummary.SummaryPage.Load | yala-hire-app/src/pages/WhiteCollarSummary.jsx:25-51 | no user goes to /login; a failed select leaves the page loading; otherwise the row becomes the profile |
| WhiteCollarSummary.SummaryPage.CheckMatchingJobs | yala-hire-app/src/pages/WhiteCollarSummary.jsx:93-165 | nothing happens without a profile; a failed jobs select gives "Failed to load jobs." and no matches; no white jobs gives "No white-collar jobs found."; otherwise the matches are the strong matches of the white jobs, empty iff the error is "No strong matches found (75%+)."; checking is false on every exit |
| WhiteCollarSummary.SummaryPage.HandleApply | yala-hire-app/src/pages/WhiteCollarSummary.jsx:56-88 | nothing without a profile; an existing application is reported and nothing is inserted; an insert error is reported with its message; otherwise exactly one application is appended; no other pair's count changes, and when the check works a pair applied at most once stays so |
| SkillLists.Partition | yala-hire-app/src/pages/BlueCollarProfile.js:117-124 | the `forEach` produces the known tokens and the extras, each in stored order |
| SkillLists.LoadSkills | yala-hire-app/src/pages/BlueCollarProfile.js:112-131 | the skill part of load yields the known tokens, then "Other" and the joined extras when there are any |
| SkillLists.ParsedAreTokens | yala-hire-app/src/pages/BlueCollarProfile.js:112-115 | every parsed token is non-empty, comma-free and trimmed |
| SkillLists.NothingStoredNothingLoaded | yala-hire-app/src/pages/BlueCollarProfile.js:112-115 | a null, empty or "," column loads no token |
| SkillLists.PartitionIsExact | yala-hire-app/src/pages/BlueCollarProfile.js:119-124 | each token lands in exactly one of the two lists, known iff the page counts it as an option |
| SkillLists.LiteralOtherDiffers | yala-hire-app/src/pages/WhiteCollarProfile.js:103-106 | a stored "Other" is an extra on the blue page and a ticked box on the white page |
| SkillLists.OtherTickedAfterLoad | yala-hire-app/src/pages/BlueCollarProfile.js:126-131 | after load "Other" is selected iff there are extras (blue) or iff there are extras or a stored "Other" (white), and the text field is the extras joined with ", " |
| SkillLists.ToggleFlipsMembership | yala-hire-app/src/pages/WhiteCollarProfile.js:121-127 | toggling flips the toggled skill's membership and no other |
| SkillLists.ToggleRemovesAll | yala-hire-app/src/pages/WhiteCollarProfile.js:124 | unticking removes every copy of the skill |
| SkillLists.ToggleKeepsOrder | yala-hire-app/src/pages/WhiteCollarProfile.js:123-125 | the other entries keep their order |
| SkillLists.ToggleTwiceRestores | yala-hire-app/src/pages/WhiteCollarProfile.js:124-125 | ticking an unticked skill and unticking it restores the selection |
| SkillLists.ToggleTwiceReorders | yala-hire-app/src/pages/WhiteCollarProfile.js:124-125 | unticking and re-ticking moves the skill to the end |
| SkillLists.SaveWithoutOther | yala-hire-app/src/pages/WhiteCollarProfile.js:137-143 | without "Other" ticked, the text field is ignored and the selection is saved as it is |
| SkillLists.TrailingCommaPieces | yala-hire-app/src/pages/BlueCollarProfile.js:242-243 | "Welding," is non-blank and splits into "Welding" and a blank piece |
| SkillLists.BlueKeepsBlankPiece | yala-hire-app/src/pages/BlueCollarProfile.js:240-244 | the blue page saves that blank piece as an empty token |
| SkillLists.WhiteDropsBlankPiece | yala-hire-app/src/pages/WhiteCollarProfile.js:137-143 | the white page drops it |
| SkillLists.WhitePiecesAreNotBlank | yala-hire-app/src/pages/WhiteCollarProfile.js:141 | every piece the white page appends is non-empty |
| SkillLists.KeptAfterLoad | yala-hire-app/src/pages/BlueCollarProfile.js:240 | the ticked part of a loaded form saves back as its known tokens without "Other" |
| SkillLists.PiecesAfterLoad | yala-hire-app/src/pages/BlueCollarProfile.js:128-243 | the text field of a loaded form with extras is non-blank and saves back as exactly those extras |
| SkillLists.LoadSaveRoundTrip | yala-hire-app/src/pages/BlueCollarProfile.js:112-253 | a load then a save with no edits stores the known tokens without "Other", then the extras |
| SkillLists.BlueRoundTrip | yala-hire-app/src/pages/BlueCollarProfile.js:112-253 | on the blue page that is the known tokens then the extras, each group in stored order |
| SkillLists.BlueRoundTripKeepsTokens | yala-hire-app/src/pages/BlueCollarProfile.js:112-253 | the blue round trip keeps every stored token as often as it is stored, no more and no fewer |
| SkillLists.WhiteRoundTripDropsOther | yala-hire-app/src/pages/WhiteCollarProfile.js:95-152 | the white round trip keeps every stored token except a literal "Other" |
| BlueCollarProfile.DefaultRowLoadsEmpty | yala-hire-app/src/pages/BlueCollarProfile.js:87-103 | the row inserted for a new user loads with no skill ticked |
| BlueCollarProfile.SameStem | yala-hire-app/src/pages/BlueCollarProfile.js:146-177 | two paths with the same stem are equal iff their extensions are |
| BlueCollarProfile.DeleteCoversUpload | yala-hire-app/src/pages/BlueCollarProfile.js:145-226 | delete reaches the uploaded file iff its extension is one of png, jpg, jpeg (photo) or pdf, doc, docx (CV) |
| BlueCollarProfile.UploadKeepsExtension | yala-hire-app/src/pages/BlueCollarProfile.js:145-194 | the stored path keeps the text after the file name's last '.' |
| BlueCollarProfile.UpperCaseExtensionNotDeleted | yala-hire-app/src/pages/BlueCollarProfile.js:145-178 | a photo chosen as "me.PNG" is out of reach of delete |
| BlueCollarProfile.Page.constructor | yala-hire-app/src/pages/BlueCollarProfile.js:49-68 | the initial state of the editor |
| BlueCollarProfile.Page.Show | yala-hire-app/src/pages/BlueCollarProfile.js:105-132 | the form shows the row, with empty text and null defaults for missing columns, and loading ends |
| BlueCollarProfile.Page.Load | yala-hire-app/src/pages/BlueCollarProfile.js:74-133 | no user goes to /login; a missing row is inserted with collar "blue" and empty fields; the page then shows the row with its skills partitioned; a failed select of an existing row, or a failed insert, leaves the table and the page's skills unchanged and the page loading |
| BlueCollarProfile.Page.ToggleSkill | yala-hire-app/src/pages/BlueCollarProfile.js:375-380 | the checkbox toggles one skill in the selection and changes nothing else |
| BlueCollarProfile.Page.Save | yala-hire-app/src/pages/BlueCollarProfile.js:237-262 | the row gets the form's fields and the joined skills; the success message and the redirect follow whether or not the update succeeded |
| BlueCollarProfile.Page.Upload | yala-hire-app/src/pages/BlueCollarProfile.js:141-214 | nothing without a file or a user; a failed upload alerts and changes nothing; otherwise the file is stored under its path and its public URL is shown; the row gets the URL when the ignored update succeeds and is unchanged when it fails |
| BlueCollarProfile.Page.Delete | yala-hire-app/src/pages/BlueCollarProfile.js:171-232 | the page's URL is cleared whatever happens; the three candidate paths are removed when the ignored removal succeeds and the row's column is cleared when the ignored update succeeds; a failed write leaves its store unchanged |
| BlueCollarProfile.LoadThenSave | yala-hire-app/src/pages/BlueCollarProfile.js:74-262 | an unedited load and save writes back the known tokens then the extras, joined with ", " |
| WhiteCollarProfile.DefaultRowLoadsEmpty | yala-hire-app/src/pages/WhiteCollarProfile.js:70-88 | the row inserted for a new user loads with no skill ticked |
| WhiteCollarProfile.Page.constructor | yala-hire-app/src/pages/WhiteCollarProfile.js:37-49 | the initial state of the editor |
| WhiteCollarProfile.Page.Show | yala-hire-app/src/pages/WhiteCollarProfile.js:90-114 | the form shows the row and loading ends |
| WhiteCollarProfile.Page.Load | yala-hire-app/src/pages/WhiteCollarProfile.js:53-115 | no user goes to /login; a missing row is inserted with collar "white" and the sign-up name and phone or ""; the page then shows the row with its skills partitioned; a failed select of an existing row, or a failed insert, leaves the table and the skills unchanged and the page loading |
| WhiteCollarProfile.Page.ToggleSkill | yala-hire-app/src/pages/WhiteCollarProfile.js:121-127 | toggles one skill in the selection and changes nothing else |
| WhiteCollarProfile.Page.Save | yala-hire-app/src/pages/WhiteCollarProfile.js:132-167 | an update error sets "Failed to save." and does not redirect; success sets "Profile updated ✔" and redirects; saving ends either way |
| WhiteCollarProfile.LoadThenSave | yala-hire-app/src/pages/WhiteCollarProfile.js:53-167 | an unedited load and save writes back the ticked tokens without "Other", then the extras |
| CompanyJobsForm.EducationOnlyForUniversity | yala-hire-app/src/pages/CompanyJobsForm.jsx:147-151 | degree and major are null unless the level is "university", and then "" is null and anything else is kept |
| CompanyJobsForm.NumbersNullIffFalsy | yala-hire-app/src/pages/CompanyJobsForm.jsx:140-143 | trade and experience years are null exactly when the field is falsy; a non-zero number is stored as is |
| CompanyJobsForm.ReloadedPayloadIsStable | yala-hire-app/src/pages/CompanyJobsForm.jsx:105-153 | saving, reloading the saved job into the form and saving again writes the same columns, unless a number was 0 or the level was "" |
| CompanyJobsForm.ZeroYearsBecomeNull | yala-hire-app/src/pages/CompanyJobsForm.jsx:110-143 | zero experience years come back as "" and are saved as null |
| CompanyJobsForm.ForeignJobTakenOver | yala-hire-app/src/pages/CompanyJobsForm.jsx:155-160 | the update as written rewrites another company's job with the saver's payload, gives it to the saving company and leaves every other row alone |
| CompanyJobsForm.UpdateOwnSparesOthers | yala-hire-app/src/pages/CompanyJobsForm.jsx:155-160 | the ownership-restricted update keeps every key, changes no other company's job and no other id, and applies the payload to an own job |
| CompanyJobsForm.FormPage.constructor | yala-hire-app/src/pages/CompanyJobsForm.jsx:22-42 | the initial state, with collar "blue" and education level "none" |
| CompanyJobsForm.FormPage.Load | yala-hire-app/src/pages/CompanyJobsForm.jsx:48-121 | an auth error is shown; no user goes to /login; no company profile gives "You must have a company profile to post jobs." and no company id; otherwise the company id is set, and when editing, a missing job shows the lookup error, another company's job "You can only edit your own jobs." with the form untouched, and an own job fills the form |
| CompanyJobsForm.FormPage.HandleSave | yala-hire-app/src/pages/CompanyJobsForm.jsx:127-178 | nothing without a company id; an error shows its message or "Failed to save job." and writes nothing; success updates the row with the route's id whoever owns it (so a foreign job passes to the saving company) or inserts one new row under the store's fresh id, shows "Job saved successfully ✔" and goes to /company-profile; saving ends on every path |
| EditCompanyProfile.ImagePathParts | yala-hire-app/src/pages/EditCompanyProfile.jsx:64-66 | the upload path lies in "company_images/" and keeps the text after the file name's last '.' |
| EditCompanyProfile.DeleteFindsUpload | yala-hire-app/src/pages/EditCompanyProfile.jsx:64-92 | a logo whose public URL ends in its upload path is found again by delete, when neither the id nor the file name holds '/' |
| EditCompanyProfile.EmptyTextBecomesNull | yala-hire-app/src/pages/EditCompanyProfile.jsx:117-123 | the payload has the four columns, each null exactly when empty or null, non-empty text kept, and nothing undefined |
| EditCompanyProfile.RemoveUndefined | yala-hire-app/src/pages/EditCompanyProfile.jsx:126-128 | the loop leaves exactly the keys whose value is defined, with their values |
| EditCompanyProfile.CleanupKeepsDefined | yala-hire-app/src/pages/EditCompanyProfile.jsx:126-128 | a payload with no undefined value comes out of the loop unchanged |
| EditCompanyProfile.CleanPayload | yala-hire-app/src/pages/EditCompanyProfile.jsx:117-128 | the payload sent is the one built, the cleanup removing nothing |
| EditCompanyProfile.SavedImageCases | yala-hire-app/src/pages/EditCompanyProfile.jsx:111-115 | without a chosen file the preview is kept; a failed upload writes null; the logo is set iff the preview is kept and non-null or the upload succeeds |
| EditCompanyProfile.NormalisedColumns | yala-hire-app/src/pages/EditCompanyProfile.jsx:47-121 | the normalised row keeps every non-empty column, nulls exactly the empty ones, and normalising twice changes nothing more |
| EditCompanyProfile.UneditedSaveNormalises | yala-hire-app/src/pages/EditCompanyProfile.jsx:46-133 | saving a loaded row without edits writes its normalised form |
| EditCompanyProfile.EditPage.constructor | yala-hire-app/src/pages/EditCompanyProfile.jsx:9-20 | the initial state of the editor |
| EditCompanyProfile.EditPage.Load | yala-hire-app/src/pages/EditCompanyProfile.jsx:25-56 | no user goes to /login; a missing row leaves the page loading; otherwise the page shows the row |
| EditCompanyProfile.EditPage.ChooseFile | yala-hire-app/src/pages/EditCompanyProfile.jsx:217-223 | the chosen file is kept and, when there is one, becomes the preview |
| EditCompanyProfile.EditPage.UploadImage | yala-hire-app/src/pages/EditCompanyProfile.jsx:61-83 | no file gives null; a failed upload gives null and "❌ Failed to upload image."; otherwise the file is stored under its path and its URL returned |
| EditCompanyProfile.EditPage.DeleteImage | yala-hire-app/src/pages/EditCompanyProfile.jsx:88-101 | nothing without a preview; otherwise the object named by the preview's last '/' segment is removed, file and preview are cleared and "✔ Image removed. Save to confirm." shown |
| EditCompanyProfile.EditPage.HandleSave | yala-hire-app/src/pages/EditCompanyProfile.jsx:106-145 | the company's row gets the cleaned payload with the saved logo; an error shows "❌ Failed to save." and ends saving; success shows "✔ Profile updated!", keeps saving true and goes to the summary |
| EditCompanyProfile.LoadThenSave | yala-hire-app/src/pages/EditCompanyProfile.jsx:25-145 | opening the editor and saving without edits replaces the row by its normalised form and leaves the bucket alone |
| JobApplicants.SeekerIds | yala-hire-app/src/pages/JobApplicants.jsx:61 | one id per application, each the application's user id, in order |
| JobApplicants.FirstIndex | yala-hire-app/src/pages/JobApplicants.jsx:71 | the index `find` stops at: the first seeker with the id, or past the end when there is none |
| JobApplicants.Find | yala-hire-app/src/pages/JobApplicants.jsx:71 | a found seeker is the first seeker with the id; none is found iff no seeker has it |
| JobApplicants.MergeFacts | yala-hire-app/src/pages/JobApplicants.jsx:69-72 | one entry per application in the same order, each with the first seeker of its user iff there is one |
| JobApplicants.MergeAgreesWithTable | yala-hire-app/src/pages/JobApplicants.jsx:61-72 | when the seekers are the profile rows of the applicants, each entry carries its user's profile row, or none |
| JobApplicants.ApplicantsPage.constructor | yala-hire-app/src/pages/JobApplicants.jsx:8-14 | the initial state of the page |
| JobApplicants.ApplicantsPage.LoadData | yala-hire-app/src/pages/JobApplicants.jsx:17-76 | no user goes to /login; a missing job gives "Job not found"; another company's job gives the ownership error and applications are never queried; no applications gives an empty list; otherwise the list is the merge |
| Routing.ProfileDestinationCases | yala-hire-app/src/pages/ProfilePage.js:15-50 | no user goes to /login, a company to its summary whatever the collar, blue and white seekers to their summaries, a seeker without collar to /choose-seeker-type, and everyone else to "/", each iff its condition holds |
| Routing.FirstRowsApart | yala-hire-app/src/App.js:107-216 | "/" and "/choose-seeker-type" share no path with any route declared after them |
| Routing.SecondRowsApart | yala-hire-app/src/App.js:109-216 | "/register" and "/login" share no path with any later route |
| Routing.MiddleRowsApart | yala-hire-app/src/App.js:113-216 | "/profile", both blue pages and "/edit-white-profile" share no path with any later route |
| Routing.LastRowsApart | yala-hire-app/src/App.js:157-216 | each of the remaining routes shares no path with any later route |
| Routing.TableApart | yala-hire-app/src/App.js:107-216 | every pair of routes in the table is apart |
| Routing.ApartFromAt | yala-hire-app/src/App.js:107-216 | a route apart from all routes after an index is apart from each one |
| Routing.AllApartFromAt | yala-hire-app/src/App.js:107-216 | from pairwise disjointness of the suffix, any two rows in it are apart |
| Routing.ClashExcludes | yala-hire-app/src/App.js:107-216 | two patterns that differ in a literal never match the same path |
| Routing.AtMostOneRoute | yala-hire-app/src/App.js:107-219 | no path matches two routes, so first-match resolution picks the only matching route |
| Routing.ResolveFromAt | yala-hire-app/src/App.js:107-219 | a path matching route k resolves to route k's guarded element from any earlier start |
| Routing.ResolveAt | yala-hire-app/src/App.js:107-219 | a path matching route k gets route k's guarded element |
| Routing.NoRouteFrom | yala-hire-app/src/App.js:219 | a path no later route matches falls to the `*` route |
| Routing.UnregisteredFallsBack | yala-hire-app/src/App.js:219 | any path no route matches is sent to "/" whoever asks |
| Routing.ProfileGuard | yala-hire-app/src/App.js:113-118 | /profile renders for any session and sends no session to /login |
| Routing.BlueGuards | yala-hire-app/src/App.js:121-142 | the blue pages render iff the user is a blue-collar seeker, otherwise redirect to /profile |
| Routing.WhiteGuards | yala-hire-app/src/App.js:145-166 | the white pages render iff the user is a white-collar seeker, otherwise redirect to /profile |
| Routing.CompanyPageGuards | yala-hire-app/src/App.js:169-189 | /company-profile and /profile/company-summary render iff the role is company, otherwise redirect to /profile |
| Routing.JobFormGuards | yala-hire-app/src/App.js:195-216 | creating and editing a job render iff the role is company, otherwise redirect to /login |
| Routing.JobPagesUnguarded | yala-hire-app/src/App.js:192-205 | /jobs/:jobId and /jobs/:jobId/applicants render for any session |
| Routing.EditCompanyLinkGoesHome | yala-hire-app/src/pages/CompanySummary.jsx:76 | the link /edit-company-profile lands on "/" |
| Routing.CompanyEditLinkGoesHome | yala-hire-app/src/pages/CompanyProfile.js:97 | the link /company/edit-profile lands on "/" |
| Routing.SeekerLinkGoesHome | yala-hire-app/src/pages/JobApplicants.jsx:119 | the link /seeker/:id lands on "/" |
| Routing.NoRedirectLoop | yala-hire-app/src/pages/ProfilePage.js:15-50 | every destination the profile page picks renders for that same user |
| Routing.RedirectTargetsFrom | yala-hire-app/src/App.js:107-219 | every redirect the routes issue goes to /login, /profile or "/" |
| Routing.RedirectsSettle | yala-hire-app/src/App.js:107-219 | following redirects from any path reaches a rendered page within two hops |
| Routing.NavLinksRender | yala-hire-app/src/App.js:63-80 | Home and Login show iff there is no session, Profile iff there is one; every shown link leads to a page that renders for that session; at most one edit link shows |

## Left out

- Network, store, storage and provider calls are parameters. Examples: the row a select returns, whether an insert or upload succeeded, the provider's reply, and a public URL function. Row-level security in the store is not modelled.
- The `updated_at` clock value written by saves is left out of every payload.
- Prompt text and the content of provider replies are left out. A reply is `NetworkFailure`, `HttpFailure`, `Unparsable` or `Parsed(value)`.
- AiMatching.Reply: score content that parses to JSON `null` is folded into `NetworkFailure`, because `aiMatchJob` returns it and reading its `.score` throws inside the callers' catch (aiMatching.js:163-167, WhiteCollarSummary.jsx:133-141). Gap-analysis content that parses to `null` is not modelled; `getOrCreateImprovements` would store and return that `null`.
- Floating point:
  - scores are exact reals;
  - `toFixed(1)` on the displayed score (WhiteCollarSummary.jsx:152) is not modelled;
  - behaviour at exactly 75 under rounding is not modelled;
  - a NaN AI score is not modelled.
- `Number()` on form text is an abstract `parse` parameter in CompanyJobsForm. NaN and non-integer numbers are not modelled.
- `toLowerCase` folds ASCII letters only. `trim` uses the ECMAScript white-space and line-terminator set.
- React rendering, JSX, styles, `alert` text, `console` output and `setTimeout` delays are left out. A delayed navigation is modelled as the route it goes to.
- `useSession.js` is not part of this model. Its asynchronous session updates are left out, and a session is `Option<Meta>`.
- Route matching works on paths already split into segments. Case-insensitive matching and trailing slashes are not modelled.
- The CompanyJobsForm trades dropdown load is left out. It only fills the options list.
- HTML `required` validation on the forms is left out.
- A failed select is modelled as a missing row in EditCompanyProfile.EditPage.Load and in the job lookups of JobApplicants.ApplicantsPage.LoadData and CompanyJobsForm.FormPage.Load: the code cannot tell the two apart and takes the same path for both.
- Display-only pages are left out. Their skill-chip splitting repeats the tokenisation of `Matching`. ProfileSearchBox, SeekerType, RoleSelection and the other pages are not part of this model.
- CompanyJobsForm.FormPage.HandleSave: the id the store generates for an inserted row is a parameter that no existing row has.
- WhiteCollarSummary.SummaryPage.HandleApply: `maybeSingle` is modelled as finding a row only when exactly one row matches; a select that fails or finds several rows is treated as finding none.

## Findings

| source | as written | input that shows it | evidently intended | confidence | as-written member | corrected member |
|---|---|---|---|---|---|---|
| yala-hire-app/src/pages/CompanyJobsForm.jsx:155-160 | when editing, `handleSave` updates the row by `id` alone; `load` only shows "You can only edit your own jobs." for another company's job (CompanyJobsForm.jsx:102-103) and still sets `companyId` and renders the form | company B opens /company/jobs/J/edit for company A's job J, sees the error, and submits: the update writes B's payload, including `company_id` B, into J | the update is restricted to the company's own job, so a foreign job is never rewritten | not executed; the store's row-level security may reject the write | CompanyJobsForm.UpdateAsWritten / CompanyJobsForm.ForeignJobTakenOver | CompanyJobsForm.UpdateOwn / CompanyJobsForm.UpdateOwnSparesOthers |
