/** The white-collar profile editor: load (or create) the seeker's row, toggle skill
    checkboxes, and save with an error or a redirect. */
module WhiteCollarProfile {
  import opened Optional
  import opened Seqs
  import opened Text
  import opened Records
  import opened SkillLists

  const LoginRoute: string := "/login"
  const SummaryRoute: string := "/profile/white-summary"
  const SaveFailedMessage: string := "Failed to save."
  const UpdatedMessage: string := "Profile updated ✔"

  /** The signed-in user with the name and phone given at sign-up, if any. */
  datatype AuthUser = AuthUser(id: string, metaFullName: Option<string>, metaPhone: Option<string>)

  /** The row inserted for a signed-in user who has none yet. */
  function DefaultRow(user: AuthUser): Seeker {
    Seeker(user.id, OrEmpty(user.metaFullName), OrEmpty(user.metaPhone), Some("white"),
           Some(""), Some(""), Some(""), None, None)
  }

  /** A new row loads with no skill ticked and the text field as it was. */
  lemma DefaultRowLoadsEmpty(user: AuthUser, options: seq<string>, otherBefore: string)
    ensures LoadedOver(White, options, DefaultRow(user).skills, otherBefore) == SkillForm([], otherBefore)
  {
    NothingStoredNothingLoaded(Some(""));
  }

  /** The editor's state. */
  class Page {
    /** WHITE_SKILL_OPTIONS, the checkboxes the page offers. */
    const options: seq<string>
    var userId: Option<string>
    var fullName: string
    var phone: string
    var experience: string
    var education: string
    var skills: SkillForm
    var loading: bool
    var saving: bool
    var error: string
    var success: string

    constructor ()
      ensures options == Options(White)
      ensures userId == None && fullName == "" && phone == "" && experience == "" && education == ""
      ensures skills == SkillForm([], "") && loading && !saving && error == "" && success == ""
    {
      options := Options(White);
      userId := None;
      fullName, phone, experience, education := "", "", "", "";
      skills := SkillForm([], "");
      loading, saving := true, false;
      error, success := "", "";
    }

    /** The page shows `row` with the skill form `form`. */
    predicate Shows(row: Seeker, form: SkillForm)
      reads this
    {
      && fullName == row.fullName && phone == row.phone
      && experience == OrEmpty(row.experience) && education == OrEmpty(row.education)
      && skills == form && !loading
    }

    /** The setters at the end of `load`. */
    method Show(row: Seeker, form: SkillForm)
      modifies this
      ensures Shows(row, form)
      ensures userId == old(userId) && saving == old(saving) && error == old(error) && success == old(success)
    {
      fullName := row.fullName;
      phone := row.phone;
      experience := OrEmpty(row.experience);
      education := OrEmpty(row.education);
      skills := form;
      loading := false;
    }

    /** `load`. `selectOk` says whether the `maybeSingle` select succeeded (when it fails
        the row reads as missing, and the insert of an existing id fails); `insertOk` says
        whether inserting a missing row returns the new row. When no row comes back,
        reading its fields throws and the page stays on "Loading...". */
    method Load(user: Option<AuthUser>, table: SeekerTable, selectOk: bool, insertOk: bool)
      returns (nav: Option<string>)
      modifies this, table
      ensures user.None? ==> nav == Some(LoginRoute) && table.rows == old(table.rows) && loading
      ensures user.None? ==> userId == old(userId) && skills == old(skills) && fullName == old(fullName)
      ensures user.Some? ==> nav == None && userId == Some(user.value.id)
      ensures user.Some? && user.value.id in old(table.rows) ==> table.rows == old(table.rows)
      ensures user.Some? && user.value.id !in old(table.rows) && insertOk ==>
                table.rows == old(table.rows)[user.value.id := DefaultRow(user.value)]
      ensures user.Some? && user.value.id !in old(table.rows) && !insertOk ==>
                table.rows == old(table.rows) && loading && skills == old(skills)
      ensures user.Some? && user.value.id in old(table.rows) && !selectOk ==>
                loading && skills == old(skills)
      ensures user.Some? && ((user.value.id in old(table.rows) && selectOk) || (user.value.id !in old(table.rows) && insertOk)) ==>
                var row := table.rows[user.value.id];
                Shows(row, LoadedOver(White, options, row.skills, old(skills.otherSkill)))
      ensures saving == old(saving) && error == old(error) && success == old(success)
    {
      loading := true;
      if user.None? {
        return Some(LoginRoute);
      }
      nav := None;
      var id := user.value.id;
      userId := Some(id);
      var row: Seeker;
      if id in table.rows && selectOk {
        row := table.rows[id];
      } else if id !in table.rows && insertOk {
        row := DefaultRow(user.value);
        table.rows := table.rows[id := row];
      } else {
        return;
      }
      var form := LoadSkills(White, options, row.skills, skills.otherSkill);
      Show(row, form);
    }

    /** `toggleSkill`. */
    method ToggleSkill(skill: string)
      modifies this
      ensures skills == old(skills).(selected := Toggle(old(skills.selected), skill))
      ensures userId == old(userId) && fullName == old(fullName) && phone == old(phone)
      ensures experience == old(experience) && education == old(education)
      ensures loading == old(loading) && saving == old(saving) && error == old(error) && success == old(success)
    {
      skills := skills.(selected := Toggle(skills.selected, skill));
    }

    /** `saveProfile`. `updateOk` is whether the update came back without an error. A
        failure shows "Failed to save." and stays; success shows the confirmation and
        redirects to the summary. */
    method Save(table: SeekerTable, updateOk: bool) returns (nav: Option<string>)
      modifies this, table
      ensures !saving
      ensures !updateOk ==> error == SaveFailedMessage && success == "" && nav == None
      ensures updateOk ==> error == "" && success == UpdatedMessage && nav == Some(SummaryRoute)
      ensures userId == old(userId) && skills == old(skills) && fullName == old(fullName)
      ensures phone == old(phone) && experience == old(experience) && education == old(education)
      ensures loading == old(loading)
      ensures if updateOk && userId.Some? && userId.value in old(table.rows) then
                table.rows == old(table.rows)[userId.value := old(table.rows)[userId.value].(
                  fullName := fullName, phone := phone, experience := Some(experience),
                  education := Some(education), skills := Some(SavedSkills(White, skills)))]
              else table.rows == old(table.rows)
    {
      saving := true;
      error := "";
      success := "";
      var skillsToSave := SavedSkills(White, skills);
      if updateOk && userId.Some? && userId.value in table.rows {
        var id := userId.value;
        table.rows := table.rows[id := table.rows[id].(
          fullName := fullName, phone := phone, experience := Some(experience),
          education := Some(education), skills := Some(skillsToSave))];
      }
      if !updateOk {
        error := SaveFailedMessage;
        nav := None;
      } else {
        success := UpdatedMessage;
        nav := Some(SummaryRoute);
      }
      saving := false;
    }
  }

  /** A fresh page loaded and saved with no edits writes back the ticked tokens less a
      literal "Other", then the extras, each group in stored order; a missing row is
      created and keeps "". */
  method LoadThenSave(table: SeekerTable, user: AuthUser) returns (page: Page)
    modifies table
    ensures user.id in table.rows
    ensures var raw := Parse(if user.id in old(table.rows) then old(table.rows)[user.id].skills else Some(""));
            table.rows[user.id].skills ==
              Some(Join(Filter(KnownOf(White, Options(White), raw), Without(OtherOption))
                        + OthersOf(White, Options(White), raw), ", "))
  {
    page := new Page();
    var nav := page.Load(Some(user), table, true, true);
    ghost var stored := table.rows[user.id].skills;
    var back := page.Save(table, true);
    LoadSaveRoundTrip(White, page.options, stored);
  }
}
