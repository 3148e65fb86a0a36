/** The blue-collar profile editor: load (or create) the seeker's row, edit the skill
    checkboxes, upload or delete the photo and the CV, and save. */
module BlueCollarProfile {
  import opened Optional
  import opened Text
  import opened Records
  import opened SkillLists

  const LoginRoute: string := "/login"
  const SummaryRoute: string := "/profile/blue-summary"
  const SavedMessage: string := "Profile saved ✔"

  /** The row inserted for a signed-in user who has none yet. */
  function DefaultRow(id: string): Seeker {
    Seeker(id, "", "", Some("blue"), Some(""), Some(""), Some(""), None, None)
  }

  /** A new row loads with no skill ticked and the text field as it was. */
  lemma DefaultRowLoadsEmpty(id: string, options: seq<string>, otherBefore: string)
    ensures LoadedOver(Blue, options, DefaultRow(id).skills, otherBefore) == SkillForm([], otherBefore)
  {
    NothingStoredNothingLoaded(Some(""));
  }

  /** The two kinds of file the page stores in the `job-files` bucket. */
  datatype FileKind = Photo | Cv

  function Folder(kind: FileKind): string {
    match kind
    case Photo => "profile_images/"
    case Cv => "cvs/"
  }

  /** The extensions delete tries, in the order it lists them. */
  function DeletableExtensions(kind: FileKind): seq<string> {
    match kind
    case Photo => ["png", "jpg", "jpeg"]
    case Cv => ["pdf", "doc", "docx"]
  }

  function UploadFailedMessage(kind: FileKind): string {
    match kind
    case Photo => "Image upload failed"
    case Cv => "CV upload failed"
  }

  /** Every stored path of one user's file starts with this. */
  function Stem(kind: FileKind, userId: string): string {
    Folder(kind) + userId + "."
  }

  /** `${folder}${userId}.${file.name.split(".").pop()}`. */
  function UploadPath(kind: FileKind, userId: string, fileName: string): string {
    Stem(kind, userId) + LastSegment(fileName, '.')
  }

  /** The three paths delete removes. */
  function DeletePaths(kind: FileKind, userId: string): seq<string> {
    var e := DeletableExtensions(kind);
    [Stem(kind, userId) + e[0], Stem(kind, userId) + e[1], Stem(kind, userId) + e[2]]
  }

  lemma SameStem(stem: string, a: string, b: string)
    ensures stem + a == stem + b <==> a == b
  {
    if stem + a == stem + b {
      assert a == (stem + a)[|stem|..];
    }
  }

  /** Delete reaches the uploaded file exactly when its extension is one delete tries. */
  lemma DeleteCoversUpload(kind: FileKind, userId: string, fileName: string)
    ensures UploadPath(kind, userId, fileName) in DeletePaths(kind, userId)
        <==> LastSegment(fileName, '.') in DeletableExtensions(kind)
  {
    var stem := Stem(kind, userId);
    var ext := LastSegment(fileName, '.');
    var e := DeletableExtensions(kind);
    SameStem(stem, ext, e[0]);
    SameStem(stem, ext, e[1]);
    SameStem(stem, ext, e[2]);
  }

  /** The stored file keeps the extension of the chosen file. */
  lemma UploadKeepsExtension(kind: FileKind, userId: string, fileName: string)
    ensures LastSegment(UploadPath(kind, userId, fileName), '.') == LastSegment(fileName, '.')
  {
    var ext := LastSegment(fileName, '.');
    assert UploadPath(kind, userId, fileName) == (Folder(kind) + userId) + ['.'] + ext;
    LastSegmentAfter(Folder(kind) + userId, ext, '.');
  }

  /** A photo uploaded as "me.PNG" is out of reach of delete: the extension is kept as
      typed and delete only tries lower-case ones. */
  lemma UpperCaseExtensionNotDeleted()
    ensures UploadPath(Photo, "u1", "me.PNG") !in DeletePaths(Photo, "u1")
  {
    assert "me.PNG" == "me" + ['.'] + "PNG";
    LastSegmentAfter("me", "PNG", '.');
    DeleteCoversUpload(Photo, "u1", "me.PNG");
  }

  /** The editor's state. */
  class Page {
    /** BLUE_SKILL_OPTIONS, the checkboxes the page offers. */
    const options: seq<string>
    var userId: Option<string>
    var fullName: string
    var phone: string
    var experience: string
    var education: string
    var skills: SkillForm
    var profileImage: Option<string>
    var cvUrl: Option<string>
    var loading: bool
    var saving: bool
    var success: string

    constructor ()
      ensures options == Options(Blue)
      ensures userId == None && fullName == "" && phone == "" && experience == "" && education == ""
      ensures skills == SkillForm([], "") && profileImage == None && cvUrl == None
      ensures loading && !saving && success == ""
    {
      options := Options(Blue);
      userId := None;
      fullName, phone, experience, education := "", "", "", "";
      skills := SkillForm([], "");
      profileImage, cvUrl := None, None;
      loading, saving := true, false;
      success := "";
    }

    /** The file column of the row for `kind`, as the page holds it. */
    function FileUrl(kind: FileKind): Option<string>
      reads this
    {
      match kind
      case Photo => profileImage
      case Cv => cvUrl
    }

    /** The page shows `row` with the skill form `form`. */
    predicate Shows(row: Seeker, form: SkillForm)
      reads this
    {
      && fullName == row.fullName && phone == row.phone
      && experience == OrEmpty(row.experience) && education == OrEmpty(row.education)
      && profileImage == OrNull(row.profileImage) && cvUrl == OrNull(row.cvUrl)
      && skills == form && !loading
    }

    /** The setters at the end of `load`. */
    method Show(row: Seeker, form: SkillForm)
      modifies this
      ensures Shows(row, form)
      ensures userId == old(userId) && saving == old(saving) && success == old(success)
    {
      fullName := row.fullName;
      phone := row.phone;
      experience := OrEmpty(row.experience);
      education := OrEmpty(row.education);
      profileImage := OrNull(row.profileImage);
      cvUrl := OrNull(row.cvUrl);
      skills := form;
      loading := false;
    }

    /** `load`. `user` is the signed-in user's id; `selectOk` says whether the
        `maybeSingle` select succeeded (when it fails the row reads as missing, and the
        insert of an existing id fails); `insertOk` says whether inserting a missing row
        returns the new row. When no row comes back, reading its fields throws and the
        page stays on "Loading...". */
    method Load(user: Option<string>, table: SeekerTable, selectOk: bool, insertOk: bool)
      returns (nav: Option<string>)
      modifies this, table
      ensures user.None? ==> nav == Some(LoginRoute) && unchanged(this) && table.rows == old(table.rows)
      ensures user.Some? ==> nav == None && userId == user
      ensures user.Some? && user.value in old(table.rows) ==> table.rows == old(table.rows)
      ensures user.Some? && user.value !in old(table.rows) && insertOk ==>
                table.rows == old(table.rows)[user.value := DefaultRow(user.value)]
      ensures user.Some? && user.value !in old(table.rows) && !insertOk ==>
                table.rows == old(table.rows) && loading == old(loading) && skills == old(skills)
      ensures user.Some? && user.value in old(table.rows) && !selectOk ==>
                loading == old(loading) && skills == old(skills)
      ensures user.Some? && ((user.value in old(table.rows) && selectOk) || (user.value !in old(table.rows) && insertOk)) ==>
                Shows(table.rows[user.value], LoadedOver(Blue, options, table.rows[user.value].skills, old(skills.otherSkill)))
    {
      if user.None? {
        return Some(LoginRoute);
      }
      nav := None;
      var id := user.value;
      userId := user;
      var row: Seeker;
      if id in table.rows && selectOk {
        row := table.rows[id];
      } else if id !in table.rows && insertOk {
        row := DefaultRow(id);
        table.rows := table.rows[id := row];
      } else {
        return;
      }
      var form := LoadSkills(Blue, options, row.skills, skills.otherSkill);
      Show(row, form);
    }

    /** The checkbox handler. */
    method ToggleSkill(skill: string)
      modifies this
      ensures skills == old(skills).(selected := Toggle(old(skills.selected), skill))
      ensures userId == old(userId) && fullName == old(fullName) && phone == old(phone)
      ensures experience == old(experience) && education == old(education)
      ensures profileImage == old(profileImage) && cvUrl == old(cvUrl)
      ensures loading == old(loading) && saving == old(saving) && success == old(success)
    {
      skills := skills.(selected := Toggle(skills.selected, skill));
    }

    /** `handleSave`. The update's error is ignored: `updateOk` only says whether the
        store applied it. The success message and the redirect follow either way. */
    method Save(table: SeekerTable, updateOk: bool) returns (nav: string)
      modifies this, table
      ensures nav == SummaryRoute && success == SavedMessage && !saving
      ensures userId == old(userId) && skills == old(skills) && fullName == old(fullName)
      ensures phone == old(phone) && experience == old(experience) && education == old(education)
      ensures profileImage == old(profileImage) && cvUrl == old(cvUrl) && loading == old(loading)
      ensures if updateOk && userId.Some? && userId.value in old(table.rows) then
                table.rows == old(table.rows)[userId.value := old(table.rows)[userId.value].(
                  fullName := fullName, phone := phone, experience := Some(experience),
                  education := Some(education), skills := Some(SavedSkills(Blue, skills)))]
              else table.rows == old(table.rows)
    {
      saving := true;
      var finalSkills := SavedSkills(Blue, skills);
      if updateOk && userId.Some? && userId.value in table.rows {
        var id := userId.value;
        table.rows := table.rows[id := table.rows[id].(
          fullName := fullName, phone := phone, experience := Some(experience),
          education := Some(education), skills := Some(finalSkills))];
      }
      success := SavedMessage;
      nav := SummaryRoute;
      saving := false;
    }

    /** `handleProfileImageUpload` and `handleCvUpload`. `fileName` is the chosen file
        (None when the picker was cancelled) and `publicUrl` the bucket's URL for a path.
        The row update's error is ignored: `updateOk` only says whether the store applied
        it; the page shows the new URL either way. The result is the alert shown, if any. */
    method Upload(kind: FileKind, fileName: Option<string>, bucket: Bucket, table: SeekerTable,
                  uploadOk: bool, publicUrl: string -> string, updateOk: bool) returns (alert: Option<string>)
      modifies this, bucket, table
      ensures fileName.None? || userId.None? || !uploadOk ==>
                unchanged(this) && bucket.objects == old(bucket.objects) && table.rows == old(table.rows)
      ensures alert == (if fileName.Some? && userId.Some? && !uploadOk then Some(UploadFailedMessage(kind)) else None)
      ensures fileName.Some? && userId.Some? && uploadOk ==>
                var path := UploadPath(kind, userId.value, fileName.value);
                && bucket.objects == old(bucket.objects) + {path}
                && FileUrl(kind) == Some(publicUrl(path))
                && (updateOk && userId.value in old(table.rows) ==>
                      table.rows == old(table.rows)[userId.value := WithFile(old(table.rows)[userId.value], kind, Some(publicUrl(path)))])
                && (!updateOk || userId.value !in old(table.rows) ==> table.rows == old(table.rows))
      ensures userId == old(userId) && skills == old(skills) && fullName == old(fullName)
      ensures FileUrl(OtherKind(kind)) == old(FileUrl(OtherKind(kind)))
    {
      alert := None;
      if fileName.None? || userId.None? {
        return;
      }
      var id := userId.value;
      var path := UploadPath(kind, id, fileName.value);
      if !uploadOk {
        return Some(UploadFailedMessage(kind));
      }
      bucket.objects := bucket.objects + {path};
      var url := publicUrl(path);
      match kind {
        case Photo => profileImage := Some(url);
        case Cv => cvUrl := Some(url);
      }
      if updateOk && id in table.rows {
        table.rows := table.rows[id := WithFile(table.rows[id], kind, Some(url))];
      }
    }

    /** `handleDeletePhoto` and `handleDeleteCv`: remove the three candidate paths and
        clear the column, whatever was stored. Both writes' errors are ignored:
        `removeOk` and `updateOk` only say whether the store applied them; the page
        clears its URL either way. */
    method Delete(kind: FileKind, bucket: Bucket, table: SeekerTable, removeOk: bool, updateOk: bool)
      modifies this, bucket, table
      ensures userId.None? ==>
                unchanged(this) && bucket.objects == old(bucket.objects) && table.rows == old(table.rows)
      ensures userId.Some? ==>
                && bucket.objects == (if removeOk then old(bucket.objects) - (set p | p in DeletePaths(kind, userId.value))
                                      else old(bucket.objects))
                && FileUrl(kind) == None
                && (updateOk && userId.value in old(table.rows) ==>
                      table.rows == old(table.rows)[userId.value := WithFile(old(table.rows)[userId.value], kind, None)])
                && (!updateOk || userId.value !in old(table.rows) ==> table.rows == old(table.rows))
      ensures userId == old(userId) && skills == old(skills) && fullName == old(fullName)
      ensures FileUrl(OtherKind(kind)) == old(FileUrl(OtherKind(kind)))
    {
      if userId.None? {
        return;
      }
      var id := userId.value;
      if removeOk {
        bucket.objects := bucket.objects - (set p | p in DeletePaths(kind, id));
      }
      if updateOk && id in table.rows {
        table.rows := table.rows[id := WithFile(table.rows[id], kind, None)];
      }
      match kind {
        case Photo => profileImage := None;
        case Cv => cvUrl := None;
      }
    }
  }

  function OtherKind(kind: FileKind): FileKind {
    match kind
    case Photo => Cv
    case Cv => Photo
  }

  /** The row with the column for `kind` set to `url`. */
  function WithFile(row: Seeker, kind: FileKind, url: Option<string>): Seeker {
    match kind
    case Photo => row.(profileImage := url)
    case Cv => row.(cvUrl := url)
  }

  /** A fresh page loaded and saved with no edits writes back the stored skills, known
      ones first, each group in stored order; a missing row is created and keeps "". */
  method LoadThenSave(table: SeekerTable, id: string) returns (page: Page)
    modifies table
    ensures id in table.rows
    ensures var raw := Parse(if id in old(table.rows) then old(table.rows)[id].skills else Some(""));
            table.rows[id].skills == Some(Join(KnownOf(Blue, Options(Blue), raw) + OthersOf(Blue, Options(Blue), raw), ", "))
  {
    page := new Page();
    var nav := page.Load(Some(id), table, true, true);
    ghost var stored := table.rows[id].skills;
    var back := page.Save(table, true);
    BlueRoundTrip(page.options, stored);
  }
}
