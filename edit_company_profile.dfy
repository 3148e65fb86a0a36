/** The company profile editor: load the company's row, pick or delete a logo, and save
    the name, location, description and logo URL. */
module EditCompanyProfile {
  import opened Optional
  import opened Text
  import opened Records

  const LoginRoute: string := "/login"
  const SummaryRoute: string := "/profile/company-summary"
  const ImageFolder: string := "company_images/"
  const UploadFailedMessage: string := "❌ Failed to upload image."
  const ImageRemovedMessage: string := "✔ Image removed. Save to confirm."
  const SaveFailedMessage: string := "❌ Failed to save."
  const UpdatedMessage: string := "✔ Profile updated!"

  const NameKey: string := "company_name"
  const LocationKey: string := "location"
  const DescriptionKey: string := "description"
  const ImageKey: string := "profile_image"

  // ----- paths -----

  /** A template literal's rendering of an id that may be null. */
  function Interpolated(id: Option<string>): string {
    if id.Some? then id.value else "null"
  }

  /** `company_images/${companyId}.${ext}`, `ext` being the text after the file name's last '.'. */
  function ImagePath(companyId: string, fileName: string): string {
    ImageFolder + companyId + "." + LastSegment(fileName, '.')
  }

  /** The path `deleteImage` removes: the folder and the URL's text after its last '/'. */
  function DeletePath(url: string): string {
    ImageFolder + LastSegment(url, '/')
  }

  /** The upload path lies in the logo folder and keeps the file's own extension. */
  lemma ImagePathParts(companyId: string, fileName: string)
    ensures var p := ImagePath(companyId, fileName);
            && p[..|ImageFolder|] == ImageFolder
            && LastSegment(p, '.') == LastSegment(fileName, '.')
  {
    var ext := LastSegment(fileName, '.');
    assert ImagePath(companyId, fileName) == (ImageFolder + companyId) + ['.'] + ext;
    LastSegmentAfter(ImageFolder + companyId, ext, '.');
  }

  /** A logo stored under its public URL, `<base>/<path>`, is found again by a later
      delete, as long as neither the company id nor the file name holds a '/'. */
  lemma DeleteFindsUpload(base: string, companyId: string, fileName: string)
    requires '/' !in companyId && '/' !in fileName
    ensures DeletePath(base + "/" + ImagePath(companyId, fileName)) == ImagePath(companyId, fileName)
  {
    var ext := LastSegment(fileName, '.');
    LastSegmentInside(fileName, '.');
    var tail := companyId + "." + ext;
    assert '/' !in ext;
    assert base + "/" + ImagePath(companyId, fileName) == (base + "/company_images") + ['/'] + tail;
    LastSegmentAfter(base + "/company_images", tail, '/');
  }

  // ----- the payload -----

  /** A value in a JavaScript object. */
  datatype JsValue = Undefined | Null | Str(s: string)

  function FromOption(o: Option<string>): JsValue {
    if o.Some? then Str(o.value) else Null
  }

  /** The `payload` object of `handleSave` (the `updated_at` clock value is left out):
      `x || null` for the three text fields, and the logo URL as it stands. */
  function BuildPayload(companyName: Option<string>, location: string, description: string,
                        imageUrl: Option<string>): map<string, JsValue>
  {
    map[NameKey := FromOption(OrNull(companyName)),
        LocationKey := FromOption(EmptyToNull(location)),
        DescriptionKey := FromOption(EmptyToNull(description)),
        ImageKey := FromOption(imageUrl)]
  }

  /** An empty text field is written as null, a non-empty one as itself. */
  lemma EmptyTextBecomesNull(companyName: Option<string>, location: string, description: string,
                             imageUrl: Option<string>)
    ensures var p := BuildPayload(companyName, location, description, imageUrl);
      && p.Keys == {NameKey, LocationKey, DescriptionKey, ImageKey}
      && (p[NameKey] == Null <==> companyName.None? || companyName == Some(""))
      && (p[LocationKey] == Null <==> location == "")
      && (p[DescriptionKey] == Null <==> description == "")
      && (p[ImageKey] == Null <==> imageUrl.None?)
      && (location != "" ==> p[LocationKey] == Str(location))
      && (description != "" ==> p[DescriptionKey] == Str(description))
      && (forall k :: k in p ==> p[k] != Undefined)
  {
  }

  /** `Object.keys(payload).forEach(key => payload[key] === undefined && delete payload[key])`. */
  method RemoveUndefined(payload: map<string, JsValue>) returns (cleaned: map<string, JsValue>)
    ensures forall k :: k in cleaned ==> k in payload && cleaned[k] == payload[k]
    ensures forall k :: k in cleaned ==> cleaned[k] != Undefined
    ensures forall k :: k in payload && payload[k] != Undefined ==> k in cleaned
  {
    cleaned := payload;
    var keys := payload.Keys;
    while keys != {}
      invariant keys <= payload.Keys
      invariant forall k :: k in cleaned ==> k in payload && cleaned[k] == payload[k]
      invariant forall k :: k in cleaned && k !in keys ==> cleaned[k] != Undefined
      invariant forall k :: k in payload && (payload[k] != Undefined || k in keys) ==> k in cleaned
      decreases |keys|
    {
      var k :| k in keys;
      if cleaned[k] == Undefined {
        cleaned := cleaned - {k};
      }
      keys := keys - {k};
    }
  }

  /** A payload with no undefined value comes out of the cleanup unchanged. */
  lemma CleanupKeepsDefined(payload: map<string, JsValue>, cleaned: map<string, JsValue>)
    requires forall k :: k in payload ==> payload[k] != Undefined
    requires forall k :: k in cleaned ==> k in payload && cleaned[k] == payload[k]
    requires forall k :: k in payload && payload[k] != Undefined ==> k in cleaned
    ensures cleaned == payload
  {
    assert cleaned.Keys == payload.Keys;
  }

  /** The payload `handleSave` sends: built, then cleaned of undefined values, which
      leaves it as built. */
  method CleanPayload(companyName: Option<string>, location: string, description: string,
                      imageUrl: Option<string>) returns (cleaned: map<string, JsValue>)
    ensures cleaned == BuildPayload(companyName, location, description, imageUrl)
  {
    var payload := BuildPayload(companyName, location, description, imageUrl);
    cleaned := RemoveUndefined(payload);
    EmptyTextBecomesNull(companyName, location, description, imageUrl);
    CleanupKeepsDefined(payload, cleaned);
  }

  /** The column an `update(payload)` leaves: the written value, or the old one when the
      key is absent. */
  function Column(payload: map<string, JsValue>, key: string, current: Option<string>): Option<string> {
    if key !in payload then current
    else if payload[key].Str? then Some(payload[key].s)
    else None
  }

  /** `update(payload)` on the company's row. */
  function ApplyPayload(row: CompanyProfile, payload: map<string, JsValue>): CompanyProfile {
    row.(companyName := Column(payload, NameKey, row.companyName),
         location := Column(payload, LocationKey, row.location),
         description := Column(payload, DescriptionKey, row.description),
         profileImage := Column(payload, ImageKey, row.profileImage))
  }

  /** The logo URL `handleSave` writes: the preview when no file was chosen, otherwise the
      upload's public URL, or null when the upload fails. */
  function SavedImage(preview: Option<string>, chosen: Option<string>, companyId: Option<string>,
                      uploadOk: bool, publicUrl: string -> string): Option<string>
  {
    if chosen.None? then preview
    else if uploadOk then Some(publicUrl(ImagePath(Interpolated(companyId), chosen.value)))
    else None
  }

  /** Saving without choosing a file keeps the preview; a failed upload drops the logo
      even when one was stored. */
  lemma SavedImageCases(preview: Option<string>, chosen: Option<string>, companyId: Option<string>,
                        uploadOk: bool, publicUrl: string -> string)
    ensures chosen.None? ==> SavedImage(preview, chosen, companyId, uploadOk, publicUrl) == preview
    ensures chosen.Some? && !uploadOk ==> SavedImage(preview, chosen, companyId, uploadOk, publicUrl) == None
    ensures SavedImage(preview, chosen, companyId, uploadOk, publicUrl).Some? <==>
              (if chosen.None? then preview.Some? else uploadOk)
  {
  }

  /** The row as `load` shows it and an unedited save writes it back: each text column and
      the logo with "" turned into null. */
  function Normalised(row: CompanyProfile): CompanyProfile {
    row.(companyName := OrNull(row.companyName),
         location := EmptyToNull(OrEmpty(row.location)),
         description := EmptyToNull(OrEmpty(row.description)),
         profileImage := OrNull(row.profileImage))
  }

  /** Normalising keeps every non-empty column and nulls exactly the empty ones; a second
      pass changes nothing. */
  lemma NormalisedColumns(row: CompanyProfile)
    ensures var n := Normalised(row);
      && n.id == row.id
      && (n.companyName == None <==> row.companyName in {None, Some("")})
      && (n.location == None <==> row.location in {None, Some("")})
      && (n.description == None <==> row.description in {None, Some("")})
      && (n.profileImage == None <==> row.profileImage in {None, Some("")})
      && (n.companyName.Some? ==> n.companyName == row.companyName)
      && (n.location.Some? ==> n.location == row.location)
      && (n.description.Some? ==> n.description == row.description)
      && (n.profileImage.Some? ==> n.profileImage == row.profileImage)
      && Normalised(n) == n
  {
  }

  /** An unedited save of a loaded row writes the normalised row. */
  lemma UneditedSaveNormalises(row: CompanyProfile)
    ensures ApplyPayload(row, BuildPayload(row.companyName, OrEmpty(row.location),
                                           OrEmpty(row.description), OrNull(row.profileImage)))
            == Normalised(row)
  {
  }

  /** The editor's state; `logoFile` is the name of the chosen file, if any. */
  class EditPage {
    var loading: bool
    var saving: bool
    var companyName: Option<string>
    var location: string
    var description: string
    var logoFile: Option<string>
    var preview: Option<string>
    var companyId: Option<string>
    var message: string

    constructor ()
      ensures loading && !saving && companyName == Some("") && location == "" && description == ""
      ensures logoFile == None && preview == None && companyId == None && message == ""
    {
      loading, saving := true, false;
      companyName, location, description := Some(""), "", "";
      logoFile, preview, companyId := None, None, None;
      message := "";
    }

    /** The page shows `row`. */
    predicate Shows(row: CompanyProfile)
      reads this
    {
      && companyId == Some(row.id) && companyName == row.companyName
      && location == OrEmpty(row.location) && description == OrEmpty(row.description)
      && preview == OrNull(row.profileImage) && !loading
    }

    /** `load`: no user goes to the login page; a missing row leaves the page loading. */
    method Load(user: Option<string>, profiles: CompanyTable) returns (nav: Option<string>)
      modifies this
      ensures user.None? ==> nav == Some(LoginRoute) && unchanged(this)
      ensures user.Some? && user.value !in profiles.rows ==> nav == None && unchanged(this)
      ensures user.Some? && user.value in profiles.rows ==> nav == None && Shows(profiles.rows[user.value])
      ensures saving == old(saving) && logoFile == old(logoFile) && message == old(message)
    {
      if user.None? {
        return Some(LoginRoute);
      }
      nav := None;
      if user.value !in profiles.rows {
        return;
      }
      var cp := profiles.rows[user.value];
      companyId := Some(cp.id);
      companyName := cp.companyName;
      location := OrEmpty(cp.location);
      description := OrEmpty(cp.description);
      preview := OrNull(cp.profileImage);
      loading := false;
    }

    /** The file input's `onChange`: `objectUrl` is the local URL made for the file. */
    method ChooseFile(file: Option<string>, objectUrl: string)
      modifies this
      ensures logoFile == file
      ensures preview == (if file.Some? then Some(objectUrl) else old(preview))
      ensures loading == old(loading) && saving == old(saving) && companyName == old(companyName)
      ensures location == old(location) && description == old(description)
      ensures companyId == old(companyId) && message == old(message)
    {
      logoFile := file;
      if file.Some? {
        preview := Some(objectUrl);
      }
    }

    /** `uploadImage`: the logo's public URL, or None when there is no file or the upload
        fails (with its message). */
    method UploadImage(file: Option<string>, bucket: Bucket, uploadOk: bool, publicUrl: string -> string)
      returns (url: Option<string>)
      modifies this, bucket
      ensures url == SavedImage(None, file, companyId, uploadOk, publicUrl)
      ensures file.Some? && uploadOk ==>
                bucket.objects == old(bucket.objects) + {ImagePath(Interpolated(companyId), file.value)}
      ensures file.None? || !uploadOk ==> bucket.objects == old(bucket.objects)
      ensures message == (if file.Some? && !uploadOk then UploadFailedMessage else old(message))
      ensures loading == old(loading) && saving == old(saving) && companyName == old(companyName)
      ensures location == old(location) && description == old(description)
      ensures logoFile == old(logoFile) && preview == old(preview) && companyId == old(companyId)
    {
      if file.None? {
        return None;
      }
      var path := ImagePath(Interpolated(companyId), file.value);
      if !uploadOk {
        message := UploadFailedMessage;
        return None;
      }
      bucket.objects := bucket.objects + {path};
      url := Some(publicUrl(path));
    }

    /** `deleteImage`: nothing without a preview; otherwise remove the object the preview
        names and clear the file and the preview. The removal's error is ignored:
        `removeOk` only says whether the store applied it. */
    method DeleteImage(bucket: Bucket, removeOk: bool)
      modifies this, bucket
      ensures old(preview) in {None, Some("")} ==> unchanged(this) && bucket.objects == old(bucket.objects)
      ensures old(preview) !in {None, Some("")} ==>
                && bucket.objects == (if removeOk then old(bucket.objects) - {DeletePath(old(preview).value)}
                                      else old(bucket.objects))
                && logoFile == None && preview == None && message == ImageRemovedMessage
      ensures loading == old(loading) && saving == old(saving) && companyName == old(companyName)
      ensures location == old(location) && description == old(description) && companyId == old(companyId)
    {
      if preview.None? || preview.value == "" {
        return;
      }
      if removeOk {
        bucket.objects := bucket.objects - {DeletePath(preview.value)};
      }
      logoFile := None;
      preview := None;
      message := ImageRemovedMessage;
    }

    /** `handleSave`. `uploadOk` and `updateOk` are the store's answers. On success the
        message is set and `saving` stays true while the redirect is pending. */
    method HandleSave(bucket: Bucket, profiles: CompanyTable, uploadOk: bool, publicUrl: string -> string,
                      updateOk: bool) returns (nav: Option<string>)
      modifies this, bucket, profiles
      ensures var image := SavedImage(old(preview), old(logoFile), companyId, uploadOk, publicUrl);
              var payload := BuildPayload(companyName, location, description, image);
              if updateOk && companyId.Some? && companyId.value in old(profiles.rows) then
                profiles.rows == old(profiles.rows)[companyId.value :=
                                   ApplyPayload(old(profiles.rows)[companyId.value], payload)]
              else profiles.rows == old(profiles.rows)
      ensures !updateOk ==> message == SaveFailedMessage && !saving && nav == None
      ensures updateOk ==> message == UpdatedMessage && saving && nav == Some(SummaryRoute)
      ensures old(logoFile).Some? && uploadOk ==>
                bucket.objects == old(bucket.objects) + {ImagePath(Interpolated(companyId), old(logoFile).value)}
      ensures old(logoFile).None? || !uploadOk ==> bucket.objects == old(bucket.objects)
      ensures loading == old(loading) && companyName == old(companyName) && location == old(location)
      ensures description == old(description) && logoFile == old(logoFile) && preview == old(preview)
      ensures companyId == old(companyId)
    {
      saving := true;
      message := "";
      var image := preview;
      if logoFile.Some? {
        image := UploadImage(logoFile, bucket, uploadOk, publicUrl);
      }
      var cleaned := CleanPayload(companyName, location, description, image);
      if !updateOk {
        message := SaveFailedMessage;
        saving := false;
        return None;
      }
      if companyId.Some? && companyId.value in profiles.rows {
        var id := companyId.value;
        profiles.rows := profiles.rows[id := ApplyPayload(profiles.rows[id], cleaned)];
      }
      message := UpdatedMessage;
      nav := Some(SummaryRoute);
    }
  }

  /** Opening the editor and saving with no edit rewrites the company's row with every
      empty column nulled and nothing else changed. */
  method LoadThenSave(profiles: CompanyTable, bucket: Bucket, id: string, publicUrl: string -> string)
    returns (page: EditPage)
    requires id in profiles.rows && profiles.rows[id].id == id
    modifies profiles, bucket
    ensures profiles.rows == old(profiles.rows)[id := Normalised(old(profiles.rows)[id])]
    ensures bucket.objects == old(bucket.objects)
  {
    page := new EditPage();
    var nav := page.Load(Some(id), profiles);
    ghost var row := profiles.rows[id];
    var back := page.HandleSave(bucket, profiles, true, publicUrl, true);
    UneditedSaveNormalises(row);
  }
}
