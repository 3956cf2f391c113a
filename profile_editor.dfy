/** The profile editor of the admin panel (src/admin/pages/ProfileManagement.jsx): one
    singleton document `settings/profile` edited through an eighteen-field draft and three
    media slots (profile image, resume PDF, resume image), each of which may hold a file
    staged for upload. */
module ProfileEditor {
  import opened Wrappers
  import opened Documents
  import opened Firestore
  import opened Cloudinary

  const ProfileKey := DocKey("settings", "profile")
  const ImageField := "profileImage"
  const ResumeField := "resumeUrl"
  const ResumeImageField := "resumeImageUrl"

  /** The fields edited through text inputs. */
  const TextFields: set<string> := {
    "name", "title", "bio", "aboutTitle", "aboutText1", "aboutText2", "email", "phone", "location",
    "experience", "projectsCount", "skillsTitle", "skillsSubtitle", "projectsTitle", "projectsSubtitle"}

  /** The fields holding media URLs, written by a save. */
  const MediaFields: set<string> := {"profileImage", "resumeUrl", "resumeImageUrl"}

  /** The initial draft: every field the empty string. */
  function EmptyProfile(): (d: Doc)
    ensures d.Keys == TextFields + MediaFields
    ensures forall k :: k in d ==> d[k] == Str("")
  {
    map k | k in TextFields + MediaFields :: Str("")
  }

  /** The three files a save may upload. */
  datatype StagedFiles = StagedFiles(image: Option<UploadFile>, resume: Option<UploadFile>, resumeImage: Option<UploadFile>)

  const NoFiles := StagedFiles(None, None, None)

  /** One media slot of a save: the URL already in the draft when no file is staged,
      otherwise the uploaded file's URL, or the upload's error. */
  function MediaUrl(env: Env, fetch: UploadRequest -> FetchOutcome, current: Value, file: Option<UploadFile>, resourceType: Option<string>)
    : (r: Result<Value, string>)
    ensures file.None? ==> r == Success(current)
    ensures file.Some? ==> (r.Success? <==> Upload(env, fetch, file.value, resourceType).Success?)
    ensures file.Some? && r.Success? ==> r.value == Str(Upload(env, fetch, file.value, resourceType).value)
  {
    if file.None? then Success(current)
    else match Upload(env, fetch, file.value, resourceType)
      case Failure(m) => Failure(m)
      case Success(url) => Success(Str(url))
  }

  /** The document a save writes: the draft with the three media fields and `updatedAt`
      overridden. */
  function WithMedia(form: Doc, image: Value, resume: Value, resumeImage: Value): (d: Doc)
    ensures d.Keys == form.Keys + MediaFields + {"updatedAt"}
    ensures ImageField in d && d[ImageField] == image
    ensures ResumeField in d && d[ResumeField] == resume
    ensures ResumeImageField in d && d[ResumeImageField] == resumeImage
    ensures "updatedAt" in d && d["updatedAt"] == ServerTimestamp
    ensures forall k :: k in form && k !in MediaFields && k != "updatedAt" ==> d[k] == form[k]
  {
    form[ImageField := image][ResumeField := resume][ResumeImageField := resumeImage]["updatedAt" := ServerTimestamp]
  }

  /** The uploads and the merge of a save, before the write: the image slot first, then the
      resume (as `raw`), then the resume image; the first failing upload aborts the rest. */
  function SyncedProfile(env: Env, fetch: UploadRequest -> FetchOutcome, form: Doc, files: StagedFiles): (r: Result<Doc, string>)
    ensures files == NoFiles ==> r.Success?
    ensures r.Failure? ==> files != NoFiles
    ensures r.Success? ==> form.Keys <= r.value.Keys && "updatedAt" in r.value && r.value["updatedAt"] == ServerTimestamp
  {
    match MediaUrl(env, fetch, Get(form, ImageField), files.image, None)
    case Failure(m) => Failure(m)
    case Success(image) =>
      match MediaUrl(env, fetch, Get(form, ResumeField), files.resume, Some(RawResourceType))
      case Failure(m) => Failure(m)
      case Success(resume) =>
        match MediaUrl(env, fetch, Get(form, ResumeImageField), files.resumeImage, None)
        case Failure(m) => Failure(m)
        case Success(resumeImage) => Success(WithMedia(form, image, resume, resumeImage))
  }

  /** The outcome of a save: the upload error, or the outcome of `setDoc`. */
  function SaveOutcome(env: Env, fetch: UploadRequest -> FetchOutcome, form: Doc, files: StagedFiles, fault: Option<string>)
    : (r: Outcome<string>)
    ensures SyncedProfile(env, fetch, form, files).Failure? ==> r == Fail(SyncedProfile(env, fetch, form, files).error)
    ensures r.Pass? <==> SyncedProfile(env, fetch, form, files).Success?
                         && !HasUndefined(SyncedProfile(env, fetch, form, files).value) && fault.None?
  {
    match SyncedProfile(env, fetch, form, files)
    case Failure(m) => Fail(m)
    case Success(d) => WriteCheck(d, fault)
  }

  // ---------------------------------------------------------------- properties of a save

  /** With no staged files nothing is uploaded: the result does not depend on the Cloudinary
      configuration or answers, and the three media fields are written as the draft has them. */
  lemma NoStagedFilesNoUpload(env: Env, fetch: UploadRequest -> FetchOutcome, env2: Env, fetch2: UploadRequest -> FetchOutcome, form: Doc)
    ensures SyncedProfile(env, fetch, form, NoFiles) == SyncedProfile(env2, fetch2, form, NoFiles)
    ensures SyncedProfile(env, fetch, form, NoFiles)
         == Success(WithMedia(form, Get(form, ImageField), Get(form, ResumeField), Get(form, ResumeImageField)))
  {
  }

  /** The written document is the draft with exactly `profileImage`, `resumeUrl`,
      `resumeImageUrl` and `updatedAt` overridden. */
  lemma ExactlyFourFieldsOverridden(env: Env, fetch: UploadRequest -> FetchOutcome, form: Doc, files: StagedFiles)
    requires SyncedProfile(env, fetch, form, files).Success?
    ensures var d := SyncedProfile(env, fetch, form, files).value;
      d.Keys == form.Keys + {ImageField, ResumeField, ResumeImageField, "updatedAt"}
      && d["updatedAt"] == ServerTimestamp
      && forall k :: k in form && k !in {ImageField, ResumeField, ResumeImageField, "updatedAt"} ==> d[k] == form[k]
  {
    var d := SyncedProfile(env, fetch, form, files).value;
    assert MediaFields + {"updatedAt"} == {ImageField, ResumeField, ResumeImageField, "updatedAt"};
  }

  /** The resume is uploaded as `raw`; the two image slots use the default resource type. */
  lemma SlotResourceTypes(env: Env, fetch: UploadRequest -> FetchOutcome, form: Doc, files: StagedFiles)
    requires SyncedProfile(env, fetch, form, files).Success?
    ensures var d := SyncedProfile(env, fetch, form, files).value;
      (files.resume.Some? ==> d[ResumeField] == Str(Upload(env, fetch, files.resume.value, Some("raw")).value))
      && (files.image.Some? ==> d[ImageField] == Str(Upload(env, fetch, files.image.value, None).value))
      && (files.resumeImage.Some? ==> d[ResumeImageField] == Str(Upload(env, fetch, files.resumeImage.value, None).value))
  {
  }

  /** A save reaches `setDoc` exactly when every staged file uploads. */
  lemma SaveNeedsEveryUpload(env: Env, fetch: UploadRequest -> FetchOutcome, form: Doc, files: StagedFiles)
    ensures SyncedProfile(env, fetch, form, files).Success? <==>
      (files.image.Some? ==> Upload(env, fetch, files.image.value, None).Success?)
      && (files.resume.Some? ==> Upload(env, fetch, files.resume.value, Some(RawResourceType)).Success?)
      && (files.resumeImage.Some? ==> Upload(env, fetch, files.resumeImage.value, None).Success?)
  {
  }

  /** A draft missing a media field (a profile document written without it) cannot be saved
      unless that slot gets a new file: the spread copies `undefined` and `setDoc` refuses it. */
  lemma MissingMediaFieldBlocksSave(env: Env, fetch: UploadRequest -> FetchOutcome, form: Doc, fault: Option<string>)
    requires ResumeField !in form
    ensures SaveOutcome(env, fetch, form, NoFiles, fault) == Fail(UndefinedFieldMessage)
  {
    var d := WithMedia(form, Get(form, ImageField), Get(form, ResumeField), Get(form, ResumeImageField));
    assert d[ResumeField] == Undefined;
  }

  /** A draft seeded from the defaults saves whenever the server accepts the write. */
  lemma DefaultDraftSaves(env: Env, fetch: UploadRequest -> FetchOutcome)
    ensures SaveOutcome(env, fetch, EmptyProfile(), NoFiles, None) == Pass
  {
    var form := EmptyProfile();
    DefaultMediaEmpty();
    NoStagedFilesNoUpload(env, fetch, env, fetch, form);
    MediaKeepsDefined(form, Str(""), Str(""), Str(""));
  }

  lemma DefaultMediaEmpty()
    ensures Get(EmptyProfile(), ImageField) == Str("")
    ensures Get(EmptyProfile(), ResumeField) == Str("")
    ensures Get(EmptyProfile(), ResumeImageField) == Str("")
  {
    assert ImageField in MediaFields && ResumeField in MediaFields && ResumeImageField in MediaFields;
  }

  /** Defined media URLs merged into a draft without `undefined` fields leave none. */
  lemma MediaKeepsDefined(form: Doc, image: Value, resume: Value, resumeImage: Value)
    requires !HasUndefined(form) && image != Undefined && resume != Undefined && resumeImage != Undefined
    ensures !HasUndefined(WithMedia(form, image, resume, resumeImage))
  {
    var d := WithMedia(form, image, resume, resumeImage);
    forall k | k in d ensures d[k] != Undefined {
      if k !in MediaFields && k != "updatedAt" {
        assert d[k] == form[k];
      }
    }
  }

  /** The upload part of `handleSubmit`, statement by statement: start from the draft's
      URLs, replace each one whose slot holds a file by that file's uploaded URL, stop at the
      first failed upload, and merge. */
  method SyncMedia(env: Env, fetch: UploadRequest -> FetchOutcome, form: Doc, files: StagedFiles)
    returns (r: Result<Doc, string>)
    ensures r == SyncedProfile(env, fetch, form, files)
  {
    var imageUrl := Get(form, ImageField);
    var resumeUrl := Get(form, ResumeField);
    var resumeImageUrl := Get(form, ResumeImageField);
    if files.image.Some? {
      var up := UploadToCloudinary(env, fetch, files.image.value, None);
      if up.Failure? {
        return Failure(up.error);
      }
      imageUrl := Str(up.value);
    }
    if files.resume.Some? {
      var up := UploadToCloudinary(env, fetch, files.resume.value, Some(RawResourceType));
      if up.Failure? {
        return Failure(up.error);
      }
      resumeUrl := Str(up.value);
    }
    if files.resumeImage.Some? {
      var up := UploadToCloudinary(env, fetch, files.resumeImage.value, None);
      if up.Failure? {
        return Failure(up.error);
      }
      resumeImageUrl := Str(up.value);
    }
    r := Success(WithMedia(form, imageUrl, resumeUrl, resumeImageUrl));
  }

  /** A save's outcome is the upload error, or what `setDoc` answers for the merged document. */
  lemma SaveOutcomeOf(env: Env, fetch: UploadRequest -> FetchOutcome, form: Doc, files: StagedFiles, fault: Option<string>)
    ensures var synced := SyncedProfile(env, fetch, form, files);
      SaveOutcome(env, fetch, form, files, fault) == if synced.Failure? then Fail(synced.error) else WriteCheck(synced.value, fault)
  {
  }

  /** The body of `handleSubmit`'s `try`: the uploads and the merge, then `setDoc`. On
      success `written` is the document now stored. */
  method SaveProfile(env: Env, fetch: UploadRequest -> FetchOutcome, store: Store, form: Doc, files: StagedFiles, fault: Option<string>)
    returns (r: Outcome<string>, written: Doc)
    modifies store
    ensures r == SaveOutcome(env, fetch, form, files, fault)
    ensures r.Pass? ==> SyncedProfile(env, fetch, form, files) == Success(written)
    ensures store.docs == if r.Pass? then old(store.docs)[ProfileKey := written] else old(store.docs)
  {
    var synced := SyncMedia(env, fetch, form, files);
    SaveOutcomeOf(env, fetch, form, files, fault);
    if synced.Failure? {
      return Fail(synced.error), form;
    }
    written := synced.value;
    r := store.SetDoc(ProfileKey, written, fault);
  }

  // ---------------------------------------------------------------- the component

  class ProfileManager {
    var loading: bool
    var saving: bool
    var formData: Doc
    var imageFile: Option<UploadFile>
    var imagePreview: Value
    var resumeFile: Option<UploadFile>
    var resumeImageFile: Option<UploadFile>
    var resumeImagePreview: Value

    function Staged(): StagedFiles
      reads this
    {
      StagedFiles(imageFile, resumeFile, resumeImageFile)
    }

    constructor ()
      ensures loading && !saving && formData == EmptyProfile() && Staged() == NoFiles
      ensures imagePreview == Null && resumeImagePreview == Null
    {
      loading := true;
      saving := false;
      formData := EmptyProfile();
      imageFile := None;
      imagePreview := Null;
      resumeFile := None;
      resumeImageFile := None;
      resumeImagePreview := Null;
    }

    /** `fetchProfile`: a stored document replaces the whole draft and seeds the previews
        it has truthy URLs for; a missing document or a failed read leaves the draft as it is. */
    method FetchProfile(snap: DocSnapshot)
      modifies this
      ensures formData == if snap.Exists? then snap.data else old(formData)
      ensures imagePreview == if snap.Exists? && Truthy(Get(snap.data, ImageField)) then Get(snap.data, ImageField) else old(imagePreview)
      ensures resumeImagePreview ==
        if snap.Exists? && Truthy(Get(snap.data, ResumeImageField)) then Get(snap.data, ResumeImageField) else old(resumeImagePreview)
      ensures !loading && saving == old(saving) && Staged() == old(Staged())
    {
      if snap.Exists? {
        var data := snap.data;
        formData := data;
        if Truthy(Get(data, ImageField)) {
          imagePreview := Get(data, ImageField);
        }
        if Truthy(Get(data, ResumeImageField)) {
          resumeImagePreview := Get(data, ResumeImageField);
        }
      }
      loading := false;
    }

    /** A text input: `setFormData({...formData, [field]: value})`. */
    method SetField(field: string, value: string)
      requires field in TextFields
      modifies this
      ensures formData == old(formData)[field := Str(value)]
      ensures Staged() == old(Staged()) && imagePreview == old(imagePreview) && resumeImagePreview == old(resumeImagePreview)
      ensures loading == old(loading) && saving == old(saving)
    {
      formData := formData[field := Str(value)];
    }

    /** The profile-image input: a chosen file is staged; an empty choice changes nothing. */
    method StageImage(file: Option<UploadFile>)
      modifies this
      ensures imageFile == if file.Some? then file else old(imageFile)
      ensures resumeFile == old(resumeFile) && resumeImageFile == old(resumeImageFile) && formData == old(formData)
      ensures imagePreview == old(imagePreview) && resumeImagePreview == old(resumeImagePreview)
      ensures loading == old(loading) && saving == old(saving)
    {
      if file.Some? {
        imageFile := file;
      }
    }

    /** The resume input stores whatever the input holds: an empty choice unstages the resume. */
    method StageResume(file: Option<UploadFile>)
      modifies this
      ensures resumeFile == file
      ensures imageFile == old(imageFile) && resumeImageFile == old(resumeImageFile) && formData == old(formData)
      ensures imagePreview == old(imagePreview) && resumeImagePreview == old(resumeImagePreview)
      ensures loading == old(loading) && saving == old(saving)
    {
      resumeFile := file;
    }

    /** The resume-image input: a chosen file is staged; an empty choice changes nothing. */
    method StageResumeImage(file: Option<UploadFile>)
      modifies this
      ensures resumeImageFile == if file.Some? then file else old(resumeImageFile)
      ensures imageFile == old(imageFile) && resumeFile == old(resumeFile) && formData == old(formData)
      ensures imagePreview == old(imagePreview) && resumeImagePreview == old(resumeImagePreview)
      ensures loading == old(loading) && saving == old(saving)
    {
      if file.Some? {
        resumeImageFile := file;
      }
    }

    /** The remove button of the resume-image preview: unstage the file and show the saved URL again. */
    method DiscardResumeImage()
      modifies this
      ensures resumeImageFile.None? && resumeImagePreview == Or(Get(formData, ResumeImageField), Null)
      ensures imageFile == old(imageFile) && resumeFile == old(resumeFile) && formData == old(formData)
      ensures imagePreview == old(imagePreview)
      ensures loading == old(loading) && saving == old(saving)
    {
      resumeImageFile := None;
      resumeImagePreview := Or(Get(formData, ResumeImageField), Null);
    }

    /** `handleSubmit`: upload the staged files one by one, merge their URLs into the draft,
        write the document. Only a successful write replaces the draft by the written
        document and clears the staged files; any failure leaves both as they were. */
    method HandleSubmit(env: Env, fetch: UploadRequest -> FetchOutcome, store: Store, fault: Option<string>)
      returns (r: Outcome<string>)
      modifies this, store
      ensures r == SaveOutcome(env, fetch, old(formData), old(Staged()), fault)
      ensures r.Pass? ==> SyncedProfile(env, fetch, old(formData), old(Staged())) == Success(formData)
      ensures r.Pass? ==> store.docs == old(store.docs)[ProfileKey := formData] && Staged() == NoFiles
      ensures r.Fail? ==> store.docs == old(store.docs) && formData == old(formData) && Staged() == old(Staged())
      ensures !saving && loading == old(loading)
      ensures imagePreview == old(imagePreview) && resumeImagePreview == old(resumeImagePreview)
    {
      saving := true;
      var files := StagedFiles(imageFile, resumeFile, resumeImageFile);
      var updatedData;
      r, updatedData := SaveProfile(env, fetch, store, formData, files, fault);
      if r.Pass? {
        Commit(updatedData);
      }
      saving := false;
    }

    /** After a successful write: the written document becomes the draft and no file stays staged. */
    method Commit(written: Doc)
      modifies this
      ensures formData == written && Staged() == NoFiles
      ensures loading == old(loading) && saving == old(saving)
      ensures imagePreview == old(imagePreview) && resumeImagePreview == old(resumeImagePreview)
    {
      formData := written;
      imageFile := None;
      resumeFile := None;
      resumeImageFile := None;
    }
  }
}
