/** The project editor of the admin panel (src/admin/pages/ProjectsManagement.jsx): the
    list of projects, the add/edit modal with its five-field draft and staged image,
    and the save and delete handlers over the `projects` collection. */
module ProjectsEditor {
  import opened Wrappers
  import opened Documents
  import opened Firestore
  import opened Cloudinary
  import opened ProjectTags
  import opened JsText

  const Collection := "projects"

  /** The fields of the editor's draft. */
  const DraftFields: set<string> := {"title", "description", "tags", "liveUrl", "githubUrl"}

  /** What the draft always looks like: exactly the five fields, none `undefined`, and the
      tags field a string (so `formData.tags.split` cannot throw). */
  predicate DraftShape(form: Doc) {
    form.Keys == DraftFields && form["tags"].Str? && forall k :: k in form ==> form[k] != Undefined
  }

  /** The draft of a new project: five empty strings. */
  function EmptyDraft(): (d: Doc)
    ensures DraftShape(d)
    ensures forall k :: k in d ==> d[k] == Str("")
  {
    map["title" := Str(""), "description" := Str(""), "tags" := Str(""), "liveUrl" := Str(""), "githubUrl" := Str("")]
  }

  /** `project.f || ''`. */
  function FieldOrEmpty(project: Doc, f: string): (v: Value)
    ensures v != Undefined
    ensures Truthy(Get(project, f)) ==> v == Get(project, f)
    ensures !Truthy(Get(project, f)) ==> v == Str("")
  {
    Or(Get(project, f), Str(""))
  }

  /** The draft seeded from a stored project when it is opened for editing: each text
      field falls back to `''`, and the tags become text only when they are an array. */
  function SeedDraft(project: Doc): (d: Doc)
    ensures DraftShape(d)
    ensures d["tags"] == Str(SeedTags(Get(project, "tags")))
    ensures forall k :: k in DraftFields && k != "tags" ==> d[k] == FieldOrEmpty(project, k)
  {
    map[
      "title" := FieldOrEmpty(project, "title"),
      "description" := FieldOrEmpty(project, "description"),
      "tags" := Str(SeedTags(Get(project, "tags"))),
      "liveUrl" := FieldOrEmpty(project, "liveUrl"),
      "githubUrl" := FieldOrEmpty(project, "githubUrl")]
  }

  /** `editingProject?.image || ''`: the image a save keeps when no file is staged. */
  function KeptImage(editing: Option<Doc>): (v: Value)
    ensures v != Undefined
    ensures editing.None? ==> v == Str("")
    ensures editing.Some? && Truthy(Get(editing.value, "image")) ==> v == Get(editing.value, "image")
  {
    if editing.Some? then Or(Get(editing.value, "image"), Str("")) else Str("")
  }

  /** The document a save writes: the draft with its tags field replaced by the parsed
      `tags`, the image and `updatedAt`, plus `createdAt` when the project is new. */
  function Assemble(form: Doc, tags: seq<string>, image: Value, create: bool): (d: Doc)
    requires DraftShape(form)
    ensures d.Keys == DraftFields + {"image", "updatedAt"} + (if create then {"createdAt"} else {})
    ensures "tags" in d && d["tags"] == StrList(tags)
    ensures "image" in d && d["image"] == image
    ensures "updatedAt" in d && d["updatedAt"] == ServerTimestamp
    ensures "createdAt" in d <==> create
    ensures create ==> d["createdAt"] == ServerTimestamp
    ensures forall k :: k in form && k != "tags" ==> d[k] == form[k]
  {
    var data := form["tags" := StrList(tags)]["image" := image]["updatedAt" := ServerTimestamp];
    if create then data["createdAt" := ServerTimestamp] else data
  }

  /** The tags the draft's text field parses to. */
  function DraftTags(form: Doc): (tags: seq<string>)
    requires DraftShape(form)
    ensures |tags| == multiset(form["tags"].s)[','] + 1
    ensures forall i :: 0 <= i < |tags| ==> IsTrimmed(tags[i]) && ',' !in tags[i]
  {
    ParseTagsCount(form["tags"].s);
    ParseTagsTrimmed(form["tags"].s);
    ParseTags(form["tags"].s)
  }

  /** The image a save writes, or the upload error that aborts it: the staged file, when
      there is one, is uploaded with the default resource type and its URL replaces the
      kept image. */
  function SavedImage(env: Env, fetch: UploadRequest -> FetchOutcome, editing: Option<Doc>, file: Option<UploadFile>)
    : (r: Result<Value, string>)
    ensures r.Success? ==> r.value != Undefined
  {
    if file.Some? then
      match Upload(env, fetch, file.value, None)
      case Failure(m) => Failure(m)
      case Success(url) => Success(Str(url))
    else Success(KeptImage(editing))
  }

  /** The payload of a save, or the upload error that aborts it. */
  function Payload(env: Env, fetch: UploadRequest -> FetchOutcome, editing: Option<Doc>, file: Option<UploadFile>, form: Doc)
    : (r: Result<Doc, string>)
    requires DraftShape(form)
    ensures r.Success? <==> file.None? || Upload(env, fetch, file.value, None).Success?
    ensures r.Failure? ==> r.error == Upload(env, fetch, file.value, None).error
    ensures r.Success? ==> "image" in r.value && r.value["image"] != Undefined
    ensures r.Success? && file.None? ==> r.value["image"] == KeptImage(editing)
    ensures r.Success? && file.Some? ==> r.value["image"] == Str(Upload(env, fetch, file.value, None).value)
    ensures r.Success? ==> ("createdAt" in r.value <==> editing.None?)
  {
    match SavedImage(env, fetch, editing, file)
    case Failure(m) => Failure(m)
    case Success(image) => Success(Assemble(form, DraftTags(form), image, editing.None?))
  }


  /** `handleSubmit` as a whole: upload if needed, assemble, write. */
  function Submit(env: Env, fetch: UploadRequest -> FetchOutcome, docs: map<DocKey, Doc>, editing: Option<Doc>,
                  file: Option<UploadFile>, form: Doc, newId: string, fault: Option<string>): (s: Submission)
    requires DraftShape(form)
    ensures s.outcome.Fail? ==> s.docs == docs
    ensures Payload(env, fetch, editing, file, form).Failure? ==> s == Submission(Fail(Payload(env, fetch, editing, file, form).error), docs)
    ensures editing.None? && Payload(env, fetch, editing, file, form).Success? ==>
      (s.outcome.Pass? <==> !HasUndefined(Payload(env, fetch, editing, file, form).value) && fault.None?)
    ensures editing.None? && s.outcome.Pass? ==>
      s.docs == docs[DocKey(Collection, newId) := Payload(env, fetch, editing, file, form).value]
    ensures editing.Some? && Payload(env, fetch, editing, file, form).Success? ==>
      s == UpdateRecord(docs, Collection, Get(editing.value, "id"), Payload(env, fetch, editing, file, form).value, fault)
  {
    match Payload(env, fetch, editing, file, form)
    case Failure(m) => Submission(Fail(m), docs)
    case Success(data) => SaveRecord(docs, Collection, editing, newId, data, fault)
  }

  // ---------------------------------------------------------------- properties of a save

  /** With no staged file nothing is uploaded: the save does not depend on the Cloudinary
      configuration or answer, and the image is the edited project's, or `''` for a new one. */
  lemma NoFileKeepsImage(env: Env, fetch: UploadRequest -> FetchOutcome, env2: Env, fetch2: UploadRequest -> FetchOutcome,
                         editing: Option<Doc>, form: Doc)
    requires DraftShape(form)
    ensures Payload(env, fetch, editing, None, form) == Payload(env2, fetch2, editing, None, form)
    ensures Payload(env, fetch, editing, None, form).Success?
    ensures Payload(env, fetch, editing, None, form).value["image"] == KeptImage(editing)
  {
  }

  /** With a staged file the save goes on exactly when the upload succeeds, and the
      image is then the uploaded file's `secure_url`. */
  lemma FileImageIsUploadedUrl(env: Env, fetch: UploadRequest -> FetchOutcome, editing: Option<Doc>, f: UploadFile, form: Doc)
    requires DraftShape(form)
    ensures Payload(env, fetch, editing, Some(f), form).Success? <==> Upload(env, fetch, f, None).Success?
    ensures Upload(env, fetch, f, None).Success? ==>
      Payload(env, fetch, editing, Some(f), form).value["image"] == Str(Upload(env, fetch, f, None).value)
  {
  }

  /** Create writes `createdAt` alongside `updatedAt`; update writes the draft fields,
      the image and `updatedAt` only. */
  lemma TimestampsByMode(env: Env, fetch: UploadRequest -> FetchOutcome, editing: Option<Doc>, file: Option<UploadFile>, form: Doc)
    requires DraftShape(form) && Payload(env, fetch, editing, file, form).Success?
    ensures var d := Payload(env, fetch, editing, file, form).value;
      d["updatedAt"] == ServerTimestamp
      && ("createdAt" in d <==> editing.None?)
      && (editing.None? ==> d["createdAt"] == ServerTimestamp)
  {
  }

  /** The payload never holds `undefined`, so Firestore refuses it only for its own reasons. */
  lemma PayloadHasNoUndefined(env: Env, fetch: UploadRequest -> FetchOutcome, editing: Option<Doc>,
                              file: Option<UploadFile>, form: Doc)
    requires DraftShape(form) && Payload(env, fetch, editing, file, form).Success?
    ensures !HasUndefined(Payload(env, fetch, editing, file, form).value)
  {
    var image := SavedImage(env, fetch, editing, file).value;
    AssembleHasNoUndefined(form, DraftTags(form), image, editing.None?);
  }

  lemma {:induction false} AssembleHasNoUndefined(form: Doc, tags: seq<string>, image: Value, create: bool)
    requires DraftShape(form) && image != Undefined
    ensures !HasUndefined(Assemble(form, tags, image, create))
  {
    var d := Assemble(form, tags, image, create);
    forall k | k in d ensures d[k] != Undefined {
      if k !in form || k == "tags" {
        assert k in {"tags", "image", "updatedAt", "createdAt"};
      }
    }
  }

  /** A new project without a staged image is stored when the server accepts the write:
      the store gains the payload, with an empty image, under the new id. */
  lemma CreateWithoutFileStores(env: Env, fetch: UploadRequest -> FetchOutcome, docs: map<DocKey, Doc>, form: Doc, newId: string)
    requires DraftShape(form)
    ensures Submit(env, fetch, docs, None, None, form, newId, None)
         == Submission(Pass, docs[DocKey(Collection, newId) := Assemble(form, DraftTags(form), Str(""), true)])
  {
    var d := Assemble(form, DraftTags(form), Str(""), true);
    assert Payload(env, fetch, None, None, form) == Success(d);
    AssembleHasNoUndefined(form, DraftTags(form), Str(""), true);
    SaveRecordCreates(docs, Collection, newId, d);
  }

  /** A failed save leaves the store as it was. */
  lemma FailedSubmitChangesNothing(env: Env, fetch: UploadRequest -> FetchOutcome, docs: map<DocKey, Doc>, editing: Option<Doc>,
                                   file: Option<UploadFile>, form: Doc, newId: string, fault: Option<string>)
    requires DraftShape(form)
    requires Submit(env, fetch, docs, editing, file, form, newId, fault).outcome.Fail?
    ensures Submit(env, fetch, docs, editing, file, form, newId, fault).docs == docs
  {
  }

  /** An update merges over the stored project: fields the payload does not carry, such as
      `createdAt`, keep their stored values. */
  lemma UpdateKeepsCreatedAt(env: Env, fetch: UploadRequest -> FetchOutcome, docs: map<DocKey, Doc>, project: Doc, id: string,
                             file: Option<UploadFile>, form: Doc, fault: Option<string>)
    requires DraftShape(form) && Get(project, "id") == Str(id)
    requires DocKey(Collection, id) in docs && "createdAt" in docs[DocKey(Collection, id)]
    ensures var s := Submit(env, fetch, docs, Some(project), file, form, "", fault);
      s.docs.Keys == docs.Keys
      && "createdAt" in s.docs[DocKey(Collection, id)]
      && s.docs[DocKey(Collection, id)]["createdAt"] == docs[DocKey(Collection, id)]["createdAt"]
  {
    match SavedImage(env, fetch, Some(project), file)
    case Failure(_) =>
    case Success(image) =>
      var d := Assemble(form, DraftTags(form), image, false);
      assert "createdAt" !in d;
      UpdateKeepsAbsentField(docs, Collection, id, d, fault, "createdAt");
  }

  lemma CollectionPlain()
    ensures PlainId(Collection)
  {
  }

  /** Editing a project whose id is one plain segment: the save passes exactly when the
      project is still stored, the payload has no `undefined` field and the server accepts,
      and the payload is then merged over the stored fields. */
  lemma EditMergesPayload(env: Env, fetch: UploadRequest -> FetchOutcome, docs: map<DocKey, Doc>, project: Doc, id: string,
                          file: Option<UploadFile>, form: Doc, fault: Option<string>)
    requires DraftShape(form) && Get(project, "id") == Str(id) && PlainId(id)
    requires Payload(env, fetch, Some(project), file, form).Success?
    ensures var p := Payload(env, fetch, Some(project), file, form).value;
      var key := DocKey(Collection, id);
      var s := Submit(env, fetch, docs, Some(project), file, form, "", fault);
      (s.outcome.Pass? <==> key in docs && !HasUndefined(p) && fault.None?)
      && (s.outcome.Pass? ==> s.docs == docs[key := docs[key] + p])
  {
    var p := Payload(env, fetch, Some(project), file, form).value;
    CollectionPlain();
    UpdatePlainId(docs, Collection, id, p, fault);
  }

  /** The first half of `handleSubmit`: keep the current image or upload the staged file,
      then build `projectData`, adding `createdAt` for a new project. */
  method BuildPayload(env: Env, fetch: UploadRequest -> FetchOutcome, editing: Option<Doc>, file: Option<UploadFile>, form: Doc)
    returns (r: Result<Doc, string>)
    requires DraftShape(form)
    ensures r == Payload(env, fetch, editing, file, form)
  {
    var imageUrl := if editing.Some? then Or(Get(editing.value, "image"), Str("")) else Str("");
    if file.Some? {
      var uploaded := UploadToCloudinary(env, fetch, file.value, None);
      if uploaded.Failure? {
        return Failure(uploaded.error);
      }
      imageUrl := Str(uploaded.value);
    }
    var projectData := form["tags" := StrList(ParseTags(form["tags"].s))]["image" := imageUrl]["updatedAt" := ServerTimestamp];
    if editing.None? {
      projectData := projectData["createdAt" := ServerTimestamp];
    }
    r := Success(projectData);
  }

  // ---------------------------------------------------------------- the component

  class ProjectsManager {
    var projects: seq<Doc>
    var loading: bool
    var isModalOpen: bool
    var editingProject: Option<Doc>
    var imageFile: Option<UploadFile>
    var imagePreview: Value
    var formData: Doc

    predicate Valid()
      reads this
    {
      DraftShape(formData)
    }

    /** The state on mount, before the first fetch completes. */
    constructor ()
      ensures Valid()
      ensures projects == [] && loading && !isModalOpen && editingProject.None? && imageFile.None?
      ensures imagePreview == Null && formData == EmptyDraft()
    {
      projects := [];
      loading := true;
      isModalOpen := false;
      editingProject := None;
      imageFile := None;
      imagePreview := Null;
      formData := EmptyDraft();
    }

    /** `fetchProjects`, from start to finish, with the query's answer as input: the list is
        replaced only when the query succeeds. */
    method FetchProjects(q: QueryResult)
      modifies this
      ensures projects == (if q.Rows? then Records(q.rows) else old(projects))
      ensures !loading
      ensures isModalOpen == old(isModalOpen) && editingProject == old(editingProject)
      ensures imageFile == old(imageFile) && imagePreview == old(imagePreview) && formData == old(formData)
    {
      loading := true;
      match q {
        case Rows(rows) =>
          projects := Records(rows);
        case QueryFailed(_) =>
      }
      loading := false;
    }

    /** The file input: a chosen file is staged, an empty choice changes nothing. */
    method StageImage(file: Option<UploadFile>)
      modifies this
      ensures imageFile == if file.Some? then file else old(imageFile)
      ensures projects == old(projects) && loading == old(loading) && isModalOpen == old(isModalOpen)
      ensures editingProject == old(editingProject) && imagePreview == old(imagePreview) && formData == old(formData)
    {
      if file.Some? {
        imageFile := file;
      }
    }

    /** A text input of the form: `setFormData({...formData, [field]: value})`. */
    method SetField(field: string, value: string)
      requires Valid() && field in DraftFields
      modifies this
      ensures Valid()
      ensures formData == old(formData)[field := Str(value)]
      ensures projects == old(projects) && loading == old(loading) && isModalOpen == old(isModalOpen)
      ensures editingProject == old(editingProject) && imageFile == old(imageFile) && imagePreview == old(imagePreview)
    {
      formData := formData[field := Str(value)];
    }

    /** `openModal(project)`: seed the draft from the project, or reset it to five empty
        strings for a new one; the staged file is dropped either way. */
    method OpenModal(project: Option<Doc>)
      modifies this
      ensures Valid()
      ensures isModalOpen && imageFile.None? && editingProject == project
      ensures formData == if project.Some? then SeedDraft(project.value) else EmptyDraft()
      ensures imagePreview == if project.Some? then Get(project.value, "image") else Null
      ensures projects == old(projects) && loading == old(loading)
    {
      if project.Some? {
        editingProject := project;
        formData := SeedDraft(project.value);
        imagePreview := Get(project.value, "image");
      } else {
        editingProject := None;
        formData := EmptyDraft();
        imagePreview := Null;
      }
      imageFile := None;
      isModalOpen := true;
    }

    /** `closeModal`: close and forget the edited project, preview and staged file; the
        draft itself is left as it is. */
    method CloseModal()
      modifies this
      ensures !isModalOpen && editingProject.None? && imagePreview == Null && imageFile.None?
      ensures formData == old(formData) && projects == old(projects) && loading == old(loading)
    {
      isModalOpen := false;
      editingProject := None;
      imagePreview := Null;
      imageFile := None;
    }

    /** `handleSubmit`. Only a successful write closes the modal (and starts a re-fetch,
        whose first step `setLoading(true)` is overridden by the `finally` here); a failed
        upload or write leaves the modal, the draft and the staged file as they were. */
    method HandleSubmit(env: Env, fetch: UploadRequest -> FetchOutcome, store: Store, newId: string, fault: Option<string>)
      returns (r: Outcome<string>)
      requires Valid()
      modifies this, store
      ensures Valid()
      ensures var s := Submit(env, fetch, old(store.docs), old(editingProject), old(imageFile), old(formData), newId, fault);
        r == s.outcome && store.docs == s.docs
      ensures !loading && formData == old(formData) && projects == old(projects)
      ensures r.Pass? ==> !isModalOpen && editingProject.None? && imageFile.None? && imagePreview == Null
      ensures r.Fail? ==> isModalOpen == old(isModalOpen) && editingProject == old(editingProject)
                          && imageFile == old(imageFile) && imagePreview == old(imagePreview)
    {
      loading := true;
      var payload := BuildPayload(env, fetch, editingProject, imageFile, formData);
      if payload.Failure? {
        r := Fail(payload.error);
      } else {
        r := store.Save(Collection, editingProject, newId, payload.value, fault);
        if r.Pass? {
          CloseModal();
        }
      }
      loading := false;
    }

    /** `handleDelete(id)`: nothing happens unless the deletion is confirmed; a successful
        delete starts a re-fetch, whose first step sets `loading`. Returns `None` when
        the deletion is not confirmed. */
    method HandleDelete(id: Value, confirmed: bool, store: Store, fault: Option<string>)
      returns (r: Option<Outcome<string>>)
      modifies this, store
      ensures r.None? <==> !confirmed
      ensures r.Some? ==> r.value == DeleteRecord(old(store.docs), Collection, id, fault).outcome
      ensures store.docs == if confirmed then DeleteRecord(old(store.docs), Collection, id, fault).docs else old(store.docs)
      ensures loading == (if r == Some(Pass) then true else old(loading))
      ensures projects == old(projects) && formData == old(formData) && isModalOpen == old(isModalOpen)
      ensures editingProject == old(editingProject) && imageFile == old(imageFile) && imagePreview == old(imagePreview)
    {
      if !confirmed {
        return None;
      }
      var out := store.Delete(Collection, id, fault);
      if out.Pass? {
        loading := true;
      }
      r := Some(out);
    }
  }
}
