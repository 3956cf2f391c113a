/** The experiences page of the admin area (src/admin/pages/ExperiencesManagement.jsx): the
    list of work experiences, a modal form that creates or edits one, and deletion. */
module ExperiencesEditor {
  import opened Wrappers
  import opened Documents
  import opened Firestore

  const Collection := "experiences"

  /** The five text inputs of the form. */
  const TextFields: set<string> := {"company", "role", "location", "duration", "description"}

  /** The whole draft: the text inputs, the `isCurrent` checkbox and `website`, which has no
      input and is only carried from the edited record to the saved one. */
  const DraftFields: set<string> := TextFields + {"isCurrent", "website"}

  /** The draft of a new experience: five empty strings, not current, no website. */
  function EmptyDraft(): (d: Doc)
    ensures d.Keys == DraftFields
    ensures forall k :: k in TextFields ==> d[k] == Str("")
    ensures d["isCurrent"] == Bool(false) && d["website"] == Str("")
  {
    map["company" := Str(""), "role" := Str(""), "location" := Str(""), "duration" := Str(""),
        "description" := Str(""), "isCurrent" := Bool(false), "website" := Str("")]
  }

  /** The draft of an edited experience: the five texts as stored (`undefined` when missing),
      `isCurrent || false` and `website || ''`. */
  function SeedDraft(exp: Doc): (d: Doc)
    ensures d.Keys == DraftFields
    ensures forall k :: k in TextFields ==> d[k] == Get(exp, k)
    ensures d["isCurrent"] == Or(Get(exp, "isCurrent"), Bool(false))
    ensures d["website"] == Or(Get(exp, "website"), Str(""))
  {
    map["company" := Get(exp, "company"), "role" := Get(exp, "role"), "location" := Get(exp, "location"),
        "duration" := Get(exp, "duration"), "description" := Get(exp, "description"),
        "isCurrent" := Or(Get(exp, "isCurrent"), Bool(false)), "website" := Or(Get(exp, "website"), Str(""))]
  }

  /** `openModal(exp)`'s draft. */
  function OpeningDraft(exp: Option<Doc>): (d: Doc)
    ensures d.Keys == DraftFields
  {
    if exp.Some? then SeedDraft(exp.value) else EmptyDraft()
  }

  /** What is written: the draft with `updatedAt`, and `createdAt` as well for a new record. */
  function Payload(form: Doc, create: bool): (d: Doc)
    requires form.Keys == DraftFields
    ensures d.Keys == DraftFields + {"updatedAt"} + (if create then {"createdAt"} else {})
    ensures forall k :: k in DraftFields ==> d[k] == form[k]
    ensures d["updatedAt"] == ServerTimestamp
    ensures create ==> d["createdAt"] == ServerTimestamp
  {
    var stamped := form["updatedAt" := ServerTimestamp];
    if create then stamped["createdAt" := ServerTimestamp] else stamped
  }

  /** The whole write of a submission. */
  function Submit(docs: map<DocKey, Doc>, editing: Option<Doc>, form: Doc, newId: string, fault: Option<string>): (s: Submission)
    requires form.Keys == DraftFields
    ensures s.outcome.Fail? ==> s.docs == docs
    ensures editing.None? ==> (s.outcome.Pass? <==> !HasUndefined(form) && fault.None?)
    ensures editing.None? && s.outcome.Pass? ==> s.docs == docs[DocKey(Collection, newId) := Payload(form, true)]
    ensures editing.Some? ==> s == UpdateRecord(docs, Collection, Get(editing.value, "id"), Payload(form, false), fault)
  {
    SaveRecord(docs, Collection, editing, newId, Payload(form, editing.None?), fault)
  }

  // ---------------------------------------------------------------- properties

  lemma CollectionPlain()
    ensures PlainId(Collection)
  {
  }


  /** A new experience is stored under the new id with both timestamps and every draft field. */
  lemma CreateStamps(docs: map<DocKey, Doc>, form: Doc, newId: string)
    requires form.Keys == DraftFields && !HasUndefined(form)
    ensures var s := Submit(docs, None, form, newId, None);
      s.outcome == Pass && DocKey(Collection, newId) in s.docs
      && s.docs[DocKey(Collection, newId)]["createdAt"] == ServerTimestamp
      && s.docs[DocKey(Collection, newId)]["updatedAt"] == ServerTimestamp
      && forall k :: k in DraftFields ==> s.docs[DocKey(Collection, newId)][k] == form[k]
  {
    var p := Payload(form, true);
    assert !HasUndefined(p) by {
      forall k | k in p
        ensures p[k] != Undefined
      {
        if k in DraftFields {
          assert form[k] != Undefined;
        }
      }
    }
    SaveRecordCreates(docs, Collection, newId, p);
  }

  /** The `|| false` and `|| ''` fallbacks let a record stored without `isCurrent` or
      `website` be edited and saved, as long as its five texts are present. */
  lemma RecordWithoutFlagsSaves(docs: map<DocKey, Doc>, exp: Doc, newId: string)
    requires forall k :: k in TextFields ==> Get(exp, k) != Undefined
    requires Get(exp, "id").Str? && PlainId(Get(exp, "id").s) && DocKey(Collection, Get(exp, "id").s) in docs
    ensures Submit(docs, Some(exp), SeedDraft(exp), newId, None).outcome == Pass
  {
    CollectionPlain();
    UpdatePlainId(docs, Collection, Get(exp, "id").s, Payload(SeedDraft(exp), false), None);
    var p := Payload(SeedDraft(exp), false);
    forall k | k in p
      ensures p[k] != Undefined
    {
    }
  }

  /** A record missing one of the five texts cannot be saved unchanged: the draft copies
      its `undefined`, and the write is refused without touching the store. */
  lemma MissingTextBlocksSave(docs: map<DocKey, Doc>, exp: Doc, field: string, newId: string, fault: Option<string>)
    requires field in TextFields && field !in exp && Get(exp, "id").Str? && PlainId(Get(exp, "id").s)
    ensures Submit(docs, Some(exp), SeedDraft(exp), newId, fault) == Submission(Fail(UndefinedFieldMessage), docs)
  {
    CollectionPlain();
    UpdatePlainId(docs, Collection, Get(exp, "id").s, Payload(SeedDraft(exp), false), fault);
    assert Payload(SeedDraft(exp), false)[field] == Undefined;
  }

  /** An edit refreshes `updatedAt` and keeps the stored `createdAt`. */
  lemma UpdateKeepsCreatedAt(docs: map<DocKey, Doc>, exp: Doc, form: Doc, newId: string)
    requires form.Keys == DraftFields && !HasUndefined(form)
    requires Get(exp, "id").Str? && PlainId(Get(exp, "id").s) && DocKey(Collection, Get(exp, "id").s) in docs
    requires "createdAt" in docs[DocKey(Collection, Get(exp, "id").s)]
    ensures var key := DocKey(Collection, Get(exp, "id").s);
      var s := Submit(docs, Some(exp), form, newId, None);
      s.outcome == Pass && key in s.docs
      && "createdAt" in s.docs[key] && s.docs[key]["createdAt"] == docs[key]["createdAt"]
      && "updatedAt" in s.docs[key] && s.docs[key]["updatedAt"] == ServerTimestamp
  {
    var id := Get(exp, "id").s;
    var key := DocKey(Collection, id);
    var p := Payload(form, false);
    assert !HasUndefined(p) by {
      forall k | k in p
        ensures p[k] != Undefined
      {
        if k in DraftFields {
          assert form[k] != Undefined;
        }
      }
    }
    assert "createdAt" !in p && p["updatedAt"] == ServerTimestamp;
    CollectionPlain();
    UpdatePlainId(docs, Collection, id, p, None);
    assert Submit(docs, Some(exp), form, newId, None) == UpdateRecord(docs, Collection, Str(id), p, None);
    assert UpdateCheck(docs, key, p, None) == Pass;
    UpdateLeavesOtherFields(docs, key, p, None, "createdAt");
  }

  /** Editing a record whose id is one plain segment: the save passes exactly when the
      record is still stored, no draft field is `undefined` and the server accepts, and the
      stamped draft is then merged over the stored fields. */
  lemma EditMergesDraft(docs: map<DocKey, Doc>, exp: Doc, id: string, form: Doc, newId: string, fault: Option<string>)
    requires form.Keys == DraftFields && Get(exp, "id") == Str(id) && PlainId(id)
    ensures var key := DocKey(Collection, id);
      var s := Submit(docs, Some(exp), form, newId, fault);
      (s.outcome.Pass? <==> key in docs && !HasUndefined(form) && fault.None?)
      && (s.outcome.Pass? ==> s.docs == docs[key := docs[key] + Payload(form, false)])
  {
    var p := Payload(form, false);
    assert HasUndefined(p) <==> HasUndefined(form) by {
      if HasUndefined(form) {
        var k :| k in form && form[k] == Undefined;
        assert k in p && p[k] == Undefined;
      }
      if HasUndefined(p) {
        var k :| k in p && p[k] == Undefined;
        assert k in DraftFields;
      }
    }
    CollectionPlain();
    UpdatePlainId(docs, Collection, id, p, fault);
  }

  /** A submission is the editors' shared save of the stamped draft. */
  lemma SubmitSaves(docs: map<DocKey, Doc>, editing: Option<Doc>, form: Doc, newId: string, fault: Option<string>)
    requires form.Keys == DraftFields
    ensures Submit(docs, editing, form, newId, fault) == SaveRecord(docs, Collection, editing, newId, Payload(form, editing.None?), fault)
  {
  }

  class ExperiencesManager {
    var experiences: seq<Doc>
    var loading: bool
    var isModalOpen: bool
    var editingExp: Option<Doc>
    var formData: Doc

    /** The draft always has exactly its seven fields. */
    predicate Valid()
      reads this
    {
      formData.Keys == DraftFields
    }

    /** The state on mount, before the first fetch completes. */
    constructor ()
      ensures Valid()
      ensures experiences == [] && loading && !isModalOpen && editingExp.None? && formData == EmptyDraft()
    {
      experiences := [];
      loading := true;
      isModalOpen := false;
      editingExp := None;
      formData := EmptyDraft();
    }

    /** `fetchExperiences` with the query's answer (newest first) as input. */
    method FetchExperiences(q: QueryResult)
      modifies this
      ensures experiences == (if q.Rows? then Records(q.rows) else old(experiences))
      ensures !loading
      ensures isModalOpen == old(isModalOpen) && editingExp == old(editingExp) && formData == old(formData)
    {
      loading := true;
      if q.Rows? {
        experiences := Records(q.rows);
      }
      loading := false;
    }

    /** `openModal(exp)`. */
    method OpenModal(exp: Option<Doc>)
      modifies this
      ensures Valid()
      ensures isModalOpen && editingExp == exp && formData == OpeningDraft(exp)
      ensures experiences == old(experiences) && loading == old(loading)
    {
      editingExp := exp;
      formData := OpeningDraft(exp);
      isModalOpen := true;
    }

    /** `closeModal`: the draft is left as it is. */
    method CloseModal()
      modifies this
      ensures !isModalOpen && editingExp.None?
      ensures formData == old(formData) && experiences == old(experiences) && loading == old(loading)
    {
      isModalOpen := false;
      editingExp := None;
    }

    /** One of the five text inputs. */
    method SetText(field: string, value: string)
      requires Valid() && field in TextFields
      modifies this
      ensures Valid()
      ensures formData == old(formData)[field := Str(value)]
      ensures experiences == old(experiences) && loading == old(loading)
      ensures isModalOpen == old(isModalOpen) && editingExp == old(editingExp)
    {
      formData := formData[field := Str(value)];
    }

    /** The "current position" checkbox. */
    method SetCurrent(checked: bool)
      requires Valid()
      modifies this
      ensures Valid()
      ensures formData == old(formData)["isCurrent" := Bool(checked)]
      ensures experiences == old(experiences) && loading == old(loading)
      ensures isModalOpen == old(isModalOpen) && editingExp == old(editingExp)
    {
      formData := formData["isCurrent" := Bool(checked)];
    }

    /** `handleSubmit`: the draft with its timestamps is merged into the edited record or
        added as a new one. Only success closes the modal; `loading` ends false either way. */
    method HandleSubmit(store: Store, newId: string, fault: Option<string>) returns (r: Outcome<string>)
      requires Valid()
      modifies this, store
      ensures Valid()
      ensures var s := Submit(old(store.docs), old(editingExp), old(formData), newId, fault);
        r == s.outcome && store.docs == s.docs
      ensures !loading && formData == old(formData) && experiences == old(experiences)
      ensures r.Pass? ==> !isModalOpen && editingExp.None?
      ensures r.Fail? ==> isModalOpen == old(isModalOpen) && editingExp == old(editingExp)
    {
      loading := true;
      SubmitSaves(store.docs, editingExp, formData, newId, fault);
      r := store.Save(Collection, editingExp, newId, Payload(formData, editingExp.None?), fault);
      if r.Pass? {
        CloseModal();
      }
      loading := false;
    }

    /** `handleDelete(id)`: nothing happens unless confirmed; a successful delete starts a
        re-fetch, whose first step sets `loading`. `None` when not confirmed. */
    method HandleDelete(id: Value, confirmed: bool, store: Store, fault: Option<string>)
      returns (r: Option<Outcome<string>>)
      modifies this, store
      ensures r.None? <==> !confirmed
      ensures r.Some? ==> r.value == DeleteRecord(old(store.docs), Collection, id, fault).outcome
      ensures store.docs == if confirmed then DeleteRecord(old(store.docs), Collection, id, fault).docs else old(store.docs)
      ensures loading == (if r == Some(Pass) then true else old(loading))
      ensures experiences == old(experiences) && formData == old(formData) && isModalOpen == old(isModalOpen)
      ensures editingExp == old(editingExp)
    {
      if !confirmed {
        return None;
      }
      var out := store.Delete(Collection, id, fault);
      if out.Pass? {
        loading := true;
      }
      r := Some(out);
    }
  }
}
