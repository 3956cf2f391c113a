/** The skills page of the admin area (src/admin/pages/SkillsManagement.jsx): the list of
    skills, a modal form of three fields that creates or edits one skill, and deletion. */
module SkillsEditor {
  import opened Wrappers
  import opened Documents
  import opened Firestore
  import JsText
  import SkillsSection

  const Collection := "skills"

  /** The options of the category select, in their displayed order. */
  const Categories: seq<string> := ["Programming Languages", "Frontend", "Backend", "Tools & Tech", "Mobile", "Design", "Other"]

  const DraftFields: set<string> := {"name", "level", "category"}

  /** The draft of a new skill: no name, level 80, the first category. */
  function DefaultDraft(): (d: Doc)
    ensures d.Keys == DraftFields
    ensures Get(d, "level") == Num(80) && Get(d, "category") == Str(Categories[0])
  {
    map["name" := Str(""), "level" := Num(80), "category" := Str("Programming Languages")]
  }

  /** The draft of an edited skill: its three fields copied as they are, `undefined` included. */
  function SeedDraft(skill: Doc): (d: Doc)
    ensures d.Keys == DraftFields
    ensures forall k :: k in DraftFields ==> d[k] == Get(skill, k)
  {
    map["name" := Get(skill, "name"), "level" := Get(skill, "level"), "category" := Get(skill, "category")]
  }

  /** `openModal(skill)`'s draft. */
  function OpeningDraft(skill: Option<Doc>): (d: Doc)
    ensures d.Keys == DraftFields
  {
    if skill.Some? then SeedDraft(skill.value) else DefaultDraft()
  }

  // ---------------------------------------------------------------- properties

  lemma CollectionPlain()
    ensures PlainId(Collection)
  {
  }


  /** Saving a new skill whose draft has no `undefined` field stores exactly the draft's three
      fields, with no timestamps, under the new id. */
  lemma CreateStoresDraft(docs: map<DocKey, Doc>, newId: string, form: Doc)
    requires form.Keys == DraftFields && !HasUndefined(form)
    ensures SaveRecord(docs, Collection, None, newId, form, None).outcome == Pass
    ensures SaveRecord(docs, Collection, None, newId, form, None).docs[DocKey(Collection, newId)].Keys == DraftFields
  {
    SaveRecordCreates(docs, Collection, newId, form);
  }

  /** Editing a skill stored without one of the three fields copies `undefined` into the
      draft, so saving it unchanged is refused and nothing is written. */
  lemma EditingIncompleteSkillFails(docs: map<DocKey, Doc>, skill: Doc, field: string, newId: string, fault: Option<string>)
    requires field in DraftFields && field !in skill && Get(skill, "id").Str? && PlainId(Get(skill, "id").s)
    ensures var s := SaveRecord(docs, Collection, Some(skill), newId, SeedDraft(skill), fault);
      s == Submission(Fail(UndefinedFieldMessage), docs)
  {
    CollectionPlain();
    UpdatePlainId(docs, Collection, Get(skill, "id").s, SeedDraft(skill), fault);
    assert SeedDraft(skill)[field] == Undefined;
  }

  /** An edit writes the three draft fields over the stored skill: any other stored field,
      such as a `createdAt`, is kept. */
  lemma EditKeepsOtherFields(docs: map<DocKey, Doc>, skill: Doc, newId: string, form: Doc, field: string)
    requires form.Keys == DraftFields && field !in DraftFields
    requires Get(skill, "id").Str? && PlainId(Get(skill, "id").s) && DocKey(Collection, Get(skill, "id").s) in docs
    requires field in docs[DocKey(Collection, Get(skill, "id").s)]
    ensures var key := DocKey(Collection, Get(skill, "id").s);
      var s := SaveRecord(docs, Collection, Some(skill), newId, form, None);
      key in s.docs && field in s.docs[key] && s.docs[key][field] == docs[key][field]
  {
    CollectionPlain();
    UpdatePlainId(docs, Collection, Get(skill, "id").s, form, None);
    UpdateLeavesOtherFields(docs, DocKey(Collection, Get(skill, "id").s), form, None, field);
  }

  /** The bar of the admin list is `${skill.level}%`, the same width as on the public site:
      a stored level of 150 is drawn as `150%`, with no clamping. */
  lemma ListWidthIsLevel(skill: Doc, n: nat)
    requires Get(skill, "level") == Num(n)
    ensures SkillsSection.BarWidth(Get(skill, "level")) == JsText.NatToDecimal(n) + "%"
  {
    SkillsSection.WidthIsLevel(n);
  }

  class SkillsManager {
    var skills: seq<Doc>
    var loading: bool
    var isModalOpen: bool
    var editingSkill: Option<Doc>
    var formData: Doc

    /** The draft always has exactly its three fields. */
    predicate Valid()
      reads this
    {
      formData.Keys == DraftFields
    }

    /** The state on mount, before the first fetch completes. */
    constructor ()
      ensures Valid()
      ensures skills == [] && loading && !isModalOpen && editingSkill.None? && formData == DefaultDraft()
    {
      skills := [];
      loading := true;
      isModalOpen := false;
      editingSkill := None;
      formData := DefaultDraft();
    }

    /** `fetchSkills` with the query's answer (ordered by category by the server) as input:
        the list is replaced only when the query succeeds. */
    method FetchSkills(q: QueryResult)
      modifies this
      ensures skills == (if q.Rows? then Records(q.rows) else old(skills))
      ensures !loading
      ensures isModalOpen == old(isModalOpen) && editingSkill == old(editingSkill) && formData == old(formData)
    {
      loading := true;
      if q.Rows? {
        skills := Records(q.rows);
      }
      loading := false;
    }

    /** `openModal(skill)`: edit a copy of the skill's fields, or start from the default draft. */
    method OpenModal(skill: Option<Doc>)
      modifies this
      ensures Valid()
      ensures isModalOpen && editingSkill == skill && formData == OpeningDraft(skill)
      ensures skills == old(skills) && loading == old(loading)
    {
      editingSkill := skill;
      formData := OpeningDraft(skill);
      isModalOpen := true;
    }

    /** `closeModal`: close and forget the edited skill; the draft is left as it is. */
    method CloseModal()
      modifies this
      ensures !isModalOpen && editingSkill.None?
      ensures formData == old(formData) && skills == old(skills) && loading == old(loading)
    {
      isModalOpen := false;
      editingSkill := None;
    }

    /** The name input. */
    method SetName(name: string)
      requires Valid()
      modifies this
      ensures Valid()
      ensures formData == old(formData)["name" := Str(name)]
      ensures skills == old(skills) && loading == old(loading) && isModalOpen == old(isModalOpen) && editingSkill == old(editingSkill)
    {
      formData := formData["name" := Str(name)];
    }

    /** The category select, whose value is always one of its options. */
    method SetCategory(category: string)
      requires Valid() && category in Categories
      modifies this
      ensures Valid()
      ensures formData == old(formData)["category" := Str(category)]
      ensures skills == old(skills) && loading == old(loading) && isModalOpen == old(isModalOpen) && editingSkill == old(editingSkill)
    {
      formData := formData["category" := Str(category)];
    }

    /** The range input: `parseInt` of its value, which the browser keeps between 1 and 100. */
    method SetLevel(level: int)
      requires Valid() && 1 <= level <= 100
      modifies this
      ensures Valid()
      ensures formData == old(formData)["level" := Num(level)]
      ensures skills == old(skills) && loading == old(loading) && isModalOpen == old(isModalOpen) && editingSkill == old(editingSkill)
    {
      formData := formData["level" := Num(level)];
    }

    /** `handleSubmit`: the draft as it is is merged into the edited skill or added as a new
        one. Only success closes the modal (and starts a re-fetch whose `setLoading(true)`
        the `finally` overrides); `loading` ends false either way. */
    method HandleSubmit(store: Store, newId: string, fault: Option<string>) returns (r: Outcome<string>)
      requires Valid()
      modifies this, store
      ensures Valid()
      ensures var s := SaveRecord(old(store.docs), Collection, old(editingSkill), newId, old(formData), fault);
        r == s.outcome && store.docs == s.docs
      ensures !loading && formData == old(formData) && skills == old(skills)
      ensures r.Pass? ==> !isModalOpen && editingSkill.None?
      ensures r.Fail? ==> isModalOpen == old(isModalOpen) && editingSkill == old(editingSkill)
    {
      loading := true;
      r := store.Save(Collection, editingSkill, newId, formData, fault);
      if r.Pass? {
        CloseModal();
      }
      loading := false;
    }

    /** `handleDelete(id)`: nothing happens unless confirmed; a successful delete starts a
        re-fetch, whose first step sets `loading`. `None` when not confirmed. */
    method HandleDelete(id: Value, confirmed: bool, store: Store, fault: Option<string>)
      returns (r: Option<Outcome<string>>)
      modifies this, store
      ensures r.None? <==> !confirmed
      ensures r.Some? ==> r.value == DeleteRecord(old(store.docs), Collection, id, fault).outcome
      ensures store.docs == if confirmed then DeleteRecord(old(store.docs), Collection, id, fault).docs else old(store.docs)
      ensures loading == (if r == Some(Pass) then true else old(loading))
      ensures skills == old(skills) && formData == old(formData) && isModalOpen == old(isModalOpen)
      ensures editingSkill == old(editingSkill)
    {
      if !confirmed {
        return None;
      }
      var out := store.Delete(Collection, id, fault);
      if out.Pass? {
        loading := true;
      }
      r := Some(out);
    }
  }
}
