/** The contact section of the public site (src/components/Contact.jsx): the owner's contact
    details, and a four-field form whose submission adds an unread message to the inbox. */
module Contact {
  import opened Wrappers
  import opened Documents
  import opened Firestore
  import MessagesInbox

  /** `defaultData`. */
  function DefaultContact(): (d: Doc)
    ensures d.Keys == {"email", "phone", "location"}
  {
    map["email" := Str("hello@johndoe.com"), "phone" := Str("+1 (555) 000-0000"), "location" := Str("San Francisco, CA")]
  }

  /** The details shown beside the form: email, phone and location. */
  datatype ContactInfo = ContactInfo(email: Value, phone: Value, location: Value)

  /** The details of `profile || defaultData`: a loaded profile is used whole. */
  function InfoOf(profile: Option<Doc>): (c: ContactInfo)
    ensures profile.Some? ==> c == ContactInfo(Get(profile.value, "email"), Get(profile.value, "phone"), Get(profile.value, "location"))
  {
    var data := if profile.Some? then profile.value else DefaultContact();
    ContactInfo(Get(data, "email"), Get(data, "phone"), Get(data, "location"))
  }

  /** The `name` attributes of the four inputs. */
  const FormFields: set<string> := {"name", "email", "subject", "message"}

  /** The form holds exactly its four fields, each a string. */
  predicate FormShape(form: Doc) {
    form.Keys == FormFields && forall k :: k in form ==> form[k].Str?
  }

  /** The empty form, on mount and after a message is sent. */
  function EmptyForm(): (d: Doc)
    ensures FormShape(d)
    ensures forall k :: k in d ==> d[k] == Str("")
  {
    map["name" := Str(""), "email" := Str(""), "subject" := Str(""), "message" := Str("")]
  }

  /** The document added to `messages`: the form, a server `createdAt` and `read: false`. */
  function MessageOf(form: Doc): (m: Doc)
    ensures m.Keys == form.Keys + {"createdAt", MessagesInbox.ReadField}
    ensures forall k :: k in form && k != "createdAt" && k != MessagesInbox.ReadField ==> m[k] == form[k]
    ensures m["createdAt"] == ServerTimestamp && m[MessagesInbox.ReadField] == Bool(false)
  {
    form["createdAt" := ServerTimestamp][MessagesInbox.ReadField := Bool(false)]
  }

  // ---------------------------------------------------------------- properties

  /** Without a profile the defaults are shown. */
  lemma NoProfileShowsDefaults()
    ensures InfoOf(None) == ContactInfo(Str("hello@johndoe.com"), Str("+1 (555) 000-0000"), Str("San Francisco, CA"))
  {
    var d := DefaultContact();
    assert Get(d, "email") == Str("hello@johndoe.com");
    assert Get(d, "phone") == Str("+1 (555) 000-0000");
    assert Get(d, "location") == Str("San Francisco, CA");
  }

  /** A well-formed form never holds `undefined`, so only the server can refuse a message. */
  lemma OnlyServerRefuses(form: Doc, fault: Option<string>)
    requires FormShape(form)
    ensures WriteCheck(MessageOf(form), fault).Pass? <==> fault.None?
  {
    var m := MessageOf(form);
    forall k | k in m
      ensures m[k] != Undefined
    {
      if k in form && k != "createdAt" && k != MessagesInbox.ReadField {
        assert m[k] == form[k];
      }
    }
  }

  /** A sent message reaches the inbox unread, and the inbox shows it until it is marked. */
  lemma SentMessageArrivesUnread(form: Doc)
    requires FormShape(form)
    ensures MessagesInbox.IsUnread(MessageOf(form))
    ensures forall k :: k in FormFields ==> Get(MessageOf(form), k) == form[k]
  {
    assert Get(MessageOf(form), MessagesInbox.ReadField) == Bool(false);
  }

  class ContactForm {
    var formData: Doc
    var isSubmitting: bool

    predicate Valid()
      reads this
    {
      FormShape(formData)
    }

    constructor ()
      ensures Valid() && formData == EmptyForm() && !isSubmitting
    {
      formData := EmptyForm();
      isSubmitting := false;
    }

    /** `handleChange`: the input named `name` takes the typed value; the others keep theirs. */
    method HandleChange(name: string, value: string)
      requires Valid() && name in FormFields
      modifies this
      ensures Valid()
      ensures formData == old(formData)[name := Str(value)]
      ensures forall k :: k in FormFields && k != name ==> formData[k] == old(formData)[k]
      ensures isSubmitting == old(isSubmitting)
    {
      formData := formData[name := Str(value)];
    }

    /** `handleSubmit`: add the message; a sent message empties the form, a refused one
        leaves it for another try. `isSubmitting` ends false either way. */
    method HandleSubmit(store: Store, newId: string, fault: Option<string>) returns (r: Outcome<string>)
      requires Valid()
      modifies this, store
      ensures Valid()
      ensures r == WriteCheck(MessageOf(old(formData)), fault)
      ensures r.Pass? <==> fault.None?
      ensures store.docs == if r.Pass? then old(store.docs)[DocKey(MessagesInbox.Collection, newId) := MessageOf(old(formData))] else old(store.docs)
      ensures formData == if r.Pass? then EmptyForm() else old(formData)
      ensures !isSubmitting
    {
      isSubmitting := true;
      OnlyServerRefuses(formData, fault);
      r := store.AddDoc(MessagesInbox.Collection, newId, MessageOf(formData), fault);
      if r.Pass? {
        formData := EmptyForm();
      }
      isSubmitting := false;
    }
  }
}
