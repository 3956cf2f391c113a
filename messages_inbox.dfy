/** The inbox of the admin panel (src/admin/pages/MessagesManagement.jsx): the messages of
    the contact form, newest first, each shown unread until it is opened once. */
module MessagesInbox {
  import opened Wrappers
  import opened Documents
  import opened Firestore

  const Collection := "messages"
  const ReadField := "read"

  /** `{ read: true }`, the patch opening an unread message writes. */
  const ReadPatch: Doc := map[ReadField := Bool(true)]

  /** Whether a record shows as unread: `!message.read`. */
  predicate IsUnread(m: Doc)
    ensures ReadField !in m ==> IsUnread(m)
    ensures Get(m, ReadField) == Bool(false) ==> IsUnread(m)
    ensures Get(m, ReadField) == Bool(true) ==> !IsUnread(m)
  {
    !Truthy(Get(m, ReadField))
  }

  /** `{ ...m, read: true }` for every record whose `id` is `id`, as `prev.map(...)` does. */
  function MarkRead(messages: seq<Doc>, id: Value): (r: seq<Doc>)
    ensures |r| == |messages|
    ensures forall i :: 0 <= i < |messages| ==>
      r[i] == if Get(messages[i], "id") == id then messages[i][ReadField := Bool(true)] else messages[i]
  {
    if messages == [] then []
    else
      var m := messages[0];
      [if Get(m, "id") == id then m[ReadField := Bool(true)] else m] + MarkRead(messages[1..], id)
  }

  /** The number of records shown as unread: at most one per record, and none exactly
      when every record has been read. */
  function UnreadCount(messages: seq<Doc>): (n: nat)
    ensures n <= |messages|
    ensures n == 0 <==> forall i :: 0 <= i < |messages| ==> !IsUnread(messages[i])
  {
    if messages == [] then 0
    else (if IsUnread(messages[0]) then 1 else 0) + UnreadCount(messages[1..])
  }

  /** The number of unread records carrying `id`. */
  function UnreadWithId(messages: seq<Doc>, id: Value): nat {
    if messages == [] then 0
    else (if IsUnread(messages[0]) && Get(messages[0], "id") == id then 1 else 0) + UnreadWithId(messages[1..], id)
  }

  // ---------------------------------------------------------------- properties

  /** After marking, no record carrying `id` shows as unread, and every other record is as it was. */
  lemma MarkedRecordsAreRead(messages: seq<Doc>, id: Value, i: nat)
    requires i < |messages|
    ensures Get(messages[i], "id") == id ==> !IsUnread(MarkRead(messages, id)[i])
    ensures Get(messages[i], "id") != id ==> MarkRead(messages, id)[i] == messages[i]
  {
  }

  /** Marking twice is marking once. */
  lemma {:induction false} MarkReadIdempotent(messages: seq<Doc>, id: Value)
    ensures MarkRead(MarkRead(messages, id), id) == MarkRead(messages, id)
  {
    var once := MarkRead(messages, id);
    var twice := MarkRead(once, id);
    forall i | 0 <= i < |messages| ensures twice[i] == once[i] {
      if Get(messages[i], "id") == id {
        assert Get(once[i], "id") == id;
      }
    }
  }

  /** Marking the records of one id removes exactly the unread records with that id from
      the unread count. */
  lemma {:induction false} MarkReadUnreadCount(messages: seq<Doc>, id: Value)
    ensures UnreadCount(MarkRead(messages, id)) + UnreadWithId(messages, id) == UnreadCount(messages)
  {
    if messages != [] {
      var r := MarkRead(messages, id);
      MarkReadUnreadCount(messages[1..], id);
      assert r[1..] == MarkRead(messages[1..], id);
      if Get(messages[0], "id") == id {
        assert !IsUnread(r[0]);
      } else {
        assert r[0] == messages[0];
      }
    }
  }

  /** Opening an unread message whose id is a plain document id marks exactly that stored
      message read, and changes none of its other fields, when it exists and the server accepts. */
  lemma ReadStoresFlag(docs: map<DocKey, Doc>, id: string)
    requires PlainId(id) && DocKey(Collection, id) in docs
    ensures var s := UpdateRecord(docs, Collection, Str(id), ReadPatch, None);
      var key := DocKey(Collection, id);
      s.outcome == Pass && s.docs == docs[key := docs[key][ReadField := Bool(true)]]
  {
    var key := DocKey(Collection, id);
    CollectionPlain();
    UpdatePlainId(docs, Collection, id, ReadPatch, None);
    ReadPatchClean();
    MergeRead(docs[key]);
  }

  lemma CollectionPlain()
    ensures PlainId(Collection)
  {
  }

  lemma ReadPatchClean()
    ensures !HasUndefined(ReadPatch)
  {
    assert ReadPatch.Keys == {ReadField};
  }

  /** Merging the read patch sets `read` to `true` and nothing else. */
  lemma MergeRead(d: Doc)
    ensures d + ReadPatch == d[ReadField := Bool(true)]
  {
  }

  // ---------------------------------------------------------------- the component

  class Inbox {
    var messages: seq<Doc>
    var loading: bool
    var selected: Option<Doc>

    constructor ()
      ensures messages == [] && loading && selected.None?
    {
      messages := [];
      loading := true;
      selected := None;
    }

    /** `fetchMessages`, from start to finish: the list is replaced only when the query succeeds. */
    method FetchMessages(q: QueryResult)
      modifies this
      ensures messages == (if q.Rows? then Records(q.rows) else old(messages))
      ensures !loading && selected == old(selected)
    {
      loading := true;
      if q.Rows? {
        messages := Records(q.rows);
      }
      loading := false;
    }

    /** `handleRead(message)`: open the message; an unread one is marked read in Firestore
        and, once that write succeeded, in the list. Returns `None` when no write was made. */
    method HandleRead(message: Doc, store: Store, fault: Option<string>) returns (r: Option<Outcome<string>>)
      modifies this, store
      ensures selected == Some(message) && loading == old(loading)
      ensures r.None? <==> !IsUnread(message)
      ensures r.Some? ==> r.value == UpdateRecord(old(store.docs), Collection, Get(message, "id"), ReadPatch, fault).outcome
      ensures r.Some? ==> store.docs == UpdateRecord(old(store.docs), Collection, Get(message, "id"), ReadPatch, fault).docs
      ensures r.Some? && r.value.Pass? ==> messages == MarkRead(old(messages), Get(message, "id"))
      ensures (r.None? || r.value.Fail?) ==> store.docs == old(store.docs) && messages == old(messages)
    {
      selected := Some(message);
      if !IsUnread(message) {
        return None;
      }
      var out := store.Update(Collection, Get(message, "id"), ReadPatch, fault);
      if out.Pass? {
        messages := MarkRead(messages, Get(message, "id"));
      }
      r := Some(out);
    }

    /** `handleDelete(e, id)`: nothing happens unless the deletion is confirmed; a
        successful delete starts a re-fetch (whose first step sets `loading`) and closes the
        detail view when it shows the deleted message. Returns `None` when not confirmed. */
    method HandleDelete(id: Value, confirmed: bool, store: Store, fault: Option<string>)
      returns (r: Option<Outcome<string>>)
      modifies this, store
      ensures r.None? <==> !confirmed
      ensures r.Some? ==> r.value == DeleteRecord(old(store.docs), Collection, id, fault).outcome
      ensures store.docs == if confirmed then DeleteRecord(old(store.docs), Collection, id, fault).docs else old(store.docs)
      ensures loading == (if r == Some(Pass) then true else old(loading))
      ensures selected == if r == Some(Pass) && old(selected).Some? && Get(old(selected).value, "id") == id then None else old(selected)
      ensures messages == old(messages)
    {
      if !confirmed {
        return None;
      }
      var out := store.Delete(Collection, id, fault);
      if out.Pass? {
        loading := true;
        if selected.Some? && Get(selected.value, "id") == id {
          selected := None;
        }
      }
      r := Some(out);
    }
  }
}
