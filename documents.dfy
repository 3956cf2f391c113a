/** Schemaless documents as the portfolio code sees them: JavaScript objects whose
    fields hold strings, numbers, booleans, string arrays, null or a server-timestamp
    token. A missing field reads as `undefined`. */
module Documents {
  import opened Wrappers
  import JsText

  datatype Value =
    | Undefined
    | Null
    | Bool(b: bool)
    | Num(n: int)
    | Str(s: string)
    | StrList(items: seq<string>)
    | ServerTimestamp  // the opaque token `serverTimestamp()` returns

  /** A plain object; `{...d, k: v}` is `d[k := v]` and `{...a, ...b}` is `a + b`. */
  type Doc = map<string, Value>

  /** `d.k`, or `undefined` when the field is absent. */
  function Get(d: Doc, k: string): Value {
    if k in d then d[k] else Undefined
  }

  /** `d?.k`: `undefined` when there is no object. */
  function GetOpt(d: Option<Doc>, k: string): Value {
    if d.Some? then Get(d.value, k) else Undefined
  }

  /** JavaScript truthiness: the falsy values are exactly `undefined`, `null`, `false`,
      `0` and `''`. */
  predicate Truthy(v: Value)
    ensures !Truthy(v) <==> v == Undefined || v == Null || v == Bool(false) || v == Num(0) || v == Str("")
  {
    match v
    case Undefined => false
    case Null => false
    case Bool(b) => b
    case Num(n) => n != 0
    case Str(s) => s != ""
    case StrList(_) => true
    case ServerTimestamp => true
  }

  /** `a || b`: one of the two operands, the first when it is truthy; the result is truthy
      when either operand is. */
  function Or(a: Value, b: Value): (r: Value)
    ensures r == a || r == b
    ensures Truthy(a) ==> r == a
    ensures Truthy(r) <==> Truthy(a) || Truthy(b)
  {
    if Truthy(a) then a else b
  }

  /** `String(v)`, as a template literal or an object key converts a value: a string is
      itself, a non-negative number reads back as that number, and no other primitive
      converts to the empty string. */
  function ToText(v: Value): (r: string)
    ensures v.Str? ==> r == v.s
    ensures v.Num? && v.n >= 0 ==> r == JsText.NatToDecimal(v.n) && JsText.DecimalValue(r) == v.n
    ensures !v.Str? && !v.StrList? ==> r != ""
  {
    match v
    case Undefined => "undefined"
    case Null => "null"
    case Bool(b) => if b then "true" else "false"
    case Num(n) => if n >= 0 then JsText.DecimalRoundTrip(n); JsText.IntToDecimal(n) else JsText.IntToDecimal(n)
    case Str(s) => s
    case StrList(xs) => JsText.Join(xs, ",")
    // The pending `serverTimestamp()` sentinel; a timestamp read back from Firestore would
    // print as `Timestamp(seconds=..., nanoseconds=...)`, which no modelled path does.
    case ServerTimestamp => "[object Object]"
  }

  /** The message of the error thrown when a string method is called on a non-string. */
  const TypeErrorMessage := "TypeError: not a string"

  /** The string a string method would run on, or the error calling it throws. */
  function TextOf(v: Value): (r: Result<string, string>)
    ensures r.Success? <==> v.Str?
  {
    if v.Str? then Success(v.s) else Failure(TypeErrorMessage)
  }

  /** Some field holds `undefined` (Firestore refuses to write such an object). */
  predicate HasUndefined(d: Doc) {
    exists k | k in d :: d[k] == Undefined
  }

  /** `{ id: doc.id, ...doc.data() }`: the record a query row becomes in component state. */
  function WithId(id: string, data: Doc): (r: Doc)
    ensures "id" in r
    ensures "id" !in data ==> r["id"] == Str(id)
    ensures forall k :: k in data ==> k in r && r[k] == data[k]
  {
    map["id" := Str(id)] + data
  }
}

/** Firestore, reduced to what the editors use: a map from (collection, id) to a
    document, single-document writes whose failure is an input, and reads whose
    results are inputs. */
module Firestore {
  import opened Wrappers
  import opened Documents
  import JsText

  datatype DocKey = DocKey(collection: string, id: string)

  /** What `getDoc` resolves to: a document, no document, or a thrown error. */
  datatype DocSnapshot = Exists(data: Doc) | Missing | ReadFailed(message: string)

  /** What `getDocs` resolves to: the rows (id and data) in query order, or a thrown error. */
  datatype QueryResult = Rows(rows: seq<(string, Doc)>) | QueryFailed(message: string)

  const UndefinedFieldMessage := "Unsupported field value: undefined"
  const NotFoundMessage := "No document to update"
  const BadPathMessage := "Invalid document reference: a document path has an even number of segments"
  const DoubleSlashMessage := "Invalid segment: paths must not contain //"

  /** The records a component keeps after `docs.map(doc => ({id: doc.id, ...doc.data()}))`. */
  function Records(rows: seq<(string, Doc)>): (r: seq<Doc>)
    ensures |r| == |rows|
    ensures forall i :: 0 <= i < |rows| ==> r[i] == WithId(rows[i].0, rows[i].1)
  {
    seq(|rows|, i requires 0 <= i < |rows| => WithId(rows[i].0, rows[i].1))
  }

  /** The strings of `xs` that are not empty, in order. */
  function NonEmpty(xs: seq<string>): (r: seq<string>)
    ensures |r| <= |xs|
  {
    if xs == [] then []
    else (if xs[0] == "" then [] else [xs[0]]) + NonEmpty(xs[1..])
  }

  /** A single path segment: non-empty and without a slash. */
  predicate PlainId(s: string) {
    s != "" && '/' !in s
  }

  /** The segments one argument of `doc()` contributes to the path: its pieces between
      slashes, empty pieces dropped (so leading, trailing and repeated slashes vanish). */
  function Segments(path: string): seq<string> {
    NonEmpty(JsText.Split(path, '/'))
  }

  /** `path.indexOf('//') >= 0`. */
  predicate HasDoubleSlash(path: string) {
    |path| >= 2 && ((path[0] == '/' && path[1] == '/') || HasDoubleSlash(path[1..]))
  }

  /** `doc(db, collection, id)` for an id read from a record. Only a string has the string
      methods the path parser calls; an argument holding `//` is refused; the segments of
      both arguments are joined and must be of even number, the last naming the document
      and the others its collection path. */
  function KeyOf(collection: string, id: Value): (r: Result<DocKey, string>)
    ensures !id.Str? ==> r == Failure(TypeErrorMessage)
    ensures r.Success? ==> id.Str? && !HasDoubleSlash(id.s)
  {
    if !id.Str? then Failure(TypeErrorMessage)
    else if HasDoubleSlash(collection) || HasDoubleSlash(id.s) then Failure(DoubleSlashMessage)
    else
      var segs := Segments(collection) + Segments(id.s);
      if |segs| == 0 || |segs| % 2 == 1 then Failure(BadPathMessage)
      else Success(DocKey(JsText.Join(segs[..|segs| - 1], "/"), segs[|segs| - 1]))
  }

  /** What `NonEmpty` keeps is non-empty and comes from its input. */
  lemma {:induction false} NonEmptyMembers(xs: seq<string>)
    ensures forall x :: x in NonEmpty(xs) ==> x != "" && x in xs
  {
    if xs != [] {
      NonEmptyMembers(xs[1..]);
    }
  }

  /** Every segment is plain. */
  lemma SegmentsPlain(path: string)
    ensures forall x :: x in Segments(path) ==> PlainId(x)
  {
    var pieces := JsText.Split(path, '/');
    NonEmptyMembers(pieces);
    forall x | x in Segments(path) ensures PlainId(x) {
      var i :| 0 <= i < |pieces| && pieces[i] == x;
    }
  }

  /** A key `doc()` accepts names its document by one plain segment, and the path it came
      from has an even number of segments. */
  lemma KeyNamesPlainId(collection: string, id: Value)
    requires KeyOf(collection, id).Success?
    ensures PlainId(KeyOf(collection, id).value.id)
    ensures |Segments(collection) + Segments(id.s)| % 2 == 0
  {
    var segs := Segments(collection) + Segments(id.s);
    SegmentsPlain(collection);
    SegmentsPlain(id.s);
    assert segs[|segs| - 1] in segs;
  }

  /** Text without a slash holds no `//`. */
  lemma {:induction false} NoDoubleSlash(s: string)
    requires '/' !in s
    ensures !HasDoubleSlash(s)
  {
    if |s| >= 2 {
      assert s[1..][0] == s[1];
      NoDoubleSlash(s[1..]);
    }
  }

  /** The segments of a single plain segment are that segment. */
  lemma PlainSegments(s: string)
    requires PlainId(s)
    ensures Segments(s) == [s]
  {
    JsText.SplitWithoutSeparator(s, '/');
    assert NonEmpty([s]) == [s] + NonEmpty([]);
  }

  /** A plain id in a plain collection names the document `collection/id`. */
  lemma PlainKey(collection: string, id: string)
    requires PlainId(collection) && PlainId(id)
    ensures KeyOf(collection, Str(id)) == Success(DocKey(collection, id))
  {
    NoDoubleSlash(collection);
    NoDoubleSlash(id);
    PlainSegments(collection);
    PlainSegments(id);
    assert ([collection] + [id])[..1] == [collection];
  }

  /** An empty id leaves the path with the collection's single segment: `doc()` throws. */
  lemma EmptyIdRejected(collection: string)
    requires PlainId(collection)
    ensures KeyOf(collection, Str("")) == Failure(BadPathMessage)
  {
    NoDoubleSlash(collection);
    NoDoubleSlash("");
    PlainSegments(collection);
    assert JsText.Split("", '/') == [""];
    assert Segments("") == [];
  }

  /** A leading slash in the id is dropped with the empty piece before it. */
  lemma LeadingSlashIgnored(collection: string, id: string)
    requires PlainId(collection) && PlainId(id)
    ensures KeyOf(collection, Str("/" + id)) == KeyOf(collection, Str(id))
  {
    PlainKey(collection, id);
    NoDoubleSlash(collection);
    PlainSegments(collection);
    var w := "/" + id;
    NoDoubleSlash(id);
    assert w[1..] == id;
    JsText.SplitCons('/', id, '/');
    JsText.SplitWithoutSeparator(id, '/');
    assert JsText.Split(w, '/') == [""] + [id];
    assert NonEmpty([""] + [id]) == NonEmpty([id]);
    PlainSegments(id);
    assert Segments(w) == [id];
  }

  /** An id holding one slash between two plain segments gives an odd path: `doc()` throws. */
  lemma NestedIdRejected(collection: string, a: string, b: string)
    requires PlainId(collection) && PlainId(a) && PlainId(b)
    ensures KeyOf(collection, Str(a + "/" + b)).Failure?
  {
    PlainSegments(collection);
    PlainSegments(a);
    PlainSegments(b);
    JsText.SplitAround(a, b, '/');
    JsText.SplitWithoutSeparator(a, '/');
    JsText.SplitWithoutSeparator(b, '/');
    var w := a + "/" + b;
    assert w == a + ['/'] + b;
    assert JsText.Split(w, '/') == [a] + [b];
    assert NonEmpty([a] + [b]) == [a] + NonEmpty([b]);
    assert Segments(w) == [a, b];
  }

  /** Whether a create or overwrite of `data` goes through, given the server's answer `fault`. */
  function WriteCheck(data: Doc, fault: Option<string>): (r: Outcome<string>)
    ensures r.Pass? <==> !HasUndefined(data) && fault.None?
  {
    if HasUndefined(data) then Fail(UndefinedFieldMessage)
    else if fault.Some? then Fail(fault.value)
    else Pass
  }

  /** Whether an `updateDoc` of `key` with `patch` goes through. */
  function UpdateCheck(docs: map<DocKey, Doc>, key: DocKey, patch: Doc, fault: Option<string>): (r: Outcome<string>)
    ensures r.Pass? <==> !HasUndefined(patch) && fault.None? && key in docs
  {
    if HasUndefined(patch) then Fail(UndefinedFieldMessage)
    else if fault.Some? then Fail(fault.value)
    else if key !in docs then Fail(NotFoundMessage)
    else Pass
  }

  /** Store contents after an `updateDoc`: the patch is merged over the stored fields. */
  function AfterUpdate(docs: map<DocKey, Doc>, key: DocKey, patch: Doc, fault: Option<string>): (r: map<DocKey, Doc>)
    ensures r.Keys == docs.Keys
    ensures UpdateCheck(docs, key, patch, fault).Pass? ==> r[key] == docs[key] + patch
    ensures UpdateCheck(docs, key, patch, fault).Fail? ==> r == docs
    ensures forall k :: k in docs && k != key ==> r[k] == docs[k]
  {
    if UpdateCheck(docs, key, patch, fault).Pass? then docs[key := docs[key] + patch] else docs
  }

  /** Merging the same patch twice stores what merging it once does. */
  lemma UpdateIdempotent(docs: map<DocKey, Doc>, key: DocKey, patch: Doc)
    requires UpdateCheck(docs, key, patch, None).Pass?
    ensures AfterUpdate(AfterUpdate(docs, key, patch, None), key, patch, None)
         == AfterUpdate(docs, key, patch, None)
  {
    var once := AfterUpdate(docs, key, patch, None);
    assert once[key] + patch == once[key];
  }

  /** Updating merges into the stored document: a field the patch does not carry keeps
      its stored value. */
  lemma UpdateLeavesOtherFields(docs: map<DocKey, Doc>, key: DocKey, patch: Doc, fault: Option<string>, field: string)
    requires key in docs && field in docs[key] && field !in patch
    ensures AfterUpdate(docs, key, patch, fault).Keys == docs.Keys
    ensures field in AfterUpdate(docs, key, patch, fault)[key]
    ensures AfterUpdate(docs, key, patch, fault)[key][field] == docs[key][field]
  {
  }

  /** What an editor's save does to the store: its outcome and the store contents after it. */
  datatype Submission = Submission(outcome: Outcome<string>, docs: map<DocKey, Doc>)

  /** `updateDoc(doc(db, collection, id), patch)`: the path error, or the update's check
      and merge. */
  function UpdateRecord(docs: map<DocKey, Doc>, collection: string, id: Value, patch: Doc, fault: Option<string>)
    : (s: Submission)
    ensures s.outcome.Pass? <==>
      KeyOf(collection, id).Success? && UpdateCheck(docs, KeyOf(collection, id).value, patch, fault).Pass?
    ensures s.outcome.Pass? ==>
      var key := KeyOf(collection, id).value; s.docs == docs[key := docs[key] + patch]
    ensures s.outcome.Fail? ==> s.docs == docs
  {
    match KeyOf(collection, id)
    case Failure(m) => Submission(Fail(m), docs)
    case Success(key) => Submission(UpdateCheck(docs, key, patch, fault), AfterUpdate(docs, key, patch, fault))
  }

  /** An update through `doc(db, collection, id)` leaves the set of records alone, and a
      field the patch does not carry keeps its stored value in the record `collection/id`,
      whichever record the path names. */
  lemma UpdateKeepsAbsentField(docs: map<DocKey, Doc>, collection: string, id: string, patch: Doc, fault: Option<string>, field: string)
    requires DocKey(collection, id) in docs && field in docs[DocKey(collection, id)] && field !in patch
    ensures var s := UpdateRecord(docs, collection, Str(id), patch, fault);
      s.docs.Keys == docs.Keys
      && field in s.docs[DocKey(collection, id)]
      && s.docs[DocKey(collection, id)][field] == docs[DocKey(collection, id)][field]
  {
    var key := DocKey(collection, id);
    var s := UpdateRecord(docs, collection, Str(id), patch, fault);
    if s.outcome.Pass? {
      var k := KeyOf(collection, Str(id)).value;
      assert k in docs && s.docs == docs[k := docs[k] + patch];
      if k == key {
        assert s.docs[key] == docs[key] + patch;
      }
    }
  }

  /** Updating by a plain id in a plain collection is the `updateDoc` of `collection/id`. */
  lemma UpdatePlainId(docs: map<DocKey, Doc>, collection: string, id: string, patch: Doc, fault: Option<string>)
    requires PlainId(collection) && PlainId(id)
    ensures UpdateRecord(docs, collection, Str(id), patch, fault)
         == Submission(UpdateCheck(docs, DocKey(collection, id), patch, fault), AfterUpdate(docs, DocKey(collection, id), patch, fault))
  {
    PlainKey(collection, id);
  }

  /** The write of an editor's save: `updateDoc(doc(db, collection, editing.id), data)` when a
      record is being edited, `addDoc(collection(db, collection), data)` under the id the
      server picks otherwise. */
  function SaveRecord(docs: map<DocKey, Doc>, collection: string, editing: Option<Doc>, newId: string, data: Doc, fault: Option<string>)
    : (s: Submission)
    ensures s.outcome.Fail? ==> s.docs == docs
    ensures editing.None? ==> s.outcome == WriteCheck(data, fault)
    ensures editing.Some? ==> s == UpdateRecord(docs, collection, Get(editing.value, "id"), data, fault)
  {
    if editing.Some? then UpdateRecord(docs, collection, Get(editing.value, "id"), data, fault)
    else
      var out := WriteCheck(data, fault);
      Submission(out, if out.Pass? then docs[DocKey(collection, newId) := data] else docs)
  }

  /** Creating a record without `undefined` fields and without a server fault stores it
      under the new id. */
  lemma SaveRecordCreates(docs: map<DocKey, Doc>, collection: string, newId: string, data: Doc)
    requires !HasUndefined(data)
    ensures SaveRecord(docs, collection, None, newId, data, None) == Submission(Pass, docs[DocKey(collection, newId) := data])
  {
  }

  /** Editing a record whose `id` is not a string fails before any write. */
  lemma SaveRecordNeedsStringId(docs: map<DocKey, Doc>, collection: string, record: Doc, newId: string, data: Doc, fault: Option<string>)
    requires !Get(record, "id").Str?
    ensures SaveRecord(docs, collection, Some(record), newId, data, fault) == Submission(Fail(TypeErrorMessage), docs)
  {
  }

  /** What `deleteDoc(doc(db, collection, id))` does to the store: the path error, the
      server's refusal, or the key removed. Deleting a document that does not exist is no
      error. */
  function DeleteRecord(docs: map<DocKey, Doc>, collection: string, id: Value, fault: Option<string>): (s: Submission)
    ensures s.outcome.Pass? <==> KeyOf(collection, id).Success? && fault.None?
    ensures s.outcome.Pass? ==> s.docs == docs - {KeyOf(collection, id).value}
    ensures s.outcome.Fail? ==> s.docs == docs
  {
    match KeyOf(collection, id)
    case Failure(m) => Submission(Fail(m), docs)
    case Success(key) =>
      if fault.Some? then Submission(Fail(fault.value), docs) else Submission(Pass, docs - {key})
  }

  /** Deleting by a plain id removes exactly the document `collection/id`. */
  lemma DeletePlainId(docs: map<DocKey, Doc>, collection: string, id: string)
    requires PlainId(collection) && PlainId(id)
    ensures DeleteRecord(docs, collection, Str(id), None) == Submission(Pass, docs - {DocKey(collection, id)})
  {
    PlainKey(collection, id);
  }

  /** Deleting by an empty id throws in `doc()` and leaves the store as it is. */
  lemma DeleteEmptyIdChangesNothing(docs: map<DocKey, Doc>, collection: string, fault: Option<string>)
    requires PlainId(collection)
    ensures DeleteRecord(docs, collection, Str(""), fault) == Submission(Fail(BadPathMessage), docs)
  {
    EmptyIdRejected(collection);
  }

  class Store {
    var docs: map<DocKey, Doc>

    constructor (initial: map<DocKey, Doc>)
      ensures docs == initial
    {
      docs := initial;
    }

    /** `setDoc(doc(db, key), data)`: overwrite the whole document. */
    method SetDoc(key: DocKey, data: Doc, fault: Option<string>) returns (r: Outcome<string>)
      modifies this
      ensures r == WriteCheck(data, fault)
      ensures docs == if r.Pass? then old(docs)[key := data] else old(docs)
    {
      r := WriteCheck(data, fault);
      if r.Pass? {
        docs := docs[key := data];
      }
    }

    /** `addDoc(collection(db, c), data)`; the server picks `newId`. */
    method AddDoc(collection: string, newId: string, data: Doc, fault: Option<string>) returns (r: Outcome<string>)
      modifies this
      ensures r == WriteCheck(data, fault)
      ensures docs == if r.Pass? then old(docs)[DocKey(collection, newId) := data] else old(docs)
    {
      r := WriteCheck(data, fault);
      if r.Pass? {
        docs := docs[DocKey(collection, newId) := data];
      }
    }

    /** `updateDoc(doc(db, key), patch)`: merge into an existing document. */
    method UpdateDoc(key: DocKey, patch: Doc, fault: Option<string>) returns (r: Outcome<string>)
      modifies this
      ensures r == UpdateCheck(old(docs), key, patch, fault)
      ensures docs == AfterUpdate(old(docs), key, patch, fault)
    {
      r := UpdateCheck(docs, key, patch, fault);
      if r.Pass? {
        docs := docs[key := docs[key] + patch];
      }
    }

    /** The write step the editors share: `updateDoc` of the edited record's document when
        editing, `addDoc` into the collection otherwise. */
    method Save(collection: string, editing: Option<Doc>, newId: string, data: Doc, fault: Option<string>)
      returns (r: Outcome<string>)
      modifies this
      ensures r == SaveRecord(old(docs), collection, editing, newId, data, fault).outcome
      ensures docs == SaveRecord(old(docs), collection, editing, newId, data, fault).docs
    {
      if editing.Some? {
        r := Update(collection, Get(editing.value, "id"), data, fault);
      } else {
        r := AddDoc(collection, newId, data, fault);
      }
    }

    /** `updateDoc(doc(db, collection, id), patch)`: the path is built first and may throw. */
    method Update(collection: string, id: Value, patch: Doc, fault: Option<string>) returns (r: Outcome<string>)
      modifies this
      ensures r == UpdateRecord(old(docs), collection, id, patch, fault).outcome
      ensures docs == UpdateRecord(old(docs), collection, id, patch, fault).docs
    {
      var key := KeyOf(collection, id);
      if key.Failure? {
        r := Fail(key.error);
      } else {
        r := UpdateDoc(key.value, patch, fault);
      }
    }

    /** `deleteDoc(doc(db, key))`. */
    method DeleteDoc(key: DocKey, fault: Option<string>) returns (r: Outcome<string>)
      modifies this
      ensures r == if fault.Some? then Fail(fault.value) else Pass
      ensures docs == if r.Pass? then old(docs) - {key} else old(docs)
    {
      if fault.Some? {
        r := Fail(fault.value);
      } else {
        r := Pass;
        docs := docs - {key};
      }
    }

    /** `deleteDoc(doc(db, collection, id))`: the path is built first and may throw. */
    method Delete(collection: string, id: Value, fault: Option<string>) returns (r: Outcome<string>)
      modifies this
      ensures r == DeleteRecord(old(docs), collection, id, fault).outcome
      ensures docs == DeleteRecord(old(docs), collection, id, fault).docs
    {
      var key := KeyOf(collection, id);
      if key.Failure? {
        r := Fail(key.error);
      } else {
        r := DeleteDoc(key.value, fault);
      }
    }
  }
}
