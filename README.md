# Portfolio site and admin console: a verified model of its data logic

The system is a personal portfolio website with an admin console, built on React, Firestore
and Cloudinary. The public page shows a hero, projects, grouped skills, an about section,
social links and a contact form. Every section falls back to built-in content when the
database has nothing. The admin console has one editor per collection: projects, skills,
experiences, the profile singleton, the social-profile singleton and the message inbox.

This project models the logic those components carry, written as Dafny:

- the text transforms the components use: the tag codec, heading split, URL rewrite, `formatUrl` and the upload classifier;
- the grouping of skills by category on the home page;
- the fallbacks to default content;
- the state each editor keeps: the draft, the modal, the staged files and the loading flags;
- what each editor writes when a record is loaded, seeded, submitted or deleted.

How the outside world is represented:

- **Firestore** is a map from (collection, id) to a document. It is held in a `Store` class.
  - A write takes the server's answer as a `fault` parameter.
  - A write that carries an `undefined` field is refused, as Firestore does by default.
  - A read (`getDoc`, `getDocs`, an `onSnapshot` callback) is an input value.
- **Cloudinary**'s HTTP call is a function parameter from the request built to the server's answer.
- **`serverTimestamp()`** is an opaque token.
- **Documents** are `map<string, Value>`. `Value` has the JavaScript cases the code meets: `undefined`, `null`, booleans, numbers, strings, string arrays and the timestamp token.
- **JavaScript operators and throws:**
  - `||` and truthiness are written out as functions.
  - A string method called on a non-string throws; the model returns a `Failure` there.
- **Document paths:** `doc(db, collection, id)` joins its arguments with `/`, drops the empty segments, and accepts only a path of an even, non-zero number of segments without `//`. An id read from a record can therefore name a different document (`/abc` names `abc`) or none at all (`""`, `a/b`); `Firestore.KeyOf` models this.
- **Re-fetches:** a handler that starts a re-fetch without awaiting it (`fetchProjects()` after a save) performs only its synchronous first step, `setLoading(true)`. The re-fetch itself is the separate `Fetch*` method.

Modules, one per source file, plus shared ones:

- `Wrappers`: `Option`, `Result` and `Outcome`.
- `JsText`: the JavaScript string methods used.
- `Documents` and `Firestore`: the data model and the store.
- `Cloudinary`: src/utils/cloudinary.js.
- `DownloadLinks`: the `getDownloadUrl` helpers.
- `ProjectTags` and `ProjectsEditor`: the projects editor.
- `ProfileEditor`, `MessagesInbox`, `SocialProfiles`, `SkillsEditor`, `ExperiencesEditor`: the other editors.
- `SocialLinks`, `SkillGroups`, `Home`, `Headings`, `Hero`, `SkillsSection`, `ProjectsSection`, `AboutSection`, `Contact`: the public page.

Where the code does not match the behaviour one would expect, the model follows the code:

- **Empty tags are kept.** The tag field is split at commas and every piece is trimmed. Empty and blank pieces are *kept*: `"React, , Firebase,"` gives `["React", "", "Firebase", ""]`, and an empty field gives `[""]` (`src/admin/pages/ProjectsManagement.jsx:90`).
- **Skill levels are not clamped.** They are drawn as stored, on the public bars and in the admin list: a level of 150 gives a width of `150%` (`src/components/Skills.jsx:13`, `src/admin/pages/SkillsManagement.jsx:152`).
- **The read flag changes only after the write.** The inbox marks a message as read in its local list *after* the write succeeds. A failed write leaves the list as it was; nothing is changed ahead of the server (`src/admin/pages/MessagesManagement.jsx:70-71`).
- **Some category names break the grouping.** The accumulator on the home page is a plain object. A category named like an inherited object member (`constructor`, `toString`, …) makes `push` throw. The throw ends the load before the profile is read. The model keeps this behaviour (`SkillGroups.Blocked`, `Home.InheritedCategoryStopsLoad`). The admin editor only offers seven fixed category names, none of them affected.

## Model

| member | source | states |
|---|---|---|
| JsText.TrimStart | src/admin/pages/ProjectsManagement.jsx:90 | the result is a suffix of the input, everything dropped is whitespace, and it starts with a non-space |
| JsText.TrimEnd | src/admin/pages/ProjectsManagement.jsx:90 | the result is a prefix of the input, everything dropped is whitespace, and it ends with a non-space |
| JsText.Trim | src/admin/pages/ProjectsManagement.jsx:90 | `trim()` leaves no whitespace at either end and is the identity on trimmed text |
| JsText.TrimSubMultiset | src/admin/pages/ProjectsManagement.jsx:90 | trimming only removes characters, never adds any |
| JsText.TrimEmptyIff | src/admin/pages/ProjectsManagement.jsx:90 | a piece trims to `""` exactly when it is all whitespace |
| JsText.TrimLeadingSpace | src/admin/pages/ProjectsManagement.jsx:90 | the space `join(', ')` inserts is removed again by `trim()` |
| JsText.Split | src/admin/pages/ProjectsManagement.jsx:90 | `split(sep)` yields at least one piece and no piece contains the separator |
| JsText.MapSeq | src/admin/pages/ProjectsManagement.jsx:90 | `array.map(f)` keeps the length and puts `f` of the i-th element at index i |
| JsText.MapAppend | src/admin/pages/ProjectsManagement.jsx:90 | mapping a concatenation is concatenating the mapped parts |
| JsText.SplitCount | src/admin/pages/ProjectsManagement.jsx:90 | `split` yields one more piece than the text has separators |
| JsText.JoinSplit | src/components/Skills.jsx:52-53 | joining the pieces of a split with the separator restores the text |
| JsText.SplitJoin | src/admin/pages/ProjectsManagement.jsx:134 | splitting a join of separator-free pieces restores the pieces |
| JsText.SplitWithoutSeparator | src/components/Skills.jsx:52 | text without the separator splits into itself alone |
| JsText.SplitAround | src/admin/pages/ProjectsManagement.jsx:90 | splitting `x + sep + y` gives the pieces of `x` followed by the pieces of `y` |
| JsText.JoinLast | src/components/Skills.jsx:53-54 | a join of two or more pieces is the join of all but the last, the separator and the last |
| JsText.IndexFrom | src/admin/pages/ProfileManagement.jsx:155-156 | the search from `k` finds an occurrence with none earlier, or reports that there is none at all |
| JsText.IndexOf | src/admin/pages/ProfileManagement.jsx:155-156 | `indexOf` finds the first occurrence of the pattern, or reports that there is none |
| JsText.ReplaceFirst | src/admin/pages/ProfileManagement.jsx:156 | `replace` with a string pattern rewrites only the first occurrence and leaves text without one unchanged |
| JsText.ToLower | src/utils/cloudinary.js:13 | `toLowerCase` keeps the length and lowers each character |
| JsText.NatToDecimal | src/components/Skills.jsx:13 | a number is rendered as a non-empty string of decimal digits |
| JsText.DecimalRoundTrip | src/components/Skills.jsx:13 | reading back the rendered digits gives the number |
| Documents.TextOf | src/components/About.jsx:45 | a string method runs only on a string; on anything else it throws |
| Documents.WithId | src/admin/pages/ProjectsManagement.jsx:51-54 | `{id, ...data}` keeps every stored field and adds the document id unless the data has its own `id` |
| Documents.Truthy | src/components/Hero.jsx:19 | the falsy values are exactly `undefined`, `null`, `false`, `0` and `''` |
| Documents.Or | src/components/Hero.jsx:12 | the or-operator gives one of its operands, the first when that is truthy, and is truthy when either operand is |
| Documents.ToText | src/pages/Home.jsx:45 | `String(v)` of a string is the string, of a non-negative number its decimal numeral (which reads back as the number), and of no other primitive the empty string |
| Firestore.Records | src/admin/pages/ProjectsManagement.jsx:51-54 | the list keeps the query's order and length, each row becoming its data with its id |
| Firestore.KeyOf | src/admin/pages/ProjectsManagement.jsx:96 | `doc(db, collection, id)` throws a `TypeError` for an id that is not a string; a path it accepts holds no `//` (the lemmas below pin which paths it accepts and the key they name) |
| Firestore.KeyNamesPlainId | src/admin/pages/ProjectsManagement.jsx:96 | an accepted path has an even number of segments and names its document by one non-empty, slash-free id |
| Firestore.PlainKey | src/admin/pages/ProjectsManagement.jsx:96 | a slash-free non-empty id in a slash-free collection names the document `collection/id` |
| Firestore.EmptyIdRejected | src/admin/pages/MessagesManagement.jsx:56 | an empty id leaves a one-segment path, which `doc()` rejects |
| Firestore.LeadingSlashIgnored | src/admin/pages/ProjectsManagement.jsx:96 | a leading `/` in the id is dropped: `/abc` names the same document as `abc` |
| Firestore.NestedIdRejected | src/admin/pages/ProjectsManagement.jsx:96 | an id `a/b` gives an odd number of segments, which `doc()` rejects |
| Firestore.WriteCheck | src/admin/pages/ProjectsManagement.jsx:99-102 | a create or overwrite succeeds exactly when no field is `undefined` and the server accepts |
| Firestore.UpdateCheck | src/admin/pages/ProjectsManagement.jsx:96 | an update succeeds exactly when no field is `undefined`, the server accepts and the document exists |
| Firestore.AfterUpdate | src/admin/pages/ProjectsManagement.jsx:96 | after an `updateDoc` the same documents exist; a passing update merges the patch over the stored fields of its document, every other document is unchanged, and a failing one changes nothing |
| Firestore.UpdateIdempotent | src/admin/pages/MessagesManagement.jsx:70 | merging the same patch twice stores what merging it once does |
| Firestore.UpdateLeavesOtherFields | src/admin/pages/ProjectsManagement.jsx:96 | an update merges: fields the patch does not carry keep their stored values |
| Firestore.UpdateRecord | src/admin/pages/ProjectsManagement.jsx:96 | `updateDoc(doc(db, collection, id), patch)` passes exactly when the path is accepted and the update check passes; it then merges the patch into the named document, and otherwise leaves the store as it was |
| Firestore.UpdatePlainId | src/admin/pages/SkillsManagement.jsx:65 | with a plain id the update is the check and merge of the document `collection/id` |
| Firestore.UpdateKeepsAbsentField | src/admin/pages/ProjectsManagement.jsx:96 | whatever document the path names, the set of records is kept and a field the patch lacks keeps its value in `collection/id` |
| Firestore.DeleteRecord | src/admin/pages/ProjectsManagement.jsx:119 | `deleteDoc(doc(db, collection, id))` passes exactly when the path is accepted and the server agrees, and then removes exactly the named key; otherwise the store is unchanged |
| Firestore.DeletePlainId | src/admin/pages/SkillsManagement.jsx:84 | with a plain id the delete removes exactly `collection/id` |
| Firestore.DeleteEmptyIdChangesNothing | src/admin/pages/MessagesManagement.jsx:56 | deleting by an empty id fails in `doc()` and leaves the store as it is |
| Firestore.SaveRecord | src/admin/pages/ProjectsManagement.jsx:95-104 | a refused save leaves the store as it was; a create is decided by the write check alone |
| Firestore.SaveRecordCreates | src/admin/pages/ProjectsManagement.jsx:99-102 | a create without `undefined` fields and without a server fault stores the data under the new id |
| Firestore.SaveRecordNeedsStringId | src/admin/pages/ProjectsManagement.jsx:96 | editing a record whose id is not a string fails with a `TypeError` before any write |
| Firestore.Store.SetDoc | src/admin/pages/ProfileManagement.jsx:139 | `setDoc` replaces the whole document when the write check passes, and changes nothing otherwise |
| Firestore.Store.AddDoc | src/components/Contact.jsx:30-34 | `addDoc` stores the data under the new id when the write check passes, and changes nothing otherwise |
| Firestore.Store.UpdateDoc | src/admin/pages/MessagesManagement.jsx:70 | `updateDoc` merges the patch into the stored document when the update check passes |
| Firestore.Store.DeleteDoc | src/admin/pages/MessagesManagement.jsx:56 | `deleteDoc` removes the key unless the server refuses |
| Firestore.Store.Update | src/admin/pages/MessagesManagement.jsx:70 | the update by collection and id answers and changes the store exactly as `UpdateRecord` states |
| Firestore.Store.Delete | src/admin/pages/ExperiencesManagement.jsx:97 | the delete by collection and id answers and changes the store exactly as `DeleteRecord` states |
| Firestore.Store.Save | src/admin/pages/ProjectsManagement.jsx:95-102 | an editor's write (`updateDoc` of the edited record, `addDoc` otherwise) answers and changes the store exactly as `SaveRecord` states |
| Cloudinary.FinalResourceType | src/utils/cloudinary.js:13-14 | the resource type is always `raw` or the requested one (`auto` by default) |
| Cloudinary.Configured | src/utils/cloudinary.js:5-10 | the upload is configured exactly when neither setting is undefined or empty |
| Cloudinary.IsPdf | src/utils/cloudinary.js:13 | a file typed `application/pdf`, or whose name ends in `.pdf`, is a PDF; a file of another type is one only by its lower-cased name, which then has at least four characters |
| Cloudinary.Endpoint | src/utils/cloudinary.js:25 | the endpoint lies under `https://api.cloudinary.com/v1_1/`, ends in `/upload`, and is as long as its pieces |
| Cloudinary.RequestFor | src/utils/cloudinary.js:18-29 | the request is a `POST` to the endpoint, with the form fields `file`, `upload_preset` and `resource_type`, in that order, carrying the file, the preset and the final resource type |
| Cloudinary.Upload | src/utils/cloudinary.js:4-41 | without configuration the upload fails with the configuration message; otherwise it succeeds exactly when the answer to the request it builds has no `error`, with that answer's `secure_url`, and fails with the thrown or reported message |
| Cloudinary.UploadToCloudinary | src/utils/cloudinary.js:4-41 | the upload checks the configuration, builds the form and the endpoint, and returns `secure_url` or the error, as `Upload` states |
| Cloudinary.MissingConfigFailsFirst | src/utils/cloudinary.js:8-10 | a missing or empty cloud name or preset fails with the configuration message, whatever the server would answer |
| Cloudinary.PdfByMimeTypeIsRaw | src/utils/cloudinary.js:13-14 | a file of type `application/pdf` is uploaded as `raw` |
| Cloudinary.PdfByExtensionIsRaw | src/utils/cloudinary.js:13-14 | a file whose lower-cased name ends in `.pdf` is uploaded as `raw`, whatever its type |
| Cloudinary.UpperCaseExtensionIsRaw | src/utils/cloudinary.js:13 | `CV.PDF` with a generic type is still uploaded as `raw` |
| Cloudinary.NonPdfKeepsRequestedType | src/utils/cloudinary.js:4-14 | any other file keeps the requested type, `auto` when none is requested |
| Cloudinary.EndpointCarriesResourceType | src/utils/cloudinary.js:21-25 | the endpoint's path names the cloud and the final type, and the form's `resource_type` field is that same type |
| Cloudinary.UploadSuccessIsSecureUrl | src/utils/cloudinary.js:32-36 | a successful upload was configured and the server answered without `error`, with that URL as `secure_url` |
| DownloadLinks.AttachmentRewrite | src/admin/pages/ProfileManagement.jsx:155-158 | a Cloudinary image URL gets `fl_attachment/` after its first `/image/upload/`; every other URL is unchanged |
| DownloadLinks.InsertAfterMarker | src/admin/pages/ProfileManagement.jsx:156 | replacing the marker by the longer path is inserting `fl_attachment/` right after the marker |
| DownloadLinks.InsertAfter | src/admin/pages/ProfileManagement.jsx:156 | putting `pat + flag` where `pat` occurs is inserting `flag` right after that occurrence |
| DownloadLinks.DownloadUrl | src/admin/pages/ProfileManagement.jsx:153-159 | an absent URL gives the fallback; a non-empty string gives its rewrite |
| DownloadLinks.ProfileDownloadUrl | src/admin/pages/ProfileManagement.jsx:153-159 | no URL gives `null`; a URL gives its rewrite; only a truthy non-string can throw, and with a `TypeError` |
| DownloadLinks.HeroDownloadUrl | src/components/Hero.jsx:18-25 | no URL gives `/resume.pdf`; any stored string gives a non-empty link, the rewrite of a non-empty URL; only a truthy non-string can throw |
| DownloadLinks.NoUrlFallbacks | src/admin/pages/ProfileManagement.jsx:154 | with no URL the profile editor links nothing and the hero links `/resume.pdf` |
| DownloadLinks.OtherUrlsUnchanged | src/admin/pages/ProfileManagement.jsx:158 | a URL that is not a Cloudinary image is returned as it is by both variants |
| DownloadLinks.CloudinaryUrlGetsFlag | src/admin/pages/ProfileManagement.jsx:155-157 | the rewritten URL is the original with `fl_attachment/` inserted after the first `/image/upload/` |
| DownloadLinks.VariantsAgreeOnPresentUrls | src/components/Hero.jsx:18-25 | the hero's and the editor's helpers differ only in their fallback |
| ProjectTags.ParseTags | src/admin/pages/ProjectsManagement.jsx:90 | the parsed list is never empty and no tag holds a comma |
| ProjectTags.ParseTagsTrimmed | src/admin/pages/ProjectsManagement.jsx:90 | every parsed tag is trimmed |
| ProjectTags.ParseTagsCount | src/admin/pages/ProjectsManagement.jsx:90 | there is one tag more than the field has commas |
| ProjectTags.TrimAll | src/admin/pages/ProjectsManagement.jsx:90 | `map(tag => tag.trim())` keeps the length and trims each piece |
| ProjectTags.SeedTags | src/admin/pages/ProjectsManagement.jsx:134 | an array of tags is seeded as its `join(', ')`; anything else as `''` |
| ProjectTags.FormatTags | src/admin/pages/ProjectsManagement.jsx:134 | no tags give an empty field; otherwise the text starts with the first tag and ends with the last |
| ProjectTags.BlankPiecesKept | src/admin/pages/ProjectsManagement.jsx:90 | a blank piece is kept as an empty tag, not dropped |
| ProjectTags.EmptyFieldGivesOneEmptyTag | src/admin/pages/ProjectsManagement.jsx:90 | an empty field is saved as `[""]` |
| ProjectTags.BlankAndTrailingPiecesKept | src/admin/pages/ProjectsManagement.jsx:90 | `"a, , b,"` is saved as `[a, "", b, ""]` |
| ProjectTags.BlankSingle | src/admin/pages/ProjectsManagement.jsx:90 | a field of spaces alone is saved as `[""]` |
| ProjectTags.ParseAround | src/admin/pages/ProjectsManagement.jsx:90 | parsing text around a comma parses each side separately |
| ProjectTags.ParseLeadingSpace | src/admin/pages/ProjectsManagement.jsx:90 | a leading space does not change the parse |
| ProjectTags.ParseFormat | src/admin/pages/ProjectsManagement.jsx:134 | parsing the formatted field gives back any non-empty list of trimmed, comma-free tags |
| ProjectTags.ParseFormatParse | src/admin/pages/ProjectsManagement.jsx:90 | formatting and re-parsing a parsed field changes nothing |
| ProjectTags.SeedThenSaveKeepsTags | src/admin/pages/ProjectsManagement.jsx:134 | opening a project and saving it unchanged keeps its tags |
| ProjectTags.NonArraySavedAsOneEmptyTag | src/admin/pages/ProjectsManagement.jsx:134 | a project whose tags are not an array is saved back with `[""]` |
| ProjectsEditor.EmptyDraft | src/admin/pages/ProjectsManagement.jsx:139-148 | the new-project draft is five empty strings |
| ProjectsEditor.FieldOrEmpty | src/admin/pages/ProjectsManagement.jsx:132-136 | a form field falls back to `''`: it is the stored value when that is truthy and `''` otherwise, never `undefined` |
| ProjectsEditor.SeedDraft | src/admin/pages/ProjectsManagement.jsx:131-137 | the edit draft has the five fields, the tags formatted, the rest copied with `''` as fallback |
| ProjectsEditor.KeptImage | src/admin/pages/ProjectsManagement.jsx:81 | without a new file the image is the edited project's, or `''` |
| ProjectsEditor.DraftTags | src/admin/pages/ProjectsManagement.jsx:90 | the tags field parses to one tag more than it has commas, each trimmed and free of commas |
| ProjectsEditor.Assemble | src/admin/pages/ProjectsManagement.jsx:88-102 | the payload is the draft with parsed tags, the image, `updatedAt`, and `createdAt` exactly on create |
| ProjectsEditor.SavedImage | src/admin/pages/ProjectsManagement.jsx:81-86 | the saved image is never `undefined` |
| ProjectsEditor.Payload | src/admin/pages/ProjectsManagement.jsx:81-102 | the payload is built exactly when no file is staged or its upload succeeds (else the upload's error); its image is the kept one without a file and the uploaded URL with one, never `undefined`; `createdAt` is there exactly for a new project |
| ProjectsEditor.Submit | src/admin/pages/ProjectsManagement.jsx:76-107 | a failed save leaves the store as it was; an upload error stops it before any write; a new project saves exactly when its payload has no `undefined` field and the server accepts, and is then stored under the new id; an edit is `UpdateRecord` of the payload at the edited project's id |
| ProjectsEditor.EditMergesPayload | src/admin/pages/ProjectsManagement.jsx:95-96 | editing a project with a plain id passes exactly when it is still stored, the payload has no `undefined` field and the server accepts, and then merges the payload over the stored fields |
| ProjectsEditor.NoFileKeepsImage | src/admin/pages/ProjectsManagement.jsx:81-86 | with no staged file no upload happens and the kept image is saved |
| ProjectsEditor.FileImageIsUploadedUrl | src/admin/pages/ProjectsManagement.jsx:83-91 | with a staged file the save proceeds exactly when the upload succeeds, and saves its URL |
| ProjectsEditor.TimestampsByMode | src/admin/pages/ProjectsManagement.jsx:88-102 | `updatedAt` is always written; `createdAt` only for a new project |
| ProjectsEditor.PayloadHasNoUndefined | src/admin/pages/ProjectsManagement.jsx:88-93 | the payload never carries `undefined`, so Firestore does not refuse it |
| ProjectsEditor.BuildPayload | src/admin/pages/ProjectsManagement.jsx:81-102 | the image fallback, the optional upload and the object assembly compute `Payload`, the upload error included |
| ProjectsEditor.AssembleHasNoUndefined | src/admin/pages/ProjectsManagement.jsx:88-93 | a well-formed draft and a defined image give a payload without `undefined` |
| ProjectsEditor.CreateWithoutFileStores | src/admin/pages/ProjectsManagement.jsx:81-102 | a new project without a file is stored with `image: ''` and both timestamps |
| ProjectsEditor.FailedSubmitChangesNothing | src/admin/pages/ProjectsManagement.jsx:108-110 | a failed submission leaves the store as it was |
| ProjectsEditor.UpdateKeepsCreatedAt | src/admin/pages/ProjectsManagement.jsx:95-96 | an edit keeps the stored `createdAt` and the set of documents, whatever the id |
| ProjectsEditor.ProjectsManager.constructor | src/admin/pages/ProjectsManagement.jsx:28-41 | the editor starts loading, with no projects, a closed modal and the empty draft |
| ProjectsEditor.ProjectsManager.FetchProjects | src/admin/pages/ProjectsManagement.jsx:47-62 | the list is replaced only by a successful query; loading ends false |
| ProjectsEditor.ProjectsManager.StageImage | src/admin/pages/ProjectsManagement.jsx:64-74 | a chosen file is staged; an empty choice changes nothing |
| ProjectsEditor.ProjectsManager.SetField | src/admin/pages/ProjectsManagement.jsx:267 | a text input sets its one field and nothing else |
| ProjectsEditor.ProjectsManager.OpenModal | src/admin/pages/ProjectsManagement.jsx:128-152 | opening seeds or resets the draft, sets the preview and drops the staged file |
| ProjectsEditor.ProjectsManager.CloseModal | src/admin/pages/ProjectsManagement.jsx:154-159 | closing forgets the edited project, preview and file, and keeps the draft |
| ProjectsEditor.ProjectsManager.HandleSubmit | src/admin/pages/ProjectsManagement.jsx:76-114 | the store changes as the submission states; only success closes the modal; loading ends false |
| ProjectsEditor.ProjectsManager.HandleDelete | src/admin/pages/ProjectsManagement.jsx:116-126 | nothing happens unless confirmed; the store changes as `DeleteRecord` states for the clicked id, and a successful delete starts a re-fetch |
| ProfileEditor.EmptyProfile | src/admin/pages/ProfileManagement.jsx:29-54 | the initial draft has every text and media field, each `''` |
| ProfileEditor.MediaUrl | src/admin/pages/ProfileManagement.jsx:111-128 | a slot without a file keeps its URL; with a file it takes the upload's URL, or fails with it |
| ProfileEditor.WithMedia | src/admin/pages/ProfileManagement.jsx:130-136 | the written document is the draft with the three media URLs and `updatedAt` set |
| ProfileEditor.SyncedProfile | src/admin/pages/ProfileManagement.jsx:107-136 | with no staged file the uploads cannot fail; a synced document keeps every draft field name and carries the `updatedAt` token |
| ProfileEditor.SaveOutcome | src/admin/pages/ProfileManagement.jsx:106-148 | an upload error is the outcome; the save passes exactly when the uploads succeed, the written document has no `undefined` field and the server accepts |
| ProfileEditor.NoStagedFilesNoUpload | src/admin/pages/ProfileManagement.jsx:107-134 | with no staged file the result does not depend on Cloudinary, and the URLs are written unchanged |
| ProfileEditor.ExactlyFourFieldsOverridden | src/admin/pages/ProfileManagement.jsx:130-136 | the written document differs from the draft only in the three media fields and `updatedAt` |
| ProfileEditor.SlotResourceTypes | src/admin/pages/ProfileManagement.jsx:111-128 | the resume is uploaded as `raw`; both images with the default type |
| ProfileEditor.SaveNeedsEveryUpload | src/admin/pages/ProfileManagement.jsx:111-148 | the document is built exactly when every staged upload succeeds |
| ProfileEditor.MissingMediaFieldBlocksSave | src/admin/pages/ProfileManagement.jsx:107-139 | a loaded profile without `resumeUrl` and with no staged resume is refused by Firestore |
| ProfileEditor.DefaultDraftSaves | src/admin/pages/ProfileManagement.jsx:130-139 | the initial draft saves without error |
| ProfileEditor.SyncMedia | src/admin/pages/ProfileManagement.jsx:107-136 | the three sequential uploads and the merge compute the document `SyncedProfile` describes |
| ProfileEditor.SaveOutcomeOf | src/admin/pages/ProfileManagement.jsx:106-139 | a save fails with the upload error, or answers what `setDoc` answers for the merged document |
| ProfileEditor.SaveProfile | src/admin/pages/ProfileManagement.jsx:106-139 | uploads, merge and `setDoc` give `SaveOutcome`; on success the synced document is stored under `settings/profile`, otherwise the store is unchanged |
| ProfileEditor.MediaKeepsDefined | src/admin/pages/ProfileManagement.jsx:130-136 | merging defined media URLs and the timestamp into a draft without `undefined` fields leaves none |
| ProfileEditor.ProfileManager.constructor | src/admin/pages/ProfileManagement.jsx:29-54 | the editor starts loading, with the empty draft and no staged files |
| ProfileEditor.ProfileManager.FetchProfile | src/admin/pages/ProfileManagement.jsx:60-76 | an existing document replaces the draft and sets the previews; a missing one keeps the defaults |
| ProfileEditor.ProfileManager.SetField | src/admin/pages/ProfileManagement.jsx:230-419 | a text input sets its one field and nothing else |
| ProfileEditor.ProfileManager.StageImage | src/admin/pages/ProfileManagement.jsx:79-89 | a chosen portrait is staged; an empty choice changes nothing; the other files, the draft, the previews and the loading and saving flags stay as they were |
| ProfileEditor.ProfileManager.StageResume | src/admin/pages/ProfileManagement.jsx:465 | the resume input stages whatever it gives, an empty choice included; the other files, the draft, the previews and the loading and saving flags stay as they were |
| ProfileEditor.ProfileManager.StageResumeImage | src/admin/pages/ProfileManagement.jsx:91-101 | a chosen resume image is staged; an empty choice changes nothing; the other files, the draft, the previews and the loading and saving flags stay as they were |
| ProfileEditor.ProfileManager.DiscardResumeImage | src/admin/pages/ProfileManagement.jsx:505-508 | discarding drops the staged resume image and restores the stored preview; the other files, the draft, the portrait preview and the loading and saving flags stay as they were |
| ProfileEditor.ProfileManager.HandleSubmit | src/admin/pages/ProfileManagement.jsx:102-151 | success writes the synced document, makes it the draft and clears the staged files; failure changes neither store, draft nor files |
| ProfileEditor.ProfileManager.Commit | src/admin/pages/ProfileManagement.jsx:141-144 | the written document becomes the draft and the three staged files are cleared; loading, saving and previews are untouched |
| MessagesInbox.MarkRead | src/admin/pages/MessagesManagement.jsx:71 | only records with the message's id get `read: true`; length, order and the rest are unchanged |
| MessagesInbox.IsUnread | src/admin/pages/MessagesManagement.jsx:68 | a message without a `read` field, or with `read: false`, is unread; one with `read: true` is not |
| MessagesInbox.UnreadCount | src/admin/pages/MessagesManagement.jsx:105-117 | the messages shown as unread number at most the list, and none exactly when every message is read |
| MessagesInbox.MarkedRecordsAreRead | src/admin/pages/MessagesManagement.jsx:71 | a marked record is no longer unread, and every other record is untouched |
| MessagesInbox.MarkReadIdempotent | src/admin/pages/MessagesManagement.jsx:68-71 | marking twice is marking once |
| MessagesInbox.MarkReadUnreadCount | src/admin/pages/MessagesManagement.jsx:71 | the unread count drops by exactly the unread records with that id |
| MessagesInbox.ReadStoresFlag | src/admin/pages/MessagesManagement.jsx:68-72 | opening an unread stored message with a plain id writes `read: true` into exactly that document and changes nothing else |
| MessagesInbox.Inbox.constructor | src/admin/pages/MessagesManagement.jsx:26-28 | the inbox starts loading, empty, with nothing selected |
| MessagesInbox.Inbox.FetchMessages | src/admin/pages/MessagesManagement.jsx:34-50 | the list is replaced only by a successful query; the selection is kept |
| MessagesInbox.Inbox.HandleRead | src/admin/pages/MessagesManagement.jsx:66-76 | the message is always selected; a read one causes no write; an unread one is written through `updateDoc(doc(...), {read: true})` and the list is marked only after that write succeeds |
| MessagesInbox.Inbox.HandleDelete | src/admin/pages/MessagesManagement.jsx:52-64 | nothing without confirmation; the store changes as `deleteDoc(doc(db, 'messages', id))` does; a successful delete clears the selection only if it shows that message |
| SocialLinks.FilterShown | src/components/SocialLinks.jsx:62 | a link is kept exactly when it is visible and has a URL |
| SocialLinks.LinkOf | src/components/SocialLinks.jsx:40-61 | a platform's entry is shown exactly when the document's flag and URL for that platform are both truthy |
| SocialLinks.VisibleLinks | src/components/SocialLinks.jsx:40-62 | at most three links, each shown and read from the document, and every platform whose entry is shown among them |
| SocialLinks.Anchors | src/components/SocialLinks.jsx:103-106 | one anchor per link in order, each with `formatUrl` of its URL, and a throw exactly when some URL makes `formatUrl` throw |
| SocialLinks.Rendered | src/components/SocialLinks.jsx:38-106 | nothing renders for a missing record or when no link is shown; otherwise the bar renders exactly when every shown URL is a string, one anchor per shown link in order, each linking to `formatUrl` of its URL |
| SocialLinks.FormatUrl | src/components/SocialLinks.jsx:81-85 | an absent URL becomes `#`; a present non-string throws |
| SocialLinks.FilterAppend | src/components/SocialLinks.jsx:62 | filtering distributes over concatenation, so it keeps order |
| SocialLinks.VisibleLinksInOrder | src/components/SocialLinks.jsx:40-62 | the shown links are GitHub, LinkedIn, Twitter in that order, each when shown |
| SocialLinks.PlatformShownIff | src/components/SocialLinks.jsx:40-62 | a platform appears exactly when its flag and its URL are truthy |
| SocialLinks.NothingToShowRendersNothing | src/components/SocialLinks.jsx:38-64 | a missing record, or one where no platform qualifies, renders nothing and does not throw |
| SocialLinks.FormatUrlAbsolute | src/components/SocialLinks.jsx:83-84 | an `http://` or `https://` URL passes unchanged, any other gets `https://`, and the result is absolute |
| SocialLinks.FormatUrlIdempotent | src/components/SocialLinks.jsx:82-84 | formatting a formatted URL changes nothing |
| SocialLinks.RenderedHrefsAbsolute | src/components/SocialLinks.jsx:81-106 | every anchor the bar renders links to an `http://` or `https://` URL |
| SocialProfiles.DefaultSocials | src/admin/pages/SocialProfilesManagement.jsx:22-29 | the defaults are three empty URLs, GitHub and LinkedIn visible, Twitter hidden |
| SocialProfiles.Toggled | src/admin/pages/SocialProfilesManagement.jsx:69-74 | toggling negates the one field's truthiness and keeps every other field |
| SocialProfiles.Stamped | src/admin/pages/SocialProfilesManagement.jsx:56-59 | the written record is the draft plus `updatedAt` |
| SocialProfiles.InPreview | src/admin/pages/SocialProfilesManagement.jsx:213-223 | the editor previews a platform exactly when the public bar would show it |
| SocialProfiles.ToggleTwiceRestores | src/admin/pages/SocialProfilesManagement.jsx:69-74 | toggling a boolean field twice restores the record |
| SocialProfiles.ToggleMissingShows | src/admin/pages/SocialProfilesManagement.jsx:72 | toggling a missing flag sets it to `true` |
| SocialProfiles.PreviewMatchesBar | src/admin/pages/SocialProfilesManagement.jsx:213-227 | the editor's preview shows a platform exactly when the public bar would |
| SocialProfiles.DefaultsPreviewNothing | src/admin/pages/SocialProfilesManagement.jsx:22-29 | the defaults preview no platform, their URLs being empty |
| SocialProfiles.SaveRefusedOnlyByServer | src/admin/pages/SocialProfilesManagement.jsx:56-59 | a draft without `undefined` is refused only by the server |
| SocialProfiles.SocialsEditor.constructor | src/admin/pages/SocialProfilesManagement.jsx:20-29 | the editor starts loading with the defaults |
| SocialProfiles.SocialsEditor.FetchSocials | src/admin/pages/SocialProfilesManagement.jsx:35-49 | an existing document replaces the whole draft; otherwise the defaults stay; loading ends false |
| SocialProfiles.SocialsEditor.SetUrl | src/admin/pages/SocialProfilesManagement.jsx:122 | a URL input sets its platform's URL only |
| SocialProfiles.SocialsEditor.ToggleVisibility | src/admin/pages/SocialProfilesManagement.jsx:69-74 | the draft becomes the toggled record |
| SocialProfiles.SocialsEditor.HandleSubmit | src/admin/pages/SocialProfilesManagement.jsx:51-67 | the stamped draft overwrites the socials document when the write passes; the draft is kept and saving ends false |
| SkillGroups.GroupSkills | src/pages/Home.jsx:43-48 | the reduce loop computes the first-appearance grouping, or throws when a category names an inherited member |
| SkillGroups.CategoryKey | src/pages/Home.jsx:45 | a string category is its own key; rows without a category share the key `undefined` |
| SkillGroups.Grouped | src/pages/Home.jsx:43-48 | one group per listed key, at most one key per row, and no key exactly when there are no rows |
| SkillGroups.Blocked | src/pages/Home.jsx:45-46 | only a non-empty list can throw, and rows whose categories are ordinary strings never do |
| SkillGroups.SkillsProp | src/pages/Home.jsx:49 | an empty grouping becomes `null`; a non-empty one is passed on as it is |
| SkillGroups.MembersOfNewKey | src/pages/Home.jsx:45 | a category not yet seen has no entries |
| SkillGroups.KeysAreCategories | src/pages/Home.jsx:43-48 | the keys are exactly the categories of the rows |
| SkillGroups.MembersOnlyOfKey | src/pages/Home.jsx:46 | a category no row has collects no entries |
| SkillGroups.KeysDistinct | src/pages/Home.jsx:45 | no category key appears twice |
| SkillGroups.MembersAreEntries | src/pages/Home.jsx:46 | an entry is in a group exactly when some row of that category reduces to it |
| SkillGroups.GroupsCoverRows | src/pages/Home.jsx:43-48 | the groups hold as many entries as there are skill documents |
| SkillGroups.NoRowsNoSkills | src/pages/Home.jsx:49 | the skills prop is `null` exactly when there are no skill documents |
| Home.RowData | src/pages/Home.jsx:44 | `doc.data()` of each row, in order |
| Home.ProjectsProp | src/pages/Home.jsx:95 | an empty project list is passed on as `null`, any other as it is |
| Home.HomePage.constructor | src/pages/Home.jsx:16-19 | the page starts loading with no projects, skills or profile |
| Home.HomePage.FetchData | src/pages/Home.jsx:29-61 | the three reads run in order, the first failure skipping the rest; loading ends false |
| Home.HomePage.ProjectsForSection | src/pages/Home.jsx:95 | the projects section receives `null` when no project was loaded, and the loaded list otherwise |
| Home.InheritedCategoryStopsLoad | src/pages/Home.jsx:45-46 | one skill whose category names an inherited member stops the whole load |
| Headings.SplitHeading | src/components/Skills.jsx:52-54 | the highlighted last word holds no space |
| Headings.HeadingOf | src/components/About.jsx:45 | the split succeeds exactly for a string title |
| Headings.HeadingReassembles | src/components/Skills.jsx:52-54 | with a space, the plain part, a space and the last word are the title |
| Headings.OneWordHeading | src/components/Projects.jsx:118-120 | a one-word title gives an empty plain part |
| Headings.LastWordHeading | src/components/Projects.jsx:118-120 | the last word is what follows the last space, and the plain part is all before it |
| Headings.HeadingParts | src/components/Skills.jsx:52-54 | the plain part is a prefix of the title and the last word is its rest after one space |
| Hero.DefaultHero | src/components/Hero.jsx:6-10 | the default holds only name, title and bio |
| Hero.HeroData | src/components/Hero.jsx:6-12 | a loaded profile is used whole; otherwise the defaults, which hold only a name, a title and a bio |
| Hero.RawResumeLink | src/components/Hero.jsx:15 | the PDF link when it is truthy, the image link otherwise; a link exists when either does |
| Hero.RenderHero | src/components/Hero.jsx:12-27 | the hero renders exactly when the link helper does not throw on the resume value, and then shows the data's name, title and bio, the portrait exactly when `profileImage` is truthy, and the helper's link |
| Hero.NoProfileShowsDefaults | src/components/Hero.jsx:6-27 | with no profile the hero shows the defaults, no portrait and `/resume.pdf` |
| Hero.NoPerFieldFallback | src/components/Hero.jsx:12 | a loaded profile without a name shows none: the default is not used per field |
| Hero.ResumeLinkChoice | src/components/Hero.jsx:15-19 | the link uses `resumeUrl`, else `resumeImageUrl`, else `/resume.pdf` |
| Hero.ImageResumeDownloads | src/components/Hero.jsx:20-27 | an image resume on Cloudinary is linked with the attachment flag |
| SkillsSection.DefaultSkills | src/components/Skills.jsx:25-44 | the defaults are three categories, in their written order |
| SkillsSection.DisplaySkills | src/components/Skills.jsx:46 | loaded skills are shown as they are; `null` shows the three default categories |
| SkillsSection.SkillsTitle | src/components/Skills.jsx:50 | the title is never empty |
| SkillsSection.SkillsHeading | src/components/Skills.jsx:50-54 | the heading splits the stored title when it is truthy and `SYSTEM PROWESS` otherwise; only a non-string stored title fails |
| SkillsSection.SkillsSubtitle | src/components/Skills.jsx:56 | the subtitle is the stored one when it is truthy and the built-in text otherwise |
| SkillsSection.NoSkillsShowDefaults | src/components/Skills.jsx:46 | `null` skills show the three default categories of four skills each |
| SkillsSection.TitleFallback | src/components/Skills.jsx:50-54 | no title gives "SYSTEM" and "PROWESS"; a present title is split as it is |
| SkillsSection.WidthIsLevel | src/components/Skills.jsx:13 | the bar width is the level's numeral and `%`, unclamped |
| SkillsSection.BarWidth | src/components/Skills.jsx:13 | the width ends in `%`; a string level is used as written and a non-negative number gives its numeral, which reads back as the level |
| ProjectsSection.SampleDocs | src/components/Projects.jsx:79-104 | each sample becomes one project document, in order |
| ProjectsSection.LoadedProjectsShown | src/components/Projects.jsx:106 | loaded projects are shown as they are, with no sample mixed in |
| ProjectsSection.ProjectsHeading | src/components/Projects.jsx:117-120 | the heading splits the stored title when it is truthy and the default one otherwise; it throws only for a truthy title that is not a string |
| ProjectsSection.ProjectsSubtitle | src/components/Projects.jsx:129 | the subtitle is the stored one when it is truthy and the built-in text otherwise |
| ProjectsSection.CardTags | src/components/Projects.jsx:43 | `tags?.map` gives no tags for a missing or `null` list, the list itself for an array, and a `TypeError` for anything else |
| ProjectsSection.CardsFrom | src/components/Projects.jsx:136-137 | each card is the card of its project at its position |
| ProjectsSection.CardOf | src/components/Projects.jsx:31-43 | a card renders exactly when the title is a string and the tags render, else a `TypeError`; it shows that title, those tags and the label `00` followed by the one-based position |
| ProjectsSection.Cards | src/components/Projects.jsx:136-137 | on success card `i` is project `i`'s card, numbered `i + 1` |
| ProjectsSection.TitleFallback | src/components/Projects.jsx:117-120 | no title gives "DEPLOYED" and "MODULES"; a present title is split as it is |
| ProjectsSection.CardsRenderIff | src/components/Projects.jsx:136-137 | the cards render exactly when every project's card does |
| ProjectsSection.CardSucceedsIff | src/components/Projects.jsx:35-43 | a card renders exactly when the title is a string and the tags are absent or a list |
| ProjectsSection.CardLabel | src/components/Projects.jsx:31-35 | card `i` is labelled `00` and `i + 1`, and shows its project's title |
| ProjectsSection.SamplesRender | src/components/Projects.jsx:79-106 | built-in projects always render, with their own titles |
| AboutSection.DefaultAbout | src/components/About.jsx:4-10 | the default holds the title, two texts and two counters |
| AboutSection.AboutData | src/components/About.jsx:12 | a loaded profile as it is, otherwise the default data with its five fields and the default title |
| AboutSection.PortraitOf | src/components/About.jsx:29 | the portrait URL is never empty |
| AboutSection.AboutHeading | src/components/About.jsx:12-45 | without a profile the default title is split; with one, its `aboutTitle`, and the section renders exactly when there is no profile or that title is a string |
| AboutSection.NoProfileHeading | src/components/About.jsx:12-45 | with no profile the heading is "Expertise Driven by" and "Passion" |
| AboutSection.NoProfilePlaceholder | src/components/About.jsx:29 | with no profile the portrait is the placeholder |
| AboutSection.PortraitChoice | src/components/About.jsx:29 | a truthy `profileImage` is shown, otherwise the placeholder |
| AboutSection.MissingTitleThrows | src/components/About.jsx:45 | a loaded profile without a string `aboutTitle` makes the section throw |
| AboutSection.OneWordTitle | src/components/About.jsx:45 | a one-word title is all highlight |
| SkillsEditor.DefaultDraft | src/admin/pages/SkillsManagement.jsx:102-107 | a new skill has the three fields, level 80 and the first category |
| SkillsEditor.SeedDraft | src/admin/pages/SkillsManagement.jsx:96-100 | the edit draft copies name, level and category, `undefined` included |
| SkillsEditor.OpeningDraft | src/admin/pages/SkillsManagement.jsx:93-110 | the opened draft always has exactly the three fields |
| SkillsEditor.CreateStoresDraft | src/admin/pages/SkillsManagement.jsx:68 | a new skill is stored with exactly its three fields, no timestamps |
| SkillsEditor.EditingIncompleteSkillFails | src/admin/pages/SkillsManagement.jsx:96-100 | editing a skill stored without one of its fields and saving it is refused, writing nothing |
| SkillsEditor.EditKeepsOtherFields | src/admin/pages/SkillsManagement.jsx:65 | an edit of a skill with a plain id keeps any other stored field |
| SkillsEditor.ListWidthIsLevel | src/admin/pages/SkillsManagement.jsx:152 | the admin bar is the level and `%`, unclamped |
| SkillsEditor.SkillsManager.constructor | src/admin/pages/SkillsManagement.jsx:24-33 | the editor starts loading with the default draft |
| SkillsEditor.SkillsManager.FetchSkills | src/admin/pages/SkillsManagement.jsx:41-57 | the list is replaced only by a successful query; loading ends false |
| SkillsEditor.SkillsManager.OpenModal | src/admin/pages/SkillsManagement.jsx:93-110 | opening seeds or resets the draft and remembers the edited skill |
| SkillsEditor.SkillsManager.CloseModal | src/admin/pages/SkillsManagement.jsx:112-115 | closing forgets the edited skill and keeps the draft |
| SkillsEditor.SkillsManager.SetName | src/admin/pages/SkillsManagement.jsx:195 | the name input sets the name only |
| SkillsEditor.SkillsManager.SetCategory | src/admin/pages/SkillsManagement.jsx:203-210 | the select sets one of the seven categories |
| SkillsEditor.SkillsManager.SetLevel | src/admin/pages/SkillsManagement.jsx:219-224 | the slider sets an integer level between 1 and 100 |
| SkillsEditor.SkillsManager.HandleSubmit | src/admin/pages/SkillsManagement.jsx:59-79 | the draft is saved as it is; only success closes the modal; loading ends false |
| SkillsEditor.SkillsManager.HandleDelete | src/admin/pages/SkillsManagement.jsx:81-91 | nothing happens unless confirmed; the store changes as `DeleteRecord` states for the clicked id |
| ExperiencesEditor.EmptyDraft | src/admin/pages/ExperiencesManagement.jsx:119-128 | five empty texts, not current, no website |
| ExperiencesEditor.SeedDraft | src/admin/pages/ExperiencesManagement.jsx:109-117 | texts copied as stored; `isCurrent` defaults to false and `website` to `''` |
| ExperiencesEditor.OpeningDraft | src/admin/pages/ExperiencesManagement.jsx:106-131 | the opened draft always has exactly the seven fields |
| ExperiencesEditor.Payload | src/admin/pages/ExperiencesManagement.jsx:70-82 | the draft plus `updatedAt`, and `createdAt` exactly on create |
| ExperiencesEditor.Submit | src/admin/pages/ExperiencesManagement.jsx:69-84 | a failed save leaves the store as it was; a new record saves exactly when no field is `undefined` and the server accepts, and is then stored under the new id with both timestamps; an edit is `UpdateRecord` of the draft with `updatedAt` at the edited record's id |
| ExperiencesEditor.EditMergesDraft | src/admin/pages/ExperiencesManagement.jsx:75-77 | editing a record with a plain id passes exactly when it is still stored, no draft field is `undefined` and the server accepts, and then merges the draft with `updatedAt` over the stored fields |
| ExperiencesEditor.CreateStamps | src/admin/pages/ExperiencesManagement.jsx:79-82 | a new experience is stored with every draft field and both timestamps |
| ExperiencesEditor.RecordWithoutFlagsSaves | src/admin/pages/ExperiencesManagement.jsx:115-116 | the fallbacks let a record without `isCurrent` or `website` be saved |
| ExperiencesEditor.MissingTextBlocksSave | src/admin/pages/ExperiencesManagement.jsx:110-114 | a record missing a text field cannot be saved unchanged |
| ExperiencesEditor.UpdateKeepsCreatedAt | src/admin/pages/ExperiencesManagement.jsx:75-76 | an edit of a record with a plain id keeps `createdAt` and refreshes `updatedAt` |
| ExperiencesEditor.ExperiencesManager.constructor | src/admin/pages/ExperiencesManagement.jsx:28-41 | the editor starts loading with the empty draft |
| ExperiencesEditor.ExperiencesManager.FetchExperiences | src/admin/pages/ExperiencesManagement.jsx:47-63 | the list is replaced only by a successful query; loading ends false |
| ExperiencesEditor.ExperiencesManager.OpenModal | src/admin/pages/ExperiencesManagement.jsx:106-131 | opening seeds or resets the draft and remembers the edited record |
| ExperiencesEditor.ExperiencesManager.CloseModal | src/admin/pages/ExperiencesManagement.jsx:133-136 | closing forgets the edited record and keeps the draft |
| ExperiencesEditor.ExperiencesManager.SetText | src/admin/pages/ExperiencesManagement.jsx:253 | a text input sets its field only |
| ExperiencesEditor.ExperiencesManager.SetCurrent | src/admin/pages/ExperiencesManagement.jsx:302 | the checkbox sets `isCurrent` only |
| ExperiencesEditor.ExperiencesManager.HandleSubmit | src/admin/pages/ExperiencesManagement.jsx:65-92 | the stamped draft is saved; only success closes the modal; loading ends false |
| ExperiencesEditor.ExperiencesManager.HandleDelete | src/admin/pages/ExperiencesManagement.jsx:94-104 | nothing happens unless confirmed; the store changes as `DeleteRecord` states for the clicked id, and a successful delete starts a re-fetch |
| Contact.DefaultContact | src/components/Contact.jsx:9-13 | the defaults are an email, a phone and a location |
| Contact.InfoOf | src/components/Contact.jsx:15 | a loaded profile's details are shown as they are |
| Contact.EmptyForm | src/components/Contact.jsx:17-22 | the form is four empty strings |
| Contact.MessageOf | src/components/Contact.jsx:30-34 | the message is the form, `createdAt` and `read: false` |
| Contact.NoProfileShowsDefaults | src/components/Contact.jsx:9-15 | with no profile the default details are shown |
| Contact.OnlyServerRefuses | src/components/Contact.jsx:29-39 | a message from the form is refused only by the server |
| Contact.SentMessageArrivesUnread | src/components/Contact.jsx:30-34 | a sent message is unread in the inbox and carries the four fields |
| Contact.ContactForm.constructor | src/components/Contact.jsx:17-23 | the form starts empty and not submitting |
| Contact.ContactForm.HandleChange | src/components/Contact.jsx:45-47 | only the named field changes |
| Contact.ContactForm.HandleSubmit | src/components/Contact.jsx:25-43 | a sent message is added and empties the form; a refused one keeps it |

## Left out

- Firestore, Cloudinary and Firebase Auth are external services. A write's outcome is a parameter, a read is an input value, and Cloudinary's HTTP call is a function parameter.
- `serverTimestamp()` is a token. The stored time, and how it orders records, are not modelled.
- Server-side `orderBy` is not modelled: query rows are taken in the order given.
- Unawaited re-fetches run as separate `Fetch*` calls; the model does not interleave them with later events.
- The `onSnapshot` subscription of the social bar is not modelled: its latest document is the input of `SocialLinks.Rendered`, and the loading placeholder is not modelled.
- `window.confirm` is a boolean input.
- `FileReader` previews are not modelled: a staged file does not change the preview fields.
- Toasts, `console` logging, JSX layout, framer-motion, `getStyles`, routing, the dashboard, login and the auth context have no data logic and are not modelled.
- Form constraint validation is not modelled (`required`, `type="email"`): the submit handlers are modelled for any draft, including those a browser would refuse to submit.
- Case mapping handles ASCII only; `toLowerCase` of other letters is not modelled.
- `toUpperCase` of card titles and category headings is not modelled: cards keep the stored title.
- Numbers are integers; fractional levels and `NaN` are not modelled.
- `Object.keys` lists integer-like keys first; the model keeps first-appearance order for every category name.
- The prototype setter of a `__proto__` category is not modelled; it blocks the load like the other inherited names.
- ProjectsSection.DisplayProjects: carries no contract of its own. Any proof that unfolds the three literal samples exceeds the solver budget, so the default case is not stated. `LoadedProjectsShown` states the loaded case, and `SamplesRender` states what holds for any list of samples.
- Firestore.Store.AddDoc: the id `addDoc` picks is the parameter `newId`, and the model does not require it to be unused. It therefore does not state that an add never overwrites a stored document; Firestore's generated ids are taken to be fresh.
- Firestore.KeyOf: Firestore's other rules for ids (the length limit, `.` and `..`, names of the form `__x__`) are not modelled.
- Documents.Truthy: `NaN` and `-0`, falsy in JavaScript, are not values of the model.
- ProjectsSection.DefaultProjects: no lemma is about the three literal samples themselves. `SamplesRender` proves, for any list of samples, what holds of them.
- SkillsEditor.SkillsManager.SetLevel: requires a level between 1 and 100, the values a range input with `min="1"` and `max="100"` produces.
- SkillsEditor.SkillsManager.SetCategory: requires one of the seven options, the only values the select produces.
