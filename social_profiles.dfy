/** The social-profiles editor of the admin panel
    (src/admin/pages/SocialProfilesManagement.jsx): one draft of the `settings/socials`
    document, three URL inputs, three visibility switches and a live preview. */
module SocialProfiles {
  import opened Wrappers
  import opened Documents
  import opened Firestore
  import opened SocialLinks

  const SocialsKey := DocKey("settings", "socials")

  /** The draft before anything is loaded: no URLs, GitHub and LinkedIn shown, Twitter hidden. */
  function DefaultSocials(): (d: Doc)
    ensures forall p: Platform :: UrlField(p) in d && d[UrlField(p)] == Str("")
    ensures FlagField(GitHub) in d && d[FlagField(GitHub)] == Bool(true)
    ensures FlagField(LinkedIn) in d && d[FlagField(LinkedIn)] == Bool(true)
    ensures FlagField(Twitter) in d && d[FlagField(Twitter)] == Bool(false)
    ensures |d.Keys| == 6
  {
    map["github" := Str(""), "linkedin" := Str(""), "twitter" := Str(""),
        "isGithubVisible" := Bool(true), "isLinkedinVisible" := Bool(true), "isTwitterVisible" := Bool(false)]
  }

  /** `{...prev, [field]: !prev[field]}`. */
  function Toggled(d: Doc, field: string): (r: Doc)
    ensures r.Keys == d.Keys + {field}
    ensures field in r && Truthy(r[field]) == !Truthy(Get(d, field))
    ensures forall k :: k in d && k != field ==> r[k] == d[k]
  {
    d[field := Bool(!Truthy(Get(d, field)))]
  }

  /** The document a save writes: `{...formData, updatedAt: serverTimestamp()}`. */
  function Stamped(d: Doc): (r: Doc)
    ensures r.Keys == d.Keys + {"updatedAt"}
    ensures "updatedAt" in r && r["updatedAt"] == ServerTimestamp
    ensures forall k :: k in d && k != "updatedAt" ==> r[k] == d[k]
  {
    d["updatedAt" := ServerTimestamp]
  }

  /** The preview's test for one platform: `formData.isXVisible && formData.x`. */
  predicate InPreview(d: Doc, p: Platform)
    ensures InPreview(d, p) <==> Shown(LinkOf(d, p))
  {
    Truthy(Get(d, FlagField(p))) && Truthy(Get(d, UrlField(p)))
  }

  // ---------------------------------------------------------------- properties

  /** Toggling a boolean switch twice gives the draft back. */
  lemma ToggleTwiceRestores(d: Doc, field: string)
    requires field in d && d[field].Bool?
    ensures Toggled(Toggled(d, field), field) == d
  {
    var t := Toggled(Toggled(d, field), field);
    assert t.Keys == d.Keys;
    forall k | k in d ensures t[k] == d[k] {
    }
  }

  /** A switch flipped on a field that was never stored starts at shown: `!undefined` is `true`. */
  lemma ToggleMissingShows(d: Doc, field: string)
    requires field !in d
    ensures Toggled(d, field)[field] == Bool(true)
  {
  }

  /** The preview shows exactly the platforms the public bar would show for the draft. */
  lemma PreviewMatchesBar(d: Doc, p: Platform)
    ensures InPreview(d, p) <==> LinkOf(d, p) in VisibleLinks(d)
  {
    PlatformShownIff(d, p);
  }

  /** Nothing is previewed for the defaults: both shown platforms lack a URL. */
  lemma DefaultsPreviewNothing(p: Platform)
    ensures !InPreview(DefaultSocials(), p)
  {
    var d := DefaultSocials();
    assert Get(d, UrlField(p)) == Str("");
  }

  /** A save writes a document without `undefined` fields whenever the draft has none, and
      then only a server failure can refuse it. */
  lemma SaveRefusedOnlyByServer(d: Doc, fault: Option<string>)
    requires !HasUndefined(d)
    ensures WriteCheck(Stamped(d), fault) == if fault.Some? then Fail(fault.value) else Pass
  {
    var s := Stamped(d);
    forall k | k in s ensures s[k] != Undefined {
      if k != "updatedAt" {
        assert s[k] == d[k];
      }
    }
  }

  // ---------------------------------------------------------------- the component

  class SocialsEditor {
    var loading: bool
    var saving: bool
    var formData: Doc

    constructor ()
      ensures loading && !saving && formData == DefaultSocials()
    {
      loading := true;
      saving := false;
      formData := DefaultSocials();
    }

    /** `fetchSocialConfigs`: a stored document replaces the whole draft; a missing document
        or a failed read keeps the draft. */
    method FetchSocials(snap: DocSnapshot)
      modifies this
      ensures formData == if snap.Exists? then snap.data else old(formData)
      ensures !loading && saving == old(saving)
    {
      if snap.Exists? {
        formData := snap.data;
      }
      loading := false;
    }

    /** A URL input: `setFormData({...formData, [platform]: value})`. */
    method SetUrl(p: Platform, value: string)
      modifies this
      ensures formData == old(formData)[UrlField(p) := Str(value)]
      ensures loading == old(loading) && saving == old(saving)
    {
      formData := formData[UrlField(p) := Str(value)];
    }

    /** `toggleVisibility(field)`: negate one field and leave every other one as it is. */
    method ToggleVisibility(field: string)
      modifies this
      ensures formData == Toggled(old(formData), field)
      ensures loading == old(loading) && saving == old(saving)
    {
      var prev := formData;
      formData := prev[field := Bool(!Truthy(Get(prev, field)))];
    }

    /** `handleSubmit`: write the whole draft plus `updatedAt` as one document; the draft
        itself is not changed, whatever the outcome. */
    method HandleSubmit(store: Store, fault: Option<string>) returns (r: Outcome<string>)
      modifies this, store
      ensures r == WriteCheck(Stamped(old(formData)), fault)
      ensures store.docs == if r.Pass? then old(store.docs)[SocialsKey := Stamped(old(formData))] else old(store.docs)
      ensures formData == old(formData) && !saving && loading == old(loading)
    {
      saving := true;
      r := store.SetDoc(SocialsKey, formData["updatedAt" := ServerTimestamp], fault);
      saving := false;
    }
  }
}
