/** The hero section of the public site (src/components/Hero.jsx): the profile, or a
    built-in default when there is none, and a resume download link. */
module Hero {
  import opened Wrappers
  import opened Documents
  import opened JsText
  import opened DownloadLinks

  const DefaultName := "JOHN DOE"
  const DefaultTitle := "Architecting the future through Neural Networks and Distributed Systems."
  const DefaultBio := "Engineering sophisticated digital experiences with unparalleled precision."

  /** `defaultData`: name, title and bio only. */
  function DefaultHero(): (d: Doc)
    ensures d.Keys == {"name", "title", "bio"}
  {
    map["name" := Str(DefaultName), "title" := Str(DefaultTitle), "bio" := Str(DefaultBio)]
  }

  /** `profile || defaultData`: a loaded profile is used whole, without per-field fallback. */
  function HeroData(profile: Option<Doc>): (d: Doc)
    ensures profile.Some? ==> d == profile.value
    ensures profile.None? ==> d.Keys == {"name", "title", "bio"} && d["name"] == Str(DefaultName)
  {
    if profile.Some? then profile.value else DefaultHero()
  }

  /** `data.resumeUrl || data.resumeImageUrl`: the PDF first, then the image. */
  function RawResumeLink(data: Doc): (v: Value)
    ensures Truthy(Get(data, "resumeUrl")) ==> v == Get(data, "resumeUrl")
    ensures !Truthy(Get(data, "resumeUrl")) ==> v == Get(data, "resumeImageUrl")
    ensures Truthy(v) <==> Truthy(Get(data, "resumeUrl")) || Truthy(Get(data, "resumeImageUrl"))
  {
    Or(Get(data, "resumeUrl"), Get(data, "resumeImageUrl"))
  }

  /** What the hero shows: the three texts, whether the portrait is shown, and the resume link. */
  datatype HeroView = HeroView(name: Value, title: Value, bio: Value, showsImage: bool, resumeLink: Value)

  /** The rendered hero, or the error the link helper throws on a non-string URL. */
  function RenderHero(profile: Option<Doc>): (r: Result<HeroView, string>)
    ensures r.Success? <==> HeroDownloadUrl(RawResumeLink(HeroData(profile))).Success?
    ensures r.Failure? ==> r.error == HeroDownloadUrl(RawResumeLink(HeroData(profile))).error
    ensures r.Success? ==> r.value.name == Get(HeroData(profile), "name")
    ensures r.Success? ==> r.value.title == Get(HeroData(profile), "title")
    ensures r.Success? ==> r.value.bio == Get(HeroData(profile), "bio")
    ensures r.Success? ==> r.value.showsImage == Truthy(Get(HeroData(profile), "profileImage"))
    ensures r.Success? ==> r.value.resumeLink == HeroDownloadUrl(RawResumeLink(HeroData(profile))).value
  {
    var data := HeroData(profile);
    match HeroDownloadUrl(RawResumeLink(data))
    case Failure(e) => Failure(e)
    case Success(link) =>
      Success(HeroView(Get(data, "name"), Get(data, "title"), Get(data, "bio"), Truthy(Get(data, "profileImage")), link))
  }

  // ---------------------------------------------------------------- properties

  /** Without a profile the hero shows the defaults, no portrait and the bundled `/resume.pdf`. */
  lemma NoProfileShowsDefaults()
    ensures RenderHero(None)
         == Success(HeroView(Str(DefaultName), Str(DefaultTitle), Str(DefaultBio), false, Str("/resume.pdf")))
  {
    var d := DefaultHero();
    assert Get(d, "resumeUrl") == Undefined && Get(d, "resumeImageUrl") == Undefined;
    assert Get(d, "profileImage") == Undefined;
    assert Get(d, "name") == Str(DefaultName) && Get(d, "title") == Str(DefaultTitle) && Get(d, "bio") == Str(DefaultBio);
  }

  /** A profile without a name shows no name: the default is not consulted field by field. */
  lemma NoPerFieldFallback(profile: Doc)
    requires "name" !in profile
    requires RenderHero(Some(profile)).Success?
    ensures RenderHero(Some(profile)).value.name == Undefined
  {
  }

  /** The resume link is built from `resumeUrl` when that is set, from `resumeImageUrl`
      otherwise, and is `/resume.pdf` when neither is. */
  lemma ResumeLinkChoice(profile: Doc)
    ensures Truthy(Get(profile, "resumeUrl")) ==>
      RawResumeLink(profile) == Get(profile, "resumeUrl")
    ensures !Truthy(Get(profile, "resumeUrl")) && Truthy(Get(profile, "resumeImageUrl")) ==>
      RawResumeLink(profile) == Get(profile, "resumeImageUrl")
    ensures !Truthy(Get(profile, "resumeUrl")) && !Truthy(Get(profile, "resumeImageUrl")) ==>
      RenderHero(Some(profile)).Success? && RenderHero(Some(profile)).value.resumeLink == Str(HeroFallback)
  {
  }

  /** A stored Cloudinary image resume is linked with the attachment flag inserted. */
  lemma ImageResumeDownloads(profile: Doc, url: string)
    requires !Truthy(Get(profile, "resumeUrl")) && Get(profile, "resumeImageUrl") == Str(url)
    requires IsCloudinaryImage(url)
    ensures RenderHero(Some(profile)).Success?
    ensures RenderHero(Some(profile)).value.resumeLink == Str(AttachmentRewrite(url))
  {
    assert url != "" by {
      assert Includes(url, CloudinaryHost);
    }
  }
}
