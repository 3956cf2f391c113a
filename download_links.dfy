/** The `getDownloadUrl` helper, written twice in the code base with different fallbacks:
    the profile editor's (src/admin/pages/ProfileManagement.jsx, `null` for no URL) and the
    hero section's (src/components/Hero.jsx, `/resume.pdf` for no URL). For a Cloudinary
    image URL it inserts the `fl_attachment` flag, which makes the browser download the
    file instead of opening it. */
module DownloadLinks {
  import opened Wrappers
  import opened JsText
  import opened Documents

  const CloudinaryHost := "cloudinary.com"
  const ImageUploadPath := "/image/upload/"
  const AttachmentPath := "/image/upload/fl_attachment/"
  const AttachmentFlag := "fl_attachment/"
  const HeroFallback := "/resume.pdf"

  /** Whether the rewrite applies: both markers occur in the URL. */
  predicate IsCloudinaryImage(url: string) {
    Includes(url, CloudinaryHost) && Includes(url, ImageUploadPath)
  }

  /** The string branch of `getDownloadUrl`: a Cloudinary image URL gets `fl_attachment/`
      right after its first `/image/upload/`; every other URL is returned as it is. */
  function AttachmentRewrite(url: string): (r: string)
    ensures !IsCloudinaryImage(url) ==> r == url
    ensures IsCloudinaryImage(url) ==>
      var i := IndexOf(url, ImageUploadPath).value;
      r == url[..i + |ImageUploadPath|] + AttachmentFlag + url[i + |ImageUploadPath|..]
  {
    if IsCloudinaryImage(url) then
      InsertAfterMarker(url);
      ReplaceFirst(url, ImageUploadPath, AttachmentPath)
    else url
  }

  /** Replacing the marker by the marker followed by the flag is inserting the flag
      after the marker. */
  lemma InsertAfterMarker(url: string)
    requires Includes(url, ImageUploadPath)
    ensures var i := IndexOf(url, ImageUploadPath).value;
      ReplaceFirst(url, ImageUploadPath, AttachmentPath)
      == url[..i + |ImageUploadPath|] + AttachmentFlag + url[i + |ImageUploadPath|..]
  {
    var i := IndexOf(url, ImageUploadPath).value;
    AttachmentPathExtends();
    InsertAfter(url, ImageUploadPath, AttachmentFlag, i);
  }

  lemma AttachmentPathExtends()
    ensures AttachmentPath == ImageUploadPath + AttachmentFlag
  {
  }

  /** Putting `pat + flag` where `pat` occurs is inserting `flag` right after it. */
  lemma InsertAfter(s: string, pat: string, flag: string, i: nat)
    requires OccursAt(s, pat, i)
    ensures s[..i] + (pat + flag) + s[i + |pat|..] == s[..i + |pat|] + flag + s[i + |pat|..]
  {
    var n, rest := |pat|, s[i + |pat|..];
    assert s[..i + n] == s[..i] + s[i..i + n];
    assert s[..i] + (pat + flag) + rest == (s[..i] + pat) + flag + rest;
  }

  /** `getDownloadUrl(url)` for any stored value, with the value returned for a falsy one.
      A truthy value that is not a string has no `replace`: an array that contains both
      markers as elements reaches `url.replace` and throws, any other array is returned as
      it is, and a value without `includes` throws at once. */
  function DownloadUrl(url: Value, fallback: Value): (r: Result<Value, string>)
    ensures !Truthy(url) ==> r == Success(fallback)
    ensures url.Str? && url.s != "" ==> r == Success(Str(AttachmentRewrite(url.s)))
  {
    if !Truthy(url) then Success(fallback)
    else match url
      case Str(s) => Success(Str(AttachmentRewrite(s)))
      case StrList(xs) =>
        if CloudinaryHost in xs && ImageUploadPath in xs then Failure(TypeErrorMessage) else Success(url)
      case _ => Failure(TypeErrorMessage)
  }

  /** The profile editor's variant: `null` when there is no URL, the rewritten link for a
      URL, and a `TypeError` for the values that reach a string method they lack. */
  function ProfileDownloadUrl(url: Value): (r: Result<Value, string>)
    ensures !Truthy(url) ==> r == Success(Null)
    ensures url.Str? && url.s != "" ==> r == Success(Str(AttachmentRewrite(url.s)))
    ensures r.Failure? ==> Truthy(url) && !url.Str? && r.error == TypeErrorMessage
  {
    DownloadUrl(url, Null)
  }

  /** The hero section's variant: the bundled `/resume.pdf` when there is no URL, so a
      stored string always yields a non-empty link. */
  function HeroDownloadUrl(url: Value): (r: Result<Value, string>)
    ensures !Truthy(url) ==> r == Success(Str(HeroFallback))
    ensures url.Str? ==> r.Success? && r.value.Str? && r.value.s != ""
    ensures url.Str? && url.s != "" ==> r == Success(Str(AttachmentRewrite(url.s)))
    ensures r.Failure? ==> Truthy(url) && !url.Str? && r.error == TypeErrorMessage
  {
    DownloadUrl(url, Str(HeroFallback))
  }

  // ---------------------------------------------------------------- properties

  /** An empty or missing URL gives `null` in the editor and `/resume.pdf` in the hero. */
  lemma NoUrlFallbacks(url: Value)
    requires url == Undefined || url == Null || url == Str("")
    ensures ProfileDownloadUrl(url) == Success(Null)
    ensures HeroDownloadUrl(url) == Success(Str(HeroFallback))
  {
  }

  /** A URL that does not mention `cloudinary.com`, or has no `/image/upload/`, is returned
      unchanged by both variants. */
  lemma OtherUrlsUnchanged(s: string)
    requires s != "" && !IsCloudinaryImage(s)
    ensures ProfileDownloadUrl(Str(s)) == Success(Str(s))
    ensures HeroDownloadUrl(Str(s)) == Success(Str(s))
  {
  }

  /** A Cloudinary image URL gets exactly `fl_attachment/` more, right after the first
      `/image/upload/`, and keeps that marker at the same place. */
  lemma {:induction false} CloudinaryUrlGetsFlag(s: string)
    requires IsCloudinaryImage(s)
    ensures var r := AttachmentRewrite(s);
      var i := IndexOf(s, ImageUploadPath).value;
      |r| == |s| + |AttachmentFlag|
      && r[..i] == s[..i]
      && OccursAt(r, ImageUploadPath, i)
      && r[i + |ImageUploadPath|..i + |AttachmentPath|] == AttachmentFlag
      && r[i + |AttachmentPath|..] == s[i + |ImageUploadPath|..]
  {
    var i := IndexOf(s, ImageUploadPath).value;
    AttachmentPathExtends();
    InsertedPieces(s, ImageUploadPath, AttachmentFlag, i);
  }

  /** Where the pieces of `s` end up once `flag` is inserted after the `pat` at `i`. */
  lemma InsertedPieces(s: string, pat: string, flag: string, i: nat)
    requires OccursAt(s, pat, i)
    ensures var r, n := s[..i + |pat|] + flag + s[i + |pat|..], |pat|;
      |r| == |s| + |flag|
      && r[..i] == s[..i]
      && OccursAt(r, pat, i)
      && r[i + n..i + n + |flag|] == flag
      && r[i + n + |flag|..] == s[i + n..]
  {
    var n := |pat|;
    var head, tail := s[..i + n], s[i + n..];
    var r := head + flag + tail;
    assert head == s[..i] + pat;
    assert r[..i] == s[..i];
    assert r[i..i + n] == pat;
    assert r[i + n..i + n + |flag|] == flag;
    assert r[i + n + |flag|..] == tail;
  }

  /** Both copies of the helper agree on every URL that is present. */
  lemma VariantsAgreeOnPresentUrls(url: Value)
    requires Truthy(url)
    ensures ProfileDownloadUrl(url) == HeroDownloadUrl(url)
  {
  }
}
