/** `uploadToCloudinary` (src/utils/cloudinary.js): an unsigned upload of one file to
    Cloudinary's REST API. The network call is the oracle `fetch`, which maps the
    request the code builds to what the response turns into. */
module Cloudinary {
  import opened Wrappers
  import opened JsText

  /** A browser `File`: its name, its declared MIME type and its bytes. */
  datatype UploadFile = UploadFile(name: string, mimeType: string, bytes: seq<bv8>)

  /** `import.meta.env`: the two settings, `None` when a variable is not defined. */
  datatype Env = Env(cloudName: Option<string>, uploadPreset: Option<string>)

  /** One `formData.append(name, value)`. */
  datatype FormField = FilePart(name: string, file: UploadFile) | TextPart(name: string, text: string)

  datatype UploadRequest = UploadRequest(url: string, httpMethod: string, body: seq<FormField>)

  /** The parsed JSON body: Cloudinary's `error.message` when it refused, and `secure_url`. */
  datatype UploadBody = UploadBody(error: Option<string>, secureUrl: string)

  /** What `await fetch(...)` followed by `await response.json()` gives: a body, or a thrown error. */
  datatype FetchOutcome = Rejected(message: string) | Responded(body: UploadBody)

  const ConfigMissingMessage := "Cloudinary configuration missing in .env"
  const DefaultResourceType := "auto"
  const RawResourceType := "raw"
  const ApiBase := "https://api.cloudinary.com/v1_1/"

  /** `!cloudName || !uploadPreset` is false: both settings are defined and non-empty (an
      undefined variable and an empty one are both falsy). */
  predicate Configured(env: Env)
    ensures !Configured(env) <==> env.cloudName.GetOr("") == "" || env.uploadPreset.GetOr("") == ""
  {
    env.cloudName.Some? && env.cloudName.value != ""
    && env.uploadPreset.Some? && env.uploadPreset.value != ""
  }

  /** The PDF guard: the declared MIME type, or the lower-cased file name's extension. A
      name already ending in `.pdf` passes whatever the type; a file of another type passes
      only by its name. */
  predicate IsPdf(f: UploadFile)
    ensures f.mimeType == "application/pdf" ==> IsPdf(f)
    ensures EndsWith(f.name, ".pdf") ==> IsPdf(f)
    ensures IsPdf(f) && f.mimeType != "application/pdf" ==> |f.name| >= 4
  {
    LowerKeepsLowerSuffix(f.name, ".pdf");
    f.mimeType == "application/pdf" || EndsWith(ToLower(f.name), ".pdf")
  }

  /** Lower-casing keeps a suffix that has no capital letter. */
  lemma LowerKeepsLowerSuffix(s: string, p: string)
    requires forall i :: 0 <= i < |p| ==> LowerChar(p[i]) == p[i]
    ensures EndsWith(s, p) ==> EndsWith(ToLower(s), p)
  {
    if EndsWith(s, p) {
      var t := ToLower(s);
      forall i | 0 <= i < |p|
        ensures t[|s| - |p|..][i] == p[i]
      {
        assert s[|s| - |p|..][i] == p[i];
      }
    }
  }

  /** The resource type actually used: `raw` for a PDF, otherwise the requested one
      (`auto` when the caller passes none). */
  function FinalResourceType(f: UploadFile, requested: Option<string>): (t: string)
    ensures t == RawResourceType || t == requested.GetOr(DefaultResourceType)
  {
    if IsPdf(f) then RawResourceType else requested.GetOr(DefaultResourceType)
  }

  /** The upload endpoint for a cloud and a resource type: under the API base, ending in
      `/upload`, and no longer than its pieces. */
  function Endpoint(cloudName: string, resourceType: string): (url: string)
    ensures StartsWith(url, ApiBase) && EndsWith(url, "/upload")
    ensures |url| == |ApiBase| + |cloudName| + |resourceType| + 8
  {
    ApiBase + cloudName + "/" + resourceType + "/upload"
  }

  /** The POST request the code sends: the endpoint and the three appended form fields. */
  function RequestFor(cloudName: string, preset: string, f: UploadFile, resourceType: string): (req: UploadRequest)
    ensures req.httpMethod == "POST" && req.url == Endpoint(cloudName, resourceType)
    ensures StartsWith(req.url, ApiBase) && EndsWith(req.url, "/upload")
    ensures |req.body| == 3
    ensures req.body[0].FilePart? && req.body[0].name == "file" && req.body[0].file == f
    ensures req.body[1] == TextPart("upload_preset", preset) && req.body[2] == TextPart("resource_type", resourceType)
  {
    UploadRequest(
      Endpoint(cloudName, resourceType), "POST",
      [FilePart("file", f), TextPart("upload_preset", preset), TextPart("resource_type", resourceType)])
  }

  /** What `uploadToCloudinary(f, requested)` resolves to (`Success(secure_url)`) or
      rejects with (`Failure(message)`). */
  function Upload(env: Env, fetch: UploadRequest -> FetchOutcome, f: UploadFile, requested: Option<string>)
    : (r: Result<string, string>)
    ensures !Configured(env) ==> r == Failure(ConfigMissingMessage)
    ensures Configured(env) ==>
      var answer := fetch(RequestFor(env.cloudName.value, env.uploadPreset.value, f, FinalResourceType(f, requested)));
      (r.Success? <==> answer.Responded? && answer.body.error.None?)
      && (r.Success? ==> r.value == answer.body.secureUrl)
      && (r.Failure? && answer.Rejected? ==> r.error == answer.message)
      && (r.Failure? && answer.Responded? ==> r.error == answer.body.error.value)
  {
    if !Configured(env) then Failure(ConfigMissingMessage)
    else
      var t := FinalResourceType(f, requested);
      match fetch(RequestFor(env.cloudName.value, env.uploadPreset.value, f, t))
      case Rejected(m) => Failure(m)
      case Responded(body) =>
        if body.error.Some? then Failure(body.error.value) else Success(body.secureUrl)
  }

  /** The upload as the code performs it: guard, classify, append the form fields one by
      one, send, and interpret the JSON body. */
  method UploadToCloudinary(env: Env, fetch: UploadRequest -> FetchOutcome, file: UploadFile, requested: Option<string>)
    returns (r: Result<string, string>)
    ensures r == Upload(env, fetch, file, requested)
  {
    if !Configured(env) {
      return Failure(ConfigMissingMessage);
    }
    var cloudName, uploadPreset := env.cloudName.value, env.uploadPreset.value;
    var isPdf := file.mimeType == "application/pdf" || EndsWith(ToLower(file.name), ".pdf");
    var finalResourceType := if isPdf then RawResourceType else requested.GetOr(DefaultResourceType);
    var formData: seq<FormField> := [];
    formData := formData + [FilePart("file", file)];
    formData := formData + [TextPart("upload_preset", uploadPreset)];
    formData := formData + [TextPart("resource_type", finalResourceType)];
    var url := ApiBase + cloudName + "/" + finalResourceType + "/upload";
    assert finalResourceType == FinalResourceType(file, requested);
    assert formData == RequestFor(cloudName, uploadPreset, file, finalResourceType).body;
    var response := fetch(UploadRequest(url, "POST", formData));
    match response {
      case Rejected(m) =>
        r := Failure(m);
      case Responded(data) =>
        if data.error.Some? {
          r := Failure(data.error.value);
        } else {
          r := Success(data.secureUrl);
        }
    }
  }

  // ---------------------------------------------------------------- properties

  /** A missing setting fails the upload before any request exists: the outcome is the
      configuration error whatever the network would have answered. */
  lemma MissingConfigFailsFirst(env: Env, fetch: UploadRequest -> FetchOutcome, f: UploadFile, requested: Option<string>)
    requires env.cloudName.None? || env.cloudName == Some("") || env.uploadPreset.None? || env.uploadPreset == Some("")
    ensures Upload(env, fetch, f, requested) == Failure(ConfigMissingMessage)
  {
  }

  /** A file declared as `application/pdf` goes up as `raw`, whatever its name and whatever was requested. */
  lemma PdfByMimeTypeIsRaw(name: string, bytes: seq<bv8>, requested: Option<string>)
    ensures FinalResourceType(UploadFile(name, "application/pdf", bytes), requested) == RawResourceType
  {
  }

  /** A file whose lower-cased name ends in `.pdf` goes up as `raw`, whatever its declared type. */
  lemma PdfByExtensionIsRaw(name: string, mimeType: string, bytes: seq<bv8>, requested: Option<string>)
    requires EndsWith(ToLower(name), ".pdf")
    ensures FinalResourceType(UploadFile(name, mimeType, bytes), requested) == RawResourceType
  {
  }

  /** The extension test ignores case: `CV.PDF` with a generic MIME type is `raw`. */
  lemma UpperCaseExtensionIsRaw(bytes: seq<bv8>)
    ensures FinalResourceType(UploadFile("CV.PDF", "application/octet-stream", bytes), None) == RawResourceType
  {
    var lowered := ToLower("CV.PDF");
    assert lowered == "cv.pdf";
    assert EndsWith(lowered, ".pdf");
  }

  /** Anything else keeps the requested type, and `auto` when none was requested. */
  lemma NonPdfKeepsRequestedType(f: UploadFile, requested: Option<string>)
    requires f.mimeType != "application/pdf" && !EndsWith(ToLower(f.name), ".pdf")
    ensures FinalResourceType(f, requested) == (if requested.Some? then requested.value else "auto")
  {
  }

  /** The resource type the code settles on is both the path segment of the endpoint
      after the cloud name and the `resource_type` form field: splitting the URL at `/`
      recovers it, given a cloud name and a type without slashes. */
  lemma {:induction false} EndpointCarriesResourceType(cloudName: string, preset: string, f: UploadFile, t: string)
    requires '/' !in cloudName && '/' !in t
    ensures var req := RequestFor(cloudName, preset, f, t);
      Split(req.url, '/') == ["https:", "", "api.cloudinary.com", "v1_1", cloudName, t, "upload"]
      && req.body[2] == TextPart("resource_type", t)
  {
    EndpointNests(cloudName, t);
    SplitSeven("https:", "", "api.cloudinary.com", "v1_1", cloudName, t, "upload");
  }

  /** The endpoint, written as seven segments joined by `/`. */
  lemma EndpointNests(cloudName: string, t: string)
    ensures Endpoint(cloudName, t)
         == "https:" + "/" + ("" + "/" + ("api.cloudinary.com" + "/" + ("v1_1" + "/" + (cloudName + "/" + (t + "/" + "upload")))))
  {
    var tail := cloudName + "/" + (t + "/" + "upload");
    ApiBaseSegments();
    assert "/upload" == "/" + "upload";
    assert Endpoint(cloudName, t) == ApiBase + tail;
    NestSegments("https:", "", "api.cloudinary.com", "v1_1", tail);
  }

  lemma ApiBaseSegments()
    ensures ApiBase == "https:" + "/" + "" + "/" + "api.cloudinary.com" + "/" + "v1_1" + "/"
  {
  }

  /** Four segments, each followed by `/`, in front of a tail, regrouped to the right. */
  lemma NestSegments(a: string, b: string, c: string, d: string, tail: string)
    ensures a + "/" + b + "/" + c + "/" + d + "/" + tail == a + "/" + (b + "/" + (c + "/" + (d + "/" + tail)))
  {
  }

  /** Seven slash-free segments joined by `/` split back into themselves. */
  lemma {:induction false} SplitSeven(a: string, b: string, c: string, d: string, e: string, g: string, h: string)
    requires '/' !in a && '/' !in b && '/' !in c && '/' !in d && '/' !in e && '/' !in g && '/' !in h
    ensures Split(a + "/" + (b + "/" + (c + "/" + (d + "/" + (e + "/" + (g + "/" + h))))), '/') == [a, b, c, d, e, g, h]
  {
    SplitWithoutSeparator(h, '/');
    SplitStep(g, h);
    SplitStep(e, g + "/" + h);
    SplitStep(d, e + "/" + (g + "/" + h));
    SplitStep(c, d + "/" + (e + "/" + (g + "/" + h)));
    SplitStep(b, c + "/" + (d + "/" + (e + "/" + (g + "/" + h))));
    SplitStep(a, b + "/" + (c + "/" + (d + "/" + (e + "/" + (g + "/" + h)))));
  }

  /** Splitting at a separator peels off a first segment that has none. */
  lemma SplitStep(x: string, rest: string)
    requires '/' !in x
    ensures Split(x + "/" + rest, '/') == [x] + Split(rest, '/')
  {
    SplitAround(x, rest, '/');
    SplitWithoutSeparator(x, '/');
  }

  /** A successful upload returns exactly the `secure_url` of a response without an
      error, for the request built from the configuration and the final type. */
  lemma UploadSuccessIsSecureUrl(env: Env, fetch: UploadRequest -> FetchOutcome, f: UploadFile, requested: Option<string>, url: string)
    requires Upload(env, fetch, f, requested) == Success(url)
    ensures Configured(env)
    ensures fetch(RequestFor(env.cloudName.value, env.uploadPreset.value, f, FinalResourceType(f, requested)))
         == Responded(UploadBody(None, url))
  {
  }
}
