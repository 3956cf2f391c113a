/** The public social-link bar (src/components/SocialLinks.jsx): the three platforms of the
    `settings/socials` document, in a fixed order, each shown when its visibility flag and
    its URL are both truthy, each URL normalised to an absolute link. */
module SocialLinks {
  import opened Wrappers
  import opened JsText
  import opened Documents

  datatype Platform = GitHub | LinkedIn | Twitter

  /** The platforms in the order the bar lists them. */
  const Platforms: seq<Platform> := [GitHub, LinkedIn, Twitter]

  /** The field holding the platform's URL (also the link's `id`). */
  function UrlField(p: Platform): string {
    match p
    case GitHub => "github"
    case LinkedIn => "linkedin"
    case Twitter => "twitter"
  }

  /** The field holding the platform's visibility flag. */
  function FlagField(p: Platform): string {
    match p
    case GitHub => "isGithubVisible"
    case LinkedIn => "isLinkedinVisible"
    case Twitter => "isTwitterVisible"
  }

  function Label(p: Platform): string {
    match p
    case GitHub => "Visit GitHub"
    case LinkedIn => "Visit LinkedIn"
    case Twitter => "Visit Twitter"
  }

  /** One entry of the `links` array before filtering. */
  datatype Link = Link(platform: Platform, url: Value, title: string, visible: Value)

  /** The entry for one platform, read from the document: the bar shows it exactly when
      the platform's visibility flag and URL are both truthy. */
  function LinkOf(socials: Doc, p: Platform): (l: Link)
    ensures l.platform == p && l.title == Label(p)
    ensures Shown(l) <==> Truthy(Get(socials, FlagField(p))) && Truthy(Get(socials, UrlField(p)))
  {
    Link(p, Get(socials, UrlField(p)), Label(p), Get(socials, FlagField(p)))
  }

  /** The filter's test: `link.visible && link.url`. */
  predicate Shown(l: Link) {
    Truthy(l.visible) && Truthy(l.url)
  }

  /** `links.filter(link => link.visible && link.url)`. */
  function FilterShown(links: seq<Link>): (r: seq<Link>)
    ensures |r| <= |links|
    ensures forall l :: l in r <==> l in links && Shown(l)
  {
    if links == [] then []
    else Keep(links[0]) + FilterShown(links[1..])
  }

  /** The links the bar shows for a loaded document: at most one per platform, each
      shown, and every platform whose entry is shown. */
  function VisibleLinks(socials: Doc): (r: seq<Link>)
    ensures |r| <= |Platforms|
    ensures forall l :: l in r ==> Shown(l) && l == LinkOf(socials, l.platform)
    ensures forall p :: Shown(LinkOf(socials, p)) ==> LinkOf(socials, p) in r
  {
    FilterShown([LinkOf(socials, GitHub), LinkOf(socials, LinkedIn), LinkOf(socials, Twitter)])
  }

  /** One rendered `<a>`: the link and its `href`. */
  datatype Anchor = Anchor(link: Link, href: string)

  /** `links.map(link => <a href={formatUrl(link.url)} ...>)`: one anchor per link, in
      order, or the error of the first `formatUrl` that throws. */
  function Anchors(links: seq<Link>): (r: Result<seq<Anchor>, string>)
    ensures r.Success? <==> forall i :: 0 <= i < |links| ==> FormatUrl(links[i].url).Success?
    ensures r.Success? ==> |r.value| == |links|
    ensures r.Success? ==> forall i :: 0 <= i < |links| ==> r.value[i] == Anchor(links[i], FormatUrl(links[i].url).value)
  {
    if links == [] then Success([])
    else
      match FormatUrl(links[0].url)
      case Failure(e) => Failure(e)
      case Success(href) =>
        match Anchors(links[1..])
        case Failure(e) =>
          assert exists i :: 1 <= i < |links| && FormatUrl(links[i].url).Failure? by {
            var j :| 0 <= j < |links| - 1 && FormatUrl(links[1..][j].url).Failure?;
            assert links[1..][j] == links[j + 1];
          }
          Failure(e)
        case Success(rest) =>
          assert forall i :: 1 <= i < |links| ==> links[i] == links[1..][i - 1];
          Success([Anchor(links[0], href)] + rest)
  }

  /** What the component renders once loaded: nothing (`None`) for a missing document or
      when no link survives the filter, otherwise one anchor per shown link; rendering
      throws when a shown link's URL is not a string. */
  function Rendered(socials: Option<Doc>): (r: Result<Option<seq<Anchor>>, string>)
    ensures socials.None? ==> r == Success(None)
    ensures socials.Some? && VisibleLinks(socials.value) == [] ==> r == Success(None)
    ensures socials.Some? ==>
      (r.Success? <==> forall i :: 0 <= i < |VisibleLinks(socials.value)| ==> VisibleLinks(socials.value)[i].url.Str?)
    ensures socials.Some? && r.Success? && VisibleLinks(socials.value) != [] ==>
      r.value.Some? && |r.value.value| == |VisibleLinks(socials.value)|
    ensures socials.Some? && r.Success? && r.value.Some? ==>
      forall i :: 0 <= i < |r.value.value| ==>
        (r.value.value[i].link == VisibleLinks(socials.value)[i]
         && Success(r.value.value[i].href) == FormatUrl(VisibleLinks(socials.value)[i].url))
  {
    if socials.None? then Success(None)
    else
      var links := VisibleLinks(socials.value);
      ShownUrlsTruthy(links);
      RenderLinks(links)
  }

  /** The loaded branch of `Rendered` for a list of links: nothing for an empty list,
      otherwise the anchors `Anchors` gives or its error. */
  function RenderLinks(links: seq<Link>): (r: Result<Option<seq<Anchor>>, string>)
    ensures links == [] ==> r == Success(None)
    ensures (forall i :: 0 <= i < |links| ==> Truthy(links[i].url)) ==>
      (r.Success? <==> forall i :: 0 <= i < |links| ==> links[i].url.Str?)
    ensures r.Success? && links != [] ==> r.value.Some? && |r.value.value| == |links|
    ensures r.Success? && r.value.Some? ==>
      forall i :: 0 <= i < |r.value.value| ==>
        (r.value.value[i].link == links[i] && Success(r.value.value[i].href) == FormatUrl(links[i].url))
  {
    if |links| == 0 then Success(None)
    else
      match Anchors(links)
      case Failure(e) => Failure(e)
      case Success(anchors) => Success(Some(anchors))
  }

  /** Every link the filter keeps has a truthy URL. */
  lemma ShownUrlsTruthy(links: seq<Link>)
    requires forall l :: l in links ==> Shown(l)
    ensures forall i :: 0 <= i < |links| ==> Truthy(links[i].url)
  {
    forall i | 0 <= i < |links| ensures Truthy(links[i].url) {
      assert links[i] in links;
    }
  }

  /** `formatUrl(url)`: `#` for no URL, an `http://` or `https://` URL as it is, any other
      string behind `https://`; a value without `startsWith` throws. */
  function FormatUrl(url: Value): (r: Result<string, string>)
    ensures !Truthy(url) ==> r == Success("#")
    ensures Truthy(url) ==> (r.Success? <==> url.Str?)
  {
    if !Truthy(url) then Success("#")
    else match url
      case Str(s) =>
        if StartsWith(s, "http://") || StartsWith(s, "https://") then Success(s) else Success("https://" + s)
      case _ => Failure(TypeErrorMessage)
  }

  // ---------------------------------------------------------------- properties

  /** `[l]` when the link passes the filter, `[]` otherwise. */
  function Keep(l: Link): seq<Link> {
    if Shown(l) then [l] else []
  }

  /** Filtering distributes over concatenation: it keeps the relative order of what it keeps. */
  lemma {:induction false} FilterAppend(a: seq<Link>, b: seq<Link>)
    ensures FilterShown(a + b) == FilterShown(a) + FilterShown(b)
  {
    if a != [] {
      assert (a + b)[0] == a[0] && (a + b)[1..] == a[1..] + b;
      FilterAppend(a[1..], b);
      var k, rest := Keep(a[0]), a[1..];
      assert k + (FilterShown(rest) + FilterShown(b)) == (k + FilterShown(rest)) + FilterShown(b);
    } else {
      assert a + b == b;
    }
  }

  /** The bar lists GitHub, then LinkedIn, then Twitter, each present exactly when shown. */
  lemma VisibleLinksInOrder(socials: Doc)
    ensures VisibleLinks(socials) == Keep(LinkOf(socials, GitHub)) + Keep(LinkOf(socials, LinkedIn)) + Keep(LinkOf(socials, Twitter))
  {
    FilterThree(LinkOf(socials, GitHub), LinkOf(socials, LinkedIn), LinkOf(socials, Twitter));
  }

  lemma FilterThree(a: Link, b: Link, c: Link)
    ensures FilterShown([a, b, c]) == Keep(a) + Keep(b) + Keep(c)
  {
    FilterSingle(a);
    FilterSingle(b);
    FilterSingle(c);
    assert [b, c] == [b] + [c];
    FilterAppend([b], [c]);
    assert [a, b, c] == [a] + [b, c];
    FilterAppend([a], [b, c]);
  }

  lemma FilterSingle(l: Link)
    ensures FilterShown([l]) == Keep(l)
  {
    assert [l][1..] == [];
  }

  /** A platform is in the bar exactly when its flag and its URL are both truthy. */
  lemma PlatformShownIff(socials: Doc, p: Platform)
    ensures LinkOf(socials, p) in VisibleLinks(socials) <==>
      Truthy(Get(socials, FlagField(p))) && Truthy(Get(socials, UrlField(p)))
  {
    assert LinkOf(socials, p) in [LinkOf(socials, GitHub), LinkOf(socials, LinkedIn), LinkOf(socials, Twitter)];
  }

  /** A missing document, or one where every platform is hidden or empty, renders nothing. */
  lemma NothingToShowRendersNothing(socials: Doc)
    requires forall p: Platform :: !Truthy(Get(socials, FlagField(p))) || !Truthy(Get(socials, UrlField(p)))
    ensures Rendered(None) == Success(None)
    ensures Rendered(Some(socials)) == Success(None)
  {
    VisibleLinksInOrder(socials);
    assert !Shown(LinkOf(socials, GitHub));
    assert !Shown(LinkOf(socials, LinkedIn));
    assert !Shown(LinkOf(socials, Twitter));
  }

  /** Every non-empty string URL becomes an absolute `http://` or `https://` link: an
      absolute one is kept, anything else gets `https://` in front. */
  lemma FormatUrlAbsolute(s: string)
    requires s != ""
    ensures FormatUrl(Str(s)).Success?
    ensures var r := FormatUrl(Str(s)).value;
      (StartsWith(s, "http://") || StartsWith(s, "https://") ==> r == s)
      && (!StartsWith(s, "http://") && !StartsWith(s, "https://") ==> r == "https://" + s)
      && (StartsWith(r, "http://") || StartsWith(r, "https://"))
  {
    var r := "https://" + s;
    assert r[..|"https://"|] == "https://";
  }

  /** Formatting a formatted non-empty URL changes nothing more. */
  lemma FormatUrlIdempotent(s: string)
    requires s != ""
    ensures FormatUrl(Str(FormatUrl(Str(s)).value)) == FormatUrl(Str(s))
  {
    FormatUrlAbsolute(s);
    var r := FormatUrl(Str(s)).value;
    assert r != "";
  }

  /** Every `href` of a rendered bar is an absolute `http://` or `https://` link: a shown
      link has a non-empty URL, and `formatUrl` makes that absolute. */
  lemma RenderedHrefsAbsolute(socials: Doc)
    requires Rendered(Some(socials)).Success? && Rendered(Some(socials)).value.Some?
    ensures forall a :: a in Rendered(Some(socials)).value.value ==>
      StartsWith(a.href, "http://") || StartsWith(a.href, "https://")
  {
    var links := VisibleLinks(socials);
    var anchors := Rendered(Some(socials)).value.value;
    forall a | a in anchors ensures StartsWith(a.href, "http://") || StartsWith(a.href, "https://") {
      var i :| 0 <= i < |anchors| && anchors[i] == a;
      assert links[i] in links;
      var s := links[i].url.s;
      FormatUrlAbsolute(s);
    }
  }
}
