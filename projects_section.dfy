/** The projects section of the public site (src/components/Projects.jsx): the loaded
    projects or three built-in ones, a heading and subtitle with fallbacks, and one card per
    project. */
module ProjectsSection {
  import opened Wrappers
  import opened JsText
  import opened Documents
  import opened Headings

  const DefaultTitle := "DEPLOYED MODULES"
  const DefaultSubtitle := "A curated selection of high-impact systems, designed with scalability and high-fidelity aesthetics in mind. Each module represents a milestone in technical execution."

  /** A built-in project: its texts, picture and tags; both of its links are `#`. */
  datatype SampleProject = SampleProject(title: string, description: string, image: string, tags: seq<string>)

  function SampleDoc(p: SampleProject): (d: Doc)
    ensures Get(d, "liveUrl") == Str("#") && Get(d, "githubUrl") == Str("#")
  {
    map["title" := Str(p.title), "description" := Str(p.description), "image" := Str(p.image),
        "tags" := StrList(p.tags), "liveUrl" := Str("#"), "githubUrl" := Str("#")]
  }

  function SampleDocs(ps: seq<SampleProject>): (r: seq<Doc>)
    ensures |r| == |ps|
    ensures forall i :: 0 <= i < |ps| ==> r[i] == SampleDoc(ps[i])
  {
    seq(|ps|, i requires 0 <= i < |ps| => SampleDoc(ps[i]))
  }

  function DefaultSamples(): seq<SampleProject> {
    [SampleProject("Neural Vision AI",
                   "Advanced image synthesization engine utilizing generative adversarial networks for high-fidelity content creation.",
                   "https://images.unsplash.com/photo-1677442136019-21780ecad995?auto=format&fit=crop&q=80&w=800",
                   ["GAN", "PyTorch", "React", "AWS"]),
     SampleProject("Cyber Flux Dashboard",
                   "High-throughput analytics interface with real-time telemetry processing and aesthetic-driven data visualization.",
                   "https://images.unsplash.com/photo-1551288049-bebda4e38f71?auto=format&fit=crop&q=80&w=800",
                   ["D3.js", "Socket.io", "Tailwind", "Next.js"]),
     SampleProject("Omni-Chain Protocol",
                   "Decentralized transaction framework optimized for cross-platform integration and low-latency validation.",
                   "https://images.unsplash.com/photo-1460925895917-afdab827c52f?auto=format&fit=crop&q=80&w=800",
                   ["Solidity", "Ether.js", "Firebase", "TypeScript"])]
  }

  /** `defaultProjects`: three sample projects. */
  function DefaultProjects(): seq<Doc> {
    SampleDocs(DefaultSamples())
  }

  /** `projects || defaultProjects`: the home page passes `null` for an empty list. */
  function DisplayProjects(projects: Option<seq<Doc>>): seq<Doc> {
    if projects.Some? then projects.value else DefaultProjects()
  }

  /** The heading of `profile?.projectsTitle || "DEPLOYED MODULES"`: the stored title when it
      is truthy, the default otherwise; only a string title renders. */
  function ProjectsHeading(profile: Option<Doc>): (r: Result<Heading, string>)
    ensures Truthy(GetOpt(profile, "projectsTitle")) ==> r == HeadingOf(GetOpt(profile, "projectsTitle"))
    ensures !Truthy(GetOpt(profile, "projectsTitle")) ==> r == HeadingOf(Str(DefaultTitle))
    ensures r.Failure? ==> Truthy(GetOpt(profile, "projectsTitle")) && !GetOpt(profile, "projectsTitle").Str?
  {
    HeadingOf(Or(GetOpt(profile, "projectsTitle"), Str(DefaultTitle)))
  }

  /** `profile?.projectsSubtitle || default`. */
  function ProjectsSubtitle(profile: Option<Doc>): (v: Value)
    ensures Truthy(v)
    ensures Truthy(GetOpt(profile, "projectsSubtitle")) ==> v == GetOpt(profile, "projectsSubtitle")
    ensures !Truthy(GetOpt(profile, "projectsSubtitle")) ==> v == Str(DefaultSubtitle)
  {
    Or(GetOpt(profile, "projectsSubtitle"), Str(DefaultSubtitle))
  }

  /** What one card shows: the title (before upper-casing), the module number and the tags. */
  datatype Card = Card(title: string, modId: string, tags: seq<string>)

  /** `project.tags?.map(...)`: no tags for a missing or null list, the list itself for an
      array, and a throw for anything else, which has no `map`. */
  function CardTags(tags: Value): (r: Result<seq<string>, string>)
    ensures r.Success? <==> tags.Undefined? || tags.Null? || tags.StrList?
    ensures tags.Undefined? || tags.Null? ==> r == Success([])
    ensures tags.StrList? ==> r == Success(tags.items)
    ensures r.Failure? ==> r.error == TypeErrorMessage
  {
    match tags
    case Undefined => Success([])
    case Null => Success([])
    case StrList(items) => Success(items)
    case _ => Failure(TypeErrorMessage)
  }

  /** The card of the project at `index`: its title must be a string (it is upper-cased),
      and its label is `00` followed by the one-based position. */
  function CardOf(project: Doc, index: nat): (r: Result<Card, string>)
    ensures r.Success? <==> Get(project, "title").Str? && CardTags(Get(project, "tags")).Success?
    ensures r.Failure? ==> r.error == TypeErrorMessage
    ensures r.Success? ==> r.value.title == Get(project, "title").s && r.value.tags == CardTags(Get(project, "tags")).value
    ensures r.Success? ==> r.value.modId == "00" + NatToDecimal(index + 1)
  {
    match TextOf(Get(project, "title"))
    case Failure(e) => Failure(e)
    case Success(title) =>
      match CardTags(Get(project, "tags"))
      case Failure(e) => Failure(e)
      case Success(tags) => Success(Card(title, "00" + NatToDecimal(index + 1), tags))
  }

  /** The cards in order, from `start`; the first project that throws stops the section. */
  function CardsFrom(projects: seq<Doc>, start: nat): (r: Result<seq<Card>, string>)
    ensures r.Success? ==> |r.value| == |projects|
    ensures r.Success? ==> forall i :: 0 <= i < |projects| ==> CardOf(projects[i], start + i) == Success(r.value[i])
    decreases |projects|
  {
    if projects == [] then Success([])
    else
      match CardOf(projects[0], start)
      case Failure(e) => Failure(e)
      case Success(c) =>
        match CardsFrom(projects[1..], start + 1)
        case Failure(e) => Failure(e)
        case Success(cs) => Success([c] + cs)
  }

  /** The cards of the section: on success, card `i` is the card of project `i`, labelled
      with the one-based position `i + 1`. */
  function Cards(projects: seq<Doc>): (r: Result<seq<Card>, string>)
    ensures r.Success? ==> |r.value| == |projects|
    ensures r.Success? ==> forall i :: 0 <= i < |projects| ==> CardOf(projects[i], i) == Success(r.value[i])
  {
    CardsFrom(projects, 0)
  }

  // ---------------------------------------------------------------- properties

  /** Without a title the heading is "DEPLOYED" and "MODULES". */
  lemma TitleFallback(profile: Option<Doc>)
    ensures !Truthy(GetOpt(profile, "projectsTitle")) ==> ProjectsHeading(profile) == Success(Heading("DEPLOYED", "MODULES"))
    ensures Truthy(GetOpt(profile, "projectsTitle")) ==> ProjectsHeading(profile) == HeadingOf(GetOpt(profile, "projectsTitle"))
  {
    if !Truthy(GetOpt(profile, "projectsTitle")) {
      ProjectsTitleSplits();
    }
  }

  lemma ProjectsTitleSplits()
    ensures SplitHeading(DefaultTitle) == Heading("DEPLOYED", "MODULES")
  {
    assert DefaultTitle == "DEPLOYED" + " " + "MODULES";
    LastWordHeading("DEPLOYED", "MODULES");
  }

  /** The section renders exactly when every project has a string title and a missing,
      null or array `tags`. */
  lemma {:induction false} CardsRenderIff(projects: seq<Doc>, start: nat)
    ensures CardsFrom(projects, start).Success?
        <==> forall i :: 0 <= i < |projects| ==> CardOf(projects[i], start + i).Success?
    decreases |projects|
  {
    if projects != [] {
      CardsRenderIff(projects[1..], start + 1);
      if CardOf(projects[0], start).Success? && CardsFrom(projects[1..], start + 1).Failure? {
        var j :| 0 <= j < |projects| - 1 && !CardOf(projects[1..][j], start + 1 + j).Success?;
        assert projects[1..][j] == projects[j + 1];
      }
      if CardsFrom(projects, start).Success? {
        assert CardOf(projects[0], start).Success?;
      }
      if forall i :: 0 <= i < |projects| ==> CardOf(projects[i], start + i).Success? {
        assert CardOf(projects[0], start + 0).Success?;
        forall j | 0 <= j < |projects| - 1
          ensures CardOf(projects[1..][j], start + 1 + j).Success?
        {
          assert projects[1..][j] == projects[j + 1];
          assert CardOf(projects[j + 1], start + (j + 1)).Success?;
        }
      }
    }
  }

  lemma CardSucceedsIff(project: Doc, index: nat)
    ensures CardOf(project, index).Success?
        <==> Get(project, "title").Str? && (Get(project, "tags").Undefined? || Get(project, "tags").Null? || Get(project, "tags").StrList?)
  {
  }

  /** The card at position `i` is labelled with the numeral of `i + 1` after `00`. */
  lemma CardLabel(projects: seq<Doc>, i: nat)
    requires Cards(projects).Success? && i < |projects|
    ensures Cards(projects).value[i].modId == "00" + NatToDecimal(i + 1)
    ensures Cards(projects).value[i].title == Get(projects[i], "title").s
  {
    assert CardOf(projects[i], 0 + i) == Success(Cards(projects).value[i]);
  }

  /** Loaded projects are shown as they are, with no sample mixed in. */
  lemma LoadedProjectsShown(ps: seq<Doc>)
    ensures DisplayProjects(Some(ps)) == ps
  {
  }

  /** Built-in projects always render, each card showing its sample's title and tags. */
  lemma SamplesRender(ps: seq<SampleProject>)
    ensures Cards(SampleDocs(ps)).Success?
    ensures forall i :: 0 <= i < |ps| ==> Cards(SampleDocs(ps)).value[i].title == ps[i].title
  {
    var docs := SampleDocs(ps);
    forall i | 0 <= i < |docs|
      ensures CardOf(docs[i], 0 + i).Success?
    {
      assert Get(docs[i], "title") == Str(ps[i].title) && Get(docs[i], "tags") == StrList(ps[i].tags);
    }
    CardsRenderIff(docs, 0);
    forall i | 0 <= i < |ps|
      ensures Cards(docs).value[i].title == ps[i].title
    {
      CardLabel(docs, i);
      assert Get(docs[i], "title") == Str(ps[i].title);
    }
  }
}
