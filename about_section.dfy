/** The about section of the public site (src/components/About.jsx): the profile or a
    built-in default, a portrait with a placeholder, and a two-tone heading. */
module AboutSection {
  import opened Wrappers
  import opened Documents
  import opened Headings

  const DefaultTitle := "Expertise Driven by Passion"
  const DefaultText1 := "With over 5 years of experience in the tech industry, I've had the privilege of working with scaling startups and established enterprises. I specialize in building robust full-stack applications that are not only functional but also deliver exceptional user experiences."
  const DefaultText2 := "My approach combines clean architecture, modern design principles, and a deep understanding of core technologies to solve complex problems efficiently."
  const PlaceholderImage := "https://images.unsplash.com/photo-1507003211169-0a1dd7228f2d?auto=format&fit=crop&q=80&w=400"

  /** `defaultData`. */
  function DefaultAbout(): (d: Doc)
    ensures d.Keys == {"aboutTitle", "aboutText1", "aboutText2", "experience", "projectsCount"}
    ensures Get(d, "aboutTitle") == Str(DefaultTitle)
  {
    map["aboutTitle" := Str(DefaultTitle), "aboutText1" := Str(DefaultText1), "aboutText2" := Str(DefaultText2),
        "experience" := Str("5+"), "projectsCount" := Str("50+")]
  }

  /** `profile || defaultData`. */
  function AboutData(profile: Option<Doc>): (d: Doc)
    ensures profile.Some? ==> d == profile.value
    ensures profile.None? ==> d.Keys == {"aboutTitle", "aboutText1", "aboutText2", "experience", "projectsCount"}
    ensures profile.None? ==> Get(d, "aboutTitle") == Str(DefaultTitle)
  {
    if profile.Some? then profile.value else DefaultAbout()
  }

  /** `data.profileImage || placeholder`. */
  function PortraitOf(data: Doc): (v: Value)
    ensures Truthy(v)
  {
    Or(Get(data, "profileImage"), Str(PlaceholderImage))
  }

  /** The heading: `aboutTitle.split(' ').slice(0, -1).join(' ')` and `.pop()`; a title that
      is not a string throws. */
  function AboutHeading(profile: Option<Doc>): (r: Result<Heading, string>)
    ensures profile.None? ==> r == HeadingOf(Str(DefaultTitle))
    ensures profile.Some? ==> r == HeadingOf(Get(profile.value, "aboutTitle"))
    ensures r.Success? <==> profile.None? || Get(profile.value, "aboutTitle").Str?
  {
    HeadingOf(Get(AboutData(profile), "aboutTitle"))
  }

  // ---------------------------------------------------------------- properties

  /** Without a profile the heading is "Expertise Driven by" and "Passion". */
  lemma NoProfileHeading()
    ensures AboutHeading(None) == Success(Heading("Expertise Driven by", "Passion"))
  {
    assert Get(DefaultAbout(), "aboutTitle") == Str(DefaultTitle);
    AboutTitleSplits();
  }

  lemma AboutTitleSplits()
    ensures SplitHeading(DefaultTitle) == Heading("Expertise Driven by", "Passion")
  {
    assert DefaultTitle == "Expertise Driven by" + " " + "Passion";
    LastWordHeading("Expertise Driven by", "Passion");
  }

  /** Without a profile the portrait is the placeholder. */
  lemma NoProfilePlaceholder()
    ensures PortraitOf(AboutData(None)) == Str(PlaceholderImage)
  {
    assert Get(DefaultAbout(), "profileImage") == Undefined;
  }

  /** A profile without a truthy `profileImage` shows the placeholder; one with it shows it. */
  lemma PortraitChoice(profile: Doc)
    ensures Truthy(Get(profile, "profileImage")) ==> PortraitOf(AboutData(Some(profile))) == Get(profile, "profileImage")
    ensures !Truthy(Get(profile, "profileImage")) ==> PortraitOf(AboutData(Some(profile))) == Str(PlaceholderImage)
  {
  }

  /** A loaded profile that has no string `aboutTitle` makes the section throw: there is no
      per-field fallback to the default title. */
  lemma MissingTitleThrows(profile: Doc)
    requires !Get(profile, "aboutTitle").Str?
    ensures AboutHeading(Some(profile)) == Failure(TypeErrorMessage)
  {
  }

  /** A one-word title is all highlight, with an empty plain part. */
  lemma OneWordTitle(profile: Doc, t: string)
    requires Get(profile, "aboutTitle") == Str(t) && ' ' !in t
    ensures AboutHeading(Some(profile)) == Success(Heading("", t))
  {
    OneWordHeading(t);
  }
}
