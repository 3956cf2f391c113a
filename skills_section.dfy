/** The skills section of the public site (src/components/Skills.jsx): the grouped skills
    or a built-in default set, a heading and subtitle with fallbacks, and one bar per skill
    whose width is the stored level as it is. */
module SkillsSection {
  import opened Wrappers
  import opened JsText
  import opened Documents
  import opened Headings
  import opened SkillGroups

  const DefaultTitle := "SYSTEM PROWESS"
  const DefaultSubtitle := "Mapping the technical architecture and neural throughput of my development stack. Optimized for high-concurrency and superior visual fidelity."

  function Entry(name: string, level: int): SkillEntry {
    SkillEntry(Str(name), Num(level))
  }

  /** `defaultSkills`: three categories of four skills each. */
  function DefaultSkills(): (g: Grouping)
    ensures g.keys == ["Neural_Frontend", "Kernel_Backend", "System_Integration"]
    ensures forall k :: k in g.groups <==> k in g.keys
  {
    Grouping(
      ["Neural_Frontend", "Kernel_Backend", "System_Integration"],
      map[
        "Neural_Frontend" := [Entry("React / Next.js", 95), Entry("Tailwind CSS", 98), Entry("TypeScript", 85), Entry("Framer Motion", 90)],
        "Kernel_Backend" := [Entry("Node.js / Express", 88), Entry("Firebase / Firestore", 92), Entry("PostgreSQL", 80), Entry("Python", 75)],
        "System_Integration" := [Entry("Git / GitHub", 95), Entry("Docker", 70), Entry("AWS", 65), Entry("Figma", 85)]])
  }

  /** `skills || defaultSkills`: loaded skills are shown as they are, with no default mixed
      in; otherwise the three default categories. */
  function DisplaySkills(skills: Option<Grouping>): (g: Grouping)
    ensures skills.Some? ==> g == skills.value
    ensures skills.None? ==> g.keys == ["Neural_Frontend", "Kernel_Backend", "System_Integration"]
  {
    if skills.Some? then skills.value else DefaultSkills()
  }

  /** `profile?.skillsTitle || "SYSTEM PROWESS"`. */
  function SkillsTitle(profile: Option<Doc>): (v: Value)
    ensures Truthy(v)
  {
    Or(GetOpt(profile, "skillsTitle"), Str(DefaultTitle))
  }

  /** The heading of `profile?.skillsTitle || "SYSTEM PROWESS"`: the stored title when it is
      truthy, the default otherwise; only a string title renders. */
  function SkillsHeading(profile: Option<Doc>): (r: Result<Heading, string>)
    ensures Truthy(GetOpt(profile, "skillsTitle")) ==> r == HeadingOf(GetOpt(profile, "skillsTitle"))
    ensures !Truthy(GetOpt(profile, "skillsTitle")) ==> r == HeadingOf(Str(DefaultTitle))
    ensures r.Failure? ==> Truthy(GetOpt(profile, "skillsTitle")) && !GetOpt(profile, "skillsTitle").Str?
  {
    HeadingOf(SkillsTitle(profile))
  }

  /** `profile?.skillsSubtitle || default`. */
  function SkillsSubtitle(profile: Option<Doc>): (v: Value)
    ensures Truthy(v)
    ensures Truthy(GetOpt(profile, "skillsSubtitle")) ==> v == GetOpt(profile, "skillsSubtitle")
    ensures !Truthy(GetOpt(profile, "skillsSubtitle")) ==> v == Str(DefaultSubtitle)
  {
    Or(GetOpt(profile, "skillsSubtitle"), Str(DefaultSubtitle))
  }

  /** The CSS width of a bar, `${percentage}%`, with the level as stored: a non-negative
      number gives its decimal numeral followed by `%`, a string is used as written. */
  function BarWidth(level: Value): (w: string)
    ensures |w| >= 1 && w[|w| - 1] == '%'
    ensures level.Str? ==> w == level.s + "%"
    ensures level.Num? && level.n >= 0 ==> w[..|w| - 1] == NatToDecimal(level.n) && DecimalValue(w[..|w| - 1]) == level.n
  {
    ToText(level) + "%"
  }

  // ---------------------------------------------------------------- properties

  /** Null skills show the three default categories, in their written order. */
  lemma NoSkillsShowDefaults()
    ensures DisplaySkills(None).keys == ["Neural_Frontend", "Kernel_Backend", "System_Integration"]
    ensures forall k :: k in DisplaySkills(None).keys ==> |DisplaySkills(None).groups[k]| == 4
  {
  }

  /** Without a title the heading is "SYSTEM" and "PROWESS"; a present string title is split as it is. */
  lemma TitleFallback(profile: Option<Doc>)
    ensures !Truthy(GetOpt(profile, "skillsTitle")) ==> SkillsHeading(profile) == Success(Heading("SYSTEM", "PROWESS"))
    ensures Truthy(GetOpt(profile, "skillsTitle")) ==> SkillsHeading(profile) == HeadingOf(GetOpt(profile, "skillsTitle"))
  {
    if !Truthy(GetOpt(profile, "skillsTitle")) {
      SkillsTitleSplits();
    }
  }

  lemma SkillsTitleSplits()
    ensures SplitHeading(DefaultTitle) == Heading("SYSTEM", "PROWESS")
  {
    assert DefaultTitle == "SYSTEM" + " " + "PROWESS";
    LastWordHeading("SYSTEM", "PROWESS");
  }

  /** The width is the level's numeral followed by `%`, for any level: 150 gives `150%`,
      nothing is clamped to 100. */
  lemma WidthIsLevel(n: nat)
    ensures BarWidth(Num(n)) == NatToDecimal(n) + "%"
    ensures var w := BarWidth(Num(n)); DecimalValue(w[..|w| - 1]) == n
  {
    var digits := NatToDecimal(n);
    assert ToText(Num(n)) == digits;
    var w := digits + "%";
    assert w[..|w| - 1] == digits;
    DecimalRoundTrip(n);
  }
}
