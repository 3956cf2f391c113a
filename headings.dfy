/** The two-tone section headings of the public site (src/components/Skills.jsx,
    src/components/Projects.jsx, src/components/About.jsx): the title is split at spaces,
    every word but the last is shown plain and the last word is highlighted. */
module Headings {
  import opened Wrappers
  import opened JsText
  import opened Documents

  /** The plain part and the highlighted last word. */
  datatype Heading = Heading(main: string, last: string)

  /** `parts.slice(0, -1).join(' ')` and the last element of `parts = title.split(' ')`. */
  function SplitHeading(title: string): (h: Heading)
    ensures ' ' !in h.last
  {
    var parts := Split(title, ' ');
    Heading(Join(parts[..|parts| - 1], " "), parts[|parts| - 1])
  }

  /** The heading of a title as stored: only a string has `split`; anything else throws. */
  function HeadingOf(title: Value): (r: Result<Heading, string>)
    ensures r.Success? <==> title.Str?
    ensures title.Str? ==> r.value == SplitHeading(title.s)
  {
    match TextOf(title)
    case Failure(e) => Failure(e)
    case Success(s) => Success(SplitHeading(s))
  }

  // ---------------------------------------------------------------- properties

  /** With at least one space, the plain part, a space and the last word are the title again. */
  lemma HeadingReassembles(title: string)
    requires ' ' in title
    ensures var h := SplitHeading(title); h.main + " " + h.last == title
  {
    var parts := Split(title, ' ');
    SplitCount(title, ' ');
    assert ' ' in multiset(title);
    assert |parts| >= 2;
    JoinLast(parts, " ");
    JoinSplit(title, ' ');
    assert Join(parts, " ") == title;
  }

  /** A title without a space is all last word, with an empty plain part. */
  lemma OneWordHeading(title: string)
    requires ' ' !in title
    ensures SplitHeading(title) == Heading("", title)
  {
    SplitWithoutSeparator(title, ' ');
  }

  /** Whatever precedes the last space is the plain part, and the space-free rest is the
      last word. */
  lemma LastWordHeading(m: string, b: string)
    requires ' ' !in b
    ensures SplitHeading(m + " " + b) == Heading(m, b)
  {
    var parts := Split(m + " " + b, ' ');
    assert m + " " + b == m + [' '] + b;
    SplitAround(m, b, ' ');
    SplitWithoutSeparator(b, ' ');
    assert parts == Split(m, ' ') + [b];
    assert parts[..|parts| - 1] == Split(m, ' ');
    JoinSplit(m, ' ');
  }

  /** The last word is what follows the last space: no space survives in it, and the plain
      part is a prefix of the title. */
  lemma HeadingParts(title: string)
    requires ' ' in title
    ensures var h := SplitHeading(title);
      |h.main| < |title| && title[..|h.main|] == h.main && title[|h.main| + 1..] == h.last
  {
    HeadingReassembles(title);
    var h := SplitHeading(title);
    assert title == h.main + " " + h.last;
    assert title[..|h.main|] == h.main;
    assert title[|h.main| + 1..] == h.last;
  }
}
