/** The tags of a project travel between two forms: the comma-separated text field of
    the project editor (src/admin/pages/ProjectsManagement.jsx) and the string array
    stored in Firestore. Parsing is `text.split(',').map(tag => tag.trim())`; formatting
    is `tags.join(', ')`. Empty pieces are kept as `""`, not dropped. */
module ProjectTags {
  import opened JsText
  import opened Documents

  /** The array written to Firestore for the text field `text`. */
  function ParseTags(text: string): (tags: seq<string>)
    ensures |tags| >= 1
    ensures forall i :: 0 <= i < |tags| ==> ',' !in tags[i]
  {
    var parts := Split(text, ',');
    assert forall i :: 0 <= i < |parts| ==> ',' !in Trim(parts[i]) by {
      forall i | 0 <= i < |parts|
        ensures ',' !in Trim(parts[i])
      {
        TrimKeepsOut(parts[i], ',');
      }
    }
    TrimAll(parts)
  }

  /** Every tag is trimmed at both ends. */
  lemma ParseTagsTrimmed(text: string)
    ensures forall i :: 0 <= i < |ParseTags(text)| ==> IsTrimmed(ParseTags(text)[i])
  {
  }

  /** There is one tag more than there are commas in the field. */
  lemma ParseTagsCount(text: string)
    ensures |ParseTags(text)| == multiset(text)[','] + 1
  {
    SplitCount(text, ',');
  }

  /** `parts.map(p => p.trim())`: every piece trimmed, in place. */
  function TrimAll(parts: seq<string>): (r: seq<string>)
    ensures |r| == |parts|
    ensures forall i :: 0 <= i < |r| ==> r[i] == Trim(parts[i]) && IsTrimmed(r[i])
  {
    MapSeq(Trim, parts)
  }

  /** Trimming removes characters and never brings one in. */
  lemma TrimKeepsOut(s: string, c: char)
    requires c !in s
    ensures c !in Trim(s)
  {
    TrimSubMultiset(s);
    assert multiset(s)[c] == 0;
  }

  /** Trimming piece by piece distributes over concatenation. */
  lemma TrimAllAppend(a: seq<string>, b: seq<string>)
    ensures TrimAll(a + b) == TrimAll(a) + TrimAll(b)
  {
    MapAppend(Trim, a, b);
  }

  /** A join starts with its first piece and ends with its last. */
  lemma JoinEnds(parts: seq<string>, sep: string)
    ensures parts != [] ==> StartsWith(Join(parts, sep), parts[0]) && EndsWith(Join(parts, sep), parts[|parts| - 1])
  {
    if |parts| >= 2 {
      JoinLast(parts, sep);
      var j, last := Join(parts, sep), parts[|parts| - 1];
      assert j == Join(parts[..|parts| - 1], sep) + sep + last;
      assert j[|j| - |last|..] == last;
      assert j == parts[0] + sep + Join(parts[1..], sep);
      assert j[..|parts[0]|] == parts[0];
    }
  }

  /** The text shown in the editor for a stored tag array: empty for no tags, otherwise
      starting with the first tag and ending with the last. */
  function FormatTags(tags: seq<string>): (text: string)
    ensures tags == [] ==> text == ""
    ensures tags != [] ==> StartsWith(text, tags[0]) && EndsWith(text, tags[|tags| - 1])
  {
    JoinEnds(tags, ", ");
    Join(tags, ", ")
  }

  /** `Array.isArray(project.tags) ? project.tags.join(', ') : ''`: the text field
      seeded when an existing project is opened. */
  function SeedTags(v: Value): (text: string)
    ensures v.StrList? ==> text == FormatTags(v.items)
    ensures !v.StrList? ==> text == ""
  {
    if v.StrList? then FormatTags(v.items) else ""
  }

  /** Each piece is the trimmed text between consecutive commas; a piece of whitespace
      only becomes `""` and stays in the list. */
  lemma BlankPiecesKept(text: string, i: nat)
    requires i < |Split(text, ',')|
    requires forall k :: 0 <= k < |Split(text, ',')[i]| ==> IsWhitespace(Split(text, ',')[i][k])
    ensures i < |ParseTags(text)| && ParseTags(text)[i] == ""
  {
    TrimEmptyIff(Split(text, ',')[i]);
  }

  /** An empty field gives one empty tag, not an empty list. */
  lemma EmptyFieldGivesOneEmptyTag()
    ensures ParseTags("") == [""]
  {
    assert Split("", ',') == [""];
    assert Trim("") == "";
  }

  /** A blank piece between two tags and the empty piece after a trailing comma are both
      kept as `""`: `"a, , b,"` is saved as `[a, "", b, ""]`. */
  lemma BlankAndTrailingPiecesKept(a: string, b: string)
    requires IsTrimmed(a) && ',' !in a && IsTrimmed(b) && ',' !in b
    ensures ParseTags(a + ", , " + b + ",") == [a, "", b, ""]
  {
    var w := " ";
    var tail := " " + b + [','] + "";
    var mid := w + [','] + tail;
    assert a + ", , " + b + "," == a + [','] + mid;
    TrailingPiece(b);
    BlankSingle(w);
    ParseAround(w, tail);
    ParseSingle(a);
    ParseAround(a, mid);
    assert [a] + ([""] + [b, ""]) == [a, "", b, ""] by {
      FourPieces(a, b);
    }
  }

  lemma FourPieces(a: string, b: string)
    ensures [a] + ([""] + [b, ""]) == [a, "", b, ""]
  {
  }

  lemma TrailingPiece(b: string)
    requires IsTrimmed(b) && ',' !in b
    ensures ParseTags(" " + b + [','] + "") == [b, ""]
  {
    ParseSingle(b);
    ParseLeadingSpace(b);
    EmptyFieldGivesOneEmptyTag();
    ParseAround(" " + b, "");
  }

  /** A piece of whitespace alone is one empty tag. */
  lemma BlankSingle(w: string)
    requires ',' !in w
    requires forall k :: 0 <= k < |w| ==> IsWhitespace(w[k])
    ensures ParseTags(w) == [""]
  {
    assert Trim(w) == "" by {
      TrimEmptyIff(w);
    }
    SplitWithoutSeparator(w, ',');
    MapSingle(Trim, w);
  }

  /** A comma between two texts splits the parse into the parses of each side. */
  lemma ParseAround(x: string, y: string)
    ensures ParseTags(x + [','] + y) == ParseTags(x) + ParseTags(y)
  {
    SplitAround(x, y, ',');
    TrimAllAppend(Split(x, ','), Split(y, ','));
  }

  /** The space `join(', ')` puts after each comma is trimmed away again. */
  lemma ParseLeadingSpace(x: string)
    ensures ParseTags(" " + x) == ParseTags(x)
  {
    var px, pw := Split(x, ','), Split(" " + x, ',');
    SplitLeadingChar(' ', x, ',');
    TrimLeadingSpace(px[0]);
    MapSameButHead(Trim, pw, px);
  }

  /** `join(', ')` of two or more tags: the first, a comma, a space and the join of the rest. */
  lemma JoinCommaSpace(tags: seq<string>)
    requires |tags| >= 2
    ensures FormatTags(tags) == tags[0] + [','] + (" " + FormatTags(tags[1..]))
  {
  }

  /** A trimmed, comma-free first tag followed by `", "` parses to itself in front of the rest. */
  lemma ParseCons(t: string, rest: string)
    requires IsTrimmed(t) && ',' !in t
    ensures ParseTags(t + [','] + (" " + rest)) == [t] + ParseTags(rest)
  {
    ParseSingle(t);
    ParseAround(t, " " + rest);
    ParseLeadingSpace(rest);
  }

  /** A trimmed text without commas is a single tag, itself. */
  lemma ParseSingle(t: string)
    requires IsTrimmed(t) && ',' !in t
    ensures ParseTags(t) == [t]
  {
    SplitWithoutSeparator(t, ',');
  }

  /** Formatting and parsing again gives back any non-empty list of trimmed tags
      without commas. */
  lemma {:induction false} ParseFormat(tags: seq<string>)
    requires |tags| >= 1
    requires forall i :: 0 <= i < |tags| ==> IsTrimmed(tags[i]) && ',' !in tags[i]
    ensures ParseTags(FormatTags(tags)) == tags
  {
    if |tags| == 1 {
      ParseSingle(tags[0]);
    } else {
      ParseFormat(tags[1..]);
      ParseFormatStep(tags);
    }
  }

  /** The inductive step of `ParseFormat`: one more tag in front. */
  lemma ParseFormatStep(tags: seq<string>)
    requires |tags| >= 2 && IsTrimmed(tags[0]) && ',' !in tags[0]
    requires ParseTags(FormatTags(tags[1..])) == tags[1..]
    ensures ParseTags(FormatTags(tags)) == tags
  {
    JoinCommaSpace(tags);
    ParseCons(tags[0], FormatTags(tags[1..]));
    HeadTail(tags);
  }

  lemma HeadTail<T>(s: seq<T>)
    requires |s| >= 1
    ensures [s[0]] + s[1..] == s
  {
  }

  /** What the editor shows after a save and a reload parses to the same tags again:
      the parse is a fixed point of format-then-parse. */
  lemma ParseFormatParse(text: string)
    ensures ParseTags(FormatTags(ParseTags(text))) == ParseTags(text)
  {
    ParseTagsTrimmed(text);
    ParseFormat(ParseTags(text));
  }

  /** A stored array of trimmed, comma-free tags survives opening the project and
      saving it unchanged. */
  lemma SeedThenSaveKeepsTags(items: seq<string>)
    requires |items| >= 1
    requires forall i :: 0 <= i < |items| ==> IsTrimmed(items[i]) && ',' !in items[i]
    ensures ParseTags(SeedTags(StrList(items))) == items
  {
    ParseFormat(items);
  }

  /** A stored value that is not an array is seeded as `""` and saved as `[""]`. */
  lemma NonArraySavedAsOneEmptyTag(v: Value)
    requires !v.StrList?
    ensures ParseTags(SeedTags(v)) == [""]
  {
    EmptyFieldGivesOneEmptyTag();
  }
}
