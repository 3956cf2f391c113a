/** The grouping of skill documents by category that the home page builds before handing
    them to the skills section (src/pages/Home.jsx, lines 43-48): a reduce over the query's
    rows that mutates an accumulator object, creating a group the first time a category
    is seen and pushing `{name, level}` onto it. */
module SkillGroups {
  import opened Wrappers
  import opened Documents

  /** `{ name: data.name, level: data.level }`. */
  datatype SkillEntry = SkillEntry(name: Value, level: Value)

  /** The accumulator object: its own keys in insertion order, and the array under each. */
  datatype Grouping = Grouping(keys: seq<string>, groups: map<string, seq<SkillEntry>>)

  /** The names an empty object literal already answers through its prototype. Reading
      one of them gives a truthy non-array, so `acc[key].push` throws. */
  const InheritedKeys: set<string> := {
    "constructor", "hasOwnProperty", "isPrototypeOf", "propertyIsEnumerable", "toLocaleString",
    "toString", "valueOf", "__proto__", "__defineGetter__", "__defineSetter__",
    "__lookupGetter__", "__lookupSetter__"}

  predicate Inherited(k: string) {
    k in InheritedKeys
  }

  /** The property key `acc[data.category]` uses: the category converted to a string, so
      a string category is its own key and rows without one share the key `undefined`. */
  function CategoryKey(d: Doc): (k: string)
    ensures Get(d, "category").Str? ==> k == Get(d, "category").s
    ensures "category" !in d ==> k == "undefined"
  {
    ToText(Get(d, "category"))
  }

  function EntryOf(d: Doc): SkillEntry {
    SkillEntry(Get(d, "name"), Get(d, "level"))
  }

  /** The categories of `rows`, each once, in order of first appearance. */
  function FirstKeys(rows: seq<Doc>): seq<string> {
    if rows == [] then []
    else
      var prefix := FirstKeys(rows[..|rows| - 1]);
      var k := CategoryKey(rows[|rows| - 1]);
      if k in prefix then prefix else prefix + [k]
  }

  /** The entries of the rows whose category key is `k`, in row order. */
  function Members(rows: seq<Doc>, k: string): seq<SkillEntry> {
    if rows == [] then []
    else
      Members(rows[..|rows| - 1], k)
      + (if CategoryKey(rows[|rows| - 1]) == k then [EntryOf(rows[|rows| - 1])] else [])
  }

  /** What the reduce leaves in `acc` when nothing throws: one group per listed key, at
      most one key per row, and no key at all exactly when there are no rows. */
  function Grouped(rows: seq<Doc>): (g: Grouping)
    ensures forall k :: k in g.groups <==> k in g.keys
    ensures |g.keys| <= |rows|
    ensures g.keys == [] <==> rows == []
  {
    FirstKeysBound(rows);
    var keys := FirstKeys(rows);
    Grouping(keys, map k | k in keys :: Members(rows, k))
  }

  /** Some row's category names an inherited member, so the reduce throws. No rows never
      block, and neither do rows whose categories are ordinary strings. */
  predicate Blocked(rows: seq<Doc>)
    ensures Blocked(rows) ==> rows != []
    ensures (forall i :: 0 <= i < |rows| ==> Get(rows[i], "category").Str? && Get(rows[i], "category").s !in InheritedKeys)
            ==> !Blocked(rows)
  {
    exists i :: 0 <= i < |rows| && Inherited(CategoryKey(rows[i]))
  }

  /** `acc` after the reducer has run over the first `i` rows: the keys in first-appearance
      order, one group per key, each holding its rows' entries in order. */
  ghost predicate Accumulated(rows: seq<Doc>, i: nat, keys: seq<string>, groups: map<string, seq<SkillEntry>>)
    requires i <= |rows|
  {
    keys == FirstKeys(rows[..i])
    && (forall k :: k in groups <==> k in keys)
    && (forall k :: k in groups ==> groups[k] == Members(rows[..i], k))
  }

  /** The reduce, step by step. */
  method GroupSkills(rows: seq<Doc>) returns (r: Result<Grouping, string>)
    ensures r == if Blocked(rows) then Failure(TypeErrorMessage) else Success(Grouped(rows))
  {
    var keys: seq<string> := [];
    var groups: map<string, seq<SkillEntry>> := map[];
    var i := 0;
    while i < |rows|
      invariant 0 <= i <= |rows|
      invariant Accumulated(rows, i, keys, groups)
      invariant !Blocked(rows[..i])
    {
      var data := rows[i];
      var key := ToText(Get(data, "category"));
      BlockedStep(rows, i);
      if Inherited(key) {
        return Failure(TypeErrorMessage);
      }
      ghost var keys0, groups0 := keys, groups;
      if key !in groups {
        groups := groups[key := []];
        keys := keys + [key];
      }
      groups := groups[key := groups[key] + [EntryOf(data)]];
      AccumulateStep(rows, i, keys0, groups0, keys, groups);
      i := i + 1;
    }
    assert rows[..i] == rows;
    assert groups == Grouped(rows).groups;
    r := Success(Grouping(keys, groups));
  }

  /** One run of the reducer body keeps `Accumulated`: a new category is appended to the
      keys with an empty group, then the row's entry is pushed onto its group. */
  lemma AccumulateStep(rows: seq<Doc>, i: nat, keys: seq<string>, groups: map<string, seq<SkillEntry>>,
                       keys': seq<string>, groups': map<string, seq<SkillEntry>>)
    requires i < |rows| && Accumulated(rows, i, keys, groups)
    requires var k := CategoryKey(rows[i]);
      keys' == (if k in groups then keys else keys + [k])
      && groups' == groups[k := (if k in groups then groups[k] else []) + [EntryOf(rows[i])]]
    ensures Accumulated(rows, i + 1, keys', groups')
  {
    var next := rows[..i + 1];
    assert next[..i] == rows[..i] && next[i] == rows[i];
    var k := CategoryKey(rows[i]);
    if k !in groups {
      MembersOfNewKey(rows[..i], k);
    }
  }

  /** A category naming an inherited member blocks the whole list; otherwise one more row
      keeps the prefix unblocked. */
  lemma BlockedStep(rows: seq<Doc>, i: nat)
    requires i < |rows|
    ensures Inherited(CategoryKey(rows[i])) ==> Blocked(rows)
    ensures !Blocked(rows[..i]) && !Inherited(CategoryKey(rows[i])) ==> !Blocked(rows[..i + 1])
  {
    var next := rows[..i + 1];
    assert next[..i] == rows[..i] && next[i] == rows[i];
    if !Blocked(rows[..i]) && !Inherited(CategoryKey(rows[i])) {
      forall j | 0 <= j < i + 1 ensures !Inherited(CategoryKey(next[j])) {
        if j < i {
          assert next[j] == rows[..i][j];
        }
      }
    }
  }

  /** `Object.keys(skillsData).length > 0 ? skillsData : null`. */
  function SkillsProp(g: Grouping): (r: Option<Grouping>)
    ensures r.None? <==> g.keys == []
    ensures r.Some? ==> r.value == g
  {
    if |g.keys| > 0 then Some(g) else None
  }

  // ---------------------------------------------------------------- properties

  /** At most one key per row, and at least one when there is a row. */
  lemma {:induction false} FirstKeysBound(rows: seq<Doc>)
    ensures |FirstKeys(rows)| <= |rows|
    ensures FirstKeys(rows) == [] <==> rows == []
  {
    if rows != [] {
      var n := |rows| - 1;
      FirstKeysBound(rows[..n]);
      var k := CategoryKey(rows[n]);
      if k in FirstKeys(rows[..n]) {
        assert FirstKeys(rows[..n]) != [];
      }
    }
  }

  /** A category first seen at the end has no earlier members. */
  lemma MembersOfNewKey(rows: seq<Doc>, k: string)
    requires k !in FirstKeys(rows)
    ensures Members(rows, k) == []
  {
    KeysAreCategories(rows, k);
    MembersOnlyOfKey(rows, k);
  }

  /** A key is listed exactly when some row has that category. */
  lemma {:induction false} KeysAreCategories(rows: seq<Doc>, k: string)
    ensures k in FirstKeys(rows) <==> exists i :: 0 <= i < |rows| && CategoryKey(rows[i]) == k
  {
    if rows != [] {
      var n := |rows| - 1;
      KeysAreCategories(rows[..n], k);
      if exists i :: 0 <= i < |rows| && CategoryKey(rows[i]) == k {
        var i :| 0 <= i < |rows| && CategoryKey(rows[i]) == k;
        if i < n {
          assert rows[..n][i] == rows[i];
        }
      }
      if exists i :: 0 <= i < n && CategoryKey(rows[..n][i]) == k {
        var i :| 0 <= i < n && CategoryKey(rows[..n][i]) == k;
        assert rows[i] == rows[..n][i];
      }
    }
  }

  /** Members exist only for categories some row has. */
  lemma {:induction false} MembersOnlyOfKey(rows: seq<Doc>, k: string)
    requires forall i :: 0 <= i < |rows| ==> CategoryKey(rows[i]) != k
    ensures Members(rows, k) == []
  {
    if rows != [] {
      var n := |rows| - 1;
      assert forall i :: 0 <= i < n ==> rows[..n][i] == rows[i];
      MembersOnlyOfKey(rows[..n], k);
    }
  }

  /** No category is listed twice. */
  lemma {:induction false} KeysDistinct(rows: seq<Doc>)
    ensures forall i, j :: 0 <= i < j < |FirstKeys(rows)| ==> FirstKeys(rows)[i] != FirstKeys(rows)[j]
  {
    if rows != [] {
      KeysDistinct(rows[..|rows| - 1]);
    }
  }

  /** An entry is in a group exactly when some row with that category produced it. */
  lemma {:induction false} MembersAreEntries(rows: seq<Doc>, k: string, e: SkillEntry)
    ensures e in Members(rows, k) <==> exists i :: 0 <= i < |rows| && CategoryKey(rows[i]) == k && EntryOf(rows[i]) == e
  {
    if rows != [] {
      var n := |rows| - 1;
      var init, last := rows[..n], rows[n];
      MembersAreEntries(init, k, e);
      var tail := if CategoryKey(last) == k then [EntryOf(last)] else [];
      assert Members(rows, k) == Members(init, k) + tail;
      if e in Members(rows, k) {
        if e in Members(init, k) {
          var i :| 0 <= i < n && CategoryKey(init[i]) == k && EntryOf(init[i]) == e;
          assert rows[i] == init[i];
        } else {
          assert e in tail;
          assert CategoryKey(rows[n]) == k && EntryOf(rows[n]) == e;
        }
      } else {
        forall i | 0 <= i < |rows|
          ensures !(CategoryKey(rows[i]) == k && EntryOf(rows[i]) == e)
        {
          if i < n {
            assert rows[i] == init[i];
          }
        }
      }
    }
  }

  /** The sizes of the groups listed in `ks`, added up. */
  function GroupTotal(rows: seq<Doc>, ks: seq<string>): nat {
    if ks == [] then 0 else |Members(rows, ks[0])| + GroupTotal(rows, ks[1..])
  }

  /** One more row adds one to the group of its category and nothing to the others. */
  lemma {:induction false} GroupTotalStep(rows: seq<Doc>, ks: seq<string>, last: Doc)
    ensures GroupTotal(rows + [last], ks) == GroupTotal(rows, ks) + multiset(ks)[CategoryKey(last)]
  {
    if ks != [] {
      assert (rows + [last])[..|rows + [last]| - 1] == rows;
      GroupTotalStep(rows, ks[1..], last);
      assert ks == [ks[0]] + ks[1..];
      assert multiset(ks) == multiset([ks[0]]) + multiset(ks[1..]);
    }
  }

  /** A group of no members adds nothing at the end of the list. */
  lemma {:induction false} GroupTotalAppendEmpty(rows: seq<Doc>, ks: seq<string>, k: string)
    requires Members(rows, k) == []
    ensures GroupTotal(rows, ks + [k]) == GroupTotal(rows, ks)
  {
    if ks != [] {
      assert (ks + [k])[0] == ks[0] && (ks + [k])[1..] == ks[1..] + [k];
      GroupTotalAppendEmpty(rows, ks[1..], k);
    } else {
      assert ([] + [k])[1..] == [];
    }
  }

  /** A distinct list has no element twice. */
  lemma {:induction false} DistinctCount(ks: seq<string>, k: string)
    requires forall i, j :: 0 <= i < j < |ks| ==> ks[i] != ks[j]
    ensures multiset(ks)[k] == if k in ks then 1 else 0
  {
    if ks != [] {
      assert ks == [ks[0]] + ks[1..];
      assert multiset(ks) == multiset([ks[0]]) + multiset(ks[1..]);
      DistinctCount(ks[1..], k);
      if k == ks[0] {
        assert k !in ks[1..];
      }
    }
  }

  /** Every row lands in exactly one group: the group sizes add up to the number of rows. */
  lemma {:induction false} GroupsCoverRows(rows: seq<Doc>)
    ensures GroupTotal(rows, FirstKeys(rows)) == |rows|
  {
    if rows != [] {
      var n := |rows| - 1;
      var prefix, last := rows[..n], rows[n];
      var k := CategoryKey(last);
      GroupsCoverRows(prefix);
      assert rows == prefix + [last];
      var ks := FirstKeys(prefix);
      KeysDistinct(prefix);
      KeysDistinct(rows);
      if k in ks {
        GroupTotalStep(prefix, ks, last);
        DistinctCount(ks, k);
      } else {
        MembersOfNewKey(prefix, k);
        GroupTotalAppendEmpty(prefix, ks, k);
        GroupTotalStep(prefix, ks + [k], last);
        DistinctCount(ks + [k], k);
      }
    }
  }

  /** The skills prop is `null` exactly when there were no rows. */
  lemma NoRowsNoSkills(rows: seq<Doc>)
    ensures SkillsProp(Grouped(rows)).None? <==> rows == []
  {
    if rows != [] {
      KeysAreCategories(rows, CategoryKey(rows[0]));
    }
  }
}
