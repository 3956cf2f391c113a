/** The public home page (src/pages/Home.jsx): one sequential load of the projects, the
    grouped skills and the profile, whose results become the props of the sections. */
module Home {
  import opened Wrappers
  import opened Documents
  import opened Firestore
  import opened SkillGroups

  /** The data of each row of a query, ids dropped (`doc.data()`). */
  function RowData(rows: seq<(string, Doc)>): (r: seq<Doc>)
    ensures |r| == |rows|
    ensures forall i :: 0 <= i < |rows| ==> r[i] == rows[i].1
  {
    seq(|rows|, i requires 0 <= i < |rows| => rows[i].1)
  }

  /** `projects.length > 0 ? projects : null`: the prop the projects section receives. */
  function ProjectsProp(projects: seq<Doc>): (r: Option<seq<Doc>>)
    ensures r.None? <==> projects == []
    ensures r.Some? ==> r.value == projects
  {
    if |projects| > 0 then Some(projects) else None
  }

  class HomePage {
    var projects: seq<Doc>
    var skills: Option<Grouping>
    var profile: Option<Doc>
    var loading: bool

    constructor ()
      ensures projects == [] && skills.None? && profile.None? && loading
    {
      projects := [];
      skills := None;
      profile := None;
      loading := true;
    }

    /** `fetchData`: three reads inside one `try`, the first failure (a failed read, or
        the grouping throwing) skipping everything after it; `loading` ends false in any case. */
    method FetchData(projectsQuery: QueryResult, skillsQuery: QueryResult, profileSnap: DocSnapshot)
      modifies this
      ensures !loading
      ensures projects == if projectsQuery.Rows? then Records(projectsQuery.rows) else old(projects)
      ensures var reached := projectsQuery.Rows? && skillsQuery.Rows? && !Blocked(RowData(skillsQuery.rows));
        (skills == if reached then SkillsProp(Grouped(RowData(skillsQuery.rows))) else old(skills))
        && (profile == if reached && profileSnap.Exists? then Some(profileSnap.data) else old(profile))
    {
      if projectsQuery.QueryFailed? {
        loading := false;
        return;
      }
      projects := Records(projectsQuery.rows);
      if skillsQuery.QueryFailed? {
        loading := false;
        return;
      }
      var grouped := GroupSkills(RowData(skillsQuery.rows));
      if grouped.Failure? {
        loading := false;
        return;
      }
      skills := SkillsProp(grouped.value);
      if profileSnap.Exists? {
        profile := Some(profileSnap.data);
      }
      loading := false;
    }

    /** The props handed to the projects section. */
    function ProjectsForSection(): (r: Option<seq<Doc>>)
      reads this
      ensures r.None? <==> projects == []
      ensures r.Some? ==> r.value == projects
    {
      ProjectsProp(projects)
    }
  }

  /** A skill whose category names an inherited object member stops the load: the skills
      stay `null` and the profile is never read, so every section shows its defaults for it. */
  lemma InheritedCategoryStopsLoad(rows: seq<(string, Doc)>, i: nat)
    requires i < |rows| && Inherited(CategoryKey(rows[i].1))
    ensures Blocked(RowData(rows))
  {
    assert RowData(rows)[i] == rows[i].1;
  }
}
