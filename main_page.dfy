/** The project browser (src/Pages/Projects/Main.jsx): the case-insensitive
    search over the full project list, and the test that marks the expanded
    project as already applied for. Its role choice and join guard are in
    RoleSelection. */
module MainPage {
  import opened Common
  import opened Seqs
  import opened Text
  import opened Projects

  /** The search test on one project, with the raw, untrimmed term: the
      lower-cased term occurs in the lower-cased title, in the category if
      there is one, or in some role if there are roles. */
  predicate Matches(p: Project, term: string) {
    var t := Lower(term);
    || Includes(Lower(p.title), t)
    || (p.category.Some? && Includes(Lower(p.category.value), t))
    || (p.roles.Some? && exists i :: 0 <= i < |p.roles.value| && Includes(Lower(p.roles.value[i]), t))
  }

  /** `handleSearch`: a term that is blank after trimming shows the full
      list; any other term filters the full list (never the previous result)
      with the untrimmed term. */
  function Search(projects: seq<Project>, term: string): (r: seq<Project>)
    ensures IsSubsequence(r, projects)
    ensures AllSpace(term) ==> r == projects
    ensures !AllSpace(term) ==> forall i :: 0 <= i < |r| ==> Matches(r[i], term)
    ensures !AllSpace(term) ==> forall i :: 0 <= i < |projects| && Matches(projects[i], term) ==> projects[i] in r
  {
    var filtered := Filter(projects, (p: Project) => Matches(p, term));
    FilterIsSubsequence(projects, (p: Project) => Matches(p, term));
    if Trim(term) == "" then
      assert IsSubsequence(projects, projects) by { SubsequenceReflexive(projects); }
      projects
    else filtered
  }

  /** Searching the result again with the same term changes nothing. */
  lemma SearchIdempotent(projects: seq<Project>, term: string)
    ensures Search(Search(projects, term), term) == Search(projects, term)
  {
    FilterIdempotent(projects, (p: Project) => Matches(p, term));
  }

  /** The search ignores the case of the term's ASCII letters. */
  lemma SearchIgnoresCase(projects: seq<Project>, term: string)
    ensures Search(projects, Lower(term)) == Search(projects, term)
  {
    LowerKeepsBlank(term);
    assert (Trim(Lower(term)) == "") == (Trim(term) == "");
    var lowered := (p: Project) => Matches(p, Lower(term));
    var raw := (p: Project) => Matches(p, term);
    forall i | 0 <= i < |projects|
      ensures lowered(projects[i]) == raw(projects[i])
    {
      MatchesLowered(projects[i], term);
    }
    FilterSameTest(projects, lowered, raw);
  }

  lemma MatchesLowered(p: Project, term: string)
    ensures Matches(p, Lower(term)) == Matches(p, term)
  {
    LowerIdempotent(term);
  }

  /** Blankness is judged on the trimmed term but matching uses the raw one: a
      leading space hides a project whose title has no space. */
  lemma UntrimmedTermMatches()
    ensures var p := Project("p1", "web", "", None, None, [], []);
            Search([p], " web") == []
  {
    var p := Project("p1", "web", "", None, None, [], []);
    assert Lower(" web") == " web";
    assert Lower("web") == "web";
    assert !Includes("web", " web");
    assert " web"[1] == 'w' && !IsSpace('w');
    assert !AllSpace(" web");
    assert !Matches(p, " web");
  }

  /** `appliedProjects.some(project => project._id === id)` */
  function AnyWithId(ps: seq<Project>, projectId: Id): (b: bool)
    ensures b <==> exists i :: 0 <= i < |ps| && ps[i].id == projectId
    decreases |ps|
  {
    ps != [] && (ps[0].id == projectId || AnyWithId(ps[1..], projectId))
  }

  /** `isApplied`: a project is expanded and the applied list holds its id. */
  function IsApplied(expanded: Option<Project>, applied: seq<Project>): (b: bool)
    ensures b <==> expanded.Some? && exists i :: 0 <= i < |applied| && applied[i].id == expanded.value.id
  {
    expanded.Some? && AnyWithId(applied, expanded.value.id)
  }

  /** Once the applied list has had a project removed by id, that project no
      longer reads as applied. */
  lemma NotAppliedAfterRemoval(p: Project, applied: seq<Project>)
    ensures !IsApplied(Some(p), RemoveById(applied, p.id))
  {
  }
}
