/** The projects gallery (src/pages/Projects.tsx): one button per category,
    "All" first, and the cards of the selected category. */
module ProjectsPage {
  import opened Types
  import opened Seqs

  /** The label of the button that shows every project. */
  const AllLabel := "All"

  /** `useState('All')`: the page opens on the unfiltered gallery. */
  const InitialCategory := AllLabel

  /** The category of every project, in table order. */
  function CategoryOf(projects: seq<Project>): (r: seq<string>)
    ensures |r| == |projects|
    ensures forall i :: 0 <= i < |r| ==> r[i] == projects[i].category
  {
    if projects == [] then [] else [projects[0].category] + CategoryOf(projects[1..])
  }

  /** The button labels: "All", then each category once, in the order
      in which the table first uses it. */
  function Categories(projects: seq<Project>): (r: seq<string>)
    ensures |r| >= 1 && r[0] == AllLabel
    ensures Distinct(r[1..])
    ensures forall c :: c in r[1..] <==> exists p :: p in projects && p.category == c
    ensures forall p :: p in projects ==> p.category in r
    ensures |r| <= |projects| + 1
    ensures forall i :: 1 <= i < |r| ==> r[i] in CategoryOf(projects)
    ensures forall i, j :: 1 <= i < j < |r| ==>
      FirstIndex(CategoryOf(projects), r[i]) < FirstIndex(CategoryOf(projects), r[j])
  {
    var cats := CategoryOf(projects);
    var d := Dedup(cats);
    assert forall c :: c in cats <==> exists p :: p in projects && p.category == c by {
      forall c | c in cats ensures exists p :: p in projects && p.category == c {
        var i :| 0 <= i < |cats| && cats[i] == c;
        assert projects[i] in projects;
      }
      forall p | p in projects ensures p.category in cats {
        var i :| 0 <= i < |projects| && projects[i] == p;
        assert cats[i] == p.category;
      }
    }
    assert ([AllLabel] + d)[1..] == d;
    [AllLabel] + d
  }

  /** When no two projects share a category, the buttons after "All" are
      the projects' categories in table order. */
  lemma CategoriesOfDistinct(projects: seq<Project>)
    requires Distinct(CategoryOf(projects))
    ensures Categories(projects) == [AllLabel] + CategoryOf(projects)
  {
    DedupOfDistinct(CategoryOf(projects));
  }

  /** The predicate `project.category === activeCategory`. */
  function InCategory(c: string): (r: Project -> bool)
    ensures forall p :: r(p) <==> p.category == c
  {
    (p: Project) => p.category == c
  }

  /** filteredProjects: the whole table for "All", else the projects of the
      selected category in table order. */
  function FilteredProjects(projects: seq<Project>, active: string): (r: seq<Project>)
    ensures active == AllLabel ==> r == projects
    ensures IsSubsequence(r, projects)
    ensures active != AllLabel ==> forall p :: p in r <==> p in projects && p.category == active
  {
    if active == AllLabel then
      assert IsSubsequence(projects, projects) by { PrefixIsSubsequence(projects, |projects|); assert projects[..|projects|] == projects; }
      projects
    else
      Filter(projects, InCategory(active))
  }

  /** A category button shows every project of that category, each as
      often as the table lists it, and nothing else. */
  lemma FilteredProjectsExact(projects: seq<Project>, active: string)
    requires active != AllLabel
    ensures forall p :: multiset(FilteredProjects(projects, active))[p]
                       == (if p.category == active then multiset(projects)[p] else 0)
  {
    FilterMultiset(projects, InCategory(active));
  }

  /** The gallery opens on every project. */
  lemma InitialShowsAll(projects: seq<Project>)
    ensures FilteredProjects(projects, InitialCategory) == projects
  {
  }

  /** The number of cards shown, summed over the buttons `cats`. */
  function CardsAcross(projects: seq<Project>, cats: seq<string>): nat
  {
    if cats == [] then 0
    else |FilteredProjects(projects, cats[0])| + CardsAcross(projects, cats[1..])
  }

  /** How often `c` occurs in `cats`. */
  function Occurrences(cats: seq<string>, c: string): nat
  {
    if cats == [] then 0 else (if cats[0] == c then 1 else 0) + Occurrences(cats[1..], c)
  }

  lemma {:induction false} OccurrencesOfDistinct(cats: seq<string>, c: string)
    requires Distinct(cats)
    ensures Occurrences(cats, c) == if c in cats then 1 else 0
  {
    if cats != [] {
      OccurrencesOfDistinct(cats[1..], c);
      assert cats == [cats[0]] + cats[1..];
    }
  }

  /** Adding one project to the table adds one card under each category
      button labelled with its category. */
  lemma {:induction false} CardsAcrossCons(p: Project, rest: seq<Project>, cats: seq<string>)
    requires AllLabel !in cats
    ensures CardsAcross([p] + rest, cats) == Occurrences(cats, p.category) + CardsAcross(rest, cats)
  {
    if cats != [] {
      CardsAcrossCons(p, rest, cats[1..]);
      assert ([p] + rest)[1..] == rest;
    }
  }

  lemma {:induction false} CardsAcrossEmpty(cats: seq<string>)
    ensures CardsAcross([], cats) == 0
  {
    if cats != [] {
      CardsAcrossEmpty(cats[1..]);
    }
  }

  /** Summed over category buttons naming every category exactly once, the
      filtered views show each project once. */
  lemma {:induction false} CardsAcrossCovering(projects: seq<Project>, cats: seq<string>)
    requires Distinct(cats) && AllLabel !in cats
    requires forall p :: p in projects ==> p.category in cats
    ensures CardsAcross(projects, cats) == |projects|
  {
    if projects == [] {
      CardsAcrossEmpty(cats);
    } else {
      var p, rest := projects[0], projects[1..];
      assert projects == [p] + rest;
      CardsAcrossCovering(rest, cats);
      CardsAcrossCons(p, rest, cats);
      OccurrencesOfDistinct(cats, p.category);
    }
  }

  /** Clicking through every button after "All" shows each project exactly
      once. A project filed under the category "All" would break this: its
      category button is the "All" button, which shows the whole table. */
  lemma CategoryViewsPartition(projects: seq<Project>)
    requires forall p :: p in projects ==> p.category != AllLabel
    ensures CardsAcross(projects, Categories(projects)[1..]) == |projects|
  {
    CardsAcrossCovering(projects, Categories(projects)[1..]);
  }
}
