/** The projects section: a fixed list of project records, a category filter
    that keeps the original order, and a progressive reveal of three cards. */
module Projects {
  import Text
  import Reveal

  /** A project record, reduced to the fields the filter and the card keys use. */
  datatype Project = Project(id: nat, title: string, category: string)

  const AllCategory: string := "All"
  const Categories: seq<string> := [AllCategory, "Full Stack", "AI", "Data Analysis"]
  const RevealLimit: nat := 3

  const AllProjects: seq<Project> := [
    Project(1, "Splitr", "Full Stack"),
    Project(2, "GitHub Repo Analyzer", "Full Stack"),
    Project(3, "Sales Analytics Dashboard", "Data Analysis"),
    Project(4, "Task Management App", "Full Stack"),
    Project(6, "Predictive Analytics Model", "AI")
  ]

  /** `a` can be obtained from `b` by deleting elements, without reordering the rest. */
  predicate IsSubsequence<T(==)>(a: seq<T>, b: seq<T>)
    decreases |b|
  {
    if a == [] then true
    else if b == [] then false
    else (a[0] == b[0] && IsSubsequence(a[1..], b[1..])) || IsSubsequence(a, b[1..])
  }

  /** The one-record contribution of `p` to a filter by `category`. */
  function Keep(p: Project, category: string): seq<Project> {
    if p.category == category then [p] else []
  }

  /** `projects.filter(p => p.category === category)`. */
  function FilterByCategory(projects: seq<Project>, category: string): (r: seq<Project>)
    ensures |r| <= |projects|
    ensures forall i :: 0 <= i < |r| ==> r[i].category == category
    decreases |projects|
  {
    if projects == [] then []
    else Keep(projects[0], category) + FilterByCategory(projects[1..], category)
  }

  /** The filter keeps exactly the records of that category, each as often as in
      the input, in their original relative order. */
  lemma {:induction false} FilterByCategorySpec(projects: seq<Project>, category: string)
    ensures IsSubsequence(FilterByCategory(projects, category), projects)
    ensures forall p :: p in FilterByCategory(projects, category) <==> p in projects && p.category == category
    ensures forall p :: multiset(FilterByCategory(projects, category))[p]
                     == if p.category == category then multiset(projects)[p] else 0
    decreases |projects|
  {
    if projects != [] {
      var rest := projects[1..];
      FilterByCategorySpec(rest, category);
      assert projects == [projects[0]] + rest;
      var r := FilterByCategory(projects, category);
      if projects[0].category == category {
        assert r == [projects[0]] + FilterByCategory(rest, category);
        assert r[0] == projects[0] && r[1..] == FilterByCategory(rest, category);
      } else {
        assert r == FilterByCategory(rest, category);
      }
    }
  }

  /** `filteredProjects`: the whole list under "All", otherwise the records of the active category. */
  function Filtered(projects: seq<Project>, activeCategory: string): (r: seq<Project>)
    ensures |r| <= |projects|
    ensures activeCategory != AllCategory ==> forall i :: 0 <= i < |r| ==> r[i].category == activeCategory
  {
    if activeCategory == AllCategory then projects else FilterByCategory(projects, activeCategory)
  }

  /** Under "All" the list is passed through unchanged; under any other category
      exactly its records remain, as often as in the input and in their original order. */
  lemma FilteredSpec(projects: seq<Project>, activeCategory: string)
    ensures activeCategory == AllCategory ==> Filtered(projects, activeCategory) == projects
    ensures activeCategory != AllCategory ==>
      IsSubsequence(Filtered(projects, activeCategory), projects) &&
      (forall p :: p in Filtered(projects, activeCategory) <==> p in projects && p.category == activeCategory) &&
      (forall p :: multiset(Filtered(projects, activeCategory))[p]
                == if p.category == activeCategory then multiset(projects)[p] else 0)
  {
    if activeCategory != AllCategory {
      FilterByCategorySpec(projects, activeCategory);
    }
  }

  /** The caption of the reveal button for `count` matching projects: "Show Less" when
      expanded, otherwise "View All ", the count in decimal and " Projects". */
  function ButtonLabel(showAll: bool, count: nat): (caption: string)
    ensures showAll ==> caption == "Show Less"
    ensures !showAll ==>
      |caption| > 18 && caption[..9] == "View All " && caption[|caption| - 9..] == " Projects" &&
      Text.IsNumeral(caption[9..|caption| - 9]) && Text.DecimalValue(caption[9..|caption| - 9]) == count &&
      (|caption| > 19 ==> caption[9] != '0')
  {
    if showAll then "Show Less"
    else
      var digits := Text.DecimalString(count);
      var caption := "View All " + digits + " Projects";
      Text.DecimalRoundTrip(count);
      assert caption[..9] == "View All " && caption[|caption| - 9..] == " Projects";
      assert caption[9..|caption| - 9] == digits;
      caption
  }

  /** The filter and reveal state of the section: `activeCategory` and `showAll`. */
  class ProjectsView {
    var activeCategory: string
    var showAll: bool

    /** The active category is always one of the filter buttons. */
    predicate Valid()
      reads this
    {
      activeCategory in Categories
    }

    constructor ()
      ensures Valid() && activeCategory == AllCategory && !showAll
    {
      activeCategory := AllCategory;
      showAll := false;
    }

    function FilteredProjects(): seq<Project>
      reads this
    {
      Filtered(AllProjects, activeCategory)
    }

    /** `displayedProjects`: the first three matches unless `showAll` is set. */
    function DisplayedProjects(): (r: seq<Project>)
      reads this
      ensures r <= FilteredProjects()
      ensures |r| == if showAll then |FilteredProjects()| else Reveal.Min(RevealLimit, |FilteredProjects()|)
      ensures !ButtonVisible() ==> r == FilteredProjects()
    {
      Reveal.Shown(FilteredProjects(), RevealLimit, showAll)
    }

    /** The button is rendered only when more than three projects match, that is,
        exactly when the collapsed view would hide some of them. */
    function ButtonVisible(): (visible: bool)
      reads this
      ensures visible <==> Reveal.Shown(FilteredProjects(), RevealLimit, false) != FilteredProjects()
    {
      Reveal.ToggleVisible(FilteredProjects(), RevealLimit)
    }

    /** The caption of the reveal button names the number of matching projects while collapsed. */
    function Label(): (caption: string)
      reads this
      ensures showAll ==> caption == "Show Less"
      ensures !showAll ==>
        |caption| > 18 && caption[..9] == "View All " && caption[|caption| - 9..] == " Projects" &&
        Text.IsNumeral(caption[9..|caption| - 9]) && Text.DecimalValue(caption[9..|caption| - 9]) == |FilteredProjects()| &&
        (|caption| > 19 ==> caption[9] != '0')
    {
      ButtonLabel(showAll, |FilteredProjects()|)
    }

    /** The click handler of a category button: select it and collapse the list. */
    method SelectCategory(category: string)
      requires Valid() && category in Categories
      modifies this
      ensures Valid()
      ensures activeCategory == category && !showAll
    {
      activeCategory := category;
      showAll := false;
    }

    /** The click handler of the reveal button, which exists only while it is rendered. */
    method ToggleShowAll()
      requires Valid() && ButtonVisible()
      modifies this
      ensures Valid()
      ensures activeCategory == old(activeCategory) && showAll == !old(showAll)
    {
      showAll := !showAll;
    }
  }

  /** Pressing the reveal button twice restores the same cards. */
  method ToggleTwiceRestores(view: ProjectsView)
    requires view.Valid() && view.ButtonVisible()
    modifies view
    ensures view.activeCategory == old(view.activeCategory) && view.showAll == old(view.showAll)
    ensures view.DisplayedProjects() == old(view.DisplayedProjects())
  {
    view.ToggleShowAll();
    view.ToggleShowAll();
  }

  /** The number of matches in `projects[k..]` is that of `projects[k]` plus that of the rest. */
  lemma CountFrom(projects: seq<Project>, k: nat, category: string)
    requires k < |projects|
    ensures |FilterByCategory(projects[k..], category)|
         == |Keep(projects[k], category)| + |FilterByCategory(projects[k + 1..], category)|
  {
    assert projects[k..][1..] == projects[k + 1..];
  }

  /** The number of records of `category` in the fixed list, counted one record at a time. */
  lemma FixedCount(category: string)
    ensures |FilterByCategory(AllProjects, category)|
         == |Keep(AllProjects[0], category)| + |Keep(AllProjects[1], category)| + |Keep(AllProjects[2], category)|
          + |Keep(AllProjects[3], category)| + |Keep(AllProjects[4], category)|
  {
    var ps := AllProjects;
    assert ps[0..] == ps && ps[5..] == [];
    CountFrom(ps, 4, category);
    CountFrom(ps, 3, category);
    CountFrom(ps, 2, category);
    CountFrom(ps, 1, category);
    CountFrom(ps, 0, category);
  }

  /** The fixed data: 5 projects under "All", 3 "Full Stack", 1 "AI", 1 "Data Analysis". */
  lemma FixedCategoryCounts()
    ensures |Filtered(AllProjects, "All")| == 5
    ensures |Filtered(AllProjects, "Full Stack")| == 3
    ensures |Filtered(AllProjects, "AI")| == 1
    ensures |Filtered(AllProjects, "Data Analysis")| == 1
  {
    FixedCount("Full Stack");
    FixedCount("AI");
    FixedCount("Data Analysis");
  }

  /** Of the four filter buttons only "All" leaves more than three projects, so only
      there is the reveal button rendered, labelled "View All 5 Projects". */
  lemma FixedRevealButton(category: string)
    requires category in Categories
    ensures Reveal.ToggleVisible(Filtered(AllProjects, category), RevealLimit) <==> category == AllCategory
    ensures category == AllCategory ==>
      ButtonLabel(false, |Filtered(AllProjects, category)|) == "View All 5 Projects"
  {
    FixedCategoryCounts();
    if category == AllCategory {
      assert Text.DecimalString(5) == "5";
    } else {
      assert category == "Full Stack" || category == "AI" || category == "Data Analysis";
    }
  }

  /** In every state the section can reach, the reveal button is rendered exactly under
      "All", and there, while collapsed, it reads "View All 5 Projects". */
  lemma ButtonOnlyUnderAll(view: ProjectsView)
    requires view.Valid()
    ensures view.ButtonVisible() <==> view.activeCategory == AllCategory
    ensures view.activeCategory == AllCategory && !view.showAll ==> view.Label() == "View All 5 Projects"
  {
    FixedRevealButton(view.activeCategory);
  }
}
