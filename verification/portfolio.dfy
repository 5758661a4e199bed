/** The portfolio page's category filter over its fixed project list, and
    the capitalised labels of the filter buttons. */
module Portfolio {
  import opened Strings

  /** A project card; description, icon, technologies and links are
      presentation only. */
  datatype Project = Project(id: nat, title: string, category: string)

  const AllFilter := "all"
  const Filters := ["all", "web", "design", "other"]

  /** The filter the page starts with. */
  const InitialFilter := AllFilter

  const Projects := [
    Project(1, "E-Commerce Platform", "web"),
    Project(2, "Portfolio Website", "web"),
    Project(3, "Weather Dashboard", "web"),
    Project(4, "UI Design System", "design"),
    Project(5, "Mobile App Design", "design"),
    Project(6, "VS Code Theme", "other")]

  /** `a` is `b` with some elements left out, the rest in the same order. */
  ghost predicate IsSubsequence<T>(a: seq<T>, b: seq<T>)
    decreases |b|
  {
    if a == [] then true
    else if b == [] then false
    else (a[0] == b[0] && IsSubsequence(a[1..], b[1..])) || IsSubsequence(a, b[1..])
  }

  /** The projects of one category, in list order. */
  function OfCategory(ps: seq<Project>, category: string): (r: seq<Project>)
    ensures forall x :: x in r <==> x in ps && x.category == category
    ensures IsSubsequence(r, ps)
    ensures |r| <= |ps|
  {
    if ps == [] then []
    else if ps[0].category == category then [ps[0]] + OfCategory(ps[1..], category)
    else OfCategory(ps[1..], category)
  }

  /** The category filter keeps every project of the category as often as
      it occurs in the list, and nothing else. */
  lemma {:induction false} OfCategoryKeepsMultiplicity(ps: seq<Project>, category: string)
    ensures forall x :: multiset(OfCategory(ps, category))[x]
                        == if x.category == category then multiset(ps)[x] else 0
    decreases |ps|
  {
    if ps != [] {
      OfCategoryKeepsMultiplicity(ps[1..], category);
      assert ps == [ps[0]] + ps[1..];
    }
  }

  /** `filteredProjects` for the current filter. */
  function Filtered(filter: string, ps: seq<Project>): (r: seq<Project>)
    ensures filter == AllFilter ==> r == ps
    ensures filter != AllFilter ==> forall x :: x in r <==> x in ps && x.category == filter
    ensures IsSubsequence(r, ps)
  {
    if filter == AllFilter then (SubsequenceOfItself(ps); ps) else OfCategory(ps, filter)
  }

  lemma {:induction false} SubsequenceOfItself<T>(s: seq<T>)
    ensures IsSubsequence(s, s)
    decreases |s|
  {
    if s != [] {
      SubsequenceOfItself(s[1..]);
    }
  }

  /** When every project is web, design or other, the three category
      filters together show every project exactly once. */
  lemma {:induction false} CategoriesPartition(ps: seq<Project>)
    requires forall k | 0 <= k < |ps| :: ps[k].category in {"web", "design", "other"}
    ensures |OfCategory(ps, "web")| + |OfCategory(ps, "design")| + |OfCategory(ps, "other")| == |ps|
    decreases |ps|
  {
    if ps != [] {
      CategoriesPartition(ps[1..]);
    }
  }

  lemma ProjectsArePartitioned()
    ensures |Filtered("web", Projects)| + |Filtered("design", Projects)| + |Filtered("other", Projects)|
            == |Projects|
    ensures Filtered(InitialFilter, Projects) == Projects
  {
  }

  /** A filter button's label: first character upper-cased, rest as is. */
  function Capitalise(s: string): (r: string)
    ensures |r| == |s|
    ensures s != [] ==> r[0] == UpperChar(s[0]) && r[1..] == s[1..]
  {
    if s == [] then [] else [UpperChar(s[0])] + s[1..]
  }

  lemma FilterLabels()
    ensures Capitalise(Filters[0]) == "All" && Capitalise(Filters[1]) == "Web"
    ensures Capitalise(Filters[2]) == "Design" && Capitalise(Filters[3]) == "Other"
  {
  }

  lemma {:induction false} LowerUndoesUpper(c: char)
    requires LowerChar(c) == c
    ensures LowerChar(UpperChar(c)) == c
  {
  }

  /** Lower-casing a label gives back its filter name, for any name that is
      already in lower case. */
  lemma CapitaliseIsUndoneByLower(s: string)
    requires Lower(s) == s
    ensures Lower(Capitalise(s)) == s
  {
    if s != [] {
      assert LowerChar(s[0]) == s[0];
      LowerUndoesUpper(s[0]);
      var r := Capitalise(s);
      forall k | 0 <= k < |s| ensures Lower(r)[k] == s[k] {
        if k > 0 { assert r[k] == s[k]; }
      }
    }
  }
}
