/**
 * The category filter of the Programs page: the category buttons derived from
 * the fetched programs, the programs shown for the selected category, and
 * what the page shows when nothing matches.
 */
module ProgramsPage {
  import opened Schema
  import opened Seqs
  import opened Slugs

  const AllCategories := "All"
  const NoProgramsMessage := "No programs available in this category. Please check back later."

  /** `programs.map((p) => p.category)` */
  function CategoriesOf(programs: seq<Program>): (cs: seq<string>)
    ensures |cs| == |programs|
    ensures forall i :: 0 <= i < |programs| ==> cs[i] == programs[i].category
  {
    seq(|programs|, i requires 0 <= i < |programs| => programs[i].category)
  }

  /** `["All", ...Array.from(new Set(categories))]`: "All" first, then each distinct
      category once. "All" is not removed from the rest. */
  function Categories(programs: seq<Program>): (cs: seq<string>)
    ensures |cs| >= 1 && cs[0] == AllCategories
    ensures NoDup(cs[1..])
    ensures forall p :: p in programs ==> p.category in cs[1..]
    ensures forall i :: 1 <= i < |cs| ==> exists p :: p in programs && p.category == cs[i]
  {
    var distinct := Unique(CategoriesOf(programs));
    var cs := [AllCategories] + distinct;
    assert cs[1..] == distinct;
    assert forall p :: p in programs ==> p.category in distinct by {
      forall p | p in programs ensures p.category in distinct {
        var i :| 0 <= i < |programs| && programs[i] == p;
        assert CategoriesOf(programs)[i] == p.category;
      }
    }
    assert forall i :: 1 <= i < |cs| ==> exists p :: p in programs && p.category == cs[i] by {
      forall i | 1 <= i < |cs| ensures exists p :: p in programs && p.category == cs[i] {
        assert cs[i] == distinct[i - 1];
        var j :| 0 <= j < |programs| && CategoriesOf(programs)[j] == cs[i];
        assert programs[j] in programs;
      }
    }
    cs
  }

  /** `selectedCategory === "All" ? programs : programs.filter((p) => p.category === selectedCategory)` */
  function FilteredPrograms(programs: seq<Program>, selected: string): (r: seq<Program>)
    ensures |r| <= |programs|
    ensures selected == AllCategories ==> r == programs
    ensures selected != AllCategories ==>
      (forall i :: 0 <= i < |r| ==> r[i] in programs && r[i].category == selected)
      && (forall p :: p in programs && p.category == selected ==> p in r)
  {
    if selected == AllCategories then programs
    else Filter(programs, (p: Program) => p.category == selected)
  }

  /** The list below the buttons: the cards of the filtered programs, or the
      no-programs message when there are none. */
  datatype ProgramsView = Cards(programs: seq<Program>) | NoPrograms(message: string)

  function View(programs: seq<Program>, selected: string): (v: ProgramsView)
    ensures v.NoPrograms? <==> FilteredPrograms(programs, selected) == []
    ensures v.NoPrograms? ==> v.message == NoProgramsMessage
    ensures v.Cards? ==> v.programs == FilteredPrograms(programs, selected)
  {
    var shown := FilteredPrograms(programs, selected);
    if |shown| > 0 then Cards(shown) else NoPrograms(NoProgramsMessage)
  }

  /** The `data-testid` of a category button. */
  function CategoryTestId(category: string): (id: string)
    ensures |id| >= 16 && id[..16] == "button-category-"
    ensures |id| <= 16 + |category|
    ensures forall i :: 0 <= i < |id| ==> !IsSpace(id[i])
  {
    "button-category-" + Slug(category)
  }

  // ------------------------------------------------------------ properties

  /** The distinct categories are listed in the order in which they first appear
      among the programs. */
  lemma CategoriesInFirstAppearanceOrder(programs: seq<Program>, i: nat, j: nat)
    requires 1 <= i < j < |Categories(programs)|
    ensures FirstIndex(CategoriesOf(programs), Categories(programs)[i])
            < FirstIndex(CategoriesOf(programs), Categories(programs)[j])
            < |programs|
  {
    var cs := CategoriesOf(programs);
    var u := Unique(cs);
    CategoriesUnfold(programs);
    var k: nat, l: nat := i - 1, j - 1;
    ConsIndex(AllCategories, u, i);
    ConsIndex(AllCategories, u, j);
    OrderOfDistinct(cs, k, l, Categories(programs)[i], Categories(programs)[j]);
  }

  lemma ConsIndex(x: string, u: seq<string>, i: nat)
    requires 1 <= i <= |u|
    ensures ([x] + u)[i] == u[i - 1]
  {
  }

  lemma CategoriesUnfold(programs: seq<Program>)
    ensures Categories(programs) == [AllCategories] + Unique(CategoriesOf(programs))
  {
  }

  /** Selecting a category other than "All" keeps exactly the programs of that category,
      each as often as it occurs, in their original order. */
  lemma FilterKeepsExactlyTheCategory(programs: seq<Program>, selected: string, p: Program)
    requires selected != AllCategories
    ensures Subsequence(FilteredPrograms(programs, selected), programs)
    ensures multiset(FilteredPrograms(programs, selected))[p]
            == if p.category == selected then multiset(programs)[p] else 0
  {
    FilterIsSubsequence(programs, (q: Program) => q.category == selected);
    FilterCounts(programs, (q: Program) => q.category == selected, p);
  }

  /** Every category button other than "All" shows at least one program. */
  lemma EveryCategoryButtonShowsPrograms(programs: seq<Program>, i: nat)
    requires 1 <= i < |Categories(programs)|
    ensures FilteredPrograms(programs, Categories(programs)[i]) != []
    ensures View(programs, Categories(programs)[i]).Cards?
  {
    var c := Categories(programs)[i];
    var p :| p in programs && p.category == c;
    if c != AllCategories {
      assert p in FilteredPrograms(programs, c);
    }
  }

  /** A category no program has shows nothing but the no-programs message. */
  lemma UnknownCategoryShowsMessage(programs: seq<Program>, selected: string)
    requires selected != AllCategories
    requires forall p :: p in programs ==> p.category != selected
    ensures FilteredPrograms(programs, selected) == []
    ensures View(programs, selected) == NoPrograms(NoProgramsMessage)
  {
    assert forall i :: 0 <= i < |programs| ==> programs[i].category != selected;
  }

  /** A program whose category is itself "All" makes "All" appear twice among the buttons. */
  lemma AllIsNotDeduplicated(programs: seq<Program>, p: Program)
    requires p in programs && p.category == AllCategories
    ensures exists i :: 1 <= i < |Categories(programs)| && Categories(programs)[i] == AllCategories
  {
    var cs := Categories(programs);
    assert p.category in cs[1..];
    var k :| 0 <= k < |cs[1..]| && cs[1..][k] == AllCategories;
    assert cs[k + 1] == AllCategories;
  }
}
