/** The admin dashboard: the brand selector, whose options are the top brands' names in
    alphabetical order, and the selector's change handler, which leaves "All brands" for the
    brand page. */
module AdminAnalytics {
  import opened Options
  import opened Strings
  import opened ArrayOps

  /** A row of the top-brands table. `isHighlighted` is optional in the source; absent is false. */
  datatype Brand = Brand(
    name: string, queries: int, openRate: string, ctr: string,
    agentsConfigured: int, actions: int, isHighlighted: bool)

  /** The brands of the table, in table order. */
  const TopBrands: seq<Brand> := [
    Brand("HelioWear", 2940, "58%", "16%", 4, 210, false),
    Brand("Vitrine", 2510, "66%", "21%", 5, 248, true),
    Brand("LumaSkin", 2340, "60%", "18%", 3, 175, false),
    Brand("StrideCo", 2020, "59%", "17%", 4, 162, false),
    Brand("NovaGoods", 1880, "61%", "19%", 4, 154, false)
  ]

  const AllBrands: string := "All brands"

  function BrandName(b: Brand): string { b.name }

  /** The brand options of the selector: `brands.slice().sort(by name).map(b => b.name)`.
      They are the names of the brands, each as often as it occurs, in ascending order. */
  function BrandOptions(brands: seq<Brand>): (r: seq<string>)
    ensures |r| == |brands|
    ensures multiset(r) == multiset(MapSeq(brands, BrandName))
    ensures forall i :: 0 < i < |r| ==> LexLe(r[i - 1], r[i])
  {
    var sorted := SortBy(brands, BrandName);
    MapOfSortBy(brands, BrandName, BrandName);
    assert |sorted| == |multiset(sorted)| == |multiset(brands)| == |brands|;
    MapSeq(sorted, BrandName)
  }

  /** Every option is in order with every later one, not only with its neighbour. */
  lemma {:induction false} BrandOptionsOrdered(brands: seq<Brand>, i: int, j: int)
    requires 0 <= i <= j < |BrandOptions(brands)|
    ensures LexLe(BrandOptions(brands)[i], BrandOptions(brands)[j])
    decreases j - i
  {
    var r := BrandOptions(brands);
    if i == j {
      LexLeReflexive(r[i]);
    } else {
      BrandOptionsOrdered(brands, i, j - 1);
      LexLeTransitive(r[i], r[j - 1], r[j]);
    }
  }

  lemma {:induction false} LexLeReflexive(a: string)
    ensures LexLe(a, a)
  {
    if a != [] {
      LexLeReflexive(a[1..]);
    }
  }

  /** The whole selector: "All brands" first, then the sorted brand names. */
  function SegmentOptions(brands: seq<Brand>): seq<string> {
    [AllBrands] + BrandOptions(brands)
  }

  /** When no brand is itself named "All brands", the first option is the only one that keeps
      the dashboard on its page: every later option is a brand's name, and choosing it leaves
      for the brand page. */
  lemma OnlyFirstOptionStays(brands: seq<Brand>, i: int)
    requires forall b :: b in brands ==> b.name != AllBrands
    requires 0 <= i < |SegmentOptions(brands)|
    ensures SegmentOptions(brands)[i] == AllBrands <==> i == 0
    ensures i > 0 ==> exists b :: b in brands && b.name == SegmentOptions(brands)[i]
  {
    if i > 0 {
      var names := MapSeq(brands, BrandName);
      var option := BrandOptions(brands)[i - 1];
      assert option == SegmentOptions(brands)[i];
      assert option in multiset(names);
      var k :| 0 <= k < |names| && names[k] == option;
      assert brands[k] in brands;
    }
  }

  /** The names the page shows, sorted; the table still lists `TopBrands` in its own order. */
  lemma TopBrandOptions()
    ensures BrandOptions(TopBrands) == ["HelioWear", "LumaSkin", "NovaGoods", "StrideCo", "Vitrine"]
  {
    TopBrandNames();
    FixtureNamesAscending();
    OptionsAreAscendingNames(TopBrands, ["HelioWear", "LumaSkin", "NovaGoods", "StrideCo", "Vitrine"]);
  }

  lemma TopBrandNames()
    ensures multiset(MapSeq(TopBrands, BrandName))
         == multiset(["HelioWear", "LumaSkin", "NovaGoods", "StrideCo", "Vitrine"])
  {
    TopBrandNameList();
    FixtureNamesPermuted();
  }

  /** The names in table order. */
  lemma TopBrandNameList()
    ensures MapSeq(TopBrands, BrandName) == ["HelioWear", "Vitrine", "LumaSkin", "StrideCo", "NovaGoods"]
  {
    var unsorted := MapSeq(TopBrands, BrandName);
    assert |unsorted| == 5;
    assert unsorted[0] == "HelioWear" && unsorted[1] == "Vitrine" && unsorted[2] == "LumaSkin";
    assert unsorted[3] == "StrideCo" && unsorted[4] == "NovaGoods";
  }

  lemma FixtureNamesPermuted()
    ensures multiset(["HelioWear", "Vitrine", "LumaSkin", "StrideCo", "NovaGoods"])
         == multiset(["HelioWear", "LumaSkin", "NovaGoods", "StrideCo", "Vitrine"])
  {
  }

  lemma FixtureNamesAscending()
    ensures Ascending(["HelioWear", "LumaSkin", "NovaGoods", "StrideCo", "Vitrine"])
  {
    var names := ["HelioWear", "LumaSkin", "NovaGoods", "StrideCo", "Vitrine"];
    assert LexLe(names[0], names[1]);
    assert LexLe(names[1], names[2]);
    assert LexLe(names[2], names[3]);
    assert LexLe(names[3], names[4]);
  }

  /** The options are the one ascending arrangement of the brands' names: any ascending list
      holding the same names is the option list. */
  lemma OptionsAreAscendingNames(brands: seq<Brand>, names: seq<string>)
    requires multiset(MapSeq(brands, BrandName)) == multiset(names) && Ascending(names)
    ensures BrandOptions(brands) == names
  {
    SortedPermutationUnique(BrandOptions(brands), names);
  }

  /** The names are in ascending order, each no greater than the next. */
  ghost predicate Ascending(a: seq<string>) {
    forall i :: 0 < i < |a| ==> LexLe(a[i - 1], a[i])
  }

  /** Two ascending sequences with the same elements are the same sequence. */
  lemma {:induction false} SortedPermutationUnique(a: seq<string>, b: seq<string>)
    requires multiset(a) == multiset(b)
    requires Ascending(a) && Ascending(b)
    ensures a == b
  {
    if a != [] {
      assert b != [] by {
        assert a[0] in multiset(b);
      }
      SameHead(a, b);
      var ta, tb := a[1..], b[1..];
      assert a == [a[0]] + ta && b == [b[0]] + tb;
      assert multiset(ta) == multiset(a) - multiset{a[0]};
      assert multiset(tb) == multiset(b) - multiset{b[0]};
      AscendingTail(a);
      AscendingTail(b);
      SortedPermutationUnique(ta, tb);
    }
  }

  /** Two non-empty ascending sequences with the same elements start with the same element. */
  lemma SameHead(a: seq<string>, b: seq<string>)
    requires a != [] && b != [] && multiset(a) == multiset(b)
    requires Ascending(a) && Ascending(b)
    ensures a[0] == b[0]
  {
    assert a[0] in multiset(b) && b[0] in multiset(a);
    SmallestFirst(b, a[0]);
    SmallestFirst(a, b[0]);
    LexLeAntisymmetric(a[0], b[0]);
  }

  /** What follows the first element of an ascending sequence is ascending. */
  lemma AscendingTail(a: seq<string>)
    requires a != [] && Ascending(a)
    ensures Ascending(a[1..])
  {
    var t := a[1..];
    forall i | 0 < i < |t|
      ensures LexLe(t[i - 1], t[i])
    {
      assert t[i - 1] == a[i] && t[i] == a[i + 1];
    }
  }

  /** In an ascending sequence the first element is no greater than any element. */
  lemma {:induction false} SmallestFirst(a: seq<string>, x: string)
    requires x in a && Ascending(a)
    ensures LexLe(a[0], x)
  {
    if a[0] == x {
      LexLeReflexive(x);
    } else {
      assert x in a[1..];
      AscendingTail(a);
      SmallestFirst(a[1..], x);
      LexLeTransitive(a[0], a[1], x);
    }
  }

  /** The dashboard's selector state. */
  class Dashboard {
    var dateRange: string
    var segment: string
    var searchTerm: string

    constructor ()
      ensures dateRange == "Last 30 days" && segment == AllBrands && searchTerm == ""
    {
      dateRange := "Last 30 days";
      segment := AllBrands;
      searchTerm := "";
    }

    /** `handleBrandChange`: the segment always becomes the chosen name; the returned route
        is the `navigate` call, made exactly when a brand other than "All brands" is chosen. */
    method HandleBrandChange(brandName: string) returns (route: Option<string>)
      modifies this`segment
      ensures segment == brandName
      ensures route.Some? <==> brandName != AllBrands
      ensures route.Some? ==> route.value == "/brand"
    {
      segment := brandName;
      route := None;
      if brandName != AllBrands {
        route := Some("/brand");
      }
    }
  }
}
