/** The catalogue filter and the filter-change handlers of
    src/components/ProductList.tsx.  Lower-casing is modelled on ASCII letters. */
module ProductList {
  import opened Types
  import MockData

  /** `toLowerCase` on one character, ASCII letters only. */
  function LowerChar(c: char): char {
    if 'A' <= c <= 'Z' then (c as int + 32) as char else c
  }

  function Lower(s: string): (r: string)
    ensures |r| == |s|
    ensures forall i :: 0 <= i < |s| ==> r[i] == LowerChar(s[i])
  {
    if s == [] then [] else [LowerChar(s[0])] + Lower(s[1..])
  }

  /** `needle` occurs in `hay` starting at position `i`. */
  predicate OccursAt(hay: string, needle: string, i: int) {
    0 <= i && i + |needle| <= |hay| && hay[i..i + |needle|] == needle
  }

  /** `hay.includes(needle)`, by trying each start position in turn. */
  function Includes(hay: string, needle: string): (r: bool)
    ensures r <==> exists i :: OccursAt(hay, needle, i)
    decreases |hay|
  {
    if |needle| > |hay| then false
    else if hay[..|needle|] == needle then assert OccursAt(hay, needle, 0); true
    else
      var r := Includes(hay[1..], needle);
      assert r ==> exists i :: OccursAt(hay, needle, i) by {
        if r {
          var j :| OccursAt(hay[1..], needle, j);
          assert hay[j + 1..j + 1 + |needle|] == hay[1..][j..j + |needle|];
          assert OccursAt(hay, needle, j + 1);
        }
      }
      assert (exists i :: OccursAt(hay, needle, i)) ==> r by {
        if exists i :: OccursAt(hay, needle, i) {
          var i :| OccursAt(hay, needle, i);
          assert i != 0;
          assert hay[1..][i - 1..i - 1 + |needle|] == hay[i..i + |needle|];
          assert OccursAt(hay[1..], needle, i - 1);
        }
      }
      r
  }

  predicate MatchesSearch(p: Product, f: FilterState) {
    Includes(Lower(p.name), Lower(f.searchTerm))
  }

  predicate MatchesCategory(p: Product, f: FilterState) {
    f.category == "" || p.category == f.category
  }

  predicate MatchesPrice(p: Product, f: FilterState)
    ensures MatchesPrice(p, f) ==> f.priceRange.min <= f.priceRange.max
  {
    f.priceRange.min <= p.price <= f.priceRange.max
  }

  /** The predicate passed to `mockProducts.filter`. */
  predicate Matches(p: Product, f: FilterState)
    ensures Matches(p, f) ==> f.priceRange.min <= f.priceRange.max
    ensures Matches(p, f) ==> f.category == "" || p.category == f.category
  {
    MatchesSearch(p, f) && MatchesCategory(p, f) && MatchesPrice(p, f)
  }

  /** `filteredProducts`: the products that match, in their original order. */
  function FilterProducts(ps: seq<Product>, f: FilterState): (r: seq<Product>)
    ensures |r| <= |ps|
    ensures forall p :: p in r <==> p in ps && Matches(p, f)
  {
    if ps == [] then []
    else if Matches(ps[0], f) then [ps[0]] + FilterProducts(ps[1..], f)
    else FilterProducts(ps[1..], f)
  }

  /** `a` can be obtained from `b` by deleting elements. */
  ghost predicate IsSubsequence(a: seq<Product>, b: seq<Product>)
    decreases |b|
  {
    if b == [] then a == []
    else (a != [] && a[0] == b[0] && IsSubsequence(a[1..], b[1..])) || IsSubsequence(a, b[1..])
  }

  /** Filtering a concatenation filters each part and keeps them in order. */
  lemma {:induction false} FilterAppend(xs: seq<Product>, ys: seq<Product>, f: FilterState)
    ensures FilterProducts(xs + ys, f) == FilterProducts(xs, f) + FilterProducts(ys, f)
    decreases |xs|
  {
    if xs == [] {
      assert xs + ys == ys;
    } else {
      assert (xs + ys)[0] == xs[0];
      assert (xs + ys)[1..] == xs[1..] + ys;
      FilterAppend(xs[1..], ys, f);
    }
  }

  /** The result is an order-preserving subsequence of the catalogue. */
  lemma {:induction false} FilterIsSubsequence(ps: seq<Product>, f: FilterState)
    ensures IsSubsequence(FilterProducts(ps, f), ps)
    decreases |ps|
  {
    if ps != [] {
      FilterIsSubsequence(ps[1..], f);
      if Matches(ps[0], f) {
        var rest := FilterProducts(ps[1..], f);
        assert ([ps[0]] + rest)[1..] == rest;
      }
    }
  }

  /** Filtering twice with the same filters changes nothing. */
  lemma {:induction false} FilterIdempotent(ps: seq<Product>, f: FilterState)
    ensures FilterProducts(FilterProducts(ps, f), f) == FilterProducts(ps, f)
    decreases |ps|
  {
    if ps != [] {
      FilterIdempotent(ps[1..], f);
      if Matches(ps[0], f) {
        var rest := FilterProducts(ps[1..], f);
        assert ([ps[0]] + rest)[1..] == rest;
      }
    }
  }

  /** An empty search term and an empty category exclude nothing: only the
      price bounds, inclusive at both ends, decide. */
  lemma EmptyCriteriaKeepAllInRange(p: Product, f: FilterState)
    requires f.searchTerm == "" && f.category == ""
    ensures Matches(p, f) <==> f.priceRange.min <= p.price <= f.priceRange.max
  {
    assert Lower(p.name)[0..0] == Lower(f.searchTerm);
  }

  /** Category matching is exact: a non-empty category keeps only products
      whose category is that very string, so letter case matters. */
  lemma CategoryIsExact(p: Product, f: FilterState)
    requires f.category != ""
    ensures Matches(p, f) ==> p.category == f.category
    ensures p.category != f.category ==> p !in FilterProducts([p], f)
  {
  }

  /** Search matching ignores letter case on both sides. */
  lemma SearchIgnoresCase(p: Product, f: FilterState, term: string)
    requires Lower(term) == Lower(f.searchTerm)
    ensures Matches(p, f) <==> Matches(p, f.(searchTerm := term))
  {
  }

  /** `handleSearchChange`: a new search term, everything else kept. */
  function HandleSearchChange(f: FilterState, searchTerm: string): (r: FilterState)
    ensures r.searchTerm == searchTerm
    ensures r.category == f.category && r.priceRange == f.priceRange
  {
    f.(searchTerm := searchTerm)
  }

  /** `handleCategoryChange`: a new category, everything else kept. */
  function HandleCategoryChange(f: FilterState, category: string): (r: FilterState)
    ensures r.category == category
    ensures r.searchTerm == f.searchTerm && r.priceRange == f.priceRange
  {
    f.(category := category)
  }

  /** `handlePriceRangeChange`: a new price range, everything else kept. */
  function HandlePriceRangeChange(f: FilterState, range: PriceRange): (r: FilterState)
    ensures r.priceRange == range
    ensures r.searchTerm == f.searchTerm && r.category == f.category
  {
    f.(priceRange := range)
  }

  /** Changes to different fields do not interfere: applying two handlers in
      either order gives the same state, and the later of two changes to the
      same field wins. */
  lemma HandlersCommute(f: FilterState, s: string, c: string, range: PriceRange, s2: string)
    ensures HandleCategoryChange(HandleSearchChange(f, s), c) == HandleSearchChange(HandleCategoryChange(f, c), s)
    ensures HandlePriceRangeChange(HandleSearchChange(f, s), range) == HandleSearchChange(HandlePriceRangeChange(f, range), s)
    ensures HandlePriceRangeChange(HandleCategoryChange(f, c), range) == HandleCategoryChange(HandlePriceRangeChange(f, range), c)
    ensures HandleSearchChange(HandleSearchChange(f, s), s2) == HandleSearchChange(f, s2)
  {
  }

  /** Filtering a list with a head: the head is kept iff it matches. */
  lemma FilterCons(p: Product, rest: seq<Product>, f: FilterState)
    ensures FilterProducts([p] + rest, f) == (if Matches(p, f) then [p] else []) + FilterProducts(rest, f)
  {
    assert ([p] + rest)[1..] == rest;
  }

  /** Filtering keeps exactly the elements at the positions that match. */
  lemma {:induction false} FilterNone(ps: seq<Product>, f: FilterState)
    requires forall i :: 0 <= i < |ps| ==> !Matches(ps[i], f)
    ensures FilterProducts(ps, f) == []
    decreases |ps|
  {
    if ps != [] {
      FilterNone(ps[1..], f);
    }
  }

  /** Which catalogue entries the "Home", 100 to 250 filter keeps. */
  lemma HomeMatches(i: nat)
    requires i < |MockData.MockProducts|
    ensures Matches(MockData.MockProducts[i], FilterState("", "Home", PriceRange(100, 250))) <==> i == 4 || i == 14
  {
    EmptyCriteriaSearch(MockData.MockProducts[i], FilterState("", "Home", PriceRange(100, 250)));
  }

  /** When exactly the element at position `i` matches, filtering gives it
      alone. */
  lemma FilterExactlyOne(ps: seq<Product>, f: FilterState, i: nat)
    requires i < |ps|
    requires forall k :: 0 <= k < |ps| ==> (Matches(ps[k], f) <==> k == i)
    ensures FilterProducts(ps, f) == [ps[i]]
  {
    var a, c := ps[..i], ps[i + 1..];
    forall k | 0 <= k < |a| ensures !Matches(a[k], f) {
      assert a[k] == ps[k];
    }
    forall k | 0 <= k < |c| ensures !Matches(c[k], f) {
      assert c[k] == ps[k + i + 1];
    }
    FilterNone(a, f);
    FilterNone(c, f);
    assert ps == a + ([ps[i]] + c);
    FilterAppend(a, [ps[i]] + c, f);
    FilterCons(ps[i], c, f);
  }

  /** When exactly the elements at positions `i < j` match, filtering gives
      those two, in that order. */
  lemma FilterExactlyTwo(ps: seq<Product>, f: FilterState, i: nat, j: nat)
    requires i < j < |ps|
    requires forall k :: 0 <= k < |ps| ==> (Matches(ps[k], f) <==> k == i || k == j)
    ensures FilterProducts(ps, f) == [ps[i], ps[j]]
  {
    var a, c := ps[..j], ps[j..];
    forall k | 0 <= k < |a| ensures Matches(a[k], f) <==> k == i {
      assert a[k] == ps[k];
    }
    forall k | 0 <= k < |c| ensures Matches(c[k], f) <==> k == 0 {
      assert c[k] == ps[k + j];
    }
    FilterExactlyOne(a, f, i);
    FilterExactlyOne(c, f, 0);
    assert ps == a + c;
    FilterAppend(a, c, f);
  }

  /** On the catalogue, the category "Home" with prices 100 to 250 keeps the
      coffee maker (150) and the air purifier (250, the inclusive upper
      bound), in catalogue order. */
  lemma HomeBetween100And250()
    ensures FilterProducts(MockData.MockProducts, FilterState("", "Home", PriceRange(100, 250))) ==
              [MockData.MockProducts[4], MockData.MockProducts[14]]
  {
    var f := FilterState("", "Home", PriceRange(100, 250));
    var ps := MockData.MockProducts;
    forall k | 0 <= k < |ps| ensures Matches(ps[k], f) <==> k == 4 || k == 14 {
      HomeMatches(k);
    }
    FilterExactlyTwo(ps, f, 4, 14);
  }

  /** An empty search term matches every name. */
  lemma EmptyCriteriaSearch(p: Product, f: FilterState)
    requires f.searchTerm == ""
    ensures MatchesSearch(p, f)
  {
    assert OccursAt(Lower(p.name), Lower(f.searchTerm), 0);
  }
}
