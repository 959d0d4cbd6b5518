/** The catalogue helpers of src/utils/mockData.ts and the catalogue itself. */
module MockData {
  import opened Wrappers
  import opened Types

  /** `products.map(product => product.category)`. */
  function Categories(ps: seq<Product>): (cs: seq<string>)
    ensures |cs| == |ps|
    ensures forall i :: 0 <= i < |ps| ==> cs[i] == ps[i].category
  {
    if ps == [] then [] else Categories(ps[..|ps| - 1]) + [ps[|ps| - 1].category]
  }

  /** `Array.from(new Set(xs))`: each value once, in order of its first
      occurrence (the insertion order of a `Set`). */
  function Dedup(xs: seq<string>): (r: seq<string>)
    decreases |xs|
  {
    if xs == [] then []
    else
      var r := Dedup(xs[..|xs| - 1]);
      if xs[|xs| - 1] in r then r else r + [xs[|xs| - 1]]
  }

  /** `getUniqueCategories`. */
  function UniqueCategories(ps: seq<Product>): seq<string> {
    Dedup(Categories(ps))
  }

  /** The position of the first occurrence of `x` in `xs`. */
  function FirstIndex(xs: seq<string>, x: string): (k: nat)
    requires x in xs
    ensures k < |xs| && xs[k] == x
    ensures forall j :: 0 <= j < k ==> xs[j] != x
  {
    if xs[0] == x then 0 else 1 + FirstIndex(xs[1..], x)
  }

  ghost predicate NoDuplicates(xs: seq<string>) {
    forall i, j :: 0 <= i < j < |xs| ==> xs[i] != xs[j]
  }

  /** `Dedup` keeps exactly the values of its input, each once. */
  lemma {:induction false} DedupContents(xs: seq<string>)
    ensures NoDuplicates(Dedup(xs))
    ensures forall x :: x in Dedup(xs) <==> x in xs
    decreases |xs|
  {
    if xs != [] {
      var init := xs[..|xs| - 1];
      DedupContents(init);
      assert xs == init + [xs[|xs| - 1]];
    }
  }

  /** `Dedup` lists values in the order of their first occurrence. */
  lemma {:induction false} DedupOrder(xs: seq<string>)
    ensures forall i, j :: 0 <= i < j < |Dedup(xs)| ==>
              Dedup(xs)[i] in xs && Dedup(xs)[j] in xs &&
              FirstIndex(xs, Dedup(xs)[i]) < FirstIndex(xs, Dedup(xs)[j])
    decreases |xs|
  {
    if xs != [] {
      var init := xs[..|xs| - 1];
      var last := xs[|xs| - 1];
      var d := Dedup(init);
      DedupOrder(init);
      DedupContents(init);
      assert xs == init + [last];
      forall y | y in init
        ensures FirstIndex(xs, y) == FirstIndex(init, y)
      {
        FirstIndexPrefix(init, last, y);
      }
      if last !in d {
        FirstIndexLast(init, last);
        assert Dedup(xs) == d + [last];
        forall i, j | 0 <= i < j < |Dedup(xs)|
          ensures Dedup(xs)[i] in xs && Dedup(xs)[j] in xs
          ensures FirstIndex(xs, Dedup(xs)[i]) < FirstIndex(xs, Dedup(xs)[j])
        {
          assert Dedup(xs)[i] == d[i] && d[i] in init;
          if j < |d| {
            assert Dedup(xs)[j] == d[j] && d[j] in init;
          } else {
            assert Dedup(xs)[j] == last;
          }
        }
      } else {
        assert Dedup(xs) == d;
        forall i, j | 0 <= i < j < |Dedup(xs)|
          ensures Dedup(xs)[i] in xs && Dedup(xs)[j] in xs
          ensures FirstIndex(xs, Dedup(xs)[i]) < FirstIndex(xs, Dedup(xs)[j])
        {
          assert d[i] in init && d[j] in init;
        }
      }
    } else {
      assert |Dedup(xs)| == 0;
    }
  }

  lemma {:induction false} FirstIndexPrefix(init: seq<string>, last: string, y: string)
    requires y in init
    ensures FirstIndex(init + [last], y) == FirstIndex(init, y)
  {
    if init[0] != y {
      assert (init + [last])[1..] == init[1..] + [last];
      FirstIndexPrefix(init[1..], last, y);
    }
  }

  lemma {:induction false} FirstIndexLast(init: seq<string>, last: string)
    requires last !in init
    ensures FirstIndex(init + [last], last) == |init|
  {
    if init != [] {
      assert (init + [last])[1..] == init[1..] + [last];
      FirstIndexLast(init[1..], last);
    }
  }

  /** `getUniqueCategories` lists every product's category, nothing else, and
      no category twice, in order of first appearance in the catalogue. */
  lemma UniqueCategoriesSpec(ps: seq<Product>)
    ensures NoDuplicates(UniqueCategories(ps))
    ensures forall p :: p in ps ==> p.category in UniqueCategories(ps)
    ensures forall c :: c in UniqueCategories(ps) ==> exists p :: p in ps && p.category == c
    ensures forall i, j :: 0 <= i < j < |UniqueCategories(ps)| ==>
              UniqueCategories(ps)[i] in Categories(ps) && UniqueCategories(ps)[j] in Categories(ps) &&
              FirstIndex(Categories(ps), UniqueCategories(ps)[i]) < FirstIndex(Categories(ps), UniqueCategories(ps)[j])
  {
    var cs := Categories(ps);
    DedupContents(cs);
    DedupOrder(cs);
    forall p | p in ps ensures p.category in UniqueCategories(ps) {
      var i :| 0 <= i < |ps| && ps[i] == p;
      assert cs[i] == p.category;
    }
    forall c | c in UniqueCategories(ps) ensures exists p :: p in ps && p.category == c {
      var i :| 0 <= i < |cs| && cs[i] == c;
      assert ps[i] in ps;
    }
  }

  /** `Math.min(...prices)`. */
  function MinPrice(ps: seq<Product>): (m: int)
    requires |ps| > 0
    ensures forall i :: 0 <= i < |ps| ==> m <= ps[i].price
    ensures exists i :: 0 <= i < |ps| && ps[i].price == m
  {
    if |ps| == 1 then ps[0].price
    else
      var rest := MinPrice(ps[1..]);
      assert forall i :: 1 <= i < |ps| ==> ps[i] == ps[1..][i - 1];
      if ps[0].price <= rest then ps[0].price else rest
  }

  /** `Math.max(...prices)`. */
  function MaxPrice(ps: seq<Product>): (m: int)
    requires |ps| > 0
    ensures forall i :: 0 <= i < |ps| ==> ps[i].price <= m
    ensures exists i :: 0 <= i < |ps| && ps[i].price == m
  {
    if |ps| == 1 then ps[0].price
    else
      var rest := MaxPrice(ps[1..]);
      assert forall i :: 1 <= i < |ps| ==> ps[i] == ps[1..][i - 1];
      if ps[0].price >= rest then ps[0].price else rest
  }

  /** `getPriceRange` on a non-empty catalogue (an empty one gives infinities,
      which are not modelled): the least and the greatest price. */
  function GetPriceRange(ps: seq<Product>): (r: PriceRange)
    requires |ps| > 0
    ensures r.min <= r.max
    ensures forall p :: p in ps ==> r.min <= p.price <= r.max
    ensures (exists p :: p in ps && p.price == r.min) && (exists p :: p in ps && p.price == r.max)
  {
    var lo, hi := MinPrice(ps), MaxPrice(ps);
    ghost var i :| 0 <= i < |ps| && ps[i].price == lo;
    ghost var j :| 0 <= j < |ps| && ps[j].price == hi;
    assert ps[i] in ps && ps[j] in ps;
    PriceRange(lo, hi)
  }

  function Item(id: int, name: string, category: string, price: int, description: string): Product {
    Product(id, name, category, price, Some(description))
  }

  /** `mockProducts`. */
  const MockProducts: seq<Product> := [
    Item(1, "iPhone 14", "Electronics", 999, "Latest Apple smartphone"),
    Item(2, "MacBook Pro", "Electronics", 1999, "Professional laptop"),
    Item(3, "Nike Air Max", "Clothing", 120, "Comfortable running shoes"),
    Item(4, "Levi's Jeans", "Clothing", 80, "Classic denim jeans"),
    Item(5, "Coffee Maker", "Home", 150, "Automatic drip coffee maker"),
    Item(6, "Blender", "Home", 75, "High-speed blender"),
    Item(7, "Samsung Galaxy", "Electronics", 899, "Android smartphone"),
    Item(8, "Adidas Hoodie", "Clothing", 60, "Comfortable hoodie"),
    Item(9, "Desk Lamp", "Home", 45, "LED desk lamp"),
    Item(10, "Wireless Headphones", "Electronics", 200, "Noise-canceling headphones"),
    Item(11, "Running Shorts", "Clothing", 35, "Athletic shorts"),
    Item(12, "Kitchen Scale", "Home", 25, "Digital kitchen scale"),
    Item(13, "Tablet", "Electronics", 399, "10-inch tablet"),
    Item(14, "Winter Jacket", "Clothing", 180, "Waterproof winter jacket"),
    Item(15, "Air Purifier", "Home", 250, "HEPA air purifier")
  ]

  /** On the catalogue, the categories are Electronics, Clothing, Home in that
      order. */
  lemma MockCategories()
    ensures UniqueCategories(MockProducts) == ["Electronics", "Clothing", "Home"]
  {
    var cs := Categories(MockProducts);
    assert cs == ["Electronics", "Electronics", "Clothing", "Clothing", "Home", "Home", "Electronics",
                  "Clothing", "Home", "Electronics", "Clothing", "Home", "Electronics", "Clothing", "Home"];
    assert cs[..1] == [] + ["Electronics"] && cs[..1][..0] == [];
    assert Dedup(cs[..1]) == ["Electronics"];
    assert cs[..2][..1] == cs[..1] && cs[..2][1] == "Electronics";
    assert Dedup(cs[..2]) == ["Electronics"];
    assert cs[..3][..2] == cs[..2] && cs[..3][2] == "Clothing";
    assert Dedup(cs[..3]) == ["Electronics", "Clothing"];
    assert cs[..4][..3] == cs[..3] && cs[..4][3] == "Clothing";
    assert Dedup(cs[..4]) == ["Electronics", "Clothing"];
    assert cs[..5][..4] == cs[..4] && cs[..5][4] == "Home";
    assert Dedup(cs[..5]) == ["Electronics", "Clothing", "Home"];
    DedupStable(cs, 5);
  }

  /** On the catalogue, prices run from 25 to 1999. */
  lemma MockPriceRange()
    ensures GetPriceRange(MockProducts) == PriceRange(25, 1999)
  {
    var ps := MockProducts;
    forall i | 0 <= i < |ps| ensures 25 <= ps[i].price <= 1999 {
    }
    var lo, hi := MinPrice(ps), MaxPrice(ps);
    assert lo <= ps[11].price && hi >= ps[1].price;
    var i :| 0 <= i < |ps| && ps[i].price == lo;
    var j :| 0 <= j < |ps| && ps[j].price == hi;
    assert lo == 25 && hi == 1999;
  }

  /** Once every value of `xs` already occurs in its first `k` elements,
      the rest adds nothing. */
  lemma {:induction false} DedupStable(xs: seq<string>, k: nat)
    requires k <= |xs|
    requires forall i :: k <= i < |xs| ==> xs[i] in xs[..k]
    ensures Dedup(xs) == Dedup(xs[..k])
    decreases |xs| - k
  {
    if k < |xs| {
      var init := xs[..|xs| - 1];
      assert init[..k] == xs[..k];
      DedupStable(init, k);
      DedupContents(init);
      assert xs[|xs| - 1] in xs[..k];
      assert xs[|xs| - 1] in init;
    } else {
      assert xs[..k] == xs;
    }
  }
}
