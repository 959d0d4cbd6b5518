/** The filter-state / URL-query synchronisation of src/hooks/useUrlParams.ts.
    The query string is modelled as the key/value map that `URLSearchParams`
    presents, and the browser's session history as an explicit list of
    entries with a current position. */
module UrlParams {
  import opened Wrappers
  import opened Numbers
  import opened Types

  type Query = map<string, string>

  const SearchKey: string := "search"
  const CategoryKey: string := "category"
  const MinPriceKey: string := "minPrice"
  const MaxPriceKey: string := "maxPrice"

  const DefaultMin: int := 0
  const DefaultMax: int := 1000

  /** The filter state an empty query gives. */
  const Defaults: FilterState := FilterState("", "", PriceRange(DefaultMin, DefaultMax))

  /** `params.get(key)`: the value, or `null`. */
  function Get(q: Query, key: string): (r: Option<string>)
    ensures r.Some? <==> key in q
    ensures r.Some? ==> r.value == q[key]
  {
    if key in q then Some(q[key]) else None
  }

  /** `params.get(key) || ''`. */
  function StringOr(v: Option<string>): (s: string)
    ensures s == "" <==> v.None? || v.value == ""
    ensures v.Some? ==> s == v.value
  {
    match v
    case None => ""
    case Some(s) => s
  }

  /** The parse used both at initialisation and on `popstate`. */
  function ParseFilters(q: Query): (f: FilterState)
    ensures f.searchTerm == StringOr(Get(q, SearchKey))
    ensures f.category == StringOr(Get(q, CategoryKey))
    ensures f.priceRange.min == NumberOr(Get(q, MinPriceKey), DefaultMin)
    ensures f.priceRange.max == NumberOr(Get(q, MaxPriceKey), DefaultMax)
  {
    FilterState(
      StringOr(Get(q, SearchKey)),
      StringOr(Get(q, CategoryKey)),
      PriceRange(NumberOr(Get(q, MinPriceKey), DefaultMin), NumberOr(Get(q, MaxPriceKey), DefaultMax)))
  }

  /** The query `updateUrl` builds by its sequence of conditional `params.set`
      calls: a parameter is written only when it differs from its default in
      the direction the guard tests. */
  function SerializeFilters(f: FilterState): (q: Query)
    ensures q.Keys <= {SearchKey, CategoryKey, MinPriceKey, MaxPriceKey}
    ensures SearchKey in q <==> f.searchTerm != ""
    ensures CategoryKey in q <==> f.category != ""
    ensures MinPriceKey in q <==> f.priceRange.min > 0
    ensures MaxPriceKey in q <==> f.priceRange.max < 1000
    ensures SearchKey in q ==> q[SearchKey] == f.searchTerm
    ensures CategoryKey in q ==> q[CategoryKey] == f.category
    ensures MinPriceKey in q ==> q[MinPriceKey] == IntToString(f.priceRange.min)
    ensures MaxPriceKey in q ==> q[MaxPriceKey] == IntToString(f.priceRange.max)
  {
    var q0: Query := map[];
    var q1 := if f.searchTerm != "" then q0[SearchKey := f.searchTerm] else q0;
    var q2 := if f.category != "" then q1[CategoryKey := f.category] else q1;
    var q3 := if f.priceRange.min > 0 then q2[MinPriceKey := IntToString(f.priceRange.min)] else q2;
    if f.priceRange.max < 1000 then q3[MaxPriceKey := IntToString(f.priceRange.max)] else q3
  }

  /** A query with none of the four keys parses to the defaults. */
  lemma ParseEmptyQuery(q: Query)
    requires SearchKey !in q && CategoryKey !in q && MinPriceKey !in q && MaxPriceKey !in q
    ensures ParseFilters(q) == Defaults
  {
  }

  /** A price parameter that is not a numeral falls back to its default. */
  lemma ParseNonNumericPrice(q: Query)
    requires MinPriceKey in q && ParseInt(q[MinPriceKey]).None?
    requires MaxPriceKey in q && ParseInt(q[MaxPriceKey]).None?
    ensures ParseFilters(q).priceRange == PriceRange(DefaultMin, DefaultMax)
  {
  }

  /** The query is empty, so the new URL is the bare pathname, exactly when
      every field is on the default side of its guard. */
  lemma SerializeEmptyIff(f: FilterState)
    ensures SerializeFilters(f) == map[] <==>
              f.searchTerm == "" && f.category == "" && f.priceRange.min <= 0 && f.priceRange.max >= 1000
  {
    var q := SerializeFilters(f);
    if q == map[] {
      assert SearchKey !in q && CategoryKey !in q && MinPriceKey !in q && MaxPriceKey !in q;
    }
  }

  /** Round trip: reading back the query written for `f` gives `f` exactly when
      `0 <= min`, `max <= 1000` and `max != 0`.  A negative minimum or a
      maximum above 1000 is not written and reads back as the default; a
      maximum of 0 is written as "0" and reads back as 1000. */
  lemma RoundTripIff(f: FilterState)
    ensures ParseFilters(SerializeFilters(f)) == f <==>
              0 <= f.priceRange.min && f.priceRange.max <= 1000 && f.priceRange.max != 0
  {
    var q := SerializeFilters(f);
    var g := ParseFilters(q);
    var min, max := f.priceRange.min, f.priceRange.max;
    if min > 0 {
      NumberOrRoundTrip(min, DefaultMin);
    }
    if max < 1000 && max != 0 {
      NumberOrRoundTrip(max, DefaultMax);
    }
    if max == 0 {
      NumberOrOfZero(DefaultMax);
      assert g.priceRange.max == 1000;
    }
    assert g.searchTerm == f.searchTerm && g.category == f.category;
    assert g.priceRange.min == (if min > 0 then min else 0);
  }

  /** The round trip in its usual form. */
  lemma RoundTrip(f: FilterState)
    requires 0 <= f.priceRange.min && f.priceRange.max <= 1000 && f.priceRange.max != 0
    ensures ParseFilters(SerializeFilters(f)) == f
  {
    RoundTripIff(f);
  }

  /** The edge case: a maximum of 0 is written to the URL but comes back as 1000. */
  lemma ZeroMaxIsLost(f: FilterState)
    requires f.priceRange.max == 0
    ensures MaxPriceKey in SerializeFilters(f) && SerializeFilters(f)[MaxPriceKey] == "0"
    ensures ParseFilters(SerializeFilters(f)).priceRange.max == DefaultMax
  {
    NumberOrOfZero(DefaultMax);
  }

  /** The default state writes an empty query, and the empty query reads back
      as the default state. */
  lemma DefaultsRoundTrip()
    ensures SerializeFilters(Defaults) == map[]
    ensures ParseFilters(map[]) == Defaults
  {
    SerializeEmptyIff(Defaults);
  }

  /** A fully specified filter state writes all four parameters and reads back
      unchanged. */
  lemma ExampleRoundTrip()
    ensures SerializeFilters(FilterState("foo", "Electronics", PriceRange(50, 500))) ==
              map[SearchKey := "foo", CategoryKey := "Electronics", MinPriceKey := "50", MaxPriceKey := "500"]
    ensures ParseFilters(SerializeFilters(FilterState("foo", "Electronics", PriceRange(50, 500)))) ==
              FilterState("foo", "Electronics", PriceRange(50, 500))
  {
    var f := FilterState("foo", "Electronics", PriceRange(50, 500));
    assert IntToString(50) == "50" by {
      assert NatToString(50) == NatToString(5) + [DigitChar(0)];
    }
    assert IntToString(500) == "500" by {
      assert NatToString(500) == NatToString(50) + [DigitChar(0)];
      assert NatToString(50) == NatToString(5) + [DigitChar(0)];
    }
    RoundTrip(f);
  }

  /** A page location: the pathname and the parsed query. */
  datatype Location = Location(pathname: string, query: Query)

  /** The hook's state together with the browser state it reads and writes:
      the in-memory `filters`, and the session history as a list of entries
      of which `current` is the one the address bar shows. */
  class UrlSync {
    var filters: FilterState
    var entries: seq<Location>
    var current: nat

    ghost predicate Valid()
      reads this
    {
      current < |entries|
    }

    /** `window.location`. */
    function Here(): Location
      reads this
      requires Valid()
    {
      entries[current]
    }

    /** Mounting: the state is initialised by parsing the current URL. */
    constructor (entries: seq<Location>, current: nat)
      requires current < |entries|
      ensures Valid()
      ensures this.entries == entries && this.current == current
      ensures filters == ParseFilters(entries[current].query)
    {
      this.entries := entries;
      this.current := current;
      this.filters := ParseFilters(entries[current].query);
    }

    /** `updateFilters`: set the state, then replace (not push) the current
        history entry with the pathname and the serialised query. */
    method UpdateFilters(newFilters: FilterState)
      requires Valid()
      modifies this
      ensures Valid()
      ensures filters == newFilters
      ensures current == old(current) && |entries| == old(|entries|)
      ensures entries == old(entries)[current := Location(old(Here()).pathname, SerializeFilters(newFilters))]
    {
      filters := newFilters;
      UpdateUrl(newFilters);
    }

    /** `updateUrl`: `history.replaceState` with the serialised filters. */
    method UpdateUrl(newFilters: FilterState)
      requires Valid()
      modifies this`entries
      ensures Valid()
      ensures entries == old(entries)[current := Location(old(Here()).pathname, SerializeFilters(newFilters))]
    {
      var params := SerializeFilters(newFilters);
      entries := entries[current := Location(entries[current].pathname, params)];
    }

    /** Back/forward navigation to entry `target` followed by the `popstate`
        handler: the state is re-parsed from the URL, and the URL and the
        history are not written. */
    method PopState(target: nat)
      requires Valid() && target < |entries|
      modifies this`current, this`filters
      ensures Valid()
      ensures current == target && entries == old(entries)
      ensures filters == ParseFilters(entries[target].query)
    {
      current := target;
      filters := ParseFilters(entries[current].query);
    }
  }
}
