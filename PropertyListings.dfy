/** The catalog filter engine and the listing component's state
    (components/PropertyListings.tsx). `FilteredProperties` is the `useMemo` chain: extract a
    comparable price, keep the listings that pass the price, bedroom and type tests, then sort
    featured listings first with `Array.prototype.sort`, which is stable (ECMA-262 10th edition,
    section 22.1.3.27). */
module PropertyListings {
  import opened Wrappers
  import opened Ecma
  import opened Types
  import opened PropertyFilters
  import opened Seqs
  import SiteContent

  /** `initialFilters`. */
  const InitialFilters: Filters := Filters("", "", 0, All)

  // ---------------------------------------------------------------------------
  // Filter-state updates

  /** `{ ...prev, ...newFilters }`: the supplied keys overwrite, the others are kept. */
  function Merge(prev: Filters, patch: FilterPatch): (f: Filters)
    ensures f.priceMin == (if patch.priceMin.Some? then patch.priceMin.value else prev.priceMin)
    ensures f.priceMax == (if patch.priceMax.Some? then patch.priceMax.value else prev.priceMax)
    ensures f.bedrooms == (if patch.bedrooms.Some? then patch.bedrooms.value else prev.bedrooms)
    ensures f.filterType == (if patch.filterType.Some? then patch.filterType.value else prev.filterType)
  {
    Filters(
      if patch.priceMin.Some? then patch.priceMin.value else prev.priceMin,
      if patch.priceMax.Some? then patch.priceMax.value else prev.priceMax,
      if patch.bedrooms.Some? then patch.bedrooms.value else prev.bedrooms,
      if patch.filterType.Some? then patch.filterType.value else prev.filterType)
  }

  /** Applying the same partial update twice is the same as applying it once, and the updates
      the filter panel emits change exactly the one field they name. */
  lemma MergePanelUpdates(f: Filters, field: PriceField, text: string, option: BedroomOption, t: FilterType, patch: FilterPatch)
    ensures Merge(Merge(f, patch), patch) == Merge(f, patch)
    ensures Merge(f, FilterPatch(None, None, None, None)) == f
    ensures Merge(f, InputChange(field, text))
      == if field == PriceMinField then f.(priceMin := text) else f.(priceMax := text)
    ensures Merge(f, BedroomClick(option)) == f.(bedrooms := option.value)
    ensures Merge(f, TypeClick(t)) == f.(filterType := t)
  {
  }

  // ---------------------------------------------------------------------------
  // Price extraction and the three tests

  /** `p.price.toLowerCase().includes('cr')`: the price is written in crores. */
  predicate IsCrore(text: string) {
    Includes(ToLowerCase(text), "cr")
  }

  /** `parseInt(p.price.replace(/[^0-9]/g, '')) * multiplier`, where the multiplier is 100 for a
      crore price and 1 otherwise, so that every price is compared in lakhs. A NaN stays NaN:
      the price is NaN exactly when the text has no decimal digit, and never Infinity. */
  function ExtractPrice(text: string): (price: Num)
    ensures !price.PosInfinity?
    ensures price.NaN? <==> forall i :: 0 <= i < |text| ==> !IsDigit(text[i])
  {
    ParseIntOfDigits(DigitsOnly(text), Unspecified);
    var n := ParseInt(DigitsOnly(text), Unspecified);
    if n.Finite? then Finite(if IsCrore(text) then 100 * n.v else n.v) else n
  }

  /** A price is in crores exactly when "cr" occurs in the lowercased text. */
  lemma CroreIff(text: string)
    ensures IsCrore(text) ==> exists i :: OccursAt(ToLowerCase(text), "cr", i)
    ensures (exists i :: OccursAt(ToLowerCase(text), "cr", i)) ==> IsCrore(text)
  {
    IncludesIff(ToLowerCase(text), "cr");
  }

  /** A text without the letter c, in either case, is not a crore price. */
  lemma NoLetterCNotCrore(text: string)
    requires 'c' !in text && 'C' !in text
    ensures !IsCrore(text)
  {
    CroreIff(text);
    var lc := ToLowerCase(text);
    assert forall i :: OccursAt(lc, "cr", i) ==> lc[i] == 'c' && text[i] in text;
  }

  /** The extracted price is NaN when the text has no decimal digit; otherwise it is the number
      written by all of its digits in order, times 100 exactly when the lowercased text contains
      "cr". */
  lemma ExtractPriceValue(text: string)
    ensures ExtractPrice(text).NaN? <==> forall i :: 0 <= i < |text| ==> !IsDigit(text[i])
    ensures !ExtractPrice(text).PosInfinity?
    ensures ExtractPrice(text).Finite? && (exists i :: OccursAt(ToLowerCase(text), "cr", i)) ==>
      ExtractPrice(text).v == 100 * RadixValue(DigitsOnly(text), 10)
    ensures ExtractPrice(text).Finite? && !(exists i :: OccursAt(ToLowerCase(text), "cr", i)) ==>
      ExtractPrice(text).v == RadixValue(DigitsOnly(text), 10)
  {
    ParseIntOfDigits(DigitsOnly(text), Unspecified);
    CroreIff(text);
  }

  /** A plain decimal numeral is read back as its value, and a numeral followed by " Cr" as
      100 times its value. */
  lemma ExtractPriceOfNumeral(n: nat)
    ensures ExtractPrice(ShowNat(n)) == Finite(n)
    ensures ExtractPrice(ShowNat(n) + " Cr") == Finite(100 * n)
  {
    var d := ShowNat(n);
    RadixValueShowNat(n);
    NumeralPrices(d);
    PriceExample(d, d, n);
    PriceExample(d + " Cr", d, n);
  }

  lemma NumeralPrices(d: string)
    requires d != [] && AllRadixDigits(d, 10)
    ensures DigitsOnly(d) == d && !IsCrore(d)
    ensures DigitsOnly(d + " Cr") == d && IsCrore(d + " Cr")
  {
    DigitsOfDigits(d);
    DigitsOnlyAppend(d, " Cr");
    assert DigitsOnly(" Cr") == "";
    assert d + "" == d;
    NoLetterCNotCrore(d);
    CrSuffixIsCrore(d);
  }

  lemma CrSuffixIsCrore(d: string)
    ensures IsCrore(d + " Cr")
  {
    var lc := ToLowerCase(d + " Cr");
    assert lc[|d| + 1] == 'c' && lc[|d| + 2] == 'r';
    assert OccursAt(lc, "cr", |d| + 1);
    CroreIff(d + " Cr");
  }

  lemma {:induction false} DigitsOfDigits(z: string)
    requires AllRadixDigits(z, 10)
    ensures DigitsOnly(z) == z
  {
    if z != [] {
      DigitsOfDigits(z[1..]);
    }
  }

  /** `filters.priceMin ? parseInt(filters.priceMin) : 0`. */
  function MinBound(text: string): (n: Num)
    ensures !n.PosInfinity?
  {
    if text == "" then Finite(0) else ParseInt(text, Unspecified)
  }

  /** `filters.priceMax ? parseInt(filters.priceMax) : Infinity`. */
  function MaxBound(text: string): (n: Num)
    ensures n.PosInfinity? <==> text == ""
  {
    if text == "" then PosInfinity else ParseInt(text, Unspecified)
  }

  /** `(!min || price >= min) && (!max || price <= max)`. Two falsy bounds let every price
      through; a NaN price fails every truthy bound, Infinity included. */
  predicate PriceMatch(price: Num, min: Num, max: Num): (ok: bool)
    ensures Falsy(min) && Falsy(max) ==> ok
    ensures price.NaN? ==> (ok <==> Falsy(min) && Falsy(max))
  {
    (Falsy(min) || AtLeast(price, min)) && (Falsy(max) || AtMost(price, max))
  }

  /** `!filters.bedrooms || p.beds >= filters.bedrooms`: "Any" (0) keeps every listing,
      otherwise exactly the listings with at least that many beds pass. */
  predicate BedsMatch(f: Filters, p: Property): (ok: bool)
    ensures f.bedrooms <= 0 ==> ok
    ensures f.bedrooms > 0 ==> (ok <==> p.beds >= f.bedrooms)
  {
    f.bedrooms == 0 || p.beds >= f.bedrooms
  }

  /** `filters.type === 'All' || (Buy && 'For Sale') || (Rent && 'For Rent')`: All keeps every
      listing, Buy exactly the ones for sale, Rent exactly the ones for rent. */
  predicate TypeMatch(f: Filters, p: Property): (ok: bool)
    ensures f.filterType == All ==> ok
    ensures f.filterType == Buy ==> (ok <==> p.kind == ForSale)
    ensures f.filterType == Rent ==> (ok <==> p.kind == ForRent)
  {
    f.filterType == All
    || (f.filterType == Buy && p.kind == ForSale)
    || (f.filterType == Rent && p.kind == ForRent)
  }

  /** The `.filter` callback. A kept listing has a readable price unless both bounds are
      falsy, has enough bedrooms, and is of the chosen kind. */
  predicate Keep(f: Filters, p: Property): (ok: bool)
    ensures ok ==> ExtractPrice(p.price).Finite? || (Falsy(MinBound(f.priceMin)) && Falsy(MaxBound(f.priceMax)))
    ensures ok && f.bedrooms > 0 ==> p.beds >= f.bedrooms
    ensures ok && f.filterType == Buy ==> p.kind == ForSale
    ensures ok && f.filterType == Rent ==> p.kind == ForRent
  {
    && PriceMatch(ExtractPrice(p.price), MinBound(f.priceMin), MaxBound(f.priceMax))
    && BedsMatch(f, p)
    && TypeMatch(f, p)
  }

  /** A bound constrains only when it is a non-empty text that parses to a non-zero number;
      then it holds its value. `None` stands for "no constraint". */
  function MinConstraint(text: string): (c: Option<int>) {
    var n := MinBound(text);
    if Falsy(n) then None else Some(n.v)
  }

  /** For a listing whose price text has digits, the price test is exactly "at least the
      constraining min and at most the constraining max"; an empty, zero or unparsable bound
      imposes nothing. */
  lemma PricedListingTest(f: Filters, p: Property, price: int)
    requires ExtractPrice(p.price) == Finite(price)
    ensures PriceMatch(ExtractPrice(p.price), MinBound(f.priceMin), MaxBound(f.priceMax)) <==>
      (MinConstraint(f.priceMin).Some? ==> price >= MinConstraint(f.priceMin).value)
      && (MaxBound(f.priceMax).Finite? && MaxBound(f.priceMax).v != 0 ==> price <= MaxBound(f.priceMax).v)
  {
  }

  /** A listing whose price text has no digit passes the price test only when the min bound is
      empty, zero or unparsable AND the max bound is a NON-EMPTY text that parses to zero or
      to nothing: an empty max becomes Infinity, and `NaN <= Infinity` is false. */
  lemma UnpricedListingTest(f: Filters, p: Property)
    requires forall i :: 0 <= i < |p.price| ==> !IsDigit(p.price[i])
    ensures PriceMatch(ExtractPrice(p.price), MinBound(f.priceMin), MaxBound(f.priceMax)) <==>
      Falsy(MinBound(f.priceMin)) && f.priceMax != "" && Falsy(MaxBound(f.priceMax))
  {
    var price, lo, hi := ExtractPrice(p.price), MinBound(f.priceMin), MaxBound(f.priceMax);
    assert price == NaN;
    assert hi.PosInfinity? <==> f.priceMax == "";
  }

  // ---------------------------------------------------------------------------
  // Filtering and the stable featured-first sort

  /** `properties.filter(p => Keep(filters, p))`. */
  function Retained(ps: seq<Property>, f: Filters): (r: seq<Property>) {
    Filter(ps, (p: Property) => Keep(f, p))
  }

  predicate NotFeaturedListing(p: Property) {
    !IsFeatured(p)
  }

  /** The featured listings of `s`, in order. */
  function FeaturedOnly(s: seq<Property>): (r: seq<Property>) {
    Filter(s, IsFeatured)
  }

  /** The other listings of `s`, in order. */
  function NotFeatured(s: seq<Property>): (r: seq<Property>) {
    Filter(s, NotFeaturedListing)
  }

  /** The sort comparator `(b.isFeatured ? 1 : 0) - (a.isFeatured ? 1 : 0)`. */
  function FeaturedCompare(a: Property, b: Property): (d: int) {
    (if IsFeatured(b) then 1 else 0) - (if IsFeatured(a) then 1 else 0)
  }

  /** Inserts `x` into an already sorted sequence after every element that does not compare
      greater than it: one step of a stable insertion sort under `FeaturedCompare`. */
  function InsertSorted(sorted: seq<Property>, x: Property): (r: seq<Property>)
    ensures |r| == |sorted| + 1
  {
    if sorted == [] then [x]
    else if FeaturedCompare(sorted[|sorted| - 1], x) > 0 then
      assert sorted == sorted[..|sorted| - 1] + [sorted[|sorted| - 1]];
      InsertSorted(sorted[..|sorted| - 1], x) + [sorted[|sorted| - 1]]
    else sorted + [x]
  }

  /** `s.sort(FeaturedCompare)`: a stable sort under the comparator. Every stable sort gives this
      same result, so insertion sort stands for the engine's own algorithm. The result is a
      permutation of `s`. */
  function SortFeatured(s: seq<Property>): (r: seq<Property>)
    ensures |r| == |s|
  {
    if s == [] then []
    else
      assert s == s[..|s| - 1] + [s[|s| - 1]];
      InsertSorted(SortFeatured(s[..|s| - 1]), s[|s| - 1])
  }

  /** The `useMemo` result: the retained listings, reordered, and only those. */
  function FilteredProperties(ps: seq<Property>, f: Filters): (r: seq<Property>)
    ensures |r| <= |ps|
    ensures multiset(r) == multiset(Retained(ps, f))
  {
    SortFeaturedPartition(Retained(ps, f));
    PartitionShape(Retained(ps, f));
    SortFeatured(Retained(ps, f))
  }

  predicate AllFeatured(s: seq<Property>) {
    forall i :: 0 <= i < |s| ==> IsFeatured(s[i])
  }

  predicate NoneFeatured(s: seq<Property>) {
    forall i :: 0 <= i < |s| ==> !IsFeatured(s[i])
  }

  /** A listing is retained exactly when it is in the catalog and passes the three tests. */
  lemma RetainedMembers(ps: seq<Property>, f: Filters)
    ensures |Retained(ps, f)| <= |ps|
    ensures forall x :: x in Retained(ps, f) <==> x in ps && Keep(f, x)
  {
    forall x
      ensures x in Retained(ps, f) <==> x in ps && Keep(f, x)
    {
      FilterMembers(ps, (p: Property) => Keep(f, p), x);
    }
  }

  lemma {:induction false} InsertIntoPartition(fs: seq<Property>, ns: seq<Property>, x: Property)
    requires AllFeatured(fs) && NoneFeatured(ns)
    ensures InsertSorted(fs + ns, x) == if IsFeatured(x) then fs + [x] + ns else fs + ns + [x]
    decreases |ns|
  {
    if ns == [] {
      assert fs + ns == fs;
      if fs != [] {
        assert IsFeatured(fs[|fs| - 1]);
      }
    } else {
      var s := fs + ns;
      var last := ns[|ns| - 1];
      assert s[|s| - 1] == last;
      assert s[..|s| - 1] == fs + ns[..|ns| - 1];
      if IsFeatured(x) {
        InsertIntoPartition(fs, ns[..|ns| - 1], x);
        assert fs + [x] + ns[..|ns| - 1] + [last] == fs + [x] + ns;
      }
    }
  }

  /** The two groups hold only featured and only other listings respectively, and together
      they hold every listing of `s` exactly as often as `s` does. */
  lemma PartitionShape(s: seq<Property>)
    ensures AllFeatured(FeaturedOnly(s)) && NoneFeatured(NotFeatured(s))
    ensures |FeaturedOnly(s)| + |NotFeatured(s)| == |s|
    ensures multiset(FeaturedOnly(s)) + multiset(NotFeatured(s)) == multiset(s)
  {
    FilterPartition(s, IsFeatured, NotFeaturedListing);
  }

  /** The stable sort puts the featured listings first and the others after them, each group in
      its input order. */
  lemma {:induction false} SortFeaturedPartition(s: seq<Property>)
    ensures SortFeatured(s) == FeaturedOnly(s) + NotFeatured(s)
  {
    if s != [] {
      var init, x := s[..|s| - 1], s[|s| - 1];
      var fs, ns := FeaturedOnly(init), NotFeatured(init);
      SortFeaturedPartition(init);
      assert SortFeatured(s) == InsertSorted(fs + ns, x);
      InsertIntoPartition(fs, ns, x);
      assert s == init + [x];
      FilterSnoc(init, x, IsFeatured);
      FilterSnoc(init, x, NotFeaturedListing);
      if IsFeatured(x) {
        assert FeaturedOnly(s) == fs + [x] && NotFeatured(s) == ns;
      } else {
        assert FeaturedOnly(s) == fs && NotFeatured(s) == ns + [x];
        assert fs + ns + [x] == fs + (ns + [x]);
      }
    }
  }

  /** A listing is shown exactly when it is in the catalog and passes all three tests, the
      output is a permutation of the retained listings (so never longer than the catalog), it is
      the retained featured listings in catalog order followed by the retained others in catalog
      order, and no non-featured listing precedes a featured one. */
  lemma FilteredPropertiesSpec(ps: seq<Property>, f: Filters)
    ensures forall x :: x in FilteredProperties(ps, f) <==> x in ps && Keep(f, x)
    ensures multiset(FilteredProperties(ps, f)) == multiset(Retained(ps, f))
    ensures |FilteredProperties(ps, f)| <= |ps|
    ensures FilteredProperties(ps, f) == FeaturedOnly(Retained(ps, f)) + NotFeatured(Retained(ps, f))
    ensures forall i, j :: 0 <= i < j < |FilteredProperties(ps, f)| ==>
      (IsFeatured(FilteredProperties(ps, f)[j]) ==> IsFeatured(FilteredProperties(ps, f)[i]))
  {
    var r := Retained(ps, f);
    RetainedMembers(ps, f);
    SortFeaturedPartition(r);
    PartitionShape(r);
    var out := FilteredProperties(ps, f);
    var fs, ns := FeaturedOnly(r), NotFeatured(r);
    assert out == fs + ns;
    assert multiset(out) == multiset(r);
    assert |out| == |r|;
    forall x
      ensures x in out <==> x in ps && Keep(f, x)
    {
      assert x in out <==> x in multiset(out);
      assert x in r <==> x in multiset(r);
    }
    FeaturedFirst(fs, ns);
  }

  /** Featured listings followed by other listings: no other listing precedes a featured one. */
  lemma FeaturedFirst(fs: seq<Property>, ns: seq<Property>)
    requires AllFeatured(fs) && NoneFeatured(ns)
    ensures forall i, j :: 0 <= i < j < |fs + ns| ==> (IsFeatured((fs + ns)[j]) ==> IsFeatured((fs + ns)[i]))
  {
    var out := fs + ns;
    forall i, j | 0 <= i < j < |out|
      ensures IsFeatured(out[j]) ==> IsFeatured(out[i])
    {
      if i < |fs| {
        assert out[i] == fs[i];
      } else {
        assert out[j] == ns[j - |fs|];
      }
    }
  }

  /** Stability: within each featured status the output keeps the catalog order. */
  lemma FilteredPropertiesStable(ps: seq<Property>, f: Filters)
    ensures FeaturedOnly(FilteredProperties(ps, f)) == FeaturedOnly(Retained(ps, f))
    ensures NotFeatured(FilteredProperties(ps, f)) == NotFeatured(Retained(ps, f))
  {
    var r := Retained(ps, f);
    var fs, ns := FeaturedOnly(r), NotFeatured(r);
    SortFeaturedPartition(r);
    GroupsClassified(r);
    GroupsOfPartition(fs, ns);
  }

  /** The first group holds only featured listings, the second only others. */
  lemma GroupsClassified(s: seq<Property>)
    ensures AllFeatured(FeaturedOnly(s)) && NoneFeatured(NotFeatured(s))
  {
  }

  /** Splitting a featured-first sequence into its groups gives back the two parts. */
  lemma GroupsOfPartition(fs: seq<Property>, ns: seq<Property>)
    requires AllFeatured(fs) && NoneFeatured(ns)
    ensures FeaturedOnly(fs + ns) == fs && NotFeatured(fs + ns) == ns
  {
    FilterAppend(fs, ns, IsFeatured);
    FilterAppend(fs, ns, NotFeaturedListing);
    assert Filter(fs, IsFeatured) == fs by {
      FilterIdentity(fs, IsFeatured);
    }
    assert Filter(ns, NotFeaturedListing) == ns by {
      assert forall i :: 0 <= i < |ns| ==> NotFeaturedListing(ns[i]);
      FilterIdentity(ns, NotFeaturedListing);
    }
    assert Filter(fs, NotFeaturedListing) == [] by {
      assert forall i :: 0 <= i < |fs| ==> !NotFeaturedListing(fs[i]);
      FilterIdentity(fs, NotFeaturedListing);
    }
    assert Filter(ns, IsFeatured) == [] by {
      FilterIdentity(ns, IsFeatured);
    }
    assert fs + [] == fs;
    assert [] + ns == ns;
  }

  // ---------------------------------------------------------------------------
  // Monotonicity of the filter

  /** `a` imposes no more on prices than `b`, for the min bound. */
  predicate MinNoStricter(a: Num, b: Num) {
    Falsy(a) || (a.Finite? && !Falsy(b) && b.Finite? && a.v <= b.v)
  }

  /** `a` imposes no more on prices than `b`, for the max bound. An empty max (Infinity) is
      looser than any non-zero number but not looser than a falsy bound, because it rejects
      NaN prices. */
  predicate MaxNoStricter(a: Num, b: Num) {
    || Falsy(a)
    || (a.PosInfinity? && !Falsy(b))
    || (a.Finite? && !Falsy(b) && b.Finite? && a.v >= b.v)
  }

  /** Widening any one criterion (or all of them) never removes a shown listing. */
  lemma FilterMonotone(ps: seq<Property>, f: Filters, g: Filters)
    requires MinNoStricter(MinBound(g.priceMin), MinBound(f.priceMin))
    requires MaxNoStricter(MaxBound(g.priceMax), MaxBound(f.priceMax))
    requires g.bedrooms == 0 || (f.bedrooms != 0 && g.bedrooms <= f.bedrooms)
    requires g.filterType == All || g.filterType == f.filterType
    ensures forall x :: x in FilteredProperties(ps, f) ==> x in FilteredProperties(ps, g)
  {
    FilteredPropertiesSpec(ps, f);
    FilteredPropertiesSpec(ps, g);
    forall x | x in ps && Keep(f, x)
      ensures Keep(g, x)
    {
      var price := ExtractPrice(x.price);
    }
  }

  /** Lowering a non-zero bedroom minimum, or clearing it, never removes a shown listing. */
  lemma LowerBedroomsKeeps(ps: seq<Property>, f: Filters, b: int)
    requires 0 <= b <= f.bedrooms
    ensures forall x :: x in FilteredProperties(ps, f) ==> x in FilteredProperties(ps, f.(bedrooms := b))
  {
    FilterMonotone(ps, f, f.(bedrooms := b));
  }

  /** Under the initial filters a listing survives exactly when its price text has a digit:
      with every criterion at its default, a "Price on request" listing is dropped. */
  lemma InitialFiltersKeepPricedOnly(p: Property)
    ensures Keep(InitialFilters, p) <==> exists i :: 0 <= i < |p.price| && IsDigit(p.price[i])
  {
    var price := ExtractPrice(p.price);
    assert MinBound(InitialFilters.priceMin) == Finite(0);
    assert MaxBound(InitialFilters.priceMax) == PosInfinity;
    assert BedsMatch(InitialFilters, p) && TypeMatch(InitialFilters, p);
    assert Keep(InitialFilters, p) == PriceMatch(price, Finite(0), PosInfinity);
  }

  // ---------------------------------------------------------------------------
  // The component's state

  /** What the component renders at the top level. */
  datatype ListingsView = LoadingView | ErrorView(message: string) | ResultsView(count: nat, listings: seq<Property>)

  /** The outcome of the catalog fetch: the data, or a rejection. */
  datatype FetchOutcome = Fetched(data: seq<Property>) | FetchFailed

  const LoadErrorMessage: string := "Failed to load properties. Please try again later."

  class ListingsState {
    var properties: seq<Property>
    var loading: bool
    var error: Option<string>
    var filters: Filters

    /** The initial state, with the fetch in flight. */
    constructor ()
      ensures properties == [] && loading && error == None && filters == InitialFilters
    {
      properties := [];
      loading := true;
      error := None;
      filters := InitialFilters;
    }

    /** The fetch settles: `.then` stores the data and clears the error, `.catch` sets the
        error and keeps the old data, `.finally` clears `loading`. */
    method LoadSettled(outcome: FetchOutcome)
      modifies this
      ensures !loading && filters == old(filters)
      ensures outcome.Fetched? ==> properties == outcome.data && error == None
      ensures outcome.FetchFailed? ==> properties == old(properties) && error == Some(LoadErrorMessage)
    {
      if outcome.Fetched? {
        properties := outcome.data;
        error := None;
      } else {
        error := Some(LoadErrorMessage);
      }
      loading := false;
    }

    /** `handleFilterChange`. */
    method HandleFilterChange(patch: FilterPatch)
      modifies this
      ensures filters == Merge(old(filters), patch)
      ensures properties == old(properties) && loading == old(loading) && error == old(error)
    {
      filters := Merge(filters, patch);
    }

    /** `resetFilters`. */
    method ResetFilters()
      modifies this
      ensures filters == Filters("", "", 0, All)
      ensures properties == old(properties) && loading == old(loading) && error == old(error)
    {
      filters := InitialFilters;
    }

    /** The memoised filtered list. */
    function Filtered(): (r: seq<Property>)
      reads this
    {
      FilteredProperties(properties, filters)
    }

    /** Loading wins over an error, which wins over the results. */
    function View(): (v: ListingsView)
      reads this
      ensures v.LoadingView? <==> loading
      ensures v.ErrorView? <==> !loading && TruthyText(error)
      ensures v.ErrorView? ==> v.message == error.value
      ensures v.ResultsView? ==> v.listings == Filtered() && v.count == |Filtered()|
    {
      if loading then LoadingView
      else if TruthyText(error) then ErrorView(error.value)
      else ResultsView(|Filtered()|, Filtered())
    }
  }

  // ---------------------------------------------------------------------------
  // Examples on the catalog of constants.ts

  /** A fractional crore price such as "2.5 Cr" loses its decimal point with the other
      non-digits: it compares as 100 times the number written by all of its digits (2500 for
      "2.5 Cr", not 250). */
  lemma DecimalPointDropped(w: string, f: string)
    requires w != [] && AllRadixDigits(w, 10) && AllRadixDigits(f, 10)
    ensures ExtractPrice(w + "." + f + " Cr") == Finite(100 * RadixValue(w + f, 10))
  {
    var wp := w + ".";
    var wpf := wp + f;
    var text := wpf + " Cr";
    DigitsOfDigits(w);
    DigitsOfDigits(f);
    assert DigitsOnly(".") == [];
    assert DigitsOnly(" Cr") == [];
    DigitsOnlyAppend(w, ".");
    assert DigitsOnly(wp) == w;
    DigitsOnlyAppend(wp, f);
    assert DigitsOnly(wpf) == w + f;
    DigitsOnlyAppend(wpf, " Cr");
    assert DigitsOnly(text) == w + f;
    CrSuffixIsCrore(w + "." + f);
    assert AllRadixDigits(w + f, 10);
    PriceExample(text, w + f, RadixValue(w + f, 10));
  }

  /** A price text whose digits spell `value` compares as `value`, or as 100 times it in
      crores. */
  lemma PriceExample(text: string, digits: string, value: nat)
    requires DigitsOnly(text) == digits && digits != [] && RadixValue(digits, 10) == value
    ensures IsCrore(text) ==> ExtractPrice(text) == Finite(100 * value)
    ensures !IsCrore(text) ==> ExtractPrice(text) == Finite(value)
  {
    ParseIntOfDigits(digits, Unspecified);
  }

  lemma DigitsOfJoin(a: string, b: string, t: string, da: string, db: string)
    requires t == a + b && DigitsOnly(a) == da && DigitsOnly(b) == db
    ensures DigitsOnly(t) == da + db
  {
    DigitsOnlyAppend(a, b);
  }

  /** The values of the digit runs in the catalog's prices. */
  lemma CatalogDigitValues()
    ensures RadixValue("25", 10) == 25 && RadixValue("95", 10) == 95
    ensures RadixValue("7", 10) == 7 && RadixValue("12", 10) == 12 && RadixValue("15", 10) == 15
  {
  }

  lemma ThousandsValue()
    ensures RadixValue("85000", 10) == 85000
  {
    assert ShowNat(85000) == "85000";
    RadixValueShowNat(85000);
  }

  lemma FractionalCroreLeadDigits()
    ensures DigitsOnly("\U{20B9} 2.5") == "25"
  {
  }

  lemma FractionalCroreUnit(t: string)
    requires t == "\U{20B9} 2.5" + " Cr"
    ensures IsCrore(t)
  {
    CrSuffixIsCrore("\U{20B9} 2.5");
  }

  /** "\U{20B9} 2.5 Cr" (listing 1) compares as 2500: the decimal point is dropped. */
  lemma FractionalCrorePrice(t: string)
    requires t == "\U{20B9} 2.5" + " Cr"
    ensures ExtractPrice(t) == Finite(2500)
  {
    FractionalCroreLeadDigits();
    assert DigitsOnly(" Cr") == "";
    DigitsOfJoin("\U{20B9} 2.5", " Cr", t, "25", "");
    assert "25" + "" == "25";
    FractionalCroreUnit(t);
    CatalogDigitValues();
    PriceExample(t, "25", 25);
  }

  lemma LakhDigits()
    ensures DigitsOnly("\U{20B9} 95 Lakhs") == "95"
  {
  }

  lemma LakhUnit()
    ensures !IsCrore("\U{20B9} 95 Lakhs")
  {
    NoLetterCNotCrore("\U{20B9} 95 Lakhs");
  }

  /** "\U{20B9} 95 Lakhs" (listing 6) compares as 95. */
  lemma LakhPrice()
    ensures ExtractPrice("\U{20B9} 95 Lakhs") == Finite(95)
  {
    LakhDigits();
    LakhUnit();
    CatalogDigitValues();
    PriceExample("\U{20B9} 95 Lakhs", "95", 95);
  }

  lemma MonthlyLeadDigits()
    ensures DigitsOnly("\U{20B9} 85,") == "85"
  {
  }

  lemma MonthlyTailDigits()
    ensures DigitsOnly("000/month") == "000"
  {
  }

  lemma MonthlyDigits(t: string)
    requires t == "\U{20B9} 85," + "000/month"
    ensures DigitsOnly(t) == "85000"
  {
    MonthlyLeadDigits();
    MonthlyTailDigits();
    DigitsOfJoin("\U{20B9} 85,", "000/month", t, "85", "000");
    ThousandsJoin();
  }

  lemma ThousandsJoin()
    ensures "85" + "000" == "85000"
  {
    var j := "85" + "000";
    assert |j| == 5 && j[0] == '8' && j[1] == '5' && j[2] == '0' && j[3] == '0' && j[4] == '0';
  }

  lemma MonthlyUnit(t: string)
    requires t == "\U{20B9} 85," + "000/month"
    ensures !IsCrore(t)
  {
    NoLetterCNotCrore(t);
  }

  /** "\U{20B9} 85,000/month" (listing 2) compares as 85000: a monthly rent is read as a
      plain number, with no unit conversion. */
  lemma MonthlyRentPrice(t: string)
    requires t == "\U{20B9} 85," + "000/month"
    ensures ExtractPrice(t) == Finite(85000)
  {
    MonthlyDigits(t);
    MonthlyUnit(t);
    ThousandsValue();
    PriceExample(t, "85000", 85000);
  }

  // ---------------------------------------------------------------------------
  // The Buy filter on the catalog

  /** The filters after pressing "Buy" in a freshly loaded panel. */
  const BuyFilters: Filters := Filters("", "", 0, Buy)

  lemma BuyClickFilters()
    ensures Merge(InitialFilters, TypeClick(Buy)) == BuyFilters
  {
  }

  /** Under the Buy filter a listing whose price text has a digit is shown exactly when it is
      for sale. */
  lemma BuyKeeps(p: Property, i: nat)
    requires i < |p.price| && IsDigit(p.price[i])
    ensures Keep(BuyFilters, p) <==> p.kind == ForSale
  {
    var price := ExtractPrice(p.price);
    assert price.Finite?;
    assert MinBound(BuyFilters.priceMin) == Finite(0) && MaxBound(BuyFilters.priceMax) == PosInfinity;
    assert PriceMatch(price, Finite(0), PosInfinity);
    assert BedsMatch(BuyFilters, p);
  }

  /** One more element of the prefix. */
  lemma FilterPrefixStep<T>(s: seq<T>, k: nat, p: T -> bool)
    requires k < |s|
    ensures Filter(s[..k + 1], p) == Filter(s[..k], p) + (if p(s[k]) then [s[k]] else [])
  {
    assert s[..k + 1] == s[..k] + [s[k]];
    FilterSnoc(s[..k], s[k], p);
  }

  /** Filtering eight elements of which the 1st, 3rd, 5th, 6th and 8th pass. */
  lemma FilterOfEight<T>(a: T, b: T, c: T, d: T, e: T, f: T, g: T, h: T, p: T -> bool)
    requires p(a) && !p(b) && p(c) && !p(d) && p(e) && p(f) && !p(g) && p(h)
    ensures Filter([a, b, c, d, e, f, g, h], p) == [a, c, e, f, h]
  {
    var s := [a, b, c, d, e, f, g, h];
    assert s[..0] == [];
    FilterPrefixStep(s, 0, p);
    FilterPrefixStep(s, 1, p);
    assert Filter(s[..2], p) == [s[0]];
    FilterPrefixStep(s, 2, p);
    FilterPrefixStep(s, 3, p);
    assert Filter(s[..4], p) == [s[0], s[2]];
    FilterPrefixStep(s, 4, p);
    FilterPrefixStep(s, 5, p);
    assert Filter(s[..6], p) == [s[0], s[2], s[4], s[5]];
    FilterPrefixStep(s, 6, p);
    FilterPrefixStep(s, 7, p);
    assert s[..8] == s;
  }

  /** Filtering five elements of which only the 1st and the 3rd pass. */
  lemma FilterOfFive<T>(s: seq<T>, p: T -> bool)
    requires |s| == 5
    requires p(s[0]) && !p(s[1]) && p(s[2]) && !p(s[3]) && !p(s[4])
    ensures Filter(s, p) == [s[0], s[2]]
  {
    assert s[..0] == [];
    FilterPrefixStep(s, 0, p);
    FilterPrefixStep(s, 1, p);
    FilterPrefixStep(s, 2, p);
    assert Filter(s[..3], p) == [s[0], s[2]];
    FilterPrefixStep(s, 3, p);
    FilterPrefixStep(s, 4, p);
    assert s[..5] == s;
  }

  /** Filtering five elements of which all but the 1st and the 3rd pass. */
  lemma FilterOfFiveRest<T>(s: seq<T>, p: T -> bool)
    requires |s| == 5
    requires !p(s[0]) && p(s[1]) && !p(s[2]) && p(s[3]) && p(s[4])
    ensures Filter(s, p) == [s[1], s[3], s[4]]
  {
    assert s[..0] == [];
    FilterPrefixStep(s, 0, p);
    FilterPrefixStep(s, 1, p);
    FilterPrefixStep(s, 2, p);
    assert Filter(s[..3], p) == [s[1]];
    FilterPrefixStep(s, 3, p);
    FilterPrefixStep(s, 4, p);
    assert s[..5] == s;
  }

  /** Eight listings of which the 1st, 3rd, 5th, 6th and 8th pass and only the 1st and the 5th
      are featured are shown as the 1st and 5th, then the 3rd, 6th and 8th. */
  lemma KeptInPattern(l1: Property, l2: Property, l3: Property, l4: Property,
                      l5: Property, l6: Property, l7: Property, l8: Property, keep: Property -> bool)
    requires keep(l1) && !keep(l2) && keep(l3) && !keep(l4)
    requires keep(l5) && keep(l6) && !keep(l7) && keep(l8)
    requires IsFeatured(l1) && !IsFeatured(l3) && IsFeatured(l5) && !IsFeatured(l6) && !IsFeatured(l8)
    ensures SortFeatured(Filter([l1, l2, l3, l4, l5, l6, l7, l8], keep)) == [l1, l5, l3, l6, l8]
  {
    FilterOfEight(l1, l2, l3, l4, l5, l6, l7, l8, keep);
    SortedPattern(Filter([l1, l2, l3, l4, l5, l6, l7, l8], keep));
  }

  /** The same pattern for the listings a set of filters keeps. */
  lemma ShownInPattern(l1: Property, l2: Property, l3: Property, l4: Property,
                       l5: Property, l6: Property, l7: Property, l8: Property, f: Filters)
    requires Keep(f, l1) && !Keep(f, l2) && Keep(f, l3) && !Keep(f, l4)
    requires Keep(f, l5) && Keep(f, l6) && !Keep(f, l7) && Keep(f, l8)
    requires IsFeatured(l1) && !IsFeatured(l3) && IsFeatured(l5) && !IsFeatured(l6) && !IsFeatured(l8)
    ensures FilteredProperties([l1, l2, l3, l4, l5, l6, l7, l8], f) == [l1, l5, l3, l6, l8]
  {
    KeptInPattern(l1, l2, l3, l4, l5, l6, l7, l8, (p: Property) => Keep(f, p));
  }

  /** Five listings of which only the 1st and 3rd are featured sort with those two first. */
  lemma SortedPattern(r: seq<Property>)
    requires |r| == 5
    requires IsFeatured(r[0]) && !IsFeatured(r[1]) && IsFeatured(r[2]) && !IsFeatured(r[3]) && !IsFeatured(r[4])
    ensures SortFeatured(r) == [r[0], r[2], r[1], r[3], r[4]]
  {
    assert FeaturedOnly(r) == [r[0], r[2]] by {
      FilterOfFive(r, IsFeatured);
    }
    assert NotFeatured(r) == [r[1], r[3], r[4]] by {
      FilterOfFiveRest(r, NotFeaturedListing);
    }
    SortFeaturedPartition(r);
  }

  /** A listing for rent is never shown under the Buy filter. */
  lemma RentNotBought(p: Property)
    requires p.kind == ForRent
    ensures !Keep(BuyFilters, p)
  {
  }

  lemma ListingOneBought()
    ensures Keep(BuyFilters, SiteContent.Listing1) && IsFeatured(SiteContent.Listing1)
  {
    var p := SiteContent.Listing1;
    assert p.price[2] == '2';
    BuyKeeps(p, 2);
  }

  lemma ListingThreeBought()
    ensures Keep(BuyFilters, SiteContent.Listing3) && !IsFeatured(SiteContent.Listing3)
  {
    var p := SiteContent.Listing3;
    assert p.price[2] == '7';
    BuyKeeps(p, 2);
  }

  lemma ListingFiveBought()
    ensures Keep(BuyFilters, SiteContent.Listing5) && IsFeatured(SiteContent.Listing5)
  {
    var p := SiteContent.Listing5;
    assert p.price[2] == '1';
    BuyKeeps(p, 2);
  }

  lemma ListingSixBought()
    ensures Keep(BuyFilters, SiteContent.Listing6) && !IsFeatured(SiteContent.Listing6)
  {
    var p := SiteContent.Listing6;
    assert p.price[2] == '9';
    BuyKeeps(p, 2);
  }

  lemma ListingEightBought()
    ensures Keep(BuyFilters, SiteContent.Listing8) && !IsFeatured(SiteContent.Listing8)
  {
    var p := SiteContent.Listing8;
    assert p.price[2] == '1';
    BuyKeeps(p, 2);
  }

  /** The listings for rent (2, 4 and 7) are dropped. */
  lemma RentalsNotBought()
    ensures !Keep(BuyFilters, SiteContent.Listing2) && !Keep(BuyFilters, SiteContent.Listing4)
    ensures !Keep(BuyFilters, SiteContent.Listing7)
  {
    RentNotBought(SiteContent.Listing2);
    RentNotBought(SiteContent.Listing4);
    RentNotBought(SiteContent.Listing7);
  }

  /** Pressing "Buy" shows the five listings for sale, featured ones first: ids 1 and 5, then
      3, 6 and 8. */
  lemma BuyFilterOnCatalog()
    ensures FilteredProperties(SiteContent.Properties, BuyFilters) ==
      [SiteContent.Listing1, SiteContent.Listing5, SiteContent.Listing3, SiteContent.Listing6, SiteContent.Listing8]
  {
    ListingOneBought();
    ListingThreeBought();
    ListingFiveBought();
    ListingSixBought();
    ListingEightBought();
    RentalsNotBought();
    ShownInPattern(SiteContent.Listing1, SiteContent.Listing2, SiteContent.Listing3, SiteContent.Listing4,
                   SiteContent.Listing5, SiteContent.Listing6, SiteContent.Listing7, SiteContent.Listing8, BuyFilters);
  }
}
