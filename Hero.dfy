/** The hero banner (components/Hero.tsx): the rotating slide index, the city-prefix area
    suggestions under the search box, and the AI search suggestion it requests on submit. */
module Hero {
  import opened Wrappers
  import opened Seqs
  import opened Ecma
  import opened GeminiService
  import SiteContent

  /** One row of `searchSuggestions`: a lower-case city key and its areas. */
  type CityAreas = (string, seq<string>)

  /** `Object.keys(searchSuggestions).find(city => city.startsWith(lowerQuery))`, as a position
      in the table. */
  function FindCity(table: seq<CityAreas>, lowerQuery: string): (k: Option<nat>)
    ensures k.Some? ==> k.value < |table| && StartsWith(table[k.value].0, lowerQuery)
    ensures k.Some? ==> forall j :: 0 <= j < k.value ==> !StartsWith(table[j].0, lowerQuery)
    ensures k.None? <==> forall j :: 0 <= j < |table| ==> !StartsWith(table[j].0, lowerQuery)
  {
    FindIndex(table, (row: CityAreas) => StartsWith(row.0, lowerQuery))
  }

  /** `city.charAt(0).toUpperCase() + city.slice(1)`. */
  function Capitalize(city: string): (r: string)
    ensures |r| == |city|
    ensures city != [] ==> r[0] == UpperChar(city[0]) && r[1..] == city[1..]
  {
    if city == [] then [] else [UpperChar(city[0])] + city[1..]
  }

  /** `citySuggestions.map(s => `${s}, ${Capitalize(cityKey)}`)`. */
  function AreaLabels(areas: seq<string>, city: string): (labels: seq<string>)
    ensures |labels| == |areas|
    ensures forall i :: 0 <= i < |areas| ==> labels[i] == areas[i] + ", " + Capitalize(city)
  {
    Map(areas, (a: string) => a + ", " + Capitalize(city))
  }

  /** The suggestion list a query produces, if any: only a lower-cased query longer than two
      characters is looked up, and then the first city key it is a prefix of decides. */
  function Lookup(table: seq<CityAreas>, query: string): (r: Option<seq<string>>)
    ensures |query| <= 2 ==> r.None?
    ensures r.Some? <==> |query| > 2 && FindCity(table, ToLowerCase(query)).Some?
    ensures r.Some? ==> var k := FindCity(table, ToLowerCase(query)).value;
      r.value == AreaLabels(table[k].1, table[k].0)
  {
    var lowerQuery := ToLowerCase(query);
    if |lowerQuery| > 2 then
      match FindCity(table, lowerQuery)
      case Some(k) => Some(AreaLabels(table[k].1, table[k].0))
      case None => None
    else None
  }

  /** A query whose lower-case form starts the first city key lists that city's areas. */
  lemma FirstCityWins(table: seq<CityAreas>, query: string)
    requires |query| > 2 && table != [] && StartsWith(table[0].0, ToLowerCase(query))
    ensures Lookup(table, query) == Some(AreaLabels(table[0].1, table[0].0))
  {
  }

  /** Labelling the Bangalore areas appends ", Bangalore" to each. */
  lemma BangaloreLabels(areas: seq<string>)
    ensures AreaLabels(areas, "bangalore") == Map(areas, (a: string) => a + ", Bangalore")
  {
    assert Capitalize("bangalore") == "Bangalore";
    assert forall i :: 0 <= i < |areas| ==>
      AreaLabels(areas, "bangalore")[i] == Map(areas, (a: string) => a + ", Bangalore")[i];
  }

  /** "ban" picks the first city, Bangalore: its areas, in table order, each followed by
      ", Bangalore" ("Koramangala, Bangalore" first). */
  lemma BanSuggestsBangalore()
    ensures SiteContent.SearchSuggestions[0].0 == "bangalore"
    ensures Lookup(SiteContent.SearchSuggestions, "ban") ==
      Some(Map(SiteContent.SearchSuggestions[0].1, (a: string) => a + ", Bangalore"))
  {
    var table := SiteContent.SearchSuggestions;
    assert ToLowerCase("ban") == "ban";
    FirstCityWins(table, "ban");
    BangaloreLabels(table[0].1);
  }

  /** The query must be a prefix of the key, not the other way round: a query that extends a
      city name matches nothing. */
  lemma LongerThanKeyMatchesNothing(query: string)
    requires forall j :: 0 <= j < |SiteContent.SearchSuggestions| ==> |SiteContent.SearchSuggestions[j].0| < |query|
    ensures Lookup(SiteContent.SearchSuggestions, query).None?
  {
  }

  class HeroState {
    /** `SITE_CONTENT.hero.searchSuggestions`, the table the input is matched against. */
    const cityTable: seq<CityAreas>
    var currentSlideIndex: nat
    var searchQuery: string
    var suggestion: Option<Answer>
    var isSuggestionLoading: bool
    var areaSuggestions: seq<string>
    var isSuggestionsVisible: bool

    /** The slide index names a slide. */
    predicate Valid()
      reads this
    {
      currentSlideIndex < SiteContent.SlideCount
    }

    constructor ()
      ensures cityTable == SiteContent.SearchSuggestions
      ensures Valid()
      ensures currentSlideIndex == 0 && searchQuery == "" && suggestion == None
      ensures !isSuggestionLoading && areaSuggestions == [] && !isSuggestionsVisible
    {
      cityTable := SiteContent.SearchSuggestions;
      currentSlideIndex := 0;
      searchQuery := "";
      suggestion := None;
      isSuggestionLoading := false;
      areaSuggestions := [];
      isSuggestionsVisible := false;
    }

    /** One tick of the slide timer: the next slide, wrapping to the first. */
    method Tick()
      requires Valid()
      modifies this
      ensures Valid()
      ensures currentSlideIndex == (old(currentSlideIndex) + 1) % SiteContent.SlideCount
      ensures currentSlideIndex == if old(currentSlideIndex) + 1 == SiteContent.SlideCount then 0
                                   else old(currentSlideIndex) + 1
      ensures searchQuery == old(searchQuery) && suggestion == old(suggestion)
      ensures isSuggestionLoading == old(isSuggestionLoading) && areaSuggestions == old(areaSuggestions)
      ensures isSuggestionsVisible == old(isSuggestionsVisible)
    {
      currentSlideIndex := (currentSlideIndex + 1) % SiteContent.SlideCount;
    }

    /** `handleInputChange`: the query is always stored; the list is replaced and shown when
        the query matches a city, and otherwise only hidden, keeping the previous list. */
    method HandleInputChange(query: string)
      modifies this
      ensures searchQuery == query
      ensures isSuggestionsVisible <==> Lookup(cityTable, query).Some?
      ensures isSuggestionsVisible ==> areaSuggestions == Lookup(cityTable, query).value
      ensures !isSuggestionsVisible ==> areaSuggestions == old(areaSuggestions)
      ensures currentSlideIndex == old(currentSlideIndex) && suggestion == old(suggestion)
      ensures isSuggestionLoading == old(isSuggestionLoading)
    {
      searchQuery := query;
      var lowerQuery := ToLowerCase(query);
      if |lowerQuery| > 2 {
        var cityKey := FindCity(cityTable, lowerQuery);
        if cityKey.Some? {
          var row := cityTable[cityKey.value];
          areaSuggestions := AreaLabels(row.1, row.0);
          isSuggestionsVisible := true;
        } else {
          isSuggestionsVisible := false;
        }
      } else {
        isSuggestionsVisible := false;
      }
    }

    /** `handleSuggestionClick`. */
    method HandleSuggestionClick(picked: string)
      modifies this
      ensures searchQuery == picked && !isSuggestionsVisible
      ensures currentSlideIndex == old(currentSlideIndex) && suggestion == old(suggestion)
      ensures isSuggestionLoading == old(isSuggestionLoading) && areaSuggestions == old(areaSuggestions)
    {
      searchQuery := picked;
      isSuggestionsVisible := false;
    }

    /** The input's `onFocus`: re-shows a non-empty list. */
    method HandleFocus()
      modifies this
      ensures isSuggestionsVisible == (old(isSuggestionsVisible) || |areaSuggestions| > 0)
      ensures searchQuery == old(searchQuery) && areaSuggestions == old(areaSuggestions)
      ensures currentSlideIndex == old(currentSlideIndex) && suggestion == old(suggestion)
      ensures isSuggestionLoading == old(isSuggestionLoading)
    {
      if |areaSuggestions| > 0 {
        isSuggestionsVisible := true;
      }
    }

    /** The first half of `handleSearch`, up to the `await`: a blank query does nothing;
        otherwise the list is hidden, the old suggestion cleared and loading starts. */
    method HandleSearch() returns (requested: bool)
      modifies this
      ensures requested <==> Trim(old(searchQuery)) != ""
      ensures !requested ==>
        isSuggestionsVisible == old(isSuggestionsVisible) &&
        isSuggestionLoading == old(isSuggestionLoading) && suggestion == old(suggestion)
      ensures requested ==> !isSuggestionsVisible && isSuggestionLoading && suggestion == None
      ensures searchQuery == old(searchQuery) && areaSuggestions == old(areaSuggestions)
      ensures currentSlideIndex == old(currentSlideIndex)
    {
      if Trim(searchQuery) == "" {
        return false;
      }
      isSuggestionsVisible := false;
      isSuggestionLoading := true;
      suggestion := None;
      requested := true;
    }

    /** The second half of `handleSearch`: `getSmartSearchSuggestion` settles (`call` is the
        model call's outcome) and its answer is shown. */
    method SuggestionArrived(call: Call<GenerateResponse>)
      modifies this
      ensures suggestion == Some(SmartSuggestion(call)) && !isSuggestionLoading
      ensures searchQuery == old(searchQuery) && areaSuggestions == old(areaSuggestions)
      ensures currentSlideIndex == old(currentSlideIndex) && isSuggestionsVisible == old(isSuggestionsVisible)
    {
      suggestion := Some(SmartSuggestion(call));
      isSuggestionLoading := false;
    }

    /** `isSuggestionsVisible && areaSuggestions.length > 0`. */
    function DropdownShown(): (shown: bool)
      reads this
      ensures shown ==> |areaSuggestions| > 0
    {
      isSuggestionsVisible && |areaSuggestions| > 0
    }
  }

  /** A blank query never reaches the service: submitting whitespace leaves everything as it
      was. */
  method BlankSearchIsIgnored(h: HeroState, spaces: string)
    requires IsBlank(spaces)
    modifies h
    ensures h.searchQuery == spaces
    ensures h.suggestion == old(h.suggestion) && h.isSuggestionLoading == old(h.isSuggestionLoading)
  {
    h.HandleInputChange(spaces);
    TrimEmptyIffBlank(spaces);
    var requested := h.HandleSearch();
    assert !requested;
  }
}
