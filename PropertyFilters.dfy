/** The filter panel (components/PropertyFilters.tsx): the criteria record, the fixed option
    sets, and the partial updates that the panel's inputs and buttons emit. */
module PropertyFilters {
  import opened Wrappers

  /** `Filters['type']`. */
  datatype FilterType = All | Buy | Rent

  /** `Filters`: the bounds are the raw text of the two number inputs. */
  datatype Filters = Filters(priceMin: string, priceMax: string, bedrooms: int, filterType: FilterType)

  /** `Partial<Filters>`: which fields an update supplies. */
  datatype FilterPatch = FilterPatch(
    priceMin: Option<string>,
    priceMax: Option<string>,
    bedrooms: Option<int>,
    filterType: Option<FilterType>)

  /** The `name` attribute of the two price inputs. */
  datatype PriceField = PriceMinField | PriceMaxField

  datatype BedroomOption = BedroomOption(caption: string, value: int)

  /** `bedroomOptions`. */
  const BedroomOptions: seq<BedroomOption> := [
    BedroomOption("Any", 0),
    BedroomOption("1+", 1),
    BedroomOption("2+", 2),
    BedroomOption("3+", 3),
    BedroomOption("4+", 4)
  ]

  /** `typeOptions`. */
  const TypeOptions: seq<FilterType> := [All, Buy, Rent]

  function FilterTypeLabel(t: FilterType): (text: string) {
    match t
    case All => "All"
    case Buy => "Buy"
    case Rent => "Rent"
  }

  /** `handleInputChange`: `{ [e.target.name]: e.target.value }`, one price field only. */
  function InputChange(field: PriceField, value: string): (patch: FilterPatch)
    ensures patch.bedrooms.None? && patch.filterType.None?
    ensures patch.priceMin == (if field == PriceMinField then Some(value) else None)
    ensures patch.priceMax == (if field == PriceMaxField then Some(value) else None)
  {
    match field
    case PriceMinField => FilterPatch(Some(value), None, None, None)
    case PriceMaxField => FilterPatch(None, Some(value), None, None)
  }

  /** A bedroom button: `{ bedrooms: option.value }`. */
  function BedroomClick(option: BedroomOption): (patch: FilterPatch)
    ensures patch == FilterPatch(None, None, Some(option.value), None)
  {
    FilterPatch(None, None, Some(option.value), None)
  }

  /** A type button: `{ type }`. */
  function TypeClick(t: FilterType): (patch: FilterPatch)
    ensures patch == FilterPatch(None, None, None, Some(t))
  {
    FilterPatch(None, None, None, Some(t))
  }

  /** A bedroom button is highlighted when its value is the current `bedrooms`. */
  predicate BedroomHighlighted(f: Filters, option: BedroomOption) {
    f.bedrooms == option.value
  }

  /** A type button is highlighted when it is the current `type`. */
  predicate TypeHighlighted(f: Filters, t: FilterType) {
    f.filterType == t
  }

  /** The bedroom options run 0 to 4 in order and only 0 is labelled "Any". */
  lemma BedroomOptionsShape()
    ensures |BedroomOptions| == 5
    ensures forall i :: 0 <= i < 5 ==> BedroomOptions[i].value == i
    ensures forall i :: 0 <= i < 5 ==> (BedroomOptions[i].caption == "Any" <==> i == 0)
  {
  }

  /** The type options are All, Buy, Rent, each once. */
  lemma TypeOptionsShape()
    ensures TypeOptions == [All, Buy, Rent]
    ensures forall t: FilterType :: t in TypeOptions
  {
    forall t: FilterType
      ensures t in TypeOptions
    {
      assert t == TypeOptions[0] || t == TypeOptions[1] || t == TypeOptions[2];
    }
  }

  /** At most one bedroom button is highlighted, and exactly one when `bedrooms` is 0 to 4. */
  lemma {:induction false} OneBedroomHighlighted(f: Filters)
    ensures forall i, j :: 0 <= i < j < |BedroomOptions| ==>
      !(BedroomHighlighted(f, BedroomOptions[i]) && BedroomHighlighted(f, BedroomOptions[j]))
    ensures 0 <= f.bedrooms <= 4 ==> BedroomHighlighted(f, BedroomOptions[f.bedrooms])
  {
    BedroomOptionsShape();
  }

  /** Exactly one type button is highlighted. */
  lemma OneTypeHighlighted(f: Filters)
    ensures exists i :: 0 <= i < |TypeOptions| && TypeHighlighted(f, TypeOptions[i])
    ensures forall i, j :: 0 <= i < j < |TypeOptions| ==>
      !(TypeHighlighted(f, TypeOptions[i]) && TypeHighlighted(f, TypeOptions[j]))
  {
    match f.filterType
    case All => assert TypeHighlighted(f, TypeOptions[0]);
    case Buy => assert TypeHighlighted(f, TypeOptions[1]);
    case Rent => assert TypeHighlighted(f, TypeOptions[2]);
  }
}
