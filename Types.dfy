/** The record shapes shared by the components (types.ts). String unions become enumerations;
    each has its label function and a parser that inverts it. */
module Types {
  import opened Wrappers

  /** The header tab. */
  datatype ActiveTab = BuyTab | RentTab | SellTab

  datatype Coordinates = Coordinates(latitude: real, longitude: real)

  datatype Agent = Agent(name: string, avatarUrl: string)

  /** `Property.type`. */
  datatype ListingType = ForSale | ForRent

  /** `Property.status`. */
  datatype Status = ReadyToMove | UnderConstruction

  datatype LatLng = LatLng(lat: real, lng: real)

  /** One catalog listing. The optional TypeScript fields are `Option`s. */
  datatype Property = Property(
    id: int,
    title: string,
    kind: ListingType,
    price: string,
    location: string,
    beds: nat,
    baths: nat,
    sqft: nat,
    status: Status,
    isVerified: bool,
    isFeatured: Option<bool>,
    agent: Agent,
    imageUrls: seq<string>,
    coordinates: LatLng,
    amenities: seq<string>,
    description: string,
    isReraApproved: Option<bool>,
    loanAvailability: Option<string>,
    isAuthorityVerified: Option<bool>)

  /** `ChatMessage.role`. */
  datatype Role = User | Model

  /** `GroundingSource.type`. */
  datatype SourceType = Web | Maps

  datatype GroundingSource = GroundingSource(title: string, uri: string, sourceType: SourceType)

  datatype ChatMessage = ChatMessage(id: string, role: Role, text: string, sources: Option<seq<GroundingSource>>)

  /** `p.isFeatured ? 1 : 0` counts a listing as featured only when the flag is present and true. */
  predicate IsFeatured(p: Property) {
    TruthyFlag(p.isFeatured)
  }

  function ListingTypeLabel(k: ListingType): (s: string)
    ensures s == "For Sale" || s == "For Rent"
  {
    match k
    case ForSale => "For Sale"
    case ForRent => "For Rent"
  }

  function ParseListingType(s: string): (k: Option<ListingType>)
    ensures k.Some? <==> s == "For Sale" || s == "For Rent"
  {
    if s == "For Sale" then Some(ForSale) else if s == "For Rent" then Some(ForRent) else None
  }

  lemma ListingTypeRoundTrip(k: ListingType)
    ensures ParseListingType(ListingTypeLabel(k)) == Some(k)
  {
  }

  function StatusLabel(st: Status): (s: string)
    ensures s == "Ready to move" || s == "Under Construction"
  {
    match st
    case ReadyToMove => "Ready to move"
    case UnderConstruction => "Under Construction"
  }

  function ParseStatus(s: string): (st: Option<Status>)
    ensures st.Some? <==> s == "Ready to move" || s == "Under Construction"
  {
    if s == "Ready to move" then Some(ReadyToMove)
    else if s == "Under Construction" then Some(UnderConstruction)
    else None
  }

  lemma StatusRoundTrip(st: Status)
    ensures ParseStatus(StatusLabel(st)) == Some(st)
  {
  }

  function SourceTypeLabel(t: SourceType): (s: string)
    ensures s == "web" || s == "maps"
  {
    match t
    case Web => "web"
    case Maps => "maps"
  }

  function ParseSourceType(s: string): (t: Option<SourceType>)
    ensures t.Some? <==> s == "web" || s == "maps"
  {
    if s == "web" then Some(Web) else if s == "maps" then Some(Maps) else None
  }

  lemma SourceTypeRoundTrip(t: SourceType)
    ensures ParseSourceType(SourceTypeLabel(t)) == Some(t)
  {
  }

  function RoleLabel(r: Role): (s: string)
    ensures s == "user" || s == "model"
  {
    match r
    case User => "user"
    case Model => "model"
  }

  function ParseRole(s: string): (r: Option<Role>)
    ensures r.Some? <==> s == "user" || s == "model"
  {
    if s == "user" then Some(User) else if s == "model" then Some(Model) else None
  }

  lemma RoleRoundTrip(r: Role)
    ensures ParseRole(RoleLabel(r)) == Some(r)
  {
  }

  function ActiveTabLabel(t: ActiveTab): (s: string)
    ensures s == "Buy" || s == "Rent" || s == "Sell"
  {
    match t
    case BuyTab => "Buy"
    case RentTab => "Rent"
    case SellTab => "Sell"
  }

  function ParseActiveTab(s: string): (t: Option<ActiveTab>)
    ensures t.Some? <==> s == "Buy" || s == "Rent" || s == "Sell"
  {
    if s == "Buy" then Some(BuyTab) else if s == "Rent" then Some(RentTab)
    else if s == "Sell" then Some(SellTab) else None
  }

  lemma ActiveTabRoundTrip(t: ActiveTab)
    ensures ParseActiveTab(ActiveTabLabel(t)) == Some(t)
  {
  }

  /** Catalog identifiers are unique within one snapshot. */
  predicate UniqueIds(ps: seq<Property>) {
    forall i, j :: 0 <= i < |ps| && 0 <= j < |ps| && ps[i].id == ps[j].id ==> i == j
  }
}
