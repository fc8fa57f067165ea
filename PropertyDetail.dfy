/** The listing detail page (components/PropertyDetail.tsx): the similar-listings rule, the
    share link, the highlight badges, and the enquiry form's state. */
module PropertyDetail {
  import opened Wrappers
  import opened Seqs
  import opened Ecma
  import opened Types
  import SiteContent

  // ---------------------------------------------------------------------------
  // Similar listings

  /** The `filter` test: another listing (by id) in exactly the same location string. */
  predicate SimilarTo(shown: Property, p: Property) {
    p.id != shown.id && p.location == shown.location
  }

  /** `catalog.filter(p => p.id !== property.id && p.location === property.location).slice(0, 4)`. */
  function SimilarProperties(catalog: seq<Property>, shown: Property): (r: seq<Property>)
    ensures |r| <= 4
    ensures forall i :: 0 <= i < |r| ==> SimilarTo(shown, r[i])
  {
    Take(Filter(catalog, (p: Property) => SimilarTo(shown, p)), 4)
  }

  /** At most four listings, none with the shown listing's id, all in its location, in catalog
      order (the first ones the filter keeps); when there are at most four candidates, every one
      of them is listed, and otherwise exactly the first four. */
  lemma SimilarPropertiesSpec(catalog: seq<Property>, shown: Property)
    ensures |SimilarProperties(catalog, shown)| <= 4
    ensures var kept := Filter(catalog, (p: Property) => SimilarTo(shown, p));
      |SimilarProperties(catalog, shown)| == if |kept| < 4 then |kept| else 4
    ensures forall i :: 0 <= i < |SimilarProperties(catalog, shown)| ==>
      SimilarProperties(catalog, shown)[i].id != shown.id &&
      SimilarProperties(catalog, shown)[i].location == shown.location
    ensures SimilarProperties(catalog, shown) <= Filter(catalog, (p: Property) => SimilarTo(shown, p))
    ensures forall p :: p in SimilarProperties(catalog, shown) ==> p in catalog
    ensures |Filter(catalog, (p: Property) => SimilarTo(shown, p))| <= 4 ==>
      forall p :: p in catalog && SimilarTo(shown, p) ==> p in SimilarProperties(catalog, shown)
  {
    var kept := Filter(catalog, (p: Property) => SimilarTo(shown, p));
    forall p | p in SimilarProperties(catalog, shown)
      ensures p in catalog
    {
      assert p in kept;
      FilterMembers(catalog, (p: Property) => SimilarTo(shown, p), p);
    }
    if |kept| <= 4 {
      forall p | p in catalog && SimilarTo(shown, p)
        ensures p in SimilarProperties(catalog, shown)
      {
        FilterMembers(catalog, (p: Property) => SimilarTo(shown, p), p);
      }
    }
  }

  /** `similarProperties.slice(0, 2)`: the cards actually drawn. */
  function RenderedSimilar(similar: seq<Property>): (cards: seq<Property>)
    ensures |cards| <= 2 && cards <= similar
    ensures |cards| == if |similar| < 2 then |similar| else 2
  {
    Take(similar, 2)
  }

  /** Filtering eight listings of which only the second and the last pass. */
  lemma FilterSecondAndLast(ps: seq<Property>, f: Property -> bool)
    requires |ps| == 8 && f(ps[1]) && f(ps[7])
    requires !f(ps[0]) && !f(ps[2]) && !f(ps[3]) && !f(ps[4]) && !f(ps[5]) && !f(ps[6])
    ensures Filter(ps, f) == [ps[1], ps[7]]
  {
    assert ps == ps[..2] + ps[2..7] + ps[7..];
    FilterAppend(ps[..2] + ps[2..7], ps[7..], f);
    FilterAppend(ps[..2], ps[2..7], f);
    assert Filter(ps[..2], f) == [ps[1]];
    FilterIdentity(ps[2..7], f);
    assert Filter(ps[7..], f) == [ps[7]];
  }

  /** Listing 5 (Mumbai) has listings 2 and 8 as its similar listings, and both are drawn. */
  lemma SimilarToListingFive()
    ensures SiteContent.Listing5.id == 5 && SiteContent.Listing2.id == 2 && SiteContent.Listing8.id == 8
    ensures SimilarProperties(SiteContent.Properties, SiteContent.Listing5) == [SiteContent.Listing2, SiteContent.Listing8]
    ensures RenderedSimilar(SimilarProperties(SiteContent.Properties, SiteContent.Listing5)) ==
      [SiteContent.Listing2, SiteContent.Listing8]
  {
    FilterSecondAndLast(SiteContent.Properties, (p: Property) => SimilarTo(SiteContent.Listing5, p));
  }

  // ---------------------------------------------------------------------------
  // Share link

  /** `${window.location.href.split('?')[0]}?property=${property.id}`. */
  function PropertyUrl(href: string, id: int): (url: string)
    ensures BeforeFirst(href, '?') <= url
  {
    BeforeFirst(href, '?') + "?property=" + ShowInt(id)
  }

  /** The link keeps the page address up to its query string: splitting it at its first '?'
      gives that address back. */
  lemma PropertyUrlBase(href: string, id: int)
    ensures BeforeFirst(PropertyUrl(href, id), '?') == BeforeFirst(href, '?')
  {
    var base := BeforeFirst(href, '?');
    assert PropertyUrl(href, id) == base + ['?'] + ("property=" + ShowInt(id));
    BeforeFirstOfJoin(base, '?', "property=" + ShowInt(id));
  }

  /** After the address comes `?property=` and then the id, which `parseInt` reads back. */
  lemma PropertyUrlQuery(href: string, id: int)
    ensures var n := |BeforeFirst(href, '?')|;
      |PropertyUrl(href, id)| > n + 10 &&
      PropertyUrl(href, id)[n..n + 10] == "?property=" &&
      ParseInt(PropertyUrl(href, id)[n + 10..], Decimal) == Finite(id)
  {
    var base := BeforeFirst(href, '?');
    var url := PropertyUrl(href, id);
    assert url[|base|..|base| + 10] == "?property=";
    assert url[|base| + 10..] == ShowInt(id);
    ParseIntShowInt(id, Decimal);
  }

  /** Sharing from a shared link only replaces the id. */
  lemma PropertyUrlReshare(href: string, id: int, id': int)
    ensures PropertyUrl(PropertyUrl(href, id), id') == PropertyUrl(href, id')
  {
    PropertyUrlBase(href, id);
  }

  // ---------------------------------------------------------------------------
  // Badges

  /** The three highlight badges; the loan badge carries its text. */
  datatype Badges = Badges(reraApproved: bool, loan: Option<string>, authorityVerified: bool)

  /** `isReraApproved && ...`, `loanAvailability && loanAvailability !== 'Not Applicable' && ...`,
      `isAuthorityVerified && ...`. */
  function BadgesOf(p: Property): (b: Badges)
    ensures b.reraApproved <==> p.isReraApproved == Some(true)
    ensures b.authorityVerified <==> p.isAuthorityVerified == Some(true)
    ensures b.loan.Some? ==> b.loan == p.loanAvailability
    ensures b.loan.None? <==>
      (p.loanAvailability == None || p.loanAvailability == Some("") || p.loanAvailability == Some("Not Applicable"))
  {
    Badges(
      TruthyFlag(p.isReraApproved),
      if TruthyText(p.loanAvailability) && p.loanAvailability.value != "Not Applicable" then p.loanAvailability else None,
      TruthyFlag(p.isAuthorityVerified))
  }

  // ---------------------------------------------------------------------------
  // The page

  /** What the page shows for one listing. */
  datatype DetailView = DetailView(
    property: Property,
    badges: Badges,
    similar: seq<Property>,
    similarSectionShown: bool,
    similarCards: seq<Property>,
    propertyUrl: string)

  /** `PropertyDetail`: nothing without a listing. `catalog` stands for `SITE_CONTENT.properties`
      and `href` for `window.location.href`. */
  function Render(catalog: seq<Property>, property: Option<Property>, href: string): (v: Option<DetailView>)
    ensures v.None? <==> property.None?
    ensures v.Some? ==> v.value.property == property.value
    ensures v.Some? ==> (v.value.similarSectionShown <==> |v.value.similar| > 0)
    ensures v.Some? ==> v.value.similarCards <= v.value.similar && |v.value.similarCards| <= 2
    ensures v.Some? ==> BeforeFirst(href, '?') <= v.value.propertyUrl
    ensures v.Some? ==>
      && v.value.similar == SimilarProperties(catalog, property.value)
      && v.value.badges == BadgesOf(property.value)
      && v.value.similarCards == RenderedSimilar(v.value.similar)
      && v.value.propertyUrl == PropertyUrl(href, property.value.id)
  {
    match property
    case None => None
    case Some(p) =>
      var similar := SimilarProperties(catalog, p);
      Some(DetailView(p, BadgesOf(p), similar, |similar| > 0, RenderedSimilar(similar), PropertyUrl(href, p.id)))
  }

  // ---------------------------------------------------------------------------
  // Enquiry form

  /** The message the form starts with. */
  function EnquiryTemplate(title: string): (m: string)
    ensures Includes(m, "\"" + title + "\"")
  {
    var lead := "I am interested in ";
    var m := lead + "\"" + title + "\"" + ". Please provide more details.";
    OccursAtIncludes(m, "\"" + title + "\"", |lead|);
    m
  }

  class EnquiryForm {
    const propertyId: int
    var name: string
    var email: string
    var phone: string
    var message: string
    var isSubmitted: bool

    constructor (property: Property)
      ensures propertyId == property.id
      ensures name == "" && email == "" && phone == ""
      ensures message == EnquiryTemplate(property.title)
      ensures !isSubmitted
    {
      propertyId := property.id;
      name := "";
      email := "";
      phone := "";
      message := EnquiryTemplate(property.title);
      isSubmitted := false;
    }

    /** The name input's `onChange`. */
    method SetName(value: string)
      modifies this
      ensures name == value && email == old(email) && phone == old(phone)
      ensures message == old(message) && isSubmitted == old(isSubmitted)
    {
      name := value;
    }

    /** The email input's `onChange`. */
    method SetEmail(value: string)
      modifies this
      ensures email == value && name == old(name) && phone == old(phone)
      ensures message == old(message) && isSubmitted == old(isSubmitted)
    {
      email := value;
    }

    /** The phone input's `onChange`. */
    method SetPhone(value: string)
      modifies this
      ensures phone == value && name == old(name) && email == old(email)
      ensures message == old(message) && isSubmitted == old(isSubmitted)
    {
      phone := value;
    }

    /** The message box's `onChange`. */
    method SetMessage(value: string)
      modifies this
      ensures message == value && name == old(name) && email == old(email)
      ensures phone == old(phone) && isSubmitted == old(isSubmitted)
    {
      message := value;
    }

    /** `handleSubmit`: the form switches to its thank-you state; the entered data stays. */
    method Submit()
      modifies this
      ensures isSubmitted
      ensures name == old(name) && email == old(email) && phone == old(phone) && message == old(message)
    {
      isSubmitted := true;
    }
  }
}
