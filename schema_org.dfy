/**
 * The schema.org JSON-LD objects the site embeds: the organization, the local business, the
 * person, the web site, a product offer, a breadcrumb trail and a FAQ page. Constant keys
 * (`@context`, `@type` of nested objects) are implied by the constructors.
 */
module SchemaOrg {
  import opened Wrappers
  import opened Seqs
  import opened Types
  import opened SeoConfig

  /** `PostalAddress`; the person's address carries no region. */
  datatype PostalAddress = PostalAddress(locality: string, region: Option<string>, country: string)

  /** `Offer`, sold by the organization named `seller`. */
  datatype Offer = Offer(url: string, price: int, currency: string, availability: string, seller: string)

  /** `ListItem` of a breadcrumb trail. */
  datatype ListItem = ListItem(position: nat, name: string, item: string)

  /** `ContactPoint`: how to reach the shop, the area it serves and the languages it answers in. */
  datatype ContactPoint = ContactPoint(email: string, contactType: string, areaServed: string, availableLanguage: seq<string>)

  /** `GeoCoordinates` in degrees. */
  datatype GeoCoordinates = GeoCoordinates(latitude: real, longitude: real)

  /** `Question` with its accepted answer's text. */
  datatype Question = Question(name: string, answer: string)

  /** One JSON-LD object, by `@type`. */
  datatype Schema =
    | Organization(name: string, alternateName: string, url: string, logo: string, description: string,
        email: string, address: PostalAddress, sameAs: seq<string>, contactPoint: ContactPoint)
    | LocalBusiness(name: string, description: string, image: string, url: string, email: string,
        address: PostalAddress, geo: GeoCoordinates, openingHours: string, priceRange: string,
        areaServed: string, sameAs: seq<string>)
    | Person(name: string, alternateName: string, jobTitle: string, description: string, image: string,
        url: string, email: string, address: PostalAddress, sameAs: seq<string>)
    | WebSite(name: string, url: string, description: string, inLanguage: string, author: string,
        publisher: string, publisherLogo: string)
    | Product(name: string, description: string, image: string, brand: string, offer: Offer)
    | BreadcrumbList(itemListElement: seq<ListItem>)
    | FaqPage(mainEntity: seq<Question>)

  /** `filter(Boolean)` over links: an empty string is falsy. */
  predicate IsLink(s: string) {
    s != ""
  }

  /** The links of a `sameAs` list: the non-empty ones, in their order. */
  function SameAs(links: seq<string>): (r: seq<string>)
    ensures |r| <= |links|
    ensures forall k :: 0 <= k < |r| ==> r[k] != ""
    ensures forall s :: s in r <==> s in links && s != ""
  {
    FilterSubset(links, IsLink);
    FilterComplete(links, IsLink);
    Filter(links, IsLink)
  }

  /** The social links every profile lists: Instagram, TikTok and the Telegram channel. */
  const SocialLinks: seq<string> := [Instagram, TikTok, TelegramChannel]

  /** The configured social links are all set, so a list of them is kept whole. */
  lemma SocialLinksKept()
    ensures SameAs(SocialLinks) == SocialLinks
  {
    assert |Instagram| > 0 && |TikTok| > 0 && |TelegramChannel| > 0;
    FilterKeepsAll(SocialLinks, IsLink);
  }

  /** The VK link is not configured, so the organization lists the three other profiles only. */
  lemma VkDropped()
    ensures SameAs(SocialLinks + [Vk]) == SocialLinks
  {
    SocialLinksKept();
    FilterConcat(SocialLinks, [Vk], IsLink);
    assert Filter([Vk], IsLink) == [];
  }

  /** `generateOrganizationSchema()`: sales contact by the organization's own e-mail, in Russian, for Russia. */
  function OrganizationSchema(): (s: Schema)
    ensures s.Organization? && s.sameAs == SocialLinks
    ensures s.logo == SiteUrl + LogoImage && s.url == SiteUrl
    ensures s.contactPoint.email == s.email == Email && s.contactPoint.contactType == "sales"
    ensures s.contactPoint.areaServed == "RU" && s.contactPoint.availableLanguage == ["Russian"]
  {
    VkDropped();
    Organization(SiteName, "SHITSU — " + ArtistNameFull, SiteUrl, SiteUrl + LogoImage, SiteDescription, Email,
      PostalAddress(City, Some(Region), Country), SameAs(SocialLinks + [Vk]),
      ContactPoint(Email, "sales", "RU", ["Russian"]))
  }

  /** The coordinates the local business declares: central Moscow. */
  const MoscowCentre: GeoCoordinates := GeoCoordinates(55.7558, 37.6173)

  /** `generateLocalBusinessSchema()`: the business serves its own city, daily from 10:00 to 20:00. */
  function LocalBusinessSchema(): (s: Schema)
    ensures s.LocalBusiness? && s.sameAs == SocialLinks
    ensures s.image == SiteUrl + OgImage
    ensures s.areaServed == s.address.locality == City
    ensures s.geo == MoscowCentre && s.openingHours == "Mo-Su 10:00-20:00" && s.priceRange == "₽₽"
  {
    SocialLinksKept();
    LocalBusiness(SiteName, SiteDescription, SiteUrl + OgImage, SiteUrl, Email,
      PostalAddress(City, Some(Region), Country), MoscowCentre, "Mo-Su 10:00-20:00", "₽₽", City,
      SameAs(SocialLinks))
  }

  /** `generatePersonSchema()` */
  function PersonSchema(): (s: Schema)
    ensures s.Person? && s.sameAs == SocialLinks
    ensures s.address.region.None?
    ensures s.image == SiteUrl + ArtistImage
  {
    SocialLinksKept();
    Person(ArtistNameFull, SiteName, "Художник", Tagline, SiteUrl + ArtistImage, SiteUrl, Email,
      PostalAddress(City, None, Country), SameAs(SocialLinks))
  }

  /** `generateWebsiteSchema()` */
  function WebsiteSchema(): (s: Schema)
    ensures s.WebSite? && s.url == SiteUrl && s.inLanguage == Language
  {
    WebSite(SiteName, SiteUrl, SiteDescription, Language, ArtistNameFull, SiteName, SiteUrl + LogoImage)
  }

  /** The two availabilities a product offer may declare. */
  datatype Availability = InStock | SoldOut

  /** `ProductSchemaParams`; `None` is an absent field. */
  datatype ProductParams = ProductParams(name: string, description: string, image: string, price: int,
    currency: Option<string>, url: string, availability: Option<Availability>)

  const SchemaOrgBase: string := "https://schema.org/"
  const InStockUrl: string := SchemaOrgBase + "InStock"
  const SoldOutUrl: string := SchemaOrgBase + "SoldOut"

  /** The availability URL: sold out only when declared so; an absent availability is in stock. */
  function AvailabilityUrl(a: Option<Availability>): (u: string)
    ensures u == SoldOutUrl || u == InStockUrl
    ensures u == SoldOutUrl <==> a == Some(SoldOut)
  {
    assert SoldOutUrl[|SchemaOrgBase|] != InStockUrl[|SchemaOrgBase|];
    if a == Some(SoldOut) then SoldOutUrl else InStockUrl
  }

  /** `generateProductSchema(params)` */
  function ProductSchema(params: ProductParams): (s: Schema)
    ensures s.Product? && s.brand == SiteName && s.offer.seller == SiteName
    ensures s.name == params.name && s.description == params.description && s.image == params.image
    ensures s.offer.url == params.url && s.offer.price == params.price
    ensures Truthy(params.currency) ==> s.offer.currency == params.currency.value
    ensures !Truthy(params.currency) ==> s.offer.currency == "RUB"
    ensures s.offer.availability == SoldOutUrl <==> params.availability == Some(SoldOut)
  {
    var currency := if Truthy(params.currency) then params.currency.value else "RUB";
    Schema.Product(params.name, params.description, params.image, SiteName,
      Offer(params.url, params.price, currency, AvailabilityUrl(params.availability), SiteName))
  }

  /** `BreadcrumbItem` */
  datatype BreadcrumbItem = BreadcrumbItem(name: string, url: string)

  /** `generateBreadcrumbSchema(items)`: one list item per input, numbered from 1 in input order. */
  function BreadcrumbSchema(items: seq<BreadcrumbItem>): (s: Schema)
    ensures s.BreadcrumbList? && |s.itemListElement| == |items|
    ensures forall i :: 0 <= i < |items| ==>
      s.itemListElement[i].position == i + 1
      && s.itemListElement[i].name == items[i].name && s.itemListElement[i].item == items[i].url
  {
    BreadcrumbList(seq(|items|, (i: int) requires 0 <= i < |items| => ListItem(i + 1, items[i].name, items[i].url)))
  }

  /** The trail an element list describes. */
  function TrailOf(elements: seq<ListItem>): seq<BreadcrumbItem> {
    Map(elements, (e: ListItem) => BreadcrumbItem(e.name, e.item))
  }

  /** The breadcrumb list loses nothing: reading its elements back gives the trail, and the positions run 1, 2, … without gaps or repeats. */
  lemma BreadcrumbRoundTrip(items: seq<BreadcrumbItem>)
    ensures TrailOf(BreadcrumbSchema(items).itemListElement) == items
    ensures var e := BreadcrumbSchema(items).itemListElement;
      forall i, j :: 0 <= i < j < |e| ==> e[i].position < e[j].position
    ensures var e := BreadcrumbSchema(items).itemListElement;
      e != [] ==> e[0].position == 1 && e[|e| - 1].position == |items|
  {
    var e := BreadcrumbSchema(items).itemListElement;
    assert forall i :: 0 <= i < |e| ==> TrailOf(e)[i] == items[i];
  }

  /** One entry of a FAQ. */
  datatype FaqItem = FaqItem(question: string, answer: string)

  /** `generateFAQSchema(items)`: one question per item, in item order. */
  function FaqSchema(items: seq<FaqItem>): (s: Schema)
    ensures s.FaqPage? && |s.mainEntity| == |items|
    ensures forall i :: 0 <= i < |items| ==> s.mainEntity[i].name == items[i].question
    ensures forall i :: 0 <= i < |items| ==> s.mainEntity[i].answer == items[i].answer
  {
    FaqPage(Map(items, (it: FaqItem) => Question(it.question, it.answer)))
  }

  /** The FAQ loses nothing: reading its questions back gives the items. */
  lemma FaqRoundTrip(items: seq<FaqItem>)
    ensures Map(FaqSchema(items).mainEntity, (q: Question) => FaqItem(q.name, q.answer)) == items
  {
    var back := Map(FaqSchema(items).mainEntity, (q: Question) => FaqItem(q.name, q.answer));
    assert forall i :: 0 <= i < |items| ==> back[i] == items[i];
  }
}
