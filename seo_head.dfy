/**
 * The `SEO` component: the document head it writes for a page (title, description, keywords,
 * robots, canonical and Open Graph tags) and the list of JSON-LD objects it embeds.
 */
module SeoHead {
  import opened Wrappers
  import opened Types
  import opened Seqs
  import opened JsText
  import opened SeoConfig
  import opened SchemaOrg

  /** The `product` prop. */
  datatype ProductProp = ProductProp(name: string, description: string, image: string, price: int, isSold: Option<bool>)

  /** One entry of the `breadcrumbs` prop: a name and a site-relative path. */
  datatype Crumb = Crumb(name: string, path: string)

  /** `SEOProps`; `None` is an absent prop. */
  datatype SeoProps = SeoProps(
    page: Option<PageKey>,
    title: Option<string>,
    description: Option<string>,
    keywords: Option<string>,
    image: Option<string>,
    path: Option<string>,
    noIndex: Option<bool>,
    product: Option<ProductProp>,
    breadcrumbs: Option<seq<Crumb>>)

  /** `pageConfig?.<field>`: the field of the page's configuration, absent when no page is named. */
  function PageField(page: Option<PageKey>, field: PageKey -> string): (r: Option<string>)
    ensures r.Some? <==> page.Some?
  {
    match page
    case None => None
    case Some(k) => Some(field(k))
  }

  /** `a || b || fallback` over strings: the first non-empty one. */
  function FirstTruthy(a: Option<string>, b: Option<string>, fallback: string): (r: string)
    ensures Truthy(a) ==> r == a.value
    ensures !Truthy(a) && Truthy(b) ==> r == b.value
    ensures !Truthy(a) && !Truthy(b) ==> r == fallback
    ensures fallback != "" ==> r != ""
  {
    if Truthy(a) then a.value else if Truthy(b) then b.value else fallback
  }

  /** `finalTitle`: the prop, else the page's title, else the site name; never empty. */
  function FinalTitle(props: SeoProps): (t: string)
    ensures t != ""
    ensures Truthy(props.title) ==> t == props.title.value
    ensures !Truthy(props.title) && props.page.Some? && PageTitle(props.page.value) != "" ==> t == PageTitle(props.page.value)
    ensures !Truthy(props.title) && props.page.None? ==> t == SiteName
  {
    FirstTruthy(props.title, PageField(props.page, PageTitle), SiteName)
  }

  /** `finalDescription`: the prop, else the page's description, else the site description. */
  function FinalDescription(props: SeoProps): (d: string)
    ensures Truthy(props.description) ==> d == props.description.value
    ensures !Truthy(props.description) && props.page.Some? && PageDescription(props.page.value) != "" ==> d == PageDescription(props.page.value)
    ensures !Truthy(props.description) && props.page.None? ==> d == SiteDescription
  {
    FirstTruthy(props.description, PageField(props.page, PageDescription), SiteDescription)
  }

  /** `finalKeywords`: the prop, else the page's keywords, else the site keywords joined by commas. */
  function FinalKeywords(props: SeoProps): (k: string)
    ensures Truthy(props.keywords) ==> k == props.keywords.value
    ensures !Truthy(props.keywords) && props.page.Some? && PageKeywords(props.page.value) != "" ==> k == PageKeywords(props.page.value)
    ensures !Truthy(props.keywords) && props.page.None? ==> k == Join(SiteKeywords, ", ")
  {
    FirstTruthy(props.keywords, PageField(props.page, PageKeywords), Join(SiteKeywords, ", "))
  }

  /** `finalPath`: the prop, else the page's path, else the root; never empty. */
  function FinalPath(props: SeoProps): (p: string)
    ensures p != ""
    ensures Truthy(props.path) ==> p == props.path.value
    ensures !Truthy(props.path) && props.page.Some? ==> p == PagePath(props.page.value)
    ensures !Truthy(props.path) && props.page.None? ==> p == "/"
  {
    if props.page.Some? then
      PagePathAbsolute(props.page.value);
      FirstTruthy(props.path, PageField(props.page, PagePath), "/")
    else
      FirstTruthy(props.path, PageField(props.page, PagePath), "/")
  }

  /** `fullUrl`: the canonical address, the site URL followed by the final path. */
  function FullUrl(props: SeoProps): (u: string)
    ensures |u| > |SiteUrl| && u[..|SiteUrl|] == SiteUrl && u[|SiteUrl|..] == FinalPath(props)
  {
    var u := SiteUrl + FinalPath(props);
    assert u[..|SiteUrl|] == SiteUrl && u[|SiteUrl|..] == FinalPath(props);
    u
  }

  /** `finalImage`: the prop, else the Open Graph image. */
  function FinalImage(props: SeoProps): (i: string)
    ensures Truthy(props.image) ==> i == props.image.value
    ensures !Truthy(props.image) ==> i == OgImage
  {
    if Truthy(props.image) then props.image.value else OgImage
  }

  /** `fullImageUrl`: an image starting with "http" is used as it is; any other is put under the site URL. */
  function FullImageUrl(props: SeoProps): (u: string)
    ensures StartsWith(u, "http")
    ensures StartsWith(FinalImage(props), "http") ==> u == FinalImage(props)
    ensures !StartsWith(FinalImage(props), "http") ==> u == SiteUrl + FinalImage(props)
  {
    var image := FinalImage(props);
    if StartsWith(image, "http") then image
    else
      assert SiteUrl == "http" + "s://shitsukira.ru";
      assert (SiteUrl + image)[..4] == SiteUrl[..4];
      SiteUrl + image
  }

  /** `finalNoIndex`: the prop or the page's own setting. */
  predicate FinalNoIndex(props: SeoProps) {
    props.noIndex == Some(true) || (props.page.Some? && PageSeo(props.page.value).noIndex == Some(true))
  }

  const NoIndexRobots: string := "noindex, nofollow"
  const IndexRobots: string := "index, follow"

  /** The `robots` meta tag: no page of the configuration opts out, so only the prop keeps a page out of the index. */
  function Robots(props: SeoProps): (r: string)
    ensures r == NoIndexRobots || r == IndexRobots
    ensures r == NoIndexRobots <==> props.noIndex == Some(true)
  {
    assert NoIndexRobots[0] != IndexRobots[0];
    if FinalNoIndex(props) then NoIndexRobots else IndexRobots
  }

  /** The `og:type` meta tag. */
  function OgType(props: SeoProps): (t: string)
    ensures t == "product" <==> props.product.Some?
    ensures t == "product" || t == "website"
  {
    if props.product.Some? then "product" else "website"
  }

  /** The tags of the document head. */
  datatype Head = Head(
    title: string, description: string, keywords: string, author: string, robots: string,
    canonical: string, ogType: string, ogTitle: string, ogDescription: string, ogImage: string,
    ogUrl: string, ogSiteName: string, ogLocale: string,
    twitterTitle: string, twitterDescription: string, twitterImage: string)

  /** The head written for `props`. */
  function HeadOf(props: SeoProps): (h: Head)
    ensures h.canonical == h.ogUrl == FullUrl(props)
    ensures h.title == h.ogTitle == h.twitterTitle == FinalTitle(props)
    ensures h.description == h.ogDescription == h.twitterDescription == FinalDescription(props)
    ensures h.ogImage == h.twitterImage == FullImageUrl(props)
    ensures h.robots == Robots(props) && h.ogType == OgType(props)
  {
    Head(FinalTitle(props), FinalDescription(props), FinalKeywords(props), ArtistNameFull, Robots(props),
      FullUrl(props), OgType(props), FinalTitle(props), FinalDescription(props), FullImageUrl(props),
      FullUrl(props), SiteName, Locale,
      FinalTitle(props), FinalDescription(props), FullImageUrl(props))
  }

  /** The product offer's parameters: the page's own address, and sold out exactly when the product is sold. */
  function ProductParamsOf(props: SeoProps): (params: ProductParams)
    requires props.product.Some?
    ensures params.url == FullUrl(props) && params.currency.None?
    ensures params.availability.Some?
    ensures params.availability == Some(SoldOut) <==> props.product.value.isSold == Some(true)
  {
    var p := props.product.value;
    ProductParams(p.name, p.description, p.image, p.price, None, FullUrl(props),
      Some(if p.isSold == Some(true) then SoldOut else InStock))
  }

  /** A product page offers the product in roubles, sold out exactly when it is sold. */
  lemma ProductOffer(props: SeoProps)
    requires props.product.Some?
    ensures var s := ProductSchema(ProductParamsOf(props));
      s.offer.currency == "RUB"
      && (s.offer.availability == SoldOutUrl <==> props.product.value.isSold == Some(true))
      && s.offer.url == FullUrl(props)
  {
  }

  /** `breadcrumbs && breadcrumbs.length > 0` */
  predicate HasCrumbs(props: SeoProps) {
    props.breadcrumbs.Some? && |props.breadcrumbs.value| > 0
  }

  /** The breadcrumb items: each path put under the site URL. */
  function CrumbItems(crumbs: seq<Crumb>): (items: seq<BreadcrumbItem>)
    ensures |items| == |crumbs|
    ensures forall i :: 0 <= i < |crumbs| ==> items[i] == BreadcrumbItem(crumbs[i].name, SiteUrl + crumbs[i].path)
  {
    Map(crumbs, (c: Crumb) => BreadcrumbItem(c.name, SiteUrl + c.path))
  }

  function Flag(b: bool): nat {
    if b then 1 else 0
  }

  /** `schemas`: the organization, the local business and the web site, then the product, the breadcrumbs and the person when they apply, in that order. */
  method BuildSchemas(props: SeoProps) returns (schemas: seq<Schema>)
    ensures |schemas| == 3 + Flag(props.product.Some?) + Flag(HasCrumbs(props)) + Flag(props.page == Some(About))
    ensures schemas[..3] == [OrganizationSchema(), LocalBusinessSchema(), WebsiteSchema()]
    ensures (exists i :: 0 <= i < |schemas| && schemas[i].Product?) <==> props.product.Some?
    ensures props.product.Some? ==> schemas[3] == ProductSchema(ProductParamsOf(props))
    ensures (exists i :: 0 <= i < |schemas| && schemas[i].BreadcrumbList?) <==> HasCrumbs(props)
    ensures HasCrumbs(props) ==>
      schemas[3 + Flag(props.product.Some?)] == BreadcrumbSchema(CrumbItems(props.breadcrumbs.value))
    ensures (exists i :: 0 <= i < |schemas| && schemas[i].Person?) <==> props.page == Some(About)
    ensures props.page == Some(About) ==> schemas[|schemas| - 1] == PersonSchema()
  {
    schemas := [OrganizationSchema(), LocalBusinessSchema(), WebsiteSchema()];
    if props.product.Some? {
      schemas := schemas + [ProductSchema(ProductParamsOf(props))];
    }
    if HasCrumbs(props) {
      schemas := schemas + [BreadcrumbSchema(CrumbItems(props.breadcrumbs.value))];
    }
    if props.page == Some(About) {
      schemas := schemas + [PersonSchema()];
    }
    var p := Flag(props.product.Some?);
    assert forall i :: 0 <= i < |schemas| ==> (schemas[i].Product? <==> props.product.Some? && i == 3);
    assert forall i :: 0 <= i < |schemas| ==> (schemas[i].BreadcrumbList? <==> HasCrumbs(props) && i == 3 + p);
    assert forall i :: 0 <= i < |schemas| ==> (schemas[i].Person? <==> props.page == Some(About) && i == |schemas| - 1);
    if props.product.Some? {
      assert schemas[3].Product?;
    }
    if HasCrumbs(props) {
      assert schemas[3 + p].BreadcrumbList?;
    }
    if props.page == Some(About) {
      assert schemas[|schemas| - 1].Person?;
    }
  }
}
