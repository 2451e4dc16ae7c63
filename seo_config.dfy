/**
 * The site's SEO configuration (site identity, the per-page titles and paths) and the meta
 * data built for a product page.
 */
module SeoConfig {
  import opened Wrappers
  import opened JsText
  import opened Numbers
  import opened Types

  const SiteName: string := "SHITSU"
  const ArtistName: string := "Кира"
  const ArtistNameFull: string := "Кира SHITSU"
  const Tagline: string := "Художница из Москвы"
  const SiteDescription: string := "SHITSU — художница Кира из Москвы. Оригинальные картины, мерч и картины на заказ. Японская эстетика, современная живопись."
  const SiteUrl: string := "https://shitsukira.ru"
  const Locale: string := "ru_RU"
  const Language: string := "ru"
  const Region: string := "RU-MOW"
  const City: string := "Москва"
  const Country: string := "Россия"
  const Email: string := "shitsu2319@gmail.com"
  const Instagram: string := "https://instagram.com/shitsu_kira"
  const TikTok: string := "https://www.tiktok.com/@_shitsu"
  const TelegramChannel: string := "https://t.me/shitsu_art"
  const Vk: string := ""
  const LogoImage: string := "/logo.png"
  const ArtistImage: string := "/artist.png"
  const OgImage: string := "/logo.png"
  const SiteKeywords: seq<string> := [
    "купить картину Москва",
    "художник Москва",
    "картина на заказ",
    "оригинальные картины",
    "современная живопись",
    "японская эстетика",
    "картина в подарок",
    "мерч художника",
    "SHITSU",
    "Кира художник"]

  /** The keys of `PAGE_SEO`, in declaration order. */
  datatype PageKey = Home | OriginalsPage | MerchPage | Archive | Custom | About | Contacts | Delivery

  /** `PageSEOConfig` */
  datatype PageConfig = PageConfig(
    title: string,
    description: string,
    keywords: string,
    path: string,
    ogImage: Option<string>,
    noIndex: Option<bool>)

  /** `PAGE_SEO[key]`: no page sets `ogImage` or `noIndex`. */
  function PageSeo(key: PageKey): PageConfig {
    PageConfig(PageTitle(key), PageDescription(key), PageKeywords(key), PagePath(key), None, None)
  }

  /** The `title` of a page. */
  function PageTitle(key: PageKey): string {
    match key
    case Home => "SHITSU — Кира, художница | Картины на заказ Москва"
    case OriginalsPage => "Оригинальные картины — SHITSU | Купить картину в Москве"
    case MerchPage => "Мерч — SHITSU | Принты и сувениры художника"
    case Archive => "Архив — SHITSU | Проданные работы"
    case Custom => "Картина на заказ — SHITSU | Заказать картину в Москве"
    case About => "О художнице — SHITSU | Кира, биография"
    case Contacts => "Контакты — SHITSU | Связаться с художником"
    case Delivery => "Доставка и оплата — SHITSU"
  }

  /** The `description` of a page. */
  function PageDescription(key: PageKey): string {
    match key
    case Home => "Купить оригинальные картины и мерч от художницы Киры (SHITSU). Картины на заказ, японская эстетика. Доставка по Москве и России."
    case OriginalsPage => "Оригинальные картины художницы Киры (SHITSU). Масло, акрил, уникальные работы. Купить картину в Москве с доставкой."
    case MerchPage => "Мерч от художницы Киры (SHITSU). Принты, постеры, сувениры с авторскими работами. Доставка по России."
    case Archive => "Архив проданных картин художницы Киры (SHITSU). Посмотрите предыдущие работы и закажите похожую картину на заказ."
    case Custom => "Закажите уникальную картину на заказ у художницы Киры (SHITSU). Портреты, пейзажи, абстракция. Москва и доставка по России."
    case About => "Кира (SHITSU) — художница из Москвы. Японская эстетика, современная живопись. Узнайте больше о творчестве и вдохновении художника."
    case Contacts => "Связаться с художницей Кирой (SHITSU). Instagram, Telegram, TikTok, email. Москва, Россия."
    case Delivery => "Доставка картин по Москве и России. Способы оплаты, условия возврата. Художница Кира (SHITSU)."
  }

  /** The `keywords` of a page. */
  function PageKeywords(key: PageKey): string {
    match key
    case Home => "купить картину Москва, художник SHITSU, Кира художница, картины на заказ, оригинальные картины"
    case OriginalsPage => "купить картину масло, оригинал художника, картина маслом Москва, авторская живопись"
    case MerchPage => "мерч художника, принты картины, постеры купить, сувениры с картинами"
    case Archive => "архив картин, проданные картины, портфолио художника"
    case Custom => "картина на заказ Москва, заказать картину, портрет на заказ, художник на заказ"
    case About => "Кира художник, SHITSU биография, художница Москва, японская эстетика"
    case Contacts => "контакты художника, связаться SHITSU, Кира художник контакты"
    case Delivery => "доставка картин Москва, оплата картины, доставка картины Россия"
  }

  /** The `path` of a page. */
  function PagePath(key: PageKey): string {
    match key
    case Home => "/"
    case OriginalsPage => "/originals"
    case MerchPage => "/merch"
    case Archive => "/archive"
    case Custom => "/custom"
    case About => "/about"
    case Contacts => "/contacts"
    case Delivery => "/delivery"
  }

  /** Every page path is absolute: it starts with a slash. */
  lemma PagePathAbsolute(key: PageKey)
    ensures |PagePath(key)| > 0 && PagePath(key)[0] == '/'
  {
    match key
    case Home =>
    case OriginalsPage =>
    case MerchPage =>
    case Archive =>
    case Custom =>
    case About =>
    case Contacts =>
    case Delivery =>
  }

  /** `Object.values(PAGE_SEO)`'s keys, in declaration order. */
  const PageOrder: seq<PageKey> := [Home, OriginalsPage, MerchPage, Archive, Custom, About, Contacts, Delivery]

  /** Different pages have different paths. */
  lemma PagePathsDistinct(a: PageKey, b: PageKey)
    requires a != b
    ensures PagePath(a) != PagePath(b)
  {
  }

  /** Every page appears exactly once in the order. */
  lemma PageOrderComplete(key: PageKey)
    ensures key in PageOrder
    ensures forall i, j :: 0 <= i < j < |PageOrder| ==> PageOrder[i] != PageOrder[j]
  {
  }

  /** The argument of `generateProductMeta`; `None` is an absent field. */
  datatype MetaInput = MetaInput(name: string, description: Option<string>, price: int, images: seq<string>, isSold: Option<bool>)

  datatype MetaProduct = MetaProduct(name: string, description: string, image: Option<string>, price: int, isSold: Option<bool>)

  /** The value of `generateProductMeta`; an image is `None` when the product has none. */
  datatype ProductMeta = ProductMeta(title: string, description: string, image: Option<string>, product: MetaProduct)

  const TitleSuffix: string := " — SHITSU | Купить картину"

  /** The generated description used when the product has none. */
  function FallbackDescription(name: string, price: int): string {
    name + " от художницы Киры (SHITSU). " + FormatRu(price) + " ₽. Доставка по Москве и России."
  }

  /** `generateProductMeta(product)` */
  function GenerateProductMeta(p: MetaInput): (m: ProductMeta)
    ensures |m.title| == |p.name| + |TitleSuffix|
    ensures m.title[..|p.name|] == p.name && m.title[|p.name|..] == TitleSuffix
    ensures Truthy(p.description) ==> m.description == p.description.value && m.product.description == p.description.value
    ensures !Truthy(p.description) ==> m.description == FallbackDescription(p.name, p.price)
    ensures !Truthy(p.description) ==> m.product.description == p.name + " — SHITSU"
    ensures m.image == m.product.image
    ensures m.image.None? <==> p.images == []
    ensures m.image.Some? ==> m.image.value == p.images[0]
    ensures m.product.name == p.name && m.product.price == p.price && m.product.isSold == p.isSold
  {
    var title := p.name + TitleSuffix;
    assert title[..|p.name|] == p.name && title[|p.name|..] == TitleSuffix;
    var image := if p.images == [] then None else Some(p.images[0]);
    ProductMeta(title,
      if Truthy(p.description) then p.description.value else FallbackDescription(p.name, p.price),
      image,
      MetaProduct(p.name, if Truthy(p.description) then p.description.value else p.name + " — SHITSU", image, p.price, p.isSold))
  }

  /** The fallback description names the product and its price as the shop displays it. */
  lemma FallbackMentionsPrice(name: string, price: int)
    ensures var d := FallbackDescription(name, price);
      d[..|name|] == name
      && d[|name| + |" от художницы Киры (SHITSU). "|..][..|FormatRu(price)|] == FormatRu(price)
  {
    var d := FallbackDescription(name, price);
    var lead := name + " от художницы Киры (SHITSU). ";
    assert d == lead + (FormatRu(price) + " ₽. Доставка по Москве и России.");
    assert d[|lead|..] == FormatRu(price) + " ₽. Доставка по Москве и России.";
  }
}
