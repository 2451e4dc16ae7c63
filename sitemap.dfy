/**
 * `generateSitemap`: one `<url>` entry per page of the SEO configuration, in declaration
 * order, followed by one per product id, rendered as a sitemaps.org `urlset` document.
 * The date of the day (`new Date().toISOString().split("T")[0]`) is a parameter.
 */
module Sitemap {
  import opened Wrappers
  import opened Seqs
  import opened JsText
  import opened Numbers
  import opened SeoConfig

  /** The `changefreq` values a sitemap entry may carry. */
  datatype ChangeFreq = Always | Hourly | Daily | Weekly | Monthly | Yearly | Never

  function FreqText(f: ChangeFreq): string {
    match f
    case Always => "always"
    case Hourly => "hourly"
    case Daily => "daily"
    case Weekly => "weekly"
    case Monthly => "monthly"
    case Yearly => "yearly"
    case Never => "never"
  }

  /** Different frequencies render differently. */
  lemma FreqTextInjective(a: ChangeFreq, b: ChangeFreq)
    requires a != b
    ensures FreqText(a) != FreqText(b)
  {
  }

  /** A priority in tenths: 10 stands for `1.0`, 9 for `0.9`. */
  type Tenths = t: nat | t <= 10

  /** `${priority}`: JavaScript writes `1.0` as `1`, `0.0` as `0` and the others as `0.` and one digit. */
  function PriorityText(t: Tenths): (r: string)
    ensures t == 10 ==> r == "1"
    ensures t == 0 ==> r == "0"
    ensures 0 < t < 10 ==> |r| == 3 && r[..2] == "0." && IsDigit(r[2]) && DigitValue(r[2]) == t
  {
    if t == 10 then "1" else if t == 0 then "0" else "0." + [DigitChar(t)]
  }

  /** `SitemapUrl` */
  datatype UrlEntry = UrlEntry(loc: string, lastmod: string, changefreq: ChangeFreq, priority: Tenths)

  /** The priority of a page: the home page first, the two shop sections next, the rest last. */
  function PagePriority(path: string): (t: Tenths)
    ensures t == 10 <==> path == "/"
    ensures t == 9 <==> path == "/originals" || path == "/merch"
    ensures t == 7 <==> path != "/" && path != "/originals" && path != "/merch"
  {
    if path == "/" then 10
    else if path == "/originals" || path == "/merch" then 9
    else 7
  }

  /** The entry of the page at position `index` of the configuration. */
  function StaticUrl(key: PageKey, index: nat, today: string): UrlEntry {
    UrlEntry(SiteUrl + PagePath(key), today, if index == 0 then Weekly else Monthly, PagePriority(PagePath(key)))
  }

  /** `staticUrls`: one entry per configured page, in declaration order. */
  function StaticUrls(today: string): (urls: seq<UrlEntry>)
    ensures |urls| == |PageOrder|
    ensures forall i :: 0 <= i < |urls| ==> urls[i] == StaticUrl(PageOrder[i], i, today)
  {
    seq(|PageOrder|, (i: int) requires 0 <= i < |PageOrder| => StaticUrl(PageOrder[i], i, today))
  }

  /** The address of a product page. */
  function ProductLoc(id: string): string {
    SiteUrl + "/product/" + id
  }

  /** `productUrls`: weekly entries of priority 0.8, one per id, in id order; no ids when none are given. */
  function ProductUrls(productIds: Option<seq<string>>, today: string): (urls: seq<UrlEntry>)
    ensures productIds.None? ==> urls == []
    ensures |urls| == |productIds.GetOr([])|
    ensures forall j :: 0 <= j < |urls| ==>
      urls[j] == UrlEntry(ProductLoc(productIds.GetOr([])[j]), today, Weekly, 8)
  {
    Map(productIds.GetOr([]), (id: string) => UrlEntry(ProductLoc(id), today, Weekly, 8))
  }

  /** `allUrls`: the pages first, then the products. */
  function AllUrls(productIds: Option<seq<string>>, today: string): (urls: seq<UrlEntry>)
    ensures |urls| == |PageOrder| + |productIds.GetOr([])|
    ensures forall i :: 0 <= i < |urls| ==> urls[i].lastmod == today
    ensures forall i :: 0 <= i < |PageOrder| ==> urls[i].loc == SiteUrl + PagePath(PageOrder[i])
    ensures forall i :: 0 <= i < |PageOrder| ==> urls[i].changefreq == (if i == 0 then Weekly else Monthly)
    ensures forall j :: 0 <= j < |productIds.GetOr([])| ==>
      urls[|PageOrder| + j] == UrlEntry(ProductLoc(productIds.GetOr([])[j]), today, Weekly, 8)
  {
    StaticUrls(today) + ProductUrls(productIds, today)
  }

  /** The page priorities, in configuration order: 1.0 for the home page, 0.9 for the originals and the merch, 0.7 for the rest. */
  lemma StaticPriorities(today: string)
    ensures var urls := StaticUrls(today);
      urls[0].priority == 10 && urls[1].priority == 9 && urls[2].priority == 9
      && forall i :: 3 <= i < |urls| ==> urls[i].priority == 7
  {
    var urls := StaticUrls(today);
    forall i | 3 <= i < |urls| ensures urls[i].priority == 7 {
      assert PageOrder[i] in {Archive, Custom, About, Contacts, Delivery};
    }
  }

  /** Only the home page has the top priority, and every product (0.8) ranks below the shop sections (0.9) and above the other pages (0.7). */
  lemma ProductRanking(productIds: Option<seq<string>>, today: string)
    ensures var urls := AllUrls(productIds, today);
      forall i :: 0 <= i < |urls| ==> (urls[i].priority == 10 <==> i == 0)
    ensures var urls := AllUrls(productIds, today);
      forall i, j :: 0 <= i < |PageOrder| <= j < |urls| ==>
        (urls[i].priority == 9 ==> urls[j].priority < urls[i].priority)
        && (urls[i].priority == 7 ==> urls[i].priority < urls[j].priority)
  {
    var urls := AllUrls(productIds, today);
    StaticPriorities(today);
    forall i | 0 <= i < |urls| ensures urls[i].priority == 10 <==> i == 0 {
      if i >= |PageOrder| {
        assert urls[i] == ProductUrls(productIds, today)[i - |PageOrder|];
      } else {
        assert urls[i] == StaticUrls(today)[i];
      }
    }
    forall j | |PageOrder| <= j < |urls| ensures urls[j].priority == 8 {
      assert urls[j] == ProductUrls(productIds, today)[j - |PageOrder|];
    }
  }

  /** Different product ids give different addresses. */
  lemma ProductLocInjective(a: string, b: string)
    requires ProductLoc(a) == ProductLoc(b)
    ensures a == b
  {
    var prefix := SiteUrl + "/product/";
    assert ProductLoc(a)[|prefix|..] == a;
    assert ProductLoc(b)[|prefix|..] == b;
  }

  /** The start of an entry, up to its address. */
  const LocOpen: string := "  <url>\n    <loc>"

  /** The rest of an entry, after its address. */
  function UrlTail(u: UrlEntry): string {
    "</loc>\n    <lastmod>" + u.lastmod + "</lastmod>\n    <changefreq>" + FreqText(u.changefreq)
      + "</changefreq>\n    <priority>" + PriorityText(u.priority) + "</priority>\n  </url>"
  }

  /** One `<url>` element: its address sits right after the opening tags. */
  function UrlXml(u: UrlEntry): (x: string)
    ensures At(x, u.loc, |LocOpen|)
  {
    SliceAfterPrefix(LocOpen, u.loc + UrlTail(u), 0, |u.loc|);
    assert LocOpen + u.loc + UrlTail(u) == LocOpen + (u.loc + UrlTail(u));
    LocOpen + u.loc + UrlTail(u)
  }

  /** `part` occurs in `text` at offset `p`. */
  predicate At(text: string, part: string, p: nat) {
    p + |part| <= |text| && text[p..p + |part|] == part
  }

  const Header: string := "<?xml version=\"1.0\" encoding=\"UTF-8\"?>\n<urlset xmlns=\"http://www.sitemaps.org/schemas/sitemap/0.9\">\n"
  const Footer: string := "\n</urlset>"

  /** The entries rendered and joined by newlines. */
  function Body(urls: seq<UrlEntry>): string {
    Join(Map(urls, UrlXml), "\n")
  }

  /** `generateSitemap(productIds)` on the day `today`. */
  function GenerateSitemap(productIds: Option<seq<string>>, today: string): (xml: string)
    ensures At(xml, Header, 0)
    ensures |Footer| <= |xml| && At(xml, Footer, |xml| - |Footer|)
  {
    var body := Body(AllUrls(productIds, today));
    Framed(Header, body, Footer);
    Header + (body + Footer)
  }

  /** An occurrence survives text written before it, shifted by that text's length. */
  lemma AtAfter(a: string, b: string, part: string, p: nat)
    requires At(b, part, p)
    ensures At(a + b, part, |a| + p)
  {
    SliceAfterPrefix(a, b, p, p + |part|);
  }

  /** An occurrence survives text written after it. */
  lemma AtBefore(a: string, b: string, part: string, p: nat)
    requires At(a, part, p)
    ensures At(a + b, part, p)
  {
    assert (a + b)[p..p + |part|] == a[p..p + |part|];
  }

  /** An occurrence inside an occurrence. */
  lemma AtWithin(text: string, mid: string, part: string, q: nat, r: nat)
    requires At(text, mid, q) && At(mid, part, r)
    ensures At(text, part, q + r)
  {
    forall k | 0 <= k < |part|
      ensures text[q + r..q + r + |part|][k] == part[k]
    {
      assert part[k] == mid[r + k] == text[q + r + k];
    }
  }

  /** A text framed by a head and a foot starts with the head and ends with the foot. */
  lemma Framed(head: string, body: string, foot: string)
    ensures At(head + (body + foot), head, 0)
    ensures |foot| <= |head + (body + foot)| && At(head + (body + foot), foot, |head + (body + foot)| - |foot|)
  {
    AtBefore(head, body + foot, head, 0);
    AtAfter(body, foot, foot, 0);
    AtAfter(head, body + foot, foot, |body|);
  }

  /** An occurrence inside one part is an occurrence in the parts joined. */
  lemma InJoined(parts: seq<string>, sep: string, i: nat, part: string, r: nat) returns (p: nat)
    requires i < |parts| && At(parts[i], part, r)
    ensures At(Join(parts, sep), part, p)
  {
    var q := JoinOffset(parts, sep, i);
    assert At(Join(parts, sep), parts[i], q);
    AtWithin(Join(parts, sep), parts[i], part, q, r);
    p := q + r;
  }

  /** Where entry `i`'s address lies in the joined entries. */
  lemma LocInBody(urls: seq<UrlEntry>, i: nat) returns (p: nat)
    requires i < |urls|
    ensures At(Body(urls), urls[i].loc, p)
  {
    var blocks := Map(urls, UrlXml);
    assert At(blocks[i], urls[i].loc, |LocOpen|);
    p := InJoined(blocks, "\n", i, urls[i].loc, |LocOpen|);
  }

  /** Every entry's address is written into the document, inside its `<loc>` element. */
  lemma EntryLocWritten(productIds: Option<seq<string>>, today: string, i: nat)
    requires i < |AllUrls(productIds, today)|
    ensures var xml, loc := GenerateSitemap(productIds, today), AllUrls(productIds, today)[i].loc;
      exists p: nat :: At(xml, loc, p)
  {
    var urls := AllUrls(productIds, today);
    var body := Body(urls);
    var loc := urls[i].loc;
    var p := LocInBody(urls, i);
    AtBefore(body, Footer, loc, p);
    AtAfter(Header, body + Footer, loc, p);
    assert At(GenerateSitemap(productIds, today), loc, |Header| + p);
  }

  /** Every product id given is listed: its product address appears in the document. */
  lemma ProductListed(productIds: seq<string>, today: string, j: nat)
    requires j < |productIds|
    ensures var xml, loc := GenerateSitemap(Some(productIds), today), ProductLoc(productIds[j]);
      exists p: nat :: At(xml, loc, p)
  {
    EntryLocWritten(Some(productIds), today, |PageOrder| + j);
  }
}
