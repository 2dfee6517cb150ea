/**
 * The product scraper: a two-way dispatch on the URL between Amazon's
 * selectors and a generic heuristic, followed by caps of 5 images and 10
 * features. The DOM queries are replaced by the lists they return.
 */
module Scraper {
  import opened Wrappers
  import opened Seqs
  import opened Text
  import opened Http

  /** What the scraper's queries return on the parsed page. */
  datatype ProductDocument = ProductDocument(
    productTitle: string,               // $('#productTitle').text()
    featureBullets: seq<string>,        // text of each '#feature-bullets ul li'
    offscreenPrices: seq<string>,       // text of each '.a-price .a-offscreen'
    altImageSrcs: seq<Option<string>>,  // src of each '#altImages img'
    h1Texts: seq<string>,               // text of each h1
    ogTitle: Option<string>,            // content of meta[property="og:title"]
    metaDescription: Option<string>,    // content of meta[name="description"]
    ogDescription: Option<string>,      // content of meta[property="og:description"]
    imageSrcs: seq<Option<string>>)     // src of each img

  /** The product as the generator receives it. */
  datatype ProductSummary = ProductSummary(
    title: string,
    description: string,
    price: string,
    images: seq<string>,
    url: string,
    features: seq<string>)

  /** The one message every failure of the scraper is reported with. */
  const ScrapeFailed: string := "Impossible de récupérer les informations du produit"
  const MaxImages: nat := 5
  const MaxFeatures: nat := 10

  /** `url.includes('amazon.')`. */
  predicate IsAmazonUrl(url: string) {
    Contains(url, "amazon.")
  }

  /** `.first().text()`: the first element's text, or "" when nothing matches. */
  function FirstText(texts: seq<string>): string {
    if texts == [] then "" else texts[0]
  }

  /** `if (src) images.push(src)`. */
  function PresentSrc(src: Option<string>): Option<string> {
    if Truthy(src) then src else None
  }

  /** `if (src && !src.includes('logo') && !src.includes('icon')) images.push(src)`. */
  function GallerySrc(src: Option<string>): Option<string> {
    if Truthy(src) && !Contains(src.value, "logo") && !Contains(src.value, "icon") then src else None
  }

  /** Generic title: the first h1's trimmed text, else the og:title content, else "". */
  function GenericTitle(h1Texts: seq<string>, ogTitle: Option<string>): (t: string)
    ensures !IsBlank(FirstText(h1Texts)) ==> t == Trim(FirstText(h1Texts))
    ensures IsBlank(FirstText(h1Texts)) ==> t == ogTitle.GetOr("")
  {
    var first := Trim(FirstText(h1Texts));
    if first != "" then first else ogTitle.GetOr("")
  }

  /** Generic description: the description meta, else the og:description meta, else "". */
  function GenericDescription(named: Option<string>, og: Option<string>): (d: string)
    ensures Truthy(named) ==> d == named.value
    ensures !Truthy(named) ==> d == og.GetOr("")
  {
    if Truthy(named) then named.value else og.GetOr("")
  }

  /**
   * `scrapeProduct`. Any failure (the fetch, a non-OK status) is the one
   * message ScrapeFailed; otherwise the fields come from Amazon's selectors
   * when the URL contains "amazon.", and from the generic heuristic when not.
   */
  method ScrapeProduct(url: string, reply: Reply<ProductDocument>) returns (r: Result<ProductSummary, string>)
    ensures r.Failure? <==> !Succeeded(reply)
    ensures r.Failure? ==> r.error == ScrapeFailed
    ensures r.Success? ==> r.value.url == url && |r.value.images| <= MaxImages && |r.value.features| <= MaxFeatures
    ensures r.Success? && IsAmazonUrl(url) ==>
              var page := reply.document;
              && r.value.title == Trim(page.productTitle)
              && r.value.description == Trim(FirstText(page.featureBullets))
              && r.value.price == Trim(FirstText(page.offscreenPrices))
              && r.value.features == Take(TrimmedTexts(page.featureBullets), MaxFeatures)
              && r.value.images == Take(FilterMap(page.altImageSrcs, PresentSrc), MaxImages)
    ensures r.Success? && !IsAmazonUrl(url) ==>
              var page := reply.document;
              && r.value.title == GenericTitle(page.h1Texts, page.ogTitle)
              && r.value.description == GenericDescription(page.metaDescription, page.ogDescription)
              && r.value.price == ""
              && r.value.features == []
              && r.value.images == Take(FilterMap(page.imageSrcs, GallerySrc), MaxImages)
  {
    if !Succeeded(reply) {
      return Failure(ScrapeFailed);
    }
    var page := reply.document;
    var title := "";
    var description := "";
    var price := "";
    var images: seq<string> := [];
    var features: seq<string> := [];
    if IsAmazonUrl(url) {
      title := Trim(page.productTitle);
      description := Trim(FirstText(page.featureBullets));
      price := Trim(FirstText(page.offscreenPrices));
      features := Collect(page.featureBullets, KeepText);
      images := Collect(page.altImageSrcs, PresentSrc);
    } else {
      title := GenericTitle(page.h1Texts, page.ogTitle);
      description := GenericDescription(page.metaDescription, page.ogDescription);
      images := Collect(page.imageSrcs, GallerySrc);
    }
    r := Success(ProductSummary(title, description, price, Take(images, MaxImages), url, Take(features, MaxFeatures)));
  }

  /**
   * The generic heuristic keeps exactly the present, non-empty sources that
   * contain neither "logo" nor "icon".
   */
  lemma GallerySourcesIff(srcs: seq<Option<string>>, s: string)
    ensures s in FilterMap(srcs, GallerySrc) <==>
              && s != "" && !Contains(s, "logo") && !Contains(s, "icon")
              && Some(s) in srcs
  {
    FilterMapMembers(srcs, GallerySrc, s);
    if Some(s) in srcs {
      var i :| 0 <= i < |srcs| && srcs[i] == Some(s);
      assert s != "" && !Contains(s, "logo") && !Contains(s, "icon") ==> GallerySrc(srcs[i]) == Some(s);
    }
  }

  /** Every image the generic branch returns is non-empty and names neither a logo nor an icon. */
  lemma GenericImagesClean(srcs: seq<Option<string>>, i: nat)
    requires i < |Take(FilterMap(srcs, GallerySrc), MaxImages)|
    ensures var s := Take(FilterMap(srcs, GallerySrc), MaxImages)[i];
              s != "" && !Contains(s, "logo") && !Contains(s, "icon")
  {
    GallerySourcesIff(srcs, FilterMap(srcs, GallerySrc)[i]);
  }

  /**
   * On Amazon the description is the first bullet's trimmed text, so when
   * that text is not blank it is also the first feature.
   */
  lemma AmazonDescriptionLeadsFeatures(bullets: seq<string>)
    requires bullets != [] && !IsBlank(bullets[0])
    ensures |Take(TrimmedTexts(bullets), MaxFeatures)| > 0
    ensures Take(TrimmedTexts(bullets), MaxFeatures)[0] == Trim(FirstText(bullets))
  {
    TrimmedTextsFirst(bullets);
    var kept := TrimmedTexts(bullets);
    var taken := Take(kept, MaxFeatures);
    assert |taken| > 0 && taken <= kept;
    assert taken[0] == kept[0];
  }
}
