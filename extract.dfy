/**
 * The page extractor: after the fetch, it reads the title, the meta
 * description, the h1 and paragraph texts and the images (with relative
 * sources made absolute against the page's origin) out of the parsed page.
 * The DOM queries are replaced by the lists they return, and the WHATWG URL
 * parser by a pair of partial functions.
 */
module Extract {
  import opened Wrappers
  import opened Seqs
  import opened Text
  import opened Http

  /** An `<img>` element's attributes; None is an absent attribute. */
  datatype ImageAttrs = ImageAttrs(src: Option<string>, alt: Option<string>)

  /** What the extractor's queries return on the parsed page. */
  datatype PageDocument = PageDocument(
    titleText: string,               // $('title').text()
    metaDescription: Option<string>, // content of meta[name="description"]
    ogDescription: Option<string>,   // content of meta[property="og:description"]
    h1Texts: seq<string>,            // text of each h1, in document order
    paragraphTexts: seq<string>,     // text of each p, in document order
    images: seq<ImageAttrs>)         // each img, in document order

  /**
   * The URL Standard's parser, through the two calls made of it: the origin
   * of an absolute URL (`new URL(url).origin`) and the `href` of a reference
   * resolved against a base (`new URL(src, base).href`). None is the
   * constructor throwing.
   */
  datatype UrlParser = UrlParser(
    origin: string -> Option<string>,
    resolve: (string, string) -> Option<string>)

  datatype ImageRecord = ImageRecord(src: string, alt: string)

  /** The extracted page. */
  datatype PageData = PageData(
    url: string,
    title: string,
    metaDescription: string,
    h1: seq<string>,
    paragraphs: seq<string>,
    images: seq<ImageRecord>)

  /** `named?.trim() || og?.trim() || ''`: the first meta value that is not blank, trimmed. */
  function MetaDescription(named: Option<string>, og: Option<string>): (r: string)
    ensures IsTrimmed(r)
    ensures named.Some? && !IsBlank(named.value) ==> r == Trim(named.value)
    ensures (named.None? || IsBlank(named.value)) && og.Some? && !IsBlank(og.value) ==> r == Trim(og.value)
    ensures (named.None? || IsBlank(named.value)) && (og.None? || IsBlank(og.value)) ==> r == ""
  {
    if named.Some? && !IsBlank(named.value) then Trim(named.value)
    else if og.Some? && !IsBlank(og.value) then Trim(og.value)
    else ""
  }

  /**
   * An image source as stored: kept when it starts with "http", otherwise
   * resolved against the page's origin, and kept as it is when either URL
   * cannot be parsed.
   */
  function AbsoluteSrc(src: string, pageUrl: string, parser: UrlParser): (r: string)
    ensures StartsWith(src, "http") ==> r == src
    ensures r != src ==> parser.origin(pageUrl).Some? && parser.resolve(src, parser.origin(pageUrl).value) == Some(r)
    ensures !StartsWith(src, "http") && parser.origin(pageUrl).Some? && parser.resolve(src, parser.origin(pageUrl).value).Some? ==>
              r == parser.resolve(src, parser.origin(pageUrl).value).value
    ensures !StartsWith(src, "http") && (parser.origin(pageUrl).None? || parser.resolve(src, parser.origin(pageUrl).value).None?) ==>
              r == src
  {
    if StartsWith(src, "http") then src
    else match parser.origin(pageUrl)
      case None => src
      case Some(o) => parser.resolve(src, o).GetOr(src)
  }

  /** The record an `<img>` contributes: one exactly when its src is present and not empty. */
  function KeepImage(img: ImageAttrs, pageUrl: string, parser: UrlParser): Option<ImageRecord> {
    if Truthy(img.src) then Some(ImageRecord(AbsoluteSrc(img.src.value, pageUrl, parser), Trim(img.alt.GetOr(""))))
    else None
  }

  /** KeepImage for one page. */
  function ImageFor(pageUrl: string, parser: UrlParser): ImageAttrs -> Option<ImageRecord> {
    (img: ImageAttrs) => KeepImage(img, pageUrl, parser)
  }

  function ExtractedImages(images: seq<ImageAttrs>, pageUrl: string, parser: UrlParser): seq<ImageRecord> {
    FilterMap(images, ImageFor(pageUrl, parser))
  }

  /**
   * An image yields a record exactly when its src is present and not empty;
   * the record's alt is the trimmed alt, or "" when there is none. Together
   * with FilterMapAppend this fixes the whole list, in document order.
   */
  lemma ImageRecordIff(img: ImageAttrs, pageUrl: string, parser: UrlParser)
    ensures ExtractedImages([img], pageUrl, parser) ==
              if Truthy(img.src) then [ImageRecord(AbsoluteSrc(img.src.value, pageUrl, parser), Trim(img.alt.GetOr("")))] else []
  {
    FilterMapSingle(img, ImageFor(pageUrl, parser));
  }

  /** No image with a source is dropped, whether or not its URL resolves. */
  lemma {:induction false} ImagesNeverDropped(images: seq<ImageAttrs>, pageUrl: string, parser: UrlParser)
    ensures |ExtractedImages(images, pageUrl, parser)| == |FilterMap(images, HasSrc)|
    decreases |images|
  {
    if images != [] {
      ImagesNeverDropped(images[..|images| - 1], pageUrl, parser);
    }
  }

  /** Keeps the images that have a source: the ones the extractor turns into records. */
  function HasSrc(img: ImageAttrs): Option<ImageAttrs> {
    if Truthy(img.src) then Some(img) else None
  }

  /** `Erreur HTTP: ${status} ${statusText}`. */
  function HttpFailure(status: nat, statusText: string): string {
    "Erreur HTTP: " + Decimal(status) + " " + statusText
  }

  /** `Erreur lors du scraping de ${url}: ${message}`. */
  function ScrapeFailure(url: string, message: string): string {
    "Erreur lors du scraping de " + url + ": " + message
  }

  /** The `$('img').each(...)` loop: one record per image that has a source. */
  method CollectImages(images: seq<ImageAttrs>, pageUrl: string, parser: UrlParser) returns (records: seq<ImageRecord>)
    ensures records == ExtractedImages(images, pageUrl, parser)
  {
    records := [];
    for i := 0 to |images|
      invariant records == ExtractedImages(images[..i], pageUrl, parser)
    {
      assert images[..i + 1][..i] == images[..i];
      assert ExtractedImages(images[..i + 1], pageUrl, parser) ==
             records + Kept(KeepImage(images[i], pageUrl, parser));
      var src := images[i].src;
      var alt := images[i].alt.GetOr("");
      if src.Some? && src.value != "" {
        var absoluteSrc := src.value;
        if !StartsWith(src.value, "http") {
          match parser.origin(pageUrl) {
            case Some(origin) =>
              match parser.resolve(src.value, origin) {
                case Some(href) => absoluteSrc := href;
                case None => absoluteSrc := src.value;
              }
            case None =>
              absoluteSrc := src.value;
          }
        }
        assert absoluteSrc == AbsoluteSrc(src.value, pageUrl, parser);
        records := records + [ImageRecord(absoluteSrc, Trim(alt))];
      }
    }
    assert images[..|images|] == images;
  }

  /**
   * `extractProductData`: a failed fetch or a non-OK status is an error and
   * nothing is extracted; otherwise every field comes from the page.
   */
  method ExtractProductData(url: string, reply: Reply<PageDocument>, parser: UrlParser) returns (r: Result<PageData, string>)
    ensures r.Failure? <==> !Succeeded(reply)
    ensures reply.NetworkFailure? ==> r == Failure(ScrapeFailure(url, reply.message))
    ensures reply.Response? && !IsOk(reply.status) ==>
              r == Failure(ScrapeFailure(url, HttpFailure(reply.status, reply.statusText)))
    ensures r.Success? ==>
              var page := reply.document;
              && r.value.url == url
              && r.value.title == Trim(page.titleText)
              && r.value.metaDescription == MetaDescription(page.metaDescription, page.ogDescription)
              && r.value.h1 == TrimmedTexts(page.h1Texts)
              && r.value.paragraphs == TrimmedTexts(page.paragraphTexts)
              && r.value.images == ExtractedImages(page.images, url, parser)
  {
    if reply.NetworkFailure? {
      return Failure(ScrapeFailure(url, reply.message));
    }
    if !IsOk(reply.status) {
      return Failure(ScrapeFailure(url, HttpFailure(reply.status, reply.statusText)));
    }
    var page := reply.document;
    var title := Trim(page.titleText);
    var metaDescription := MetaDescription(page.metaDescription, page.ogDescription);
    var h1 := Collect(page.h1Texts, KeepText);
    var paragraphs := Collect(page.paragraphTexts, KeepText);
    var images := CollectImages(page.images, url, parser);
    r := Success(PageData(url, title, metaDescription, h1, paragraphs, images));
  }
}
