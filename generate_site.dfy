/**
 * The page assembler: the generated copy and the scraped product become one
 * HTML document by template assembly, beside the fixed stylesheet. The call
 * to the generative model is left out; its answer is an input.
 */
module SiteGenerator {
  import opened Wrappers
  import opened Seqs
  import opened Text
  import opened Stylesheet
  import Scraper

  /** One generated section; `kind` is the model's `type` field, used unchecked. */
  datatype Section = Section(title: string, content: string, kind: string)

  /** The structured copy the generative model answers with. */
  datatype GeneratedContent = GeneratedContent(
    title: string,
    description: string,
    slug: string,
    sections: seq<Section>,
    keywords: seq<string>)

  /** A `<section>` element of the page. */
  datatype SectionBlock = SectionBlock(cssClass: string, heading: string, body: string)

  /** An `<img>` of the product gallery. */
  datatype GalleryImage = GalleryImage(src: string, alt: string)

  /** The page before it is written out: every value the template interpolates. */
  datatype Page = Page(
    title: string,
    description: string,
    keywords: string,
    socialImage: string,
    price: Option<string>,
    gallery: seq<GalleryImage>,
    sections: seq<SectionBlock>,
    year: nat)

  /** The page generation's result. */
  datatype AffiliatePage = AffiliatePage(
    html: string,
    css: string,
    title: string,
    description: string,
    slug: string,
    ogImage: string)

  datatype GenerationError =
    | MissingApiKey                        // no key configured: fails before any call
    | GenerationFailed(message: string)    // the generative call failed; the message says why

  const MaxGalleryImages: nat := 4
  const PlaceholderImage: string := "https://via.placeholder.com/1200x630"
  const MissingApiKeyMessage: string := "Clé API Google non configurée"

  /** The message a failure of the generative call is reported with. */
  function GenerationFailure(cause: string): string {
    "Impossible de générer la page affiliate: " + cause
  }

  /** The text of the error thrown for each failure. */
  function ErrorMessage(e: GenerationError): string {
    match e
    case MissingApiKey => MissingApiKeyMessage
    case GenerationFailed(message) => message
  }

  // ---------------------------------------------------------------------
  // The structure
  // ---------------------------------------------------------------------

  /** One block per section, in order, each classed after its type. */
  function SectionBlocks(sections: seq<Section>): (blocks: seq<SectionBlock>)
    ensures |blocks| == |sections|
    ensures forall i :: 0 <= i < |blocks| ==>
              blocks[i] == SectionBlock("section-" + sections[i].kind, sections[i].title, sections[i].content)
  {
    if sections == [] then []
    else
      var s := sections[0];
      [SectionBlock("section-" + s.kind, s.title, s.content)] + SectionBlocks(sections[1..])
  }

  /** The alt text of the gallery image numbered `n`, counting from 1. */
  function ImageAlt(productTitle: string, n: nat): string {
    productTitle + " - Image " + Decimal(n)
  }

  /** The gallery: the images from position `from` on, numbered from `from + 1`. */
  function GalleryFrom(productTitle: string, images: seq<string>, from: nat): (g: seq<GalleryImage>)
    requires from <= |images|
    ensures |g| == |images| - from
    ensures forall i :: 0 <= i < |g| ==> g[i] == GalleryImage(images[from + i], ImageAlt(productTitle, from + i + 1))
    decreases |images| - from
  {
    if from == |images| then []
    else [GalleryImage(images[from], ImageAlt(productTitle, from + 1))] + GalleryFrom(productTitle, images, from + 1)
  }

  /** The first at most four images, in order, with alt "<title> - Image i" for i from 1. */
  function Gallery(productTitle: string, images: seq<string>): (g: seq<GalleryImage>)
    ensures |g| == Min(MaxGalleryImages, |images|)
    ensures forall i :: 0 <= i < |g| ==> g[i] == GalleryImage(images[i], ImageAlt(productTitle, i + 1))
  {
    GalleryFrom(productTitle, Take(images, MaxGalleryImages), 0)
  }

  /** `images?.[0] || fallback`. */
  function FirstImageOr(images: seq<string>, fallback: string): (r: string)
    ensures images != [] && images[0] != "" ==> r == images[0]
    ensures images == [] || images[0] == "" ==> r == fallback
  {
    if images != [] && images[0] != "" then images[0] else fallback
  }

  /** What `generateHTML` interpolates, gathered before it is written out. */
  function AssemblePage(content: GeneratedContent, product: Scraper.ProductSummary, year: nat): (p: Page)
    ensures p.title == content.title && p.description == content.description && p.year == year
    ensures p.sections == SectionBlocks(content.sections)
    ensures p.gallery == Gallery(product.title, product.images)
    ensures p.price.Some? <==> product.price != ""
    ensures p.price.Some? ==> p.price.value == product.price
    ensures p.socialImage == FirstImageOr(product.images, "")
    ensures p.keywords == Join(content.keywords, ", ")
  {
    Page(
      content.title,
      content.description,
      Join(content.keywords, ", "),
      FirstImageOr(product.images, ""),
      if product.price != "" then Some(product.price) else None,
      Gallery(product.title, product.images),
      SectionBlocks(content.sections),
      year)
  }

  // ---------------------------------------------------------------------
  // The text
  // ---------------------------------------------------------------------

  function OpenTag(cssClass: string): string {
    "<section class=\"" + cssClass + "\">"
  }

  function HeadingTag(heading: string): string {
    "<h2>" + heading + "</h2>"
  }

  function RenderSection(b: SectionBlock): string {
    "\n    " + OpenTag(b.cssClass) + "\n      " + HeadingTag(b.heading)
    + "\n      <div class=\"section-content\">\n        " + b.body + "\n      </div>\n    </section>"
  }

  function RenderSections(blocks: seq<SectionBlock>): (out: seq<string>)
    ensures |out| == |blocks|
    ensures forall i :: 0 <= i < |out| ==> out[i] == RenderSection(blocks[i])
  {
    if blocks == [] then [] else [RenderSection(blocks[0])] + RenderSections(blocks[1..])
  }

  function RenderImage(g: GalleryImage): string {
    "\n      <div class=\"product-image\">\n        <img src=\"" + g.src + "\" alt=\"" + g.alt
    + "\" loading=\"lazy\" />\n      </div>"
  }

  function RenderImages(gallery: seq<GalleryImage>): (out: seq<string>)
    ensures |out| == |gallery|
    ensures forall i :: 0 <= i < |out| ==> out[i] == RenderImage(gallery[i])
  {
    if gallery == [] then [] else [RenderImage(gallery[0])] + RenderImages(gallery[1..])
  }

  /** The gallery `<div>`, written only when the joined images are not empty. */
  function GalleryHtml(gallery: seq<GalleryImage>): string {
    var images := Join(RenderImages(gallery), "\n");
    if images != "" then "<div class=\"product-gallery\">" + images + "</div>" else ""
  }

  /** The price `<span>`, written only when there is a price. */
  function PriceHtml(price: Option<string>): string {
    if price.Some? then "<span class=\"price\">" + price.value + "</span>" else ""
  }

  /** The sections, written one after another. */
  function SectionsHtml(blocks: seq<SectionBlock>): string {
    Join(RenderSections(blocks), "\n")
  }

  /** What fills a hole of the page template. */
  datatype Slot = Description | Keywords | Title | SocialImage | PriceTag | GalleryTag | SectionsTag | Year

  /** A stretch of a template line: fixed text, or a `${...}` hole. */
  datatype Piece = Fixed(text: string) | Hole(slot: Slot)

  /**
   * The document `generateHTML` writes, line by line: the head with its meta
   * tags, the header with the price, the gallery, the sections, the
   * disclaimer and the footer with the year.
   */
  const PageTemplate: seq<seq<Piece>> := [
    [Fixed("")],
    [Fixed("<!DOCTYPE html>")],
    [Fixed("<html lang=\"fr\">")],
    [Fixed("<head>")],
    [Fixed("  <meta charset=\"UTF-8\">")],
    [Fixed("  <meta name=\"viewport\" content=\"width=device-width, initial-scale=1.0\">")],
    [Fixed("  <meta name=\"description\" content=\""), Hole(Description), Fixed("\">")],
    [Fixed("  <meta name=\"keywords\" content=\""), Hole(Keywords), Fixed("\">")],
    [Fixed("")],
    [Fixed("  <!-- Open Graph / Social Media -->")],
    [Fixed("  <meta property=\"og:type\" content=\"article\">")],
    [Fixed("  <meta property=\"og:title\" content=\""), Hole(Title), Fixed("\">")],
    [Fixed("  <meta property=\"og:description\" content=\""), Hole(Description), Fixed("\">")],
    [Fixed("  <meta property=\"og:image\" content=\""), Hole(SocialImage), Fixed("\">")],
    [Fixed("")],
    [Fixed("  <!-- Twitter Card -->")],
    [Fixed("  <meta name=\"twitter:card\" content=\"summary_large_image\">")],
    [Fixed("  <meta name=\"twitter:title\" content=\""), Hole(Title), Fixed("\">")],
    [Fixed("  <meta name=\"twitter:description\" content=\""), Hole(Description), Fixed("\">")],
    [Fixed("  <meta name=\"twitter:image\" content=\""), Hole(SocialImage), Fixed("\">")],
    [Fixed("")],
    [Fixed("  <title>"), Hole(Title), Fixed("</title>")],
    [Fixed("")],
    [Fixed("  <link rel=\"stylesheet\" href=\"styles.css\">")],
    [Fixed("</head>")],
    [Fixed("<body>")],
    [Fixed("  <div class=\"container\">")],
    [Fixed("    <header class=\"site-header\">")],
    [Fixed("      <h1>"), Hole(Title), Fixed("</h1>")],
    [Fixed("      <div class=\"product-meta\">")],
    [Fixed("        "), Hole(PriceTag)],
    [Fixed("      </div>")],
    [Fixed("    </header>")],
    [Fixed("")],
    [Fixed("    <main class=\"main-content\">")],
    [Fixed("      "), Hole(GalleryTag)],
    [Fixed("")],
    [Fixed("      "), Hole(SectionsTag)],
    [Fixed("")],
    [Fixed("      <div class=\"affiliate-disclaimer\">")],
    [Fixed("        <p><small>\U{26A0}\U{FE0F} Cet article contient des liens affiliates. En achetant via ces liens, "
          + "vous soutenez notre travail sans frais supplémentaires.</small></p>")],
    [Fixed("      </div>")],
    [Fixed("    </main>")],
    [Fixed("")],
    [Fixed("    <footer class=\"site-footer\">")],
    [Fixed("      <p>&copy; "), Hole(Year), Fixed(" - Tous droits réservés</p>")],
    [Fixed("    </footer>")],
    [Fixed("  </div>")],
    [Fixed("</body>")],
    [Fixed("</html>")]
  ]

  /** The text a hole of the template is filled with. */
  function SlotValue(p: Page, s: Slot): string {
    match s
    case Description => p.description
    case Keywords => p.keywords
    case Title => p.title
    case SocialImage => p.socialImage
    case PriceTag => PriceHtml(p.price)
    case GalleryTag => GalleryHtml(p.gallery)
    case SectionsTag => SectionsHtml(p.sections)
    case Year => Decimal(p.year)
  }

  /** One template line with its holes filled. */
  function FillLine(line: seq<Piece>, p: Page): string {
    if line == [] then []
    else
      var first := match line[0] case Fixed(t) => t case Hole(s) => SlotValue(p, s);
      first + FillLine(line[1..], p)
  }

  function FillLines(lines: seq<seq<Piece>>, p: Page): (out: seq<string>)
    ensures |out| == |lines|
    ensures forall k :: 0 <= k < |out| ==> out[k] == FillLine(lines[k], p)
  {
    if lines == [] then [] else [FillLine(lines[0], p)] + FillLines(lines[1..], p)
  }

  function RenderPage(p: Page): string {
    Join(FillLines(PageTemplate, p), "\n")
  }

  /** `generateHTML`, with the footer's year as a parameter instead of the clock. */
  function GenerateHTML(content: GeneratedContent, product: Scraper.ProductSummary, year: nat): string {
    RenderPage(AssemblePage(content, product, year))
  }

  /** `generateCSS`. */
  function GenerateCSS(): string {
    StyleSheet()
  }

  // ---------------------------------------------------------------------
  // What the text shows
  // ---------------------------------------------------------------------

  /** The gallery `<div>` is written exactly when there is at least one image. */
  lemma GalleryShownIff(productTitle: string, images: seq<string>)
    ensures GalleryHtml(Gallery(productTitle, images)) != "" <==> images != []
  {
    var rendered := RenderImages(Gallery(productTitle, images));
    forall i | 0 <= i < |rendered|
      ensures rendered[i] != []
    {
      assert |rendered[i]| >= |"\n      <div class=\"product-image\">"|;
    }
    JoinEmpty(rendered, "\n");
  }

  /** The price `<span>` is written exactly when the price is not empty. */
  lemma PriceShownIff(content: GeneratedContent, product: Scraper.ProductSummary, year: nat)
    ensures PriceHtml(AssemblePage(content, product, year).price) != "" <==> product.price != ""
    ensures product.price != "" ==>
              PriceHtml(AssemblePage(content, product, year).price) == "<span class=\"price\">" + product.price + "</span>"
  {
  }

  /** Every line of the template, filled, stands whole in the page's text. */
  lemma LineInPage(p: Page, k: nat)
    requires k < |PageTemplate|
    ensures Contains(RenderPage(p), FillLine(PageTemplate[k], p))
  {
    JoinContains(FillLines(PageTemplate, p), "\n", k);
  }

  /** A line made of text, a hole and text, filled. */
  lemma FillHoleBetween(a: string, s: Slot, b: string, p: Page)
    ensures FillLine([Fixed(a), Hole(s), Fixed(b)], p) == a + SlotValue(p, s) + b
  {
    assert [Fixed(b)][1..] == [];
    assert FillLine([Fixed(b)], p) == b + [];
    assert [Hole(s), Fixed(b)][1..] == [Fixed(b)];
    assert FillLine([Hole(s), Fixed(b)], p) == SlotValue(p, s) + b;
    assert [Fixed(a), Hole(s), Fixed(b)][1..] == [Hole(s), Fixed(b)];
  }

  /** A line made of text followed by a hole, filled. */
  lemma FillHoleAfter(a: string, s: Slot, p: Page)
    ensures FillLine([Fixed(a), Hole(s)], p) == a + SlotValue(p, s)
  {
    assert [Hole(s)][1..] == [];
    assert FillLine([Hole(s)], p) == SlotValue(p, s) + [];
    assert [Fixed(a), Hole(s)][1..] == [Hole(s)];
  }

  /** A hole between two texts on a template line: the filled line stands whole in the page. */
  lemma HoleInPage(p: Page, k: nat, a: string, s: Slot, b: string)
    requires k < |PageTemplate| && PageTemplate[k] == [Fixed(a), Hole(s), Fixed(b)]
    ensures Contains(RenderPage(p), a + SlotValue(p, s) + b)
  {
    LineInPage(p, k);
    FillHoleBetween(a, s, b, p);
  }

  /** The page's sections stand, whole and unescaped, in the page's text. */
  lemma SectionsInPage(p: Page)
    ensures Contains(RenderPage(p), SectionsHtml(p.sections))
  {
    var line := FillLine(PageTemplate[37], p);
    LineInPage(p, 37);
    FillHoleAfter("      ", SectionsTag, p);
    ContainsInside("      ", SectionsHtml(p.sections), []);
    assert "      " + SectionsHtml(p.sections) + [] == line;
    ContainsTrans(RenderPage(p), line, SectionsHtml(p.sections));
  }

  /** The second, fourth and sixth of seven concatenated parts each stand whole in the result. */
  lemma PartsInside(a: string, o: string, b: string, h: string, c: string, body: string, d: string)
    ensures Contains(a + o + b + h + c + body + d, o)
    ensures Contains(a + o + b + h + c + body + d, h)
    ensures Contains(a + o + b + h + c + body + d, body)
  {
    var whole := a + o + b + h + c + body + d;
    ContainsInside(a, o, b + h + c + body + d);
    assert whole == a + o + (b + h + c + body + d);
    ContainsInside(a + o + b, h, c + body + d);
    assert whole == a + o + b + h + (c + body + d);
    ContainsInside(a + o + b + h + c, body, d);
  }

  /** A section block shows its class, its heading and its content, whole. */
  lemma BlockShowsSection(s: Section)
    ensures var block := RenderSection(SectionBlock("section-" + s.kind, s.title, s.content));
              && Contains(block, OpenTag("section-" + s.kind))
              && Contains(block, HeadingTag(s.title))
              && Contains(block, s.content)
  {
    PartsInside("\n    ", OpenTag("section-" + s.kind), "\n      ", HeadingTag(s.title),
                "\n      <div class=\"section-content\">\n        ", s.content, "\n      </div>\n    </section>");
  }

  /** The block written for section i stands whole in the page. */
  lemma {:induction false} BlockInPage(content: GeneratedContent, product: Scraper.ProductSummary, year: nat, i: nat)
    requires i < |content.sections|
    ensures var s := content.sections[i];
              Contains(GenerateHTML(content, product, year), RenderSection(SectionBlock("section-" + s.kind, s.title, s.content)))
  {
    var p := AssemblePage(content, product, year);
    var rendered := RenderSections(p.sections);
    JoinContains(rendered, "\n", i);
    SectionsInPage(p);
    ContainsTrans(RenderPage(p), SectionsHtml(p.sections), rendered[i]);
  }

  /**
   * Section i of the generated copy is written as a `<section>` classed
   * "section-" + its type, with its title in `<h2>` and its content inserted
   * verbatim, with no escaping.
   */
  lemma SectionVerbatim(content: GeneratedContent, product: Scraper.ProductSummary, year: nat, i: nat)
    requires i < |content.sections|
    ensures var s := content.sections[i];
              var html := GenerateHTML(content, product, year);
              && Contains(html, OpenTag("section-" + s.kind))
              && Contains(html, HeadingTag(s.title))
              && Contains(html, s.content)
  {
    var s := content.sections[i];
    var html := GenerateHTML(content, product, year);
    var block := RenderSection(SectionBlock("section-" + s.kind, s.title, s.content));
    BlockInPage(content, product, year, i);
    BlockShowsSection(s);
    ContainsTrans(html, block, OpenTag("section-" + s.kind));
    ContainsTrans(html, block, HeadingTag(s.title));
    ContainsTrans(html, block, s.content);
  }

  /** The social image is the first product image, or "" when there is none. */
  lemma SocialImageChoice(content: GeneratedContent, product: Scraper.ProductSummary, year: nat)
    ensures var p := AssemblePage(content, product, year);
              && (product.images != [] && product.images[0] != "" ==> p.socialImage == product.images[0])
              && (product.images == [] || product.images[0] == "" ==> p.socialImage == "")
  {
  }

  /** The og:image tag is in the page and carries the social image. */
  lemma OgImageTag(p: Page)
    ensures Contains(RenderPage(p), "  <meta property=\"og:image\" content=\"" + p.socialImage + "\">")
  {
    HoleInPage(p, 13, "  <meta property=\"og:image\" content=\"", SocialImage, "\">");
  }

  /** The twitter:image tag is in the page and carries the social image. */
  lemma TwitterImageTag(p: Page)
    ensures Contains(RenderPage(p), "  <meta name=\"twitter:image\" content=\"" + p.socialImage + "\">")
  {
    HoleInPage(p, 19, "  <meta name=\"twitter:image\" content=\"", SocialImage, "\">");
  }

  /** The page's title stands, unescaped, in its `<title>`. */
  lemma TitleTag(p: Page)
    ensures Contains(RenderPage(p), "  <title>" + p.title + "</title>")
  {
    HoleInPage(p, 21, "  <title>", Title, "</title>");
  }

  /** The page's title stands, unescaped, in its header's `<h1>`. */
  lemma TitleHeading(p: Page)
    ensures Contains(RenderPage(p), "      <h1>" + p.title + "</h1>")
  {
    HoleInPage(p, 28, "      <h1>", Title, "</h1>");
  }

  /** The page's description stands, unescaped, in the description meta. */
  lemma DescriptionTag(p: Page)
    ensures Contains(RenderPage(p), "  <meta name=\"description\" content=\"" + p.description + "\">")
  {
    HoleInPage(p, 6, "  <meta name=\"description\" content=\"", Description, "\">");
  }

  /** The footer carries the year it is given, in decimal. */
  lemma FooterYear(content: GeneratedContent, product: Scraper.ProductSummary, year: nat)
    ensures Contains(GenerateHTML(content, product, year), "      <p>&copy; " + Decimal(year) + " - Tous droits réservés</p>")
  {
    var p := AssemblePage(content, product, year);
    HoleInPage(p, 45, "      <p>&copy; ", Year, " - Tous droits réservés</p>");
  }

  // ---------------------------------------------------------------------
  // The whole page
  // ---------------------------------------------------------------------

  /** `generateAffiliatePage`: the og image is the first product image, or the placeholder. */
  function OgImage(images: seq<string>): (r: string)
    ensures images != [] && images[0] != "" ==> r == images[0]
    ensures images == [] || images[0] == "" ==> r == PlaceholderImage
  {
    FirstImageOr(images, PlaceholderImage)
  }

  /**
   * `generateAffiliatePage`. `apiKey` is the configured key and `generated`
   * the generative call's outcome; `year` stands for the clock.
   */
  function GenerateAffiliatePage(apiKey: Option<string>, generated: Result<GeneratedContent, string>,
                                 product: Scraper.ProductSummary, year: nat): (r: Result<AffiliatePage, GenerationError>)
    ensures !Truthy(apiKey) ==> r == Failure(MissingApiKey)
    ensures Truthy(apiKey) && generated.Failure? ==> r == Failure(GenerationFailed(GenerationFailure(generated.error)))
    ensures r.Success? <==> Truthy(apiKey) && generated.Success?
    ensures r.Failure? ==>
              ErrorMessage(r.error) == if !Truthy(apiKey) then MissingApiKeyMessage else GenerationFailure(generated.error)
    ensures r.Success? ==>
              && r.value.html == GenerateHTML(generated.value, product, year)
              && r.value.css == StyleSheet()
              && r.value.title == generated.value.title
              && r.value.description == generated.value.description
              && r.value.slug == generated.value.slug
              && r.value.ogImage == OgImage(product.images)
  {
    if !Truthy(apiKey) then Failure(MissingApiKey)
    else match generated
      case Failure(message) => Failure(GenerationFailed(GenerationFailure(message)))
      case Success(content) =>
        Success(AffiliatePage(
          GenerateHTML(content, product, year),
          GenerateCSS(),
          content.title,
          content.description,
          content.slug,
          OgImage(product.images)))
  }
}
