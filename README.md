# Prodify core, modelled in Dafny

Prodify turns a product URL into a one-page affiliate site and hosts it under a
subdomain. This project models the four parts of it that decide what happens, which span five files:

- **Scraping** (`lib/scraper/extract.ts`, `lib/scraper/index.ts`).
  - The page extractor reads the title, the meta description, the h1 and
    paragraph texts and the images out of a fetched page. Relative image
    sources are made absolute against the page's origin.
  - The product scraper dispatches on whether the URL contains `amazon.`.
    Amazon pages go through Amazon's selectors; other pages go through a
    generic heuristic that drops logos and icons. It keeps at most 5 images
    and 10 features.
  - Both are imperative loops that `push` into lists. They are modelled as
    methods with loops (`Extract.CollectImages`, `Seqs.Collect`). The methods
    are proved against the specification function `Seqs.FilterMap`, which
    `Seqs.FilterMapMembers` and `Seqs.FilterMapAppend` characterise.
- **Page generation** (`lib/ai/generateSite.ts`).
  - The generated copy and the scraped product are gathered into a `Page`:
    sections, gallery, price, social image and year.
  - The page is written out through the HTML template, which is modelled
    line by line as a constant `PageTemplate` with holes for the `${...}`
    interpolations.
  - The stylesheet is the constant `Stylesheet.StyleSheet()`.
  - The og-image falls back to a placeholder when there is no first image.
- **Publishing** (`app/api/publish/route.ts`).
  - POST runs a fixed chain of checks:
    - 401 when nobody is signed in;
    - 400 for an empty body or a body that is not JSON;
    - 400 when a required field is missing;
    - 400 when the slug does not match `^[a-z0-9]+(?:-[a-z0-9]+)*$`;
    - 409 when the slug is taken.
  - When every check passes, POST inserts one row. A failed insert gives 500.
  - GET lists the caller's rows, newest first.
  - The `sites` table is the `map` field of the class `Publish.SiteStore`.
  - The slug regular expression is a three-state automaton. It is proved to
    accept exactly the slugs described character by character.
- **Routing** (`proxy.ts`).
  - A host that is neither the main domain nor a `www.` host is a tenant
    subdomain. Its requests are rewritten to `/{subdomain}{path}`, except for
    framework, API and static paths.
  - Off tenant hosts, anonymous requests under `/dashboard` go to sign-in.
  - Off tenant hosts, signed-in requests under `/auth` go to the dashboard.

The hosted services are parameters of the model:
- the authentication service's answer, as `Option<UserId>` / `signedIn`;
- the database's answer to the insert, as `InsertOutcome`;
- `JSON.parse`'s result, as `ParsedBody`;
- the fetch, as `Http.Reply`;
- the DOM queries, as the lists they return;
- the WHATWG URL parser, as `Extract.UrlParser`;
- the generative model's answer;
- the environment variables;
- the clock (the footer's year).

JavaScript's `String.prototype.trim` is modelled over the full ECMAScript
whitespace and line-terminator set (`Text.IsSpace`).

One edge case of the code deserves a mention. A body that is the JSON literal
`null` passes the emptiness and parse checks. Destructuring its fields then
throws, and the outer handler answers 500 with the engine's message. The model
keeps this (`Publish.CheckRequest`, `NullBodyError`).

## Model

| member | source | states |
|---|---|---|
| Text.Trim | lib/scraper/extract.ts:37 | The result has no whitespace at either end, sits inside the input with only whitespace around it, and is empty exactly when the input is all whitespace |
| Text.TrimmedTextsMembers | lib/scraper/extract.ts:45-56 | A text is collected exactly when it is the non-empty trim of some element, and every collected text is trimmed and non-empty |
| Text.TrimmedTextsFirst | lib/scraper/index.ts:39-42 | When the first element's text is not blank, its trim is the first collected text |
| Text.JoinContains | lib/ai/generateSite.ts:217 | Every element of a `join` stands whole in the joined string |
| Text.Decimal | lib/ai/generateSite.ts:274 | The decimal rendering of a number is non-empty, made of digits, has no leading zero unless it is the single digit of a one-digit number, and its digits denote the number |
| Seqs.FilterMapMembers | lib/scraper/extract.ts:45-49 | A value is in the pushed list exactly when some element's test yields it |
| Seqs.FilterMapAppend | lib/scraper/extract.ts:53-56 | Push-in-loop is order-preserving: the list for a concatenation is the concatenation of the lists |
| Seqs.Collect | lib/scraper/extract.ts:52-56 | The loop that pushes the values the test keeps builds exactly FilterMap of its input |
| Seqs.Take | lib/scraper/index.ts:66-68 | `slice(0, n)` yields a prefix of length min(n, length) |
| Extract.MetaDescription | lib/scraper/extract.ts:40-42 | The named description trimmed when it is not blank, else the og:description trimmed when not blank, else ""; always trimmed |
| Extract.AbsoluteSrc | lib/scraper/extract.ts:64-75 | A source starting with "http" is kept. Any other source becomes its resolution against the page's origin when both URLs parse, and is kept as it is when either does not |
| Extract.ImageRecordIff | lib/scraper/extract.ts:60-81 | An image yields one record exactly when its src is present and non-empty, with the absolute src and the trimmed alt ("" when absent) |
| Extract.ImagesNeverDropped | lib/scraper/extract.ts:64-80 | Every image that has a source yields a record, whether or not its URL resolves |
| Extract.CollectImages | lib/scraper/extract.ts:59-82 | The image loop builds exactly the extracted records, in document order |
| Extract.ExtractProductData | lib/scraper/extract.ts:20-98 | A network failure or non-OK status fails with the wrapped HTTP or network message; otherwise the title, description, h1s, paragraphs and images are the ones specified above |
| Scraper.GenericTitle | lib/scraper/index.ts:51 | The first h1's trimmed text when not blank, else the og:title content, else "" |
| Scraper.GenericDescription | lib/scraper/index.ts:52 | The description meta when non-empty, else the og:description meta, else "" |
| Scraper.ScrapeProduct | lib/scraper/index.ts:12-74 | Any fetch failure gives the single scraper message. Amazon URLs take the title, first bullet, first price, up to 10 trimmed bullets and up to 5 present alt-image sources. Other URLs take the generic title and description, an empty price, no features and up to 5 clean image sources |
| Scraper.GallerySourcesIff | lib/scraper/index.ts:54-59 | A source is kept by the generic branch exactly when it is present, non-empty and contains neither "logo" nor "icon" |
| Scraper.GenericImagesClean | lib/scraper/index.ts:54-66 | Every image the generic branch returns is non-empty and names neither a logo nor an icon |
| Scraper.AmazonDescriptionLeadsFeatures | lib/scraper/index.ts:36-42 | On Amazon a non-blank first bullet is both the description and the first feature |
| Publish.SlugScanMeaning | app/api/publish/route.ts:83 | The automaton for the slug pattern accepts exactly the well-formed slugs, and waits for a run exactly after a hyphen that ends a well-formed prefix |
| Publish.SlugAccepted | app/api/publish/route.ts:83-84 | The slug regex accepts a slug iff it is non-empty, made of a-z, 0-9 and '-', with no hyphen first, last or doubled |
| Publish.SlugExamples | app/api/publish/route.ts:82-93 | "my-product-1" is accepted; "My Product", "-leading", "double--dash" and "" are rejected |
| Publish.CheckRequest | app/api/publish/route.ts:26-93 | The checks run in order: 401 without a user, 400 for an empty body, 400 for an unreadable or non-JSON body, 500 for a `null` body, 400 for missing fields, 400 for a bad slug. The request passes exactly when all of them do, and carries its fields and owner |
| Publish.AcceptedSlugsWellFormed | app/api/publish/route.ts:82-93 | Every slug that passes the checks is well formed |
| Publish.DescriptionNotRequired | app/api/publish/route.ts:72 | The description never decides whether a request passes |
| Publish.NewRecord | app/api/publish/route.ts:113-125 | The inserted row belongs to the caller, carries the slug and is published |
| Publish.SiteUrl | app/api/publish/route.ts:141-142 | The site URL is the configured base URL (or http://localhost:3000) followed by "/" and the slug |
| Publish.InsertNewestFirst | app/api/publish/route.ts:186 | Inserting into a newest-first list keeps it newest first and adds one element |
| Publish.InsertNewestFirstAdds | app/api/publish/route.ts:186 | Insertion adds exactly the new row and loses none (multisets) |
| Publish.SiteStore.Post | app/api/publish/route.ts:26-160 | A rejected request changes nothing. A taken slug gives 409 and changes nothing. A failed insert gives 500 and changes nothing. Otherwise exactly one row is added under the slug and the reply carries the id, the slug and the site URL. Every existing row is kept and the table stays keyed by well-formed slugs |
| Publish.SiteStore.List | app/api/publish/route.ts:165-202 | 401 without a user, 500 on a query error, otherwise exactly the caller's rows (as a multiset) newest first |
| Publish.NoRowsListsNothing | app/api/publish/route.ts:199-201 | A caller with no rows gets the empty list |
| Publish.PublishTwice | app/api/publish/route.ts:95-110 | Publishing the same slug twice: the first succeeds, the second is a 409 conflict |
| Proxy.MainDomain | proxy.ts:10 | The configured main domain when set and non-empty, else "localhost:3000" |
| Proxy.Subdomain | proxy.ts:15 | The subdomain is a prefix of the host with no '.', and is the whole host or stops at its first '.' |
| Proxy.Middleware | proxy.ts:4-69 | A request is rewritten exactly when its host is a tenant host and its path is not a system path, to "/" + subdomain + path (nothing for "/"). Redirects go only to /auth/signin or /dashboard |
| Proxy.MainAndWwwNeverRewritten | proxy.ts:13 | The main domain and www. hosts are never rewritten |
| Proxy.SystemPathsNeverRewritten | proxy.ts:18-20 | Paths under /_next, /api and /static are never rewritten |
| Proxy.RewriteIgnoresAuthentication | proxy.ts:13-25 | The tenant rewrite is decided before authentication: the same answer whether or not the caller is signed in |
| Proxy.AnonymousDashboardRedirects | proxy.ts:59-61 | Off tenant hosts, an anonymous request under /dashboard is redirected to /auth/signin |
| Proxy.SignedInAuthRedirects | proxy.ts:63-68 | Off tenant hosts, a signed-in request under /auth (and not under /dashboard) goes to /dashboard; a request neither rule catches passes through |
| Proxy.TenantPathRoundTrip | proxy.ts:22 | The rewritten path's first segment is the subdomain and the rest is the original path (empty for "/"), so the /[slug] route receives the subdomain |
| SiteGenerator.SectionBlocks | lib/ai/generateSite.ts:206-217 | One block per generated section, in order, classed "section-" + its type, with its title and content |
| SiteGenerator.Gallery | lib/ai/generateSite.ts:219-227 | The first at most four images, in order, the i-th with alt "<product title> - Image i" counting from 1 |
| SiteGenerator.FirstImageOr | lib/ai/generateSite.ts:242 | The first image when present and non-empty, else the fallback |
| SiteGenerator.AssemblePage | lib/ai/generateSite.ts:205-278 | The page carries the generated title and description, the given year, the section blocks, the gallery, the price exactly when it is non-empty, the first image as social image and the keywords joined with ", " |
| SiteGenerator.GalleryShownIff | lib/ai/generateSite.ts:219-227 | The gallery `<div>` is written exactly when the product has at least one image |
| SiteGenerator.PriceShownIff | lib/ai/generateSite.ts:259 | The price `<span>` is written exactly when the price is non-empty, and then holds it |
| SiteGenerator.LineInPage | lib/ai/generateSite.ts:229-278 | Every filled line of the template stands whole in the page |
| SiteGenerator.SectionsInPage | lib/ai/generateSite.ts:266 | The joined sections stand whole in the page |
| SiteGenerator.BlockShowsSection | lib/ai/generateSite.ts:208-215 | A section block shows its class tag, its `<h2>` title and its content whole |
| SiteGenerator.BlockInPage | lib/ai/generateSite.ts:206-217 | The block written for each section stands whole in the page |
| SiteGenerator.SectionVerbatim | lib/ai/generateSite.ts:206-217 | Each section's class tag, `<h2>` title and content appear in the page verbatim, with no escaping |
| SiteGenerator.SocialImageChoice | lib/ai/generateSite.ts:242 | The page's social image is the first product image, or "" when there is none |
| SiteGenerator.OgImageTag | lib/ai/generateSite.ts:242 | The og:image meta tag, carrying the social image, is in the page |
| SiteGenerator.TitleTag | lib/ai/generateSite.ts:250 | The `<title>` element, carrying the page's title unescaped, is in the page |
| SiteGenerator.TitleHeading | lib/ai/generateSite.ts:257 | The header's `<h1>`, carrying the page's title unescaped, is in the page |
| SiteGenerator.DescriptionTag | lib/ai/generateSite.ts:235 | The description meta tag, carrying the page's description unescaped, is in the page |
| SiteGenerator.TwitterImageTag | lib/ai/generateSite.ts:248 | The twitter:image meta tag, carrying the social image, is in the page |
| SiteGenerator.FooterYear | lib/ai/generateSite.ts:274 | The footer carries the given year in decimal |
| SiteGenerator.OgImage | lib/ai/generateSite.ts:51 | The og image is the first product image, or the placeholder when there is none |
| SiteGenerator.GenerateAffiliatePage | lib/ai/generateSite.ts:31-68 | Without an API key it fails before any call, with the missing-key message. A failed generation fails with the cause wrapped in "Impossible de générer la page affiliate: ". It succeeds exactly otherwise, with the rendered page, the constant stylesheet, the generated title, description and slug, and the og image |

## Left out

- The hosted authentication service, the database and the cookie callbacks (proxy.ts:31-52) are left out. Their answers are parameters.
- Concurrency is left out. The uniqueness check and the insert are not atomic in the source. A concurrent insert surfaces only as `InsertFailed`.
- The database error of the slug-existence lookup is left out. The source ignores it (route.ts:96-100), and the model treats the lookup as exact.
- The columns GET selects (route.ts:184) are not modelled, and neither is the `views` counter. The model returns whole rows.
- JSON field values that are present but not strings are not modelled; fields are `Option<string>`.
- `JSON.parse` is a parameter (`ParsedBody`). So are Cheerio's queries, which become the lists they return, and the WHATWG URL parser, which is `Extract.UrlParser`.
- The network, the request headers of the fetch and the logging are left out.
- The call to the generative model (prompt, HTTP request, response checks; generateSite.ts:73-200) is left out. Its outcome is the `generated` parameter.
- The error thrown from the catch of generateSite.ts:66, for a thrown value that is not an `Error`, is not modelled.
- The clock is a parameter: `year`.
- The `matcher` config of proxy.ts:71-75 is left out. The model treats every request as matched.
- `lib/ai/index.ts`, the API wrapper routes, the dashboard and public pages, and `lib/supabase/types.ts` are not part of this model.
- SiteGenerator.GenerateCSS has no contract of its own. The stylesheet is a constant, and GenerateAffiliatePage states that every page carries it.
- Proxy.Middleware: its own contract names the redirect targets but not when each applies. The lemmas AnonymousDashboardRedirects and SignedInAuthRedirects state that.
