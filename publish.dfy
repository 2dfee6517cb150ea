/**
 * The publish endpoint. POST runs a fixed chain of checks (authentication,
 * body, required fields, slug format, slug uniqueness) and then inserts one
 * row into the `sites` table; GET lists the caller's sites, newest first.
 * The table is a map from slug to row held by a SiteStore object; the hosted
 * auth service, JSON parser and database answers are parameters.
 */
module Publish {
  import opened Wrappers
  import opened Text

  type UserId = string

  // ---------------------------------------------------------------------
  // The slug pattern ^[a-z0-9]+(?:-[a-z0-9]+)*$
  // ---------------------------------------------------------------------

  predicate IsSlugChar(c: char) {
    'a' <= c <= 'z' || '0' <= c <= '9'
  }

  /** States of the automaton that recognises the slug pattern. */
  datatype SlugState =
    | ExpectRun  // at the start, or just after a hyphen: a run must begin
    | InRun      // inside a run of [a-z0-9]: the only accepting state
    | Rejected   // no continuation can match

  function SlugStep(st: SlugState, c: char): SlugState {
    match st
    case ExpectRun => if IsSlugChar(c) then InRun else Rejected
    case InRun => if IsSlugChar(c) then InRun else if c == '-' then ExpectRun else Rejected
    case Rejected => Rejected
  }

  /** The state after reading all of `s`. */
  function SlugScan(s: string): SlugState {
    if s == [] then ExpectRun else SlugStep(SlugScan(s[..|s| - 1]), s[|s| - 1])
  }

  /** `slugRegex.test(slug)`. */
  predicate MatchesSlugPattern(s: string) {
    SlugScan(s) == InRun
  }

  /**
   * The slug rule stated character by character: non-empty, only lower-case
   * letters, digits and hyphens, no hyphen first or last, no two hyphens in a row.
   */
  predicate WellFormedSlug(s: string) {
    && s != []
    && (forall i :: 0 <= i < |s| ==> IsSlugChar(s[i]) || s[i] == '-')
    && s[0] != '-'
    && s[|s| - 1] != '-'
    && (forall i :: 0 <= i < |s| - 1 ==> s[i] != '-' || s[i + 1] != '-')
  }

  /** Well-formed slugs extended by one character, from left to right. */
  lemma WellFormedGrows(p: string, c: char)
    requires IsSlugChar(c)
    requires p == [] || WellFormedSlug(p) || (p[|p| - 1] == '-' && WellFormedSlug(p[..|p| - 1]))
    ensures WellFormedSlug(p + [c])
  {
    var q := p + [c];
    if p != [] && !WellFormedSlug(p) {
      var r := p[..|p| - 1];
      assert q == r + ['-', c];
      assert forall i :: 0 <= i < |r| ==> q[i] == r[i];
      assert q[0] != '-';
    } else if p != [] {
      assert forall i :: 0 <= i < |p| ==> q[i] == p[i];
    }
  }

  /** A well-formed slug, its last character removed, is well formed or ends a run with a hyphen. */
  lemma WellFormedShrinks(p: string, c: char)
    requires WellFormedSlug(p + [c])
    ensures IsSlugChar(c)
    ensures p == [] || WellFormedSlug(p) || (p[|p| - 1] == '-' && WellFormedSlug(p[..|p| - 1]))
  {
    var q := p + [c];
    assert q[|q| - 1] == c;
    if p != [] {
      assert forall i :: 0 <= i < |p| ==> q[i] == p[i];
      if p[|p| - 1] == '-' {
        var r := p[..|p| - 1];
        assert |p| >= 2 by { assert q[0] != '-'; }
        assert q[|p| - 2] != '-' by { assert q[|p| - 1] == '-'; }
        assert forall i :: 0 <= i < |r| ==> q[i] == r[i];
        assert WellFormedSlug(r);
      }
    }
  }

  /** What each state of the automaton means about the text read so far. */
  lemma {:induction false} SlugScanMeaning(s: string)
    ensures SlugScan(s) == InRun <==> WellFormedSlug(s)
    ensures SlugScan(s) == ExpectRun <==> s == [] || (s[|s| - 1] == '-' && WellFormedSlug(s[..|s| - 1]))
  {
    if s != [] {
      var p, c := s[..|s| - 1], s[|s| - 1];
      assert s == p + [c];
      SlugScanMeaning(p);
      if IsSlugChar(c) && (p == [] || WellFormedSlug(p) || (p[|p| - 1] == '-' && WellFormedSlug(p[..|p| - 1]))) {
        WellFormedGrows(p, c);
      }
      if WellFormedSlug(s) {
        WellFormedShrinks(p, c);
      }
    }
  }

  /** A slug is accepted exactly when it is well formed. */
  lemma SlugAccepted(s: string)
    ensures MatchesSlugPattern(s) <==> WellFormedSlug(s)
  {
    SlugScanMeaning(s);
  }

  /** The slug rule on a few sample slugs. */
  lemma SlugExamples()
    ensures MatchesSlugPattern("my-product-1")
    ensures !MatchesSlugPattern("My Product")
    ensures !MatchesSlugPattern("-leading")
    ensures !MatchesSlugPattern("double--dash")
    ensures !MatchesSlugPattern("")
  {
    SlugAccepted("my-product-1");
    SlugAccepted("My Product");
    assert !IsSlugChar("My Product"[0]);
    SlugAccepted("-leading");
    SlugAccepted("double--dash");
    assert "double--dash"[6] == '-' && "double--dash"[7] == '-';
    SlugAccepted("");
  }

  // ---------------------------------------------------------------------
  // Requests, responses and rows
  // ---------------------------------------------------------------------

  /** The JSON fields of a publish request; None is an absent or null field. */
  datatype PublishRequest = PublishRequest(
    slug: Option<string>,
    title: Option<string>,
    description: Option<string>,
    html: Option<string>,
    css: Option<string>,
    ogImage: Option<string>,
    productUrl: Option<string>)

  /**
   * What `JSON.parse` makes of the body: a syntax error, the literal `null`,
   * or any other value, seen through its fields (a number, string, array or
   * object without the fields has them all absent).
   */
  datatype ParsedBody = NotJson | JsonNull | JsonValue(fields: PublishRequest)

  /** A request that passed every check, with the caller that sent it. */
  datatype Submission = Submission(
    owner: UserId,
    slug: string,
    title: string,
    description: Option<string>,
    html: string,
    css: string,
    ogImage: Option<string>,
    productUrl: Option<string>)

  datatype PostResponse =
    | Published(siteId: string, slug: string, url: string)
    | Failed(status: nat, error: string)

  /** A row of the `sites` table. */
  datatype SiteRecord = SiteRecord(
    id: string,
    owner: UserId,
    slug: string,
    title: string,
    description: Option<string>,
    html: string,
    css: string,
    ogImage: Option<string>,
    productUrl: Option<string>,
    published: bool,
    createdAt: int)

  /** The database's answer to the insert: an error, or the new row's id and creation time. */
  datatype InsertOutcome = InsertFailed | Inserted(id: string, createdAt: int)

  datatype ListResponse = Listed(sites: seq<SiteRecord>) | ListFailed(status: nat, error: string)

  const Unauthorized: string := "Non autorisé"
  const EmptyBody: string := "Le body de la requête est vide"
  const InvalidJson: string := "JSON invalide dans le body"
  const MissingFields: string := "Données manquantes (slug, title, html, css requis)"
  const BadSlug: string := "Le slug doit contenir uniquement des lettres minuscules, chiffres et tirets"
  const SlugTaken: string := "Ce slug est déjà utilisé. Choisissez-en un autre."
  const PublishError: string := "Erreur lors de la publication du site"
  const ListError: string := "Erreur lors de la récupération des sites"
  /** The JavaScript engine's message when the fields of a `null` body are destructured. */
  const NullBodyError: string := "Cannot destructure property 'slug' of 'body' as it is null."

  /** The four fields the endpoint requires; `description` is not among them. */
  predicate HasRequiredFields(f: PublishRequest) {
    Truthy(f.slug) && Truthy(f.title) && Truthy(f.html) && Truthy(f.css)
  }

  /**
   * The checks of POST before the database is consulted, in the order the
   * handler makes them. `rawBody` is None when reading the body fails;
   * `parsed` is what JSON.parse makes of it.
   */
  function CheckRequest(user: Option<UserId>, rawBody: Option<string>, parsed: ParsedBody): (r: Result<Submission, PostResponse>)
    ensures r.Failure? ==> r.error.Failed?
    ensures user.None? ==> r == Failure(Failed(401, Unauthorized))
    ensures user.Some? && rawBody.Some? && IsBlank(rawBody.value) ==> r == Failure(Failed(400, EmptyBody))
    ensures user.Some? && (rawBody.None? || (!IsBlank(rawBody.value) && parsed.NotJson?)) ==> r == Failure(Failed(400, InvalidJson))
    ensures user.Some? && rawBody.Some? && !IsBlank(rawBody.value) && parsed.JsonValue? && !HasRequiredFields(parsed.fields) ==>
              r == Failure(Failed(400, MissingFields))
    ensures user.Some? && rawBody.Some? && !IsBlank(rawBody.value) && parsed.JsonValue? && HasRequiredFields(parsed.fields)
              && !MatchesSlugPattern(parsed.fields.slug.value) ==>
              r == Failure(Failed(400, BadSlug))
    ensures user.Some? && rawBody.Some? && !IsBlank(rawBody.value) && parsed.JsonNull? ==> r == Failure(Failed(500, NullBodyError))
    ensures r.Success? <==>
              && user.Some? && rawBody.Some? && !IsBlank(rawBody.value) && parsed.JsonValue?
              && HasRequiredFields(parsed.fields) && MatchesSlugPattern(parsed.fields.slug.value)
    ensures r.Success? ==>
              var f := parsed.fields;
              r.value == Submission(user.value, f.slug.value, f.title.value, f.description, f.html.value, f.css.value, f.ogImage, f.productUrl)
  {
    if user.None? then Failure(Failed(401, Unauthorized))
    else if rawBody.None? then Failure(Failed(400, InvalidJson))
    else if IsBlank(rawBody.value) then Failure(Failed(400, EmptyBody))
    else match parsed
      case NotJson => Failure(Failed(400, InvalidJson))
      case JsonNull => Failure(Failed(500, NullBodyError))
      case JsonValue(f) =>
        if !HasRequiredFields(f) then Failure(Failed(400, MissingFields))
        else if !MatchesSlugPattern(f.slug.value) then Failure(Failed(400, BadSlug))
        else Success(Submission(user.value, f.slug.value, f.title.value, f.description, f.html.value, f.css.value, f.ogImage, f.productUrl))
  }

  /** Every slug that passes the checks is a well-formed slug. */
  lemma AcceptedSlugsWellFormed(user: Option<UserId>, rawBody: Option<string>, parsed: ParsedBody)
    requires CheckRequest(user, rawBody, parsed).Success?
    ensures WellFormedSlug(CheckRequest(user, rawBody, parsed).value.slug)
  {
    SlugAccepted(parsed.fields.slug.value);
  }

  /** The description is optional: its value never decides whether a request passes. */
  lemma DescriptionNotRequired(user: Option<UserId>, rawBody: Option<string>, f: PublishRequest, d: Option<string>)
    ensures CheckRequest(user, rawBody, JsonValue(f)).Success? == CheckRequest(user, rawBody, JsonValue(f.(description := d))).Success?
  {
  }

  /** The row POST inserts for a submission. */
  function NewRecord(s: Submission, id: string, createdAt: int): (r: SiteRecord)
    ensures r.owner == s.owner && r.slug == s.slug && r.published
  {
    SiteRecord(id, s.owner, s.slug, s.title, s.description, s.html, s.css, s.ogImage, s.productUrl, true, createdAt)
  }

  /** The application's base URL when the environment does not name one. */
  const DefaultAppUrl: string := "http://localhost:3000"

  /** `${process.env.NEXT_PUBLIC_APP_URL || 'http://localhost:3000'}/${slug}`. */
  function SiteUrl(appUrlEnv: Option<string>, slug: string): (url: string)
    ensures appUrlEnv.Some? && appUrlEnv.value != "" ==> url == appUrlEnv.value + "/" + slug
    ensures appUrlEnv.None? || appUrlEnv.value == "" ==> url == DefaultAppUrl + "/" + slug
  {
    (if appUrlEnv.Some? && appUrlEnv.value != "" then appUrlEnv.value else DefaultAppUrl) + "/" + slug
  }

  // ---------------------------------------------------------------------
  // Listing order
  // ---------------------------------------------------------------------

  /** Ordered by creation time, most recent first. */
  predicate NewestFirst(rs: seq<SiteRecord>) {
    forall i, j :: 0 <= i < j < |rs| ==> rs[i].createdAt >= rs[j].createdAt
  }

  /** Puts `r` into a newest-first list, keeping it newest first. */
  function InsertNewestFirst(rs: seq<SiteRecord>, r: SiteRecord): (out: seq<SiteRecord>)
    requires NewestFirst(rs)
    ensures NewestFirst(out)
    ensures |out| == |rs| + 1
    ensures out[0] == r || (rs != [] && out[0] == rs[0])
  {
    if rs == [] || r.createdAt >= rs[0].createdAt then
      [r] + rs
    else
      var tail := InsertNewestFirst(rs[1..], r);
      assert rs[0].createdAt >= tail[0].createdAt;
      [rs[0]] + tail
  }

  /** Insertion adds the row and loses none. */
  lemma {:induction false} InsertNewestFirstAdds(rs: seq<SiteRecord>, r: SiteRecord)
    requires NewestFirst(rs)
    ensures multiset(InsertNewestFirst(rs, r)) == multiset(rs) + multiset{r}
  {
    if rs != [] && r.createdAt < rs[0].createdAt {
      InsertNewestFirstAdds(rs[1..], r);
      assert rs == [rs[0]] + rs[1..];
    }
  }

  /** Every row is filed under its own slug. */
  predicate KeyedBySlug(sites: map<string, SiteRecord>) {
    forall k :: k in sites ==> sites[k].slug == k
  }

  /** The rows of the table that belong to `user`. */
  ghost function OwnedBy(sites: map<string, SiteRecord>, user: UserId): set<SiteRecord> {
    OwnedAmong(sites, sites.Keys, user)
  }

  /** The rows filed under `keys` that belong to `user`. */
  ghost function OwnedAmong(sites: map<string, SiteRecord>, keys: set<string>, user: UserId): set<SiteRecord>
    requires keys <= sites.Keys
  {
    set k | k in keys && sites[k].owner == user :: sites[k]
  }

  /** Taking in one more key adds its row when the row is the user's, and nothing else. */
  lemma OwnedAmongStep(sites: map<string, SiteRecord>, keys: set<string>, k: string, user: UserId)
    requires keys <= sites.Keys && k in sites && k !in keys
    requires KeyedBySlug(sites)
    ensures sites[k] !in OwnedAmong(sites, keys, user)
    ensures OwnedAmong(sites, keys + {k}, user) ==
              OwnedAmong(sites, keys, user) + (if sites[k].owner == user then {sites[k]} else {})
  {
  }

  /** One more key taken in by the GET loop keeps the rows collected so far exact and in order. */
  lemma CollectStep(sites: map<string, SiteRecord>, done: set<string>, k: string, user: UserId, found: seq<SiteRecord>)
    requires KeyedBySlug(sites) && done <= sites.Keys && k in sites && k !in done
    requires NewestFirst(found) && multiset(found) == multiset(OwnedAmong(sites, done, user))
    ensures var next := if sites[k].owner == user then InsertNewestFirst(found, sites[k]) else found;
              && NewestFirst(next)
              && multiset(next) == multiset(OwnedAmong(sites, done + {k}, user))
  {
    OwnedAmongStep(sites, done, k, user);
    if sites[k].owner == user {
      InsertNewestFirstAdds(found, sites[k]);
    }
  }

  // ---------------------------------------------------------------------
  // The table
  // ---------------------------------------------------------------------

  class SiteStore {
    /** The `sites` table, keyed by slug. */
    var sites: map<string, SiteRecord>

    /** Each row is filed under its own slug, and every slug has the slug shape. */
    ghost predicate Valid()
      reads this
    {
      KeyedBySlug(sites) && forall k :: k in sites ==> MatchesSlugPattern(k)
    }

    constructor ()
      ensures Valid()
      ensures sites == map[]
    {
      sites := map[];
    }

    /**
     * POST /api/publish: the checks, then the uniqueness lookup, then one
     * insert. `insert` is what the database answers to the insert.
     */
    method Post(user: Option<UserId>, rawBody: Option<string>, parsed: ParsedBody, insert: InsertOutcome, appUrlEnv: Option<string>)
      returns (resp: PostResponse)
      requires Valid()
      modifies this
      ensures Valid()
      ensures forall k :: k in old(sites) ==> k in sites && sites[k] == old(sites)[k]
      ensures var c := CheckRequest(user, rawBody, parsed);
        && (c.Failure? ==> resp == c.error && sites == old(sites))
        && (c.Success? && c.value.slug in old(sites) ==> resp == Failed(409, SlugTaken) && sites == old(sites))
        && (c.Success? && c.value.slug !in old(sites) && insert.InsertFailed? ==>
              resp == Failed(500, PublishError) && sites == old(sites))
        && (c.Success? && c.value.slug !in old(sites) && insert.Inserted? ==>
              && resp == Published(insert.id, c.value.slug, SiteUrl(appUrlEnv, c.value.slug))
              && sites == old(sites)[c.value.slug := NewRecord(c.value, insert.id, insert.createdAt)])
    {
      var checked := CheckRequest(user, rawBody, parsed);
      if checked.Failure? {
        return checked.error;
      }
      var submission := checked.value;
      if submission.slug in sites {
        return Failed(409, SlugTaken);
      }
      if insert.InsertFailed? {
        return Failed(500, PublishError);
      }
      sites := sites[submission.slug := NewRecord(submission, insert.id, insert.createdAt)];
      resp := Published(insert.id, submission.slug, SiteUrl(appUrlEnv, submission.slug));
    }

    /**
     * GET /api/publish: the caller's rows, most recent first. `queryFails`
     * stands for the database reporting an error.
     */
    method List(user: Option<UserId>, queryFails: bool) returns (resp: ListResponse)
      requires Valid()
      ensures user.None? ==> resp == ListFailed(401, Unauthorized)
      ensures user.Some? && queryFails ==> resp == ListFailed(500, ListError)
      ensures user.Some? && !queryFails ==>
                && resp.Listed?
                && NewestFirst(resp.sites)
                && multiset(resp.sites) == multiset(OwnedBy(sites, user.value))
    {
      if user.None? {
        return ListFailed(401, Unauthorized);
      }
      if queryFails {
        return ListFailed(500, ListError);
      }
      var owner := user.value;
      var pending := sites.Keys;
      var found: seq<SiteRecord> := [];
      ghost var done: set<string> := {};
      while pending != {}
        invariant done == sites.Keys - pending
        invariant pending <= sites.Keys
        invariant NewestFirst(found)
        invariant multiset(found) == multiset(OwnedAmong(sites, done, owner))
        decreases pending
      {
        var k :| k in pending;
        CollectStep(sites, done, k, owner, found);
        if sites[k].owner == owner {
          found := InsertNewestFirst(found, sites[k]);
        }
        pending := pending - {k};
        done := done + {k};
      }
      assert done == sites.Keys;
      resp := Listed(found);
    }
  }

  /** With no rows of the caller's, GET answers with the empty list. */
  lemma NoRowsListsNothing(rs: seq<SiteRecord>, sites: map<string, SiteRecord>, user: UserId)
    requires multiset(rs) == multiset(OwnedBy(sites, user))
    requires forall k :: k in sites ==> sites[k].owner != user
    ensures rs == []
  {
    assert OwnedBy(sites, user) == {};
    assert |multiset(rs)| == |rs| == 0;
  }

  /** Publishing one slug twice in a row: the first succeeds, the second is a conflict. */
  method PublishTwice(store: SiteStore, user: Option<UserId>, rawBody: Option<string>, parsed: ParsedBody,
                      first: InsertOutcome, second: InsertOutcome, appUrlEnv: Option<string>)
    returns (r1: PostResponse, r2: PostResponse)
    requires store.Valid()
    requires CheckRequest(user, rawBody, parsed).Success?
    requires CheckRequest(user, rawBody, parsed).value.slug !in store.sites
    requires first.Inserted?
    modifies store
    ensures r1.Published? && r1.slug == CheckRequest(user, rawBody, parsed).value.slug
    ensures r2 == Failed(409, SlugTaken)
  {
    r1 := store.Post(user, rawBody, parsed, first, appUrlEnv);
    r2 := store.Post(user, rawBody, parsed, second, appUrlEnv);
  }
}
