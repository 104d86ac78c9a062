/**
 * The request-path decisions of the web application: the https redirect, the `/home` redirect,
 * the post slug and response format read off a path, the sitemap's `lastmod` date, the payment
 * dashboard link, and the `Page` annotation that spans a rendered post.
 */
module App {
  import opened Wrappers
  import opened Js
  import opened Entities
  import opened Posts
  import opened Annotations
  import opened Documents
  import opened CardPasses

  /** The request fields the decisions read: `req.path` has no query, `req.url` keeps it. */
  datatype Request = Request(
    secure: bool, forwardedProto: Option<string>, protocol: string, host: string,
    path: string, url: string)

  // ---------------------------------------------------------------------------------------
  // The https redirect

  /**
   * The first middleware: a request the proxy says came over plain http is sent to the same
   * host and url over https, except the health check.
   */
  function HttpsRedirect(req: Request): (r: Option<string>)
    ensures r.Some? ==> StartsWith(r.value, "https://") && EndsWith(r.value, req.url)
    ensures r.Some? ==> |r.value| == |"https://"| + |req.host| + |req.url|
    ensures r.Some? ==> r.value[|"https://"|..|r.value| - |req.url|] == req.host
    ensures req.secure || req.path == "/health" ==> r.None?
  {
    if !req.secure && req.forwardedProto == Some("http") && req.path != "/health"
    then Some("https://" + req.host + req.url)
    else None
  }

  /**
   * The redirected request arrives with the proxy reporting https and is let through: the
   * redirect never loops; and it is taken exactly for plain-http requests other than the health
   * check.
   */
  lemma HttpsRedirectSettles(req: Request)
    ensures HttpsRedirect(req.(forwardedProto := Some("https"))).None?
    ensures HttpsRedirect(req).Some? <==>
      !req.secure && req.forwardedProto == Some("http") && req.path != "/health"
  {
    assert Some("https") != Some("http");
  }

  // ---------------------------------------------------------------------------------------
  // Slug and format of the catch-all route

  /** `s.replace(/<suffix>$/, "")` for a literal suffix. */
  function DropSuffix(s: string, suffix: string): (r: string)
    ensures EndsWith(s, suffix) ==> r + suffix == s
    ensures !EndsWith(s, suffix) ==> r == s
  {
    if EndsWith(s, suffix) then s[..|s| - |suffix|] else s
  }

  /**
   * The post slug of a path: the path without its first character, then without one trailing
   * `.json`, then one `.html`, then one `.hir`, in that order; nothing left means `home`.
   */
  function Slug(path: string): (r: string)
    ensures r != ""
  {
    var rest := if path == "" then "" else path[1..];
    var bare := DropSuffix(DropSuffix(DropSuffix(rest, ".json"), ".html"), ".hir");
    if bare == "" then "home" else bare
  }

  datatype Format = Html | Json | Hir

  /**
   * What the catch-all route sends for a loaded post: JSON when the client does not take HTML
   * or the path ends in `.json`, the HIR when it ends in `.hir`, rendered HTML otherwise.
   */
  function FormatOf(path: string, wantsHtml: bool): (r: Format)
    ensures r == Json <==> !wantsHtml || EndsWith(path, ".json")
    ensures r == Hir <==> wantsHtml && !EndsWith(path, ".json") && EndsWith(path, ".hir")
    ensures r == Html <==> wantsHtml && !EndsWith(path, ".json") && !EndsWith(path, ".hir")
  {
    if !wantsHtml || EndsWith(path, ".json") then Json
    else if EndsWith(path, ".hir") then Hir
    else Html
  }

  datatype Route = Redirect(location: string) | ServePost(slug: string, format: Format)

  /**
   * The path decisions of the catch-all route for a request that reaches the post lookup:
   * `/home` is sent to the site root before any lookup; any other path names a post by its slug,
   * in a format. The route's earlier branches (the editor and asset paths, the 400 answer for a
   * host without a group or website) are outside this model.
   */
  function Routed(req: Request, wantsHtml: bool): (r: Route)
    ensures r.Redirect? <==> req.path == "/home"
    ensures r.ServePost? ==> r.slug != ""
  {
    if req.path == "/home" then Redirect(req.protocol + "://" + req.host)
    else ServePost(Slug(req.path), FormatOf(req.path, wantsHtml))
  }

  /** A name the slug rules leave alone: not empty, and none of the stripped extensions at its end. */
  predicate PlainName(name: string) {
    name != "" && !EndsWith(name, ".json") && !EndsWith(name, ".html") && !EndsWith(name, ".hir")
  }

  predicate IsExtension(ext: string) {
    ext == "" || ext == ".json" || ext == ".html" || ext == ".hir"
  }

  lemma EndsWithLast(s: string, suffix: string)
    requires |suffix| > 0 && |s| > 0 && s[|s| - 1] != suffix[|suffix| - 1]
    ensures !EndsWith(s, suffix)
  {
  }

  lemma EndsWithItself(name: string, ext: string)
    ensures EndsWith(name + ext, ext) && (name + ext)[..|name + ext| - |ext|] == name
  {
    assert (name + ext)[|name + ext| - |ext|..] == ext;
  }

  /** The slug rules on `name + ext`, one extension at a time. */
  lemma StrippedJson(name: string)
    requires PlainName(name)
    ensures DropSuffix(DropSuffix(DropSuffix(name + ".json", ".json"), ".html"), ".hir") == name
  {
    EndsWithItself(name, ".json");
  }

  lemma StrippedHtml(name: string)
    requires PlainName(name)
    ensures DropSuffix(DropSuffix(DropSuffix(name + ".html", ".json"), ".html"), ".hir") == name
  {
    EndsWithItself(name, ".html");
    EndsWithLast(name + ".html", ".json");
  }

  lemma StrippedHir(name: string)
    requires PlainName(name)
    ensures DropSuffix(DropSuffix(DropSuffix(name + ".hir", ".json"), ".html"), ".hir") == name
  {
    EndsWithItself(name, ".hir");
    EndsWithLast(name + ".hir", ".json");
    EndsWithLast(name + ".hir", ".html");
  }

  /**
   * The slug round trip: a post's path `/` + slug, with or without one of the extensions,
   * names that post again.
   */
  lemma SlugOfPath(name: string, ext: string)
    requires PlainName(name) && IsExtension(ext)
    ensures Slug("/" + name + ext) == name
  {
    var path := "/" + name + ext;
    assert path[1..] == name + ext;
    if ext == "" {
      assert name + ext == name;
    } else if ext == ".json" {
      StrippedJson(name);
    } else if ext == ".html" {
      StrippedHtml(name);
    } else {
      StrippedHir(name);
    }
  }

  /** A suffix that does not start with `/` and that a name lacks, the name's path lacks too. */
  lemma RootedName(name: string, suffix: string)
    requires |suffix| > 0 && suffix[0] != '/' && !EndsWith(name, suffix)
    ensures !EndsWith("/" + name, suffix)
  {
  }

  /** The extension of a post's path picks the format an HTML client is sent. */
  lemma FormatOfPath(name: string, ext: string)
    requires PlainName(name) && IsExtension(ext)
    ensures FormatOf("/" + name + ext, true) == if ext == ".json" then Json else if ext == ".hir" then Hir else Html
  {
    var path := "/" + name + ext;
    assert path == "/" + (name + ext);
    if ext == "" {
      assert name + ext == name;
      RootedName(name, ".json");
      RootedName(name, ".hir");
    } else if ext == ".json" {
      EndsWithItself("/" + name, ext);
    } else if ext == ".html" {
      EndsWithLast(path, ".json");
      EndsWithLast(path, ".hir");
    } else {
      EndsWithLast(path, ".json");
      EndsWithItself("/" + name, ext);
    }
  }

  /**
   * The extensions come off in a fixed order, one each: `.html` after `.json` is stripped with
   * it, `.json` after `.html` is part of the slug; the root and a bare extension name `home`.
   */
  lemma SlugExamples()
    ensures Slug("/a.html.json") == "a"
    ensures Slug("/a.json.html") == "a.json"
    ensures Slug("/") == "home" && Slug("/.json") == "home"
  {
    assert EndsWith("a.html.json", ".json");
    assert DropSuffix("a.html.json", ".json") == "a.html";
    assert EndsWith("a.html", ".html");
    assert !EndsWith("a", ".hir");
    assert !EndsWith("a.json.html", ".json");
    assert EndsWith("a.json.html", ".html");
    assert DropSuffix("a.json.html", ".html") == "a.json";
    assert !EndsWith("a.json", ".hir");
    assert EndsWith(".json", ".json");
  }

  /** The `/home` redirect lands on the root, which serves the post whose slug is `home`. */
  lemma HomeRedirectLands(req: Request)
    requires req.path == "/home"
    ensures Routed(req, true) == Redirect(req.protocol + "://" + req.host)
    ensures Routed(req.(path := "/", url := "/"), true) == ServePost("home", Html)
  {
    assert !EndsWith("/", ".json") && !EndsWith("/", ".hir");
  }

  // ---------------------------------------------------------------------------------------
  // Sitemap and payments

  /**
   * `updatedAt.slice(0, updatedAt.indexOf("T"))`: the date part of an ISO timestamp. Without a
   * `T`, `indexOf` gives -1 and `slice(0, -1)` drops the last character.
   */
  function LastMod(iso: string): (r: string)
    ensures |r| <= |iso| && r == iso[..|r|]
  {
    match IndexOf(iso, "T")
    case Some(i) => iso[..i]
    case None => if iso == "" then "" else iso[..|iso| - 1]
  }

  /** The date written before the time of a timestamp is what the sitemap lists. */
  lemma LastModOfTimestamp(date: string, time: string)
    requires forall i | 0 <= i < |date| :: date[i] != 'T'
    ensures LastMod(date + "T" + time) == date
  {
    var iso := date + "T" + time;
    assert iso[|date|..|date| + 1] == "T";
    assert OccursAt(iso, "T", |date|);
    forall j | 0 <= j < |date| ensures !OccursAt(iso, "T", j) {
      assert iso[j..j + 1][0] == date[j];
    }
    assert IndexOf(iso, "T") == Some(|date|);
    assert iso[..|date|] == date;
  }

  const LiveDashboard := "https://dashboard.stripe.com/payments/"
  const TestDashboard := "https://dashboard.stripe.com/test/payments/"

  /** The dashboard link stored with a paid transaction: live keys link live payments. */
  function PaymentUrl(publishableKey: string, chargeId: string): (r: string)
    ensures StartsWith(publishableKey, "pk_live") ==> r == LiveDashboard + chargeId
    ensures !StartsWith(publishableKey, "pk_live") ==> r == TestDashboard + chargeId
  {
    IndexOfZeroIffPrefix(publishableKey, "pk_live");
    if IndexOf(publishableKey, "pk_live") == Some(0) then LiveDashboard + chargeId
    else TestDashboard + chargeId
  }

  /** A link tells the mode of the key and the charge it names: live and test links never meet. */
  lemma PaymentUrlTells(key: string, chargeId: string, key2: string, chargeId2: string)
    requires PaymentUrl(key, chargeId) == PaymentUrl(key2, chargeId2)
    ensures StartsWith(key, "pk_live") <==> StartsWith(key2, "pk_live")
    ensures chargeId == chargeId2
  {
    var r := PaymentUrl(key, chargeId);
    assert LiveDashboard[29] == 'p' && TestDashboard[29] == 't';
    assert (LiveDashboard + chargeId)[29] == 'p' && (TestDashboard + chargeId2)[29] == 't';
    assert (TestDashboard + chargeId)[29] == 't' && (LiveDashboard + chargeId2)[29] == 'p';
    if StartsWith(key, "pk_live") == StartsWith(key2, "pk_live") {
      var prefix := if StartsWith(key, "pk_live") then LiveDashboard else TestDashboard;
      assert chargeId == (prefix + chargeId)[|prefix|..];
      assert chargeId2 == (prefix + chargeId2)[|prefix|..];
    }
  }

  // ---------------------------------------------------------------------------------------
  // The page annotation

  /** The site fields a page copies from the group it is served for. */
  datatype Site = Site(hostname: string, name: string, email: string, locale: string, sections: seq<Section>)

  predicate IsOffsetParagraph(b: Body) { b.OffsetParagraph? }

  /**
   * The attributes of the page annotation: the trimmed text of the first paragraph in sort
   * order as the description, the first photo's url as the image, the post's own url.
   */
  function PageInfoFor(d: Draft, site: Site, post: Post, slug: string, protocol: string): (r: PageInfo)
    requires Fits(d)
    ensures r.description.None? <==> forall a | a in d.annotations :: !a.body.OffsetParagraph?
    ensures r.image.None? <==> forall a | a in d.annotations :: !a.body.QtcPhoto?
    ensures r.url == protocol + "://" + site.hostname + "/" + slug
  {
    var paragraph := FirstSorted(d.annotations, IsOffsetParagraph);
    var photo := FirstSorted(d.annotations, IsQtcPhoto);
    PageInfo(
      site.locale, post.title,
      if paragraph.Some? then Some(Trim(d.content[paragraph.value.start..paragraph.value.end])) else None,
      protocol + "://" + site.hostname + "/" + slug,
      if photo.Some? then Some(photo.value.body.url) else None,
      post.section, site.name, site.email, site.sections)
  }

  /**
   * The description is the text of a paragraph that no paragraph precedes in sort order, with
   * no white space left at either end; the image is the url of a photo that no photo precedes.
   */
  lemma PageInfoChosen(d: Draft, site: Site, post: Post, slug: string, protocol: string)
    requires Fits(d)
    ensures var r := PageInfoFor(d, site, post, slug, protocol);
      && (r.description.Some? ==>
            (exists a | a in d.annotations && a.body.OffsetParagraph? ::
               (forall b | b in d.annotations && b.body.OffsetParagraph? :: !SortsBefore(b, a))
               && r.description.value == Trim(d.content[a.start..a.end]))
            && (r.description.value == [] || (!IsSpace(r.description.value[0]) && !IsSpace(r.description.value[|r.description.value| - 1]))))
      && (r.image.Some? ==>
            exists a | a in d.annotations && a.body.QtcPhoto? ::
              (forall b | b in d.annotations && b.body.QtcPhoto? :: !SortsBefore(b, a))
              && r.image.value == a.body.url)
  {
    var r := PageInfoFor(d, site, post, slug, protocol);
    var paragraph := FirstSorted(d.annotations, IsOffsetParagraph);
    if paragraph.Some? {
      var a := paragraph.value;
      var t := d.content[a.start..a.end];
      TrimmedEnds(t);
      assert r.description.value == Trim(t);
    }
    var photo := FirstSorted(d.annotations, IsQtcPhoto);
    if photo.Some? {
      assert r.image.value == photo.value.body.url;
    }
  }

  lemma TrimmedEnds(s: string)
    ensures Trim(s) == [] || (!IsSpace(Trim(s)[0]) && !IsSpace(Trim(s)[|Trim(s)| - 1]))
  {
    var t := TrimStart(s);
    var r := TrimEnd(t);
    if r != [] {
      assert r[0] == t[0];
    }
  }

  /** The page annotation: the whole text, from its first character to its last. */
  function PageMark(d: Draft, site: Site, post: Post, slug: string, protocol: string): (r: Annotation)
    requires Fits(d)
    ensures r.start == 0 && r.end == |d.content| && r.body.Page?
  {
    Annotation(0, 0, |d.content|, Page(PageInfoFor(d, site, post, slug, protocol)))
  }

  /** `doc.addAnnotations(new Page(...))` on a state. */
  function Paged(d: Draft, site: Site, post: Post, slug: string, protocol: string): (r: Draft)
    requires Fits(d)
    ensures Fits(r)
  {
    WithAdded(d, [PageMark(d, site, post, slug, protocol)])
  }

  /**
   * Adding the page annotation keeps the text and every annotation as they were and appends one
   * annotation under a fresh id that covers the whole text and sorts before every annotation
   * that starts later or ends sooner.
   */
  lemma PagedCovers(d: Draft, site: Site, post: Post, slug: string, protocol: string)
    requires Fits(d) && IdsBelow(d.annotations, d.nextId)
    ensures var r := Paged(d, site, post, slug, protocol);
      && r.content == d.content && |r.annotations| == |d.annotations| + 1
      && r.annotations[..|d.annotations|] == d.annotations
      && var page := r.annotations[|d.annotations|];
         && page.body == Page(PageInfoFor(d, site, post, slug, protocol))
         && page.start == 0 && page.end == |r.content|
         && (forall a | a in d.annotations :: a.id != page.id && !SortsBefore(a, page))
         && IdsBelow(r.annotations, r.nextId)
  {
    var r := Paged(d, site, post, slug, protocol);
    assert r.annotations[..|d.annotations|] == d.annotations;
  }

  /** The page-info step of the catch-all route, on the document `fromRaw` returned. */
  method AnnotatePage(doc: Document, site: Site, post: Post, slug: string, protocol: string)
    requires doc.Valid()
    modifies doc
    ensures doc.Valid() && doc.State() == Paged(old(doc.State()), site, post, slug, protocol)
  {
    var mark := PageMark(Draft(doc.content, doc.annotations, doc.nextId), site, post, slug, protocol);
    doc.AddAnnotations([mark]);
  }
}
