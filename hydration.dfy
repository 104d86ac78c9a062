/**
 * `QTCSource.fromRaw(post)`: the post's compact body parsed into a document, then the hydration
 * passes in their fixed order — title line, empty paragraphs, rivers, tickets, itineraries, person
 * cards, location cards, photo cards, galleries, footnotes. The first pass that fails stops the
 * whole hydration with its failure.
 */
module Hydration {
  import opened Wrappers
  import opened Posts
  import opened Annotations
  import opened Documents
  import opened OpeningPasses
  import opened Rivers
  import opened CardPasses
  import opened ItineraryPass
  import opened ItineraryHydration
  import opened PersonHydration
  import opened FootnotePass

  /** A `where(...).update(f)` pass whose callback touches no text, on a state. */
  function Passed(d: Draft, f: Annotation -> Result<Action, Failure>): (r: Result<Draft, Failure>)
    requires Fits(d) && ActionsFit(d.annotations, f, |d.content|)
    ensures r.Ok? ==> Fits(r.value) && r.value.content == d.content && r.value.nextId == d.nextId
  {
    match Updated(d.annotations, f)
    case Err(e) => Err(e)
    case Ok(anns) =>
      UpdatedWithin(d.annotations, f, |d.content|);
      Ok(d.(annotations := anns))
  }

  /** The title line and the removal of empty paragraphs, then the river and ticket cards. */
  function CardsPlaced(d: Draft, post: Post, parse: string -> Option<Snapshot>, now: int): (r: Result<Draft, Failure>)
    requires Fits(d)
    ensures r.Ok? ==> Fits(r.value)
  {
    var begun := EmptyParagraphsDropped(Titled(d, post.slug, post.title));
    RiverCallbackClears(begun.annotations, post, parse, |begun.content|);
    match Passed(begun, RiverCallback(post, parse))
    case Err(e) => Err(e)
    case Ok(rivered) =>
      TicketActionsFit(rivered.annotations, post, now, |rivered.content|);
      Passed(rivered, TicketCallback(post, now, |rivered.content|))
  }

  /** The itinerary cards, then the person cards. */
  function CardsExpanded(d: Draft, post: Post, parse: string -> Option<Snapshot>, format: RangeFormat): (r: Result<Draft, Failure>)
    requires Fits(d)
    ensures r.Ok? ==> Fits(r.value)
  {
    match ItinerariesExpanded(d, post.group.timezone, post.events, format, parse)
    case Err(e) => Err(e)
    case Ok(scheduled) => PersonsExpanded(scheduled, post, parse)
  }

  /** The location, photo and gallery cards, which never fail, then the footnotes. */
  function CardsAttached(d: Draft, post: Post): (r: Draft)
    requires Fits(d)
    ensures Fits(r)
  {
    LocationCallbackClears(d.annotations, post.locations, |d.content|);
    UpdatedOk(d.annotations, LocationCallback(post.locations));
    var located := Passed(d, LocationCallback(post.locations)).value;
    PhotoCallbackClears(located.annotations, post.photos, |located.content|);
    UpdatedOk(located.annotations, PhotoCallback(post.photos));
    var pictured := Passed(located, PhotoCallback(post.photos)).value;
    GalleryCallbackClears(pictured.annotations, post.photos, |pictured.content|);
    UpdatedOk(pictured.annotations, GalleryCallback(post.photos));
    FootnotesMoved(Passed(pictured, GalleryCallback(post.photos)).value)
  }

  /** Every pass, in order, on a parsed body. */
  function HydratedFrom(d: Draft, post: Post, parse: string -> Option<Snapshot>, now: int, format: RangeFormat): (r: Result<Draft, Failure>)
    requires Fits(d)
    ensures r.Ok? ==> Fits(r.value)
  {
    match CardsPlaced(d, post, parse, now)
    case Err(e) => Err(e)
    case Ok(placed) =>
      match CardsExpanded(placed, post, parse, format)
      case Err(e) => Err(e)
      case Ok(expanded) => Ok(CardsAttached(expanded, post))
  }

  /** The document a parsed body starts as: its annotations numbered from 0. */
  function Parsed(s: Snapshot): (r: Draft)
    requires WellFormed(s)
    ensures Fits(r)
  {
    Draft(s.content, Stamp(s.annotations, 0), |s.annotations|)
  }

  /**
   * `fromRaw`: a body that does not parse stops the hydration before any pass; otherwise the
   * passes run on the parsed document.
   */
  function Hydrated(post: Post, parse: string -> Option<Snapshot>, now: int, format: RangeFormat): (r: Result<Draft, Failure>)
    ensures r.Ok? ==> Fits(r.value)
  {
    match parse(post.body)
    case None => Err(Malformed)
    case Some(s) => if WellFormed(s) then HydratedFrom(Parsed(s), post, parse, now, format) else Err(Malformed)
  }

  /** No location, photo or gallery card: the kinds the last card passes consume. */
  predicate Unattached(b: Body) {
    b.LocationCard? || b.PhotoCard? || b.GalleryCard?
  }

  /** `UpdatedClears`'s count, read as membership. */
  lemma NoneLeft(anns: seq<Annotation>, p: Body -> bool)
    requires CountWhere(anns, p) == 0
    ensures Free(anns, p)
  {
    CountWhereZero(anns, p);
    forall a | a in anns ensures !p(a.body) {
      var i :| 0 <= i < |anns| && anns[i] == a;
    }
  }

  /** What a pass keeps exactly, it keeps free of a type it neither consumes nor produces. */
  lemma StillNone(before: seq<Annotation>, after: seq<Annotation>, target: Body -> bool, made: Body -> bool, p: Body -> bool)
    requires Matching(after, Neither(target, made)) == Matching(before, Neither(target, made)) && Free(before, p)
    requires forall b: Body :: p(b) ==> !target(b) && !made(b)
    ensures Free(after, p)
  {
  }

  /**
   * A hydrated post holds no location, photo or gallery card: each of those passes leaves none of
   * its own kind and keeps the others exactly, and the footnotes only move what is there.
   */
  lemma AttachedFree(d: Draft, post: Post)
    requires Fits(d)
    ensures Free(CardsAttached(d, post).annotations, Unattached)
  {
    LocationCallbackClears(d.annotations, post.locations, |d.content|);
    UpdatedOk(d.annotations, LocationCallback(post.locations));
    UpdatedClears(d.annotations, LocationCallback(post.locations), IsLocationCard, IsQtcLocation);
    var located := Passed(d, LocationCallback(post.locations)).value;
    NoneLeft(located.annotations, IsLocationCard);
    PhotoCallbackClears(located.annotations, post.photos, |located.content|);
    UpdatedOk(located.annotations, PhotoCallback(post.photos));
    UpdatedClears(located.annotations, PhotoCallback(post.photos), IsPhotoCard, IsQtcPhoto);
    var pictured := Passed(located, PhotoCallback(post.photos)).value;
    NoneLeft(pictured.annotations, IsPhotoCard);
    StillNone(located.annotations, pictured.annotations, IsPhotoCard, IsQtcPhoto, IsLocationCard);
    GalleryCallbackClears(pictured.annotations, post.photos, |pictured.content|);
    UpdatedOk(pictured.annotations, GalleryCallback(post.photos));
    UpdatedClears(pictured.annotations, GalleryCallback(post.photos), IsGalleryCard, IsGallery);
    var galleried := Passed(pictured, GalleryCallback(post.photos)).value;
    NoneLeft(galleried.annotations, IsGalleryCard);
    StillNone(pictured.annotations, galleried.annotations, IsGalleryCard, IsGallery, IsLocationCard);
    StillNone(pictured.annotations, galleried.annotations, IsGalleryCard, IsGallery, IsPhotoCard);
    assert Free(galleried.annotations, Unattached);
    FootnotesMovedFree(galleried, Unattached);
  }

  lemma HydratedFree(post: Post, parse: string -> Option<Snapshot>, now: int, format: RangeFormat)
    requires Hydrated(post, parse, now, format).Ok?
    ensures Free(Hydrated(post, parse, now, format).value.annotations, Unattached)
  {
    var s := parse(post.body).value;
    var placed := CardsPlaced(Parsed(s), post, parse, now).value;
    AttachedFree(CardsExpanded(placed, post, parse, format).value, post);
  }

  /** A `where(...).update(f)` pass whose callback touches no text, as the document runs it. */
  method Pass(doc: Document, f: Annotation -> Result<Action, Failure>) returns (r: Result<(), Failure>)
    requires doc.Valid() && ActionsFit(doc.annotations, f, |doc.content|)
    modifies doc
    ensures doc.Valid()
    ensures Mirrors(r, Passed(old(doc.State()), f), doc.State())
  {
    r := doc.UpdateEach(f);
  }

  method PlaceCards(doc: Document, post: Post, parse: string -> Option<Snapshot>, now: int) returns (r: Result<(), Failure>)
    requires doc.Valid()
    modifies doc
    ensures r.Ok? ==> doc.Valid()
    ensures Mirrors(r, CardsPlaced(old(doc.State()), post, parse, now), doc.State())
  {
    InsertTitle(doc, post.slug, post.title);
    DropEmptyParagraphs(doc);
    RiverCallbackClears(doc.annotations, post, parse, |doc.content|);
    r := Pass(doc, RiverCallback(post, parse));
    if r.Err? {
      return;
    }
    TicketActionsFit(doc.annotations, post, now, |doc.content|);
    r := Pass(doc, TicketCallback(post, now, |doc.content|));
  }

  method ExpandCards(doc: Document, post: Post, parse: string -> Option<Snapshot>, format: RangeFormat) returns (r: Result<(), Failure>)
    requires doc.Valid()
    modifies doc
    ensures r.Ok? ==> doc.Valid()
    ensures Mirrors(r, CardsExpanded(old(doc.State()), post, parse, format), doc.State())
  {
    r := HydrateItineraries(doc, post.group.timezone, post.events, format, parse);
    if r.Err? {
      return;
    }
    r := HydratePersons(doc, post, parse);
  }

  method AttachCards(doc: Document, post: Post)
    requires doc.Valid()
    modifies doc
    ensures doc.Valid() && doc.State() == CardsAttached(old(doc.State()), post)
  {
    ghost var d := doc.State();
    LocationCallbackClears(doc.annotations, post.locations, |doc.content|);
    UpdatedOk(doc.annotations, LocationCallback(post.locations));
    var _ := Pass(doc, LocationCallback(post.locations));
    PhotoCallbackClears(doc.annotations, post.photos, |doc.content|);
    UpdatedOk(doc.annotations, PhotoCallback(post.photos));
    var _ := Pass(doc, PhotoCallback(post.photos));
    GalleryCallbackClears(doc.annotations, post.photos, |doc.content|);
    UpdatedOk(doc.annotations, GalleryCallback(post.photos));
    var _ := Pass(doc, GalleryCallback(post.photos));
    HydrateFootnotes(doc);
  }

  /** `QTCSource.fromRaw(post)`: the hydrated document, or the failure that stopped it. */
  method FromRaw(post: Post, parse: string -> Option<Snapshot>, now: int, format: RangeFormat)
    returns (doc: Document?, r: Result<(), Failure>)
    ensures r.Ok? ==> doc != null && doc.Valid()
    ensures r.Ok? <==> Hydrated(post, parse, now, format).Ok?
    ensures r.Err? ==> Hydrated(post, parse, now, format) == Err(r.error)
    ensures r.Ok? ==> doc.State() == Hydrated(post, parse, now, format).value
  {
    doc := null;
    var body := parse(post.body);
    if body.None? || !WellFormed(body.value) {
      return null, Err(Malformed);
    }
    doc := new Document.FromSnapshot(body.value);
    r := PlaceCards(doc, post, parse, now);
    if r.Err? {
      return;
    }
    r := ExpandCards(doc, post, parse, format);
    if r.Err? {
      return;
    }
    AttachCards(doc, post);
  }
}
