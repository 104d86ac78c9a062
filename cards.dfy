/**
 * The hydration passes that resolve a card against the post's loaded entities without editing
 * text: ticket cards become buy buttons, location and photo cards become resolved locations and
 * photos (or vanish when the entity is missing), gallery cards become galleries.
 */
module CardPasses {
  import opened Wrappers
  import opened Js
  import opened Collections
  import opened Entities
  import opened TicketModel
  import opened Posts
  import opened Annotations
  import opened Documents

  // ---------------------------------------------------------------------------------------
  // Ticket cards

  /** `ticketId.indexOf(ticket.id) !== -1`: the ticket's id, in decimal, occurs in `ticketId`. */
  function NamedIn(ticketId: string): Ticket -> bool {
    (t: Ticket) => IndexOf(ticketId, IntToString(t.id)).Some?
  }

  /** `ticket.validFrom < now && now < ticket.validTo`; an invalid date compares false. */
  predicate OnSale(t: Ticket, now: int) {
    t.validFrom.Some? && t.validTo.Some? && t.validFrom.value < now < t.validTo.value
  }

  function BuyButtonFor(t: Ticket, callToAction: string, group: Group): Body {
    BuyButton(group.code + "-" + IntToString(t.id), callToAction, group.locale, t.description,
              t.cost, AsciiLower(t.currency), StripeFee(t.cost))
  }

  /** The ticket pass's callback on one annotation of a text of length `len`. */
  function TicketAction(post: Post, now: int, len: nat, a: Annotation): Result<Action, Failure> {
    if !a.body.TicketCard? then Ok(Keep)
    else
      match Find(post.tickets, NamedIn(a.body.ticketId))
      case None => Err(MissingTicket)
      case Some(t) =>
        if !OnSale(t, now) then Ok(Keep)
        else if a.start + 1 <= len then
          Ok(Become(a.start, a.start + 1, BuyButtonFor(t, a.body.callToAction, post.group)))
        else Err(RangeError)
  }

  function TicketCallback(post: Post, now: int, len: nat): Annotation -> Result<Action, Failure> {
    (a: Annotation) => TicketAction(post, now, len, a)
  }

  /**
   * A ticket card names the first ticket whose id occurs in its `ticketId`; naming none is a
   * failure. Off sale, the card stays as it is; on sale, it becomes a buy button over its first
   * character whose code is `<group code>-<ticket id>`, whose currency is lower-cased and whose
   * fee is the card processor's fee on the ticket's cost.
   */
  lemma TicketActionCases(post: Post, now: int, len: nat, a: Annotation)
    requires a.body.TicketCard?
    ensures Find(post.tickets, NamedIn(a.body.ticketId)).None? ==>
      TicketAction(post, now, len, a) == Err(MissingTicket)
    ensures forall t ::
      IsFirstMatch(post.tickets, NamedIn(a.body.ticketId), Some(t)) && !OnSale(t, now) ==>
        TicketAction(post, now, len, a) == Ok(Keep)
    ensures forall t ::
      IsFirstMatch(post.tickets, NamedIn(a.body.ticketId), Some(t)) && OnSale(t, now) && a.start < len ==>
        match TicketAction(post, now, len, a)
        case Ok(Become(s, e, b)) =>
          s == a.start && e == a.start + 1 && b.BuyButton? &&
          b.code == post.group.code + "-" + IntToString(t.id) &&
          b.callToAction == a.body.callToAction && b.locale == post.group.locale &&
          b.description == t.description && b.cost == t.cost &&
          b.currency == AsciiLower(t.currency) && b.cost + b.stripeFee == Total(t.cost)
        case _ => false
  {
    forall t | IsFirstMatch(post.tickets, NamedIn(a.body.ticketId), Some(t))
      ensures Find(post.tickets, NamedIn(a.body.ticketId)) == Some(t)
    {
      FirstMatchIsFind(post.tickets, NamedIn(a.body.ticketId), Some(t));
    }
  }

  lemma TicketActionsFit(anns: seq<Annotation>, post: Post, now: int, len: nat)
    ensures ActionsFit(anns, TicketCallback(post, now, len), len)
  {
  }

  /** `where({type: "-mobiledoc-ticket-card"}).update(...)`. */
  method HydrateTickets(doc: Document, post: Post, now: int) returns (r: Result<(), Failure>)
    requires doc.Valid()
    modifies doc
    ensures doc.Valid() && doc.content == old(doc.content) && doc.nextId == old(doc.nextId)
    ensures r.Ok? <==> Updated(old(doc.annotations), TicketCallback(post, now, |old(doc.content)|)).Ok?
    ensures r.Ok? ==> doc.annotations == Updated(old(doc.annotations), TicketCallback(post, now, |old(doc.content)|)).value
  {
    TicketActionsFit(doc.annotations, post, now, |doc.content|);
    r := doc.UpdateEach(TicketCallback(post, now, |doc.content|));
  }

  // ---------------------------------------------------------------------------------------
  // Location cards

  predicate IsLocationCard(b: Body) { b.LocationCard? }

  predicate IsQtcLocation(b: Body) { b.QtcLocation? }

  /** `parseInt(card.locationId, 10) == loc.id`. */
  function LocationNamed(locationId: Scalar): Location -> bool {
    (loc: Location) => ParseInt(locationId) == Some(loc.id)
  }

  /** The location with the card's extended address in place of its own when the card has one. */
  function Placed(cardExtendedAddress: Option<string>, loc: Location): (r: Location)
    ensures Truthy(cardExtendedAddress) ==> r.extendedAddress == cardExtendedAddress
    ensures !Truthy(cardExtendedAddress) ==> r.extendedAddress == loc.extendedAddress
    ensures r.(extendedAddress := loc.extendedAddress) == loc
  {
    loc.(extendedAddress := OrElse(cardExtendedAddress, loc.extendedAddress))
  }

  function LocationAction(locations: seq<Location>, a: Annotation): Action {
    if !a.body.LocationCard? then Keep
    else
      match Find(locations, LocationNamed(a.body.locationId))
      case None => Drop
      case Some(loc) => Become(a.start, a.end, QtcLocation(Placed(a.body.cardExtendedAddress, loc)))
  }

  function LocationCallback(locations: seq<Location>): Annotation -> Result<Action, Failure> {
    (a: Annotation) => Ok(LocationAction(locations, a))
  }

  /**
   * A location card whose location was loaded becomes that location over the same span; one
   * whose location is missing is removed. The callback never fails and touches nothing else.
   */
  lemma LocationActionCases(locations: seq<Location>, a: Annotation)
    requires a.body.LocationCard?
    ensures Find(locations, LocationNamed(a.body.locationId)).None? <==> LocationAction(locations, a) == Drop
    ensures forall loc :: IsFirstMatch(locations, LocationNamed(a.body.locationId), Some(loc)) ==>
      LocationAction(locations, a) == Become(a.start, a.end, QtcLocation(Placed(a.body.cardExtendedAddress, loc)))
  {
    forall loc | IsFirstMatch(locations, LocationNamed(a.body.locationId), Some(loc))
      ensures Find(locations, LocationNamed(a.body.locationId)) == Some(loc)
    {
      FirstMatchIsFind(locations, LocationNamed(a.body.locationId), Some(loc));
    }
  }

  lemma LocationCallbackClears(anns: seq<Annotation>, locations: seq<Location>, len: nat)
    requires AllWithin(anns, len)
    ensures Clears(anns, LocationCallback(locations), IsLocationCard, IsQtcLocation)
    ensures ActionsFit(anns, LocationCallback(locations), len)
  {
  }

  /** `where({type: "-mobiledoc-location-card"}).update(...)`. */
  method HydrateLocations(doc: Document, locations: seq<Location>)
    requires doc.Valid()
    modifies doc
    ensures doc.Valid() && doc.content == old(doc.content) && doc.nextId == old(doc.nextId)
    ensures Updated(old(doc.annotations), LocationCallback(locations)).Ok?
    ensures doc.annotations == Updated(old(doc.annotations), LocationCallback(locations)).value
    ensures CountWhere(doc.annotations, IsLocationCard) == 0
    ensures Matching(doc.annotations, Neither(IsLocationCard, IsQtcLocation))
         == Matching(old(doc.annotations), Neither(IsLocationCard, IsQtcLocation))
  {
    LocationCallbackClears(doc.annotations, locations, |doc.content|);
    UpdatedOk(doc.annotations, LocationCallback(locations));
    UpdatedClears(doc.annotations, LocationCallback(locations), IsLocationCard, IsQtcLocation);
    var _ := doc.UpdateEach(LocationCallback(locations));
  }

  // ---------------------------------------------------------------------------------------
  // Photo cards

  predicate IsPhotoCard(b: Body) { b.PhotoCard? }

  predicate IsQtcPhoto(b: Body) { b.QtcPhoto? }

  /** `photo.id == card.attributes.photoId`, loosely. */
  function PhotoNamed(photoId: Scalar): Photo -> bool {
    (ph: Photo) => LooseEquals(photoId, ph.id)
  }

  function PhotoAction(photos: seq<Photo>, a: Annotation): Action {
    if !a.body.PhotoCard? then Keep
    else
      match Find(photos, PhotoNamed(a.body.photoId))
      case None => Drop
      case Some(ph) =>
        Become(a.start, a.end,
               QtcPhoto(ph.url, ph.width, ph.height, ph.altText, a.body.caption, a.body.align, a.body.size))
  }

  function PhotoCallback(photos: seq<Photo>): Annotation -> Result<Action, Failure> {
    (a: Annotation) => Ok(PhotoAction(photos, a))
  }

  /**
   * A photo card whose photo was loaded becomes that photo (url, size and alternative text) over
   * the same span, keeping the card's caption, alignment and size; one whose photo is missing is
   * removed.
   */
  lemma PhotoActionCases(photos: seq<Photo>, a: Annotation)
    requires a.body.PhotoCard?
    ensures Find(photos, PhotoNamed(a.body.photoId)).None? <==> PhotoAction(photos, a) == Drop
    ensures forall ph :: IsFirstMatch(photos, PhotoNamed(a.body.photoId), Some(ph)) ==>
      PhotoAction(photos, a) == Become(a.start, a.end,
        QtcPhoto(ph.url, ph.width, ph.height, ph.altText, a.body.caption, a.body.align, a.body.size))
  {
    forall ph | IsFirstMatch(photos, PhotoNamed(a.body.photoId), Some(ph))
      ensures Find(photos, PhotoNamed(a.body.photoId)) == Some(ph)
    {
      FirstMatchIsFind(photos, PhotoNamed(a.body.photoId), Some(ph));
    }
  }

  lemma PhotoCallbackClears(anns: seq<Annotation>, photos: seq<Photo>, len: nat)
    requires AllWithin(anns, len)
    ensures Clears(anns, PhotoCallback(photos), IsPhotoCard, IsQtcPhoto)
    ensures ActionsFit(anns, PhotoCallback(photos), len)
  {
  }

  /** `where({type: "-mobiledoc-photo-card"}).update(...)`. */
  method HydratePhotos(doc: Document, photos: seq<Photo>)
    requires doc.Valid()
    modifies doc
    ensures doc.Valid() && doc.content == old(doc.content) && doc.nextId == old(doc.nextId)
    ensures Updated(old(doc.annotations), PhotoCallback(photos)).Ok?
    ensures doc.annotations == Updated(old(doc.annotations), PhotoCallback(photos)).value
    ensures CountWhere(doc.annotations, IsPhotoCard) == 0
    ensures Matching(doc.annotations, Neither(IsPhotoCard, IsQtcPhoto))
         == Matching(old(doc.annotations), Neither(IsPhotoCard, IsQtcPhoto))
  {
    PhotoCallbackClears(doc.annotations, photos, |doc.content|);
    UpdatedOk(doc.annotations, PhotoCallback(photos));
    UpdatedClears(doc.annotations, PhotoCallback(photos), IsPhotoCard, IsQtcPhoto);
    var _ := doc.UpdateEach(PhotoCallback(photos));
  }

  // ---------------------------------------------------------------------------------------
  // Gallery cards

  predicate IsGalleryCard(b: Body) { b.GalleryCard? }

  predicate IsGallery(b: Body) { b.Gallery? }

  /** `photo.id == parseInt(photoId, 10)`. */
  predicate GalleryIdMatches(photoId: Scalar, ph: Photo) {
    ParseInt(photoId) == Some(ph.id)
  }

  /** The loaded photos a gallery card lists, in the card's order, missing ones dropped. */
  function GalleryPhotos(photoIds: seq<Scalar>, photos: seq<Photo>): (r: seq<Photo>)
    ensures |r| <= |photoIds|
  {
    LookupAll(photoIds, photos, GalleryIdMatches)
  }

  function GalleryEntry(ph: Photo): GalleryPhoto {
    GalleryPhoto(ph.url, ph.width, ph.height, ph.altText)
  }

  function GalleryAction(photos: seq<Photo>, a: Annotation): Action {
    if !a.body.GalleryCard? then Keep
    else
      var found := GalleryPhotos(a.body.photoIds, photos);
      Become(a.start, a.end,
             Gallery(seq(|found|, i requires 0 <= i < |found| => GalleryEntry(found[i])),
                     "mosaic", a.body.galleryCaption, a.body.gallerySize))
  }

  function GalleryCallback(photos: seq<Photo>): Annotation -> Result<Action, Failure> {
    (a: Annotation) => Ok(GalleryAction(photos, a))
  }

  /**
   * A gallery card always becomes a mosaic gallery over the same span, keeping its caption and
   * size; its photos are those of `GalleryPhotos`, one entry each, in the same order.
   */
  lemma GalleryActionCases(photos: seq<Photo>, a: Annotation)
    requires a.body.GalleryCard?
    ensures GalleryAction(photos, a).Become?
    ensures var act := GalleryAction(photos, a);
      var found := GalleryPhotos(a.body.photoIds, photos);
      act.start == a.start && act.end == a.end && act.body.Gallery? &&
      act.body.style == "mosaic" && act.body.caption == a.body.galleryCaption &&
      act.body.size == a.body.gallerySize && |act.body.photos| == |found| &&
      forall i | 0 <= i < |found| :: act.body.photos[i] == GalleryEntry(found[i])
  {
  }

  /**
   * The gallery's photos follow the card's ids: the photos of concatenated id lists are the
   * concatenated photos, one id yields its first loaded photo or nothing, and every photo listed
   * was loaded and named by some id.
   */
  lemma GalleryPhotosFollowIds(a: seq<Scalar>, b: seq<Scalar>, photos: seq<Photo>)
    ensures GalleryPhotos(a + b, photos) == GalleryPhotos(a, photos) + GalleryPhotos(b, photos)
    ensures forall id :: GalleryPhotos([id], photos) == LookupOne(id, photos, GalleryIdMatches)
    ensures forall j | 0 <= j < |GalleryPhotos(a, photos)| ::
      GalleryPhotos(a, photos)[j] in photos &&
      exists i | 0 <= i < |a| :: ParseInt(a[i]) == Some(GalleryPhotos(a, photos)[j].id)
  {
    LookupAllAppend(a, b, photos, GalleryIdMatches);
    forall id
      ensures GalleryPhotos([id], photos) == LookupOne(id, photos, GalleryIdMatches)
    {
      LookupAllSingle(id, photos, GalleryIdMatches);
    }
    LookupAllMatched(a, photos, GalleryIdMatches);
  }

  lemma GalleryCallbackClears(anns: seq<Annotation>, photos: seq<Photo>, len: nat)
    requires AllWithin(anns, len)
    ensures Clears(anns, GalleryCallback(photos), IsGalleryCard, IsGallery)
    ensures ActionsFit(anns, GalleryCallback(photos), len)
  {
  }

  /** `where({type: "-mobiledoc-gallery-card"}).update(...)`. */
  method HydrateGalleries(doc: Document, photos: seq<Photo>)
    requires doc.Valid()
    modifies doc
    ensures doc.Valid() && doc.content == old(doc.content) && doc.nextId == old(doc.nextId)
    ensures Updated(old(doc.annotations), GalleryCallback(photos)).Ok?
    ensures doc.annotations == Updated(old(doc.annotations), GalleryCallback(photos)).value
    ensures CountWhere(doc.annotations, IsGalleryCard) == 0
    ensures Matching(doc.annotations, Neither(IsGalleryCard, IsGallery))
         == Matching(old(doc.annotations), Neither(IsGalleryCard, IsGallery))
  {
    GalleryCallbackClears(doc.annotations, photos, |doc.content|);
    UpdatedOk(doc.annotations, GalleryCallback(photos));
    UpdatedClears(doc.annotations, GalleryCallback(photos), IsGalleryCard, IsGallery);
    var _ := doc.UpdateEach(GalleryCallback(photos));
  }
}
