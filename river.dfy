/**
 * River cards: a card chooses posts (by id, by channel, or by the featured flag) and becomes a
 * `-qtc-river` listing a summary of each chosen post.
 */
module Rivers {
  import opened Wrappers
  import opened Js
  import opened Collections
  import opened Entities
  import opened EventModel
  import opened Posts
  import opened Annotations
  import opened Documents
  import opened Schedules
  import opened CardPasses

  /** A card attribute in a boolean context: absent, `0` and `""` are false. */
  predicate TruthyScalar(x: Option<Scalar>) {
    x.Some? && match x.value case Num(n) => n != 0 case Str(s) => s != ""
  }

  /** `post.postId == parseInt(id, 10)`. */
  predicate PostIdMatches(id: Scalar, p: Post) {
    ParseInt(id) == Some(p.postId)
  }

  /** `parseInt(channelId, 10) == (post.section && post.section.id)`, and `post.featured` if asked. */
  function InChannel(channelId: Scalar, featuredOnly: bool): Post -> bool {
    (p: Post) => p.section.Some? && ParseInt(channelId) == Some(p.section.value.id) && (featuredOnly ==> p.featured)
  }

  function IsFeatured(p: Post): bool { p.featured }

  /** The posts a river card lists. */
  function SelectPosts(postIds: Option<seq<Scalar>>, channelId: Option<Scalar>, featured: bool,
                       posts: seq<Post>): seq<Post>
  {
    if postIds.Some? && |postIds.value| > 0 then LookupAll(postIds.value, posts, PostIdMatches)
    else if TruthyScalar(channelId) then Filter(posts, InChannel(channelId.value, featured))
    else if featured then Filter(posts, IsFeatured)
    else []
  }

  /**
   * With ids, the river lists, id by id, the first post carrying that id, dropping ids that name
   * no post. Without ids, a channel selects the posts of that section (only the featured ones
   * when the card asks for them), the featured flag alone selects the featured posts, and a
   * card with neither selects nothing. Filtering keeps the posts' own order.
   */
  lemma SelectPostsCases(postIds: Option<seq<Scalar>>, channelId: Option<Scalar>, featured: bool,
                         posts: seq<Post>)
    ensures postIds.Some? && |postIds.value| > 0 ==>
      SelectPosts(postIds, channelId, featured, posts) == LookupAll(postIds.value, posts, PostIdMatches)
    ensures !(postIds.Some? && |postIds.value| > 0) && TruthyScalar(channelId) ==>
      forall p :: p in SelectPosts(postIds, channelId, featured, posts) <==>
        p in posts && p.section.Some? && ParseInt(channelId.value) == Some(p.section.value.id) &&
        (featured ==> p.featured)
    ensures !(postIds.Some? && |postIds.value| > 0) && !TruthyScalar(channelId) ==>
      forall p :: p in SelectPosts(postIds, channelId, featured, posts) <==> p in posts && p.featured && featured
  {
  }

  /** The posts chosen by ids follow the ids: concatenated ids give concatenated posts. */
  lemma SelectByIdsFollowsIds(a: seq<Scalar>, b: seq<Scalar>, posts: seq<Post>)
    requires |a| > 0
    ensures SelectPosts(Some(a + b), None, false, posts) ==
      SelectPosts(Some(a), None, false, posts) + LookupAll(b, posts, PostIdMatches)
    ensures forall id :: SelectPosts(Some([id]), None, false, posts) == LookupOne(id, posts, PostIdMatches)
  {
    LookupAllAppend(a, b, posts, PostIdMatches);
    forall id
      ensures SelectPosts(Some([id]), None, false, posts) == LookupOne(id, posts, PostIdMatches)
    {
      LookupAllSingle(id, posts, PostIdMatches);
    }
  }

  /** Filtering by channel or flag keeps the order of the loaded posts: it distributes over `+`. */
  lemma SelectByFilterKeepsOrder(channelId: Option<Scalar>, featured: bool, a: seq<Post>, b: seq<Post>)
    requires featured || TruthyScalar(channelId)
    ensures SelectPosts(None, channelId, featured, a + b) ==
      SelectPosts(None, channelId, featured, a) + SelectPosts(None, channelId, featured, b)
  {
    if TruthyScalar(channelId) {
      FilterAppend(a, b, InChannel(channelId.value, featured));
    } else {
      FilterAppend(a, b, IsFeatured);
    }
  }

  // ---------------------------------------------------------------------------------------
  // River items

  predicate IsParagraph(b: Body) { b.MobiledocParagraph? }

  predicate IsItineraryCard(b: Body) { b.ItineraryCard? }


  /** The event ids of itinerary cards, card after card. */
  function ItineraryEventIds(cards: seq<Annotation>): (r: seq<Scalar>)
    ensures cards == [] ==> r == []
  {
    if cards == [] then []
    else (if cards[0].body.ItineraryCard? then cards[0].body.eventIds else []) + ItineraryEventIds(cards[1..])
  }

  /** `event.id == parseInt(id, 10)`. */
  function EventNamed(id: Scalar): Event -> bool {
    (ev: Event) => ParseInt(id) == Some(ev.id)
  }

  /** The event ids of a post's itinerary cards, once its empty paragraphs are removed. */
  function ListedEventIds(snap: Snapshot): seq<Scalar> {
    ItineraryEventIds(Matching(Filter(snap.annotations, NotEmptyParagraph), IsItineraryCard))
  }

  /** `post.events.find(event => event.id == parseInt(id, 10))` for each listed id, in order. */
  function ListedEvents(snap: Snapshot, host: Post): (r: seq<Option<Event>>)
    ensures |r| == |ListedEventIds(snap)|
  {
    var ids := ListedEventIds(snap);
    seq(|ids|, i requires 0 <= i < |ids| => Find(host.events, EventNamed(ids[i])))
  }

  /** The summary of one listed post, read from its own body; events and photos are the host's. */
  function RiverItemFor(item: Post, host: Post, parse: string -> Option<Snapshot>): Result<RiverItem, Failure> {
    match parse(item.body)
    case None => Err(Malformed)
    case Some(snap) =>
      if !WellFormed(snap) then Err(Malformed)
      else
        var parts := ShownParts(snap, host.photos);
        match Entries(ListedEvents(snap, host), item.group.timezone)
        case Err(e) => Err(e)
        case Ok(entries) => Ok(RiverItem(item.featured, "/" + item.slug, item.title, parts.0, parts.1, entries))
  }

  /**
   * A listed post's summary links to `/<slug>` and copies its title and featured flag. Its
   * description is the trimmed text of the first non-empty paragraph in sort order (none
   * without one), its photo the host post's photo named by its first photo card, and its
   * events one entry per id of its itinerary cards, in its own group's time zone.
   */
  lemma RiverItemFields(item: Post, host: Post, parse: string -> Option<Snapshot>)
    ensures parse(item.body).None? ==> RiverItemFor(item, host, parse) == Err(Malformed)
    ensures RiverItemFor(item, host, parse).Ok? ==>
      var r := RiverItemFor(item, host, parse).value;
      var snap := parse(item.body).value;
      var anns := Filter(snap.annotations, NotEmptyParagraph);
      r.url == "/" + item.slug && r.title == item.title && r.featured == item.featured &&
      (r.description.Some? <==> exists a | a in snap.annotations :: a.body.MobiledocParagraph? && a.start < a.end) &&
      (r.photo.Some? ==> r.photo.value in host.photos) &&
      |r.events| == |ItineraryEventIds(Matching(anns, IsItineraryCard))| &&
      forall i | 0 <= i < |r.events| :: r.events[i].timeZone == item.group.timezone
  {
    if RiverItemFor(item, host, parse).Ok? {
      var snap := parse(item.body).value;
      var anns := Filter(snap.annotations, NotEmptyParagraph);
      EntriesCases(ListedEvents(snap, host), item.group.timezone);
      assert (exists a | a in snap.annotations :: a.body.MobiledocParagraph? && a.start < a.end) <==>
             (exists a | a in anns :: IsParagraph(a.body));
    }
  }

  /**
   * A summary's events are, id by id of its itinerary cards, the schedule entry of the first
   * host event whose id is the parsed id, in the listed post's own group's time zone.
   */
  lemma RiverItemEvents(item: Post, host: Post, parse: string -> Option<Snapshot>, r: RiverItem)
    requires RiverItemFor(item, host, parse) == Ok(r)
    ensures parse(item.body).Some? && WellFormed(parse(item.body).value)
    ensures var ids := ListedEventIds(parse(item.body).value);
      |r.events| == |ids| &&
      forall i | 0 <= i < |ids| ::
        && Find(host.events, EventNamed(ids[i])).Some?
        && EntryFor(Find(host.events, EventNamed(ids[i])).value, item.group.timezone).Ok?
        && r.events[i] == EntryFor(Find(host.events, EventNamed(ids[i])).value, item.group.timezone).value
  {
    var snap := parse(item.body).value;
    var ids := ListedEventIds(snap);
    var events := ListedEvents(snap, host);
    var entries := Entries(events, item.group.timezone);
    assert entries.Ok? && r.events == entries.value;
    EntriesCases(events, item.group.timezone);
    forall i | 0 <= i < |ids|
      ensures Find(host.events, EventNamed(ids[i])).Some?
      ensures EntryFor(Find(host.events, EventNamed(ids[i])).value, item.group.timezone).Ok?
      ensures r.events[i] == EntryFor(Find(host.events, EventNamed(ids[i])).value, item.group.timezone).value
    {
      assert events[i] == Find(host.events, EventNamed(ids[i]));
    }
  }

  /**
   * A summary fails with `MissingEvent` when, among its listed ids, the first whose event cannot
   * be listed names no event of the host post (ids before it name events whose venue's location,
   * if any, was loaded).
   */
  lemma RiverItemMissingEvent(item: Post, host: Post, parse: string -> Option<Snapshot>, i: nat)
    requires parse(item.body).Some? && WellFormed(parse(item.body).value)
    requires var ids := ListedEventIds(parse(item.body).value);
      i < |ids| && Find(host.events, EventNamed(ids[i])).None? &&
      forall j | 0 <= j < i ::
        var ev := Find(host.events, EventNamed(ids[j]));
        ev.Some? && (ev.value.venue.None? || ev.value.venue.value.location.Some?)
    ensures RiverItemFor(item, host, parse) == Err(MissingEvent)
  {
    EntriesFirstFailure(ListedEvents(parse(item.body).value, host), item.group.timezone, i);
  }

  /** The description and photo a summary takes from a post's non-empty annotations. */
  function ShownParts(snap: Snapshot, photos: seq<Photo>): (Option<string>, Option<Photo>)
    requires WellFormed(snap)
  {
    var anns := Filter(snap.annotations, NotEmptyParagraph);
    var paragraph := FirstSorted(anns, IsParagraph);
    var photoCard := FirstSorted(anns, IsPhotoCard);
    (if paragraph.None? then None else Some(Trim(snap.content[paragraph.value.start..paragraph.value.end])),
     if photoCard.None? then None else Find(photos, PhotoNamed(photoCard.value.body.photoId)))
  }

  /**
   * Which paragraph and which photo a summary shows: the description is the trimmed text of a
   * non-empty paragraph that no non-empty paragraph precedes in sort order; the photo is the
   * first of the host post's photos whose id loosely equals the id on a photo card that no photo
   * card precedes, and there is none when the post has no photo card.
   */
  lemma RiverItemChosen(item: Post, host: Post, parse: string -> Option<Snapshot>)
    requires RiverItemFor(item, host, parse).Ok?
    ensures parse(item.body).Some? && WellFormed(parse(item.body).value)
    ensures var r := RiverItemFor(item, host, parse).value;
      ShownPartsChosen(parse(item.body).value, host.photos, r.description, r.photo)
  {
    ShownPartsMeet(parse(item.body).value, host.photos);
  }

  /** What `ShownParts` chooses, said without computing it. */
  ghost predicate ShownPartsChosen(snap: Snapshot, photos: seq<Photo>, description: Option<string>, photo: Option<Photo>)
    requires WellFormed(snap)
  {
    DescriptionChosen(snap, description) && PhotoChosen(snap, photos, photo)
  }

  /** The description is the trimmed text of a first non-empty paragraph in sort order. */
  ghost predicate DescriptionChosen(snap: Snapshot, description: Option<string>)
    requires WellFormed(snap)
  {
    var anns := Filter(snap.annotations, NotEmptyParagraph);
    && (description.Some? <==> exists a | a in anns :: a.body.MobiledocParagraph?)
    && (description.Some? ==>
          exists a | a in anns && a.body.MobiledocParagraph? ::
            && (forall b | b in anns && b.body.MobiledocParagraph? :: !SortsBefore(b, a))
            && a.start <= a.end <= |snap.content|
            && description.value == Trim(snap.content[a.start..a.end]))
  }

  /** The photo is the first photo loosely named by a first photo card in sort order. */
  ghost predicate PhotoChosen(snap: Snapshot, photos: seq<Photo>, photo: Option<Photo>) {
    var anns := Filter(snap.annotations, NotEmptyParagraph);
    && ((forall a | a in snap.annotations :: !a.body.PhotoCard?) ==> photo.None?)
    && (photo.Some? ==>
          exists c, k | c in anns && c.body.PhotoCard? && 0 <= k < |photos| ::
            && (forall b | b in anns && b.body.PhotoCard? :: !SortsBefore(b, c))
            && photo.value == photos[k] && LooseEquals(c.body.photoId, photos[k].id)
            && (forall j | 0 <= j < k :: !LooseEquals(c.body.photoId, photos[j].id)))
  }

  lemma ShownPartsMeet(snap: Snapshot, photos: seq<Photo>)
    requires WellFormed(snap)
    ensures ShownPartsChosen(snap, photos, ShownParts(snap, photos).0, ShownParts(snap, photos).1)
  {
    DescriptionMeets(snap, photos);
    PhotoMeets(snap, photos);
  }

  lemma DescriptionMeets(snap: Snapshot, photos: seq<Photo>)
    requires WellFormed(snap)
    ensures DescriptionChosen(snap, ShownParts(snap, photos).0)
  {
    var anns := Filter(snap.annotations, NotEmptyParagraph);
    var paragraph := FirstSorted(anns, IsParagraph);
    if paragraph.Some? {
      assert paragraph.value in snap.annotations;
    }
  }

  lemma PhotoMeets(snap: Snapshot, photos: seq<Photo>)
    requires WellFormed(snap)
    ensures PhotoChosen(snap, photos, ShownParts(snap, photos).1)
  {
    var anns := Filter(snap.annotations, NotEmptyParagraph);
    var photoCard := FirstSorted(anns, IsPhotoCard);
    if photoCard.Some? {
      var c := photoCard.value;
      match FindIndex(photos, PhotoNamed(c.body.photoId))
      case None =>
      case Some(k) =>
        assert PhotoNamed(c.body.photoId)(photos[k]);
    } else {
      assert forall a | a in snap.annotations && a.body.PhotoCard? :: a in anns;
    }
  }

  function RiverItems(items: seq<Post>, host: Post, parse: string -> Option<Snapshot>): Result<seq<RiverItem>, Failure> {
    MapResult(items, (item: Post) => RiverItemFor(item, host, parse))
  }

  // ---------------------------------------------------------------------------------------
  // The pass

  predicate IsRiverCard(b: Body) { b.RiverCard? }

  predicate IsRiver(b: Body) { b.River? }

  function RiverAction(post: Post, parse: string -> Option<Snapshot>, a: Annotation): Result<Action, Failure> {
    if !a.body.RiverCard? then Ok(Keep)
    else
      match RiverItems(SelectPosts(a.body.postIds, a.body.channelId, a.body.featured, post.posts), post, parse)
      case Err(e) => Err(e)
      case Ok(items) => Ok(Become(a.start, a.end, River(items)))
  }

  function RiverCallback(post: Post, parse: string -> Option<Snapshot>): Annotation -> Result<Action, Failure> {
    (a: Annotation) => RiverAction(post, parse, a)
  }

  /**
   * A river card becomes a river over the same span (keeping its id) that lists one item per
   * selected post, in selection order; it fails when a selected post's summary cannot be built.
   */
  lemma RiverActionCases(post: Post, parse: string -> Option<Snapshot>, a: Annotation)
    requires a.body.RiverCard?
    ensures var chosen := SelectPosts(a.body.postIds, a.body.channelId, a.body.featured, post.posts);
      RiverAction(post, parse, a).Ok? <==> forall i | 0 <= i < |chosen| :: RiverItemFor(chosen[i], post, parse).Ok?
    ensures var chosen := SelectPosts(a.body.postIds, a.body.channelId, a.body.featured, post.posts);
      RiverAction(post, parse, a).Ok? ==>
        match RiverAction(post, parse, a).value
        case Become(s, e, b) =>
          s == a.start && e == a.end && b.River? && |b.posts| == |chosen| &&
          forall i | 0 <= i < |chosen| :: RiverItemFor(chosen[i], post, parse) == Ok(b.posts[i])
        case _ => false
  {
  }

  lemma RiverCallbackClears(anns: seq<Annotation>, post: Post, parse: string -> Option<Snapshot>, len: nat)
    requires AllWithin(anns, len)
    ensures Clears(anns, RiverCallback(post, parse), IsRiverCard, IsRiver)
    ensures ActionsFit(anns, RiverCallback(post, parse), len)
  {
  }

  /** `where({type: "-mobiledoc-river-card"}).update(...)`. */
  method HydrateRivers(doc: Document, post: Post, parse: string -> Option<Snapshot>) returns (r: Result<(), Failure>)
    requires doc.Valid()
    modifies doc
    ensures doc.Valid() && doc.content == old(doc.content) && doc.nextId == old(doc.nextId)
    ensures r.Ok? <==> Updated(old(doc.annotations), RiverCallback(post, parse)).Ok?
    ensures r.Ok? ==> doc.annotations == Updated(old(doc.annotations), RiverCallback(post, parse)).value
    ensures r.Ok? ==> CountWhere(doc.annotations, IsRiverCard) == 0
    ensures r.Ok? ==>
      Matching(doc.annotations, Neither(IsRiverCard, IsRiver)) ==
      Matching(old(doc.annotations), Neither(IsRiverCard, IsRiver))
  {
    RiverCallbackClears(doc.annotations, post, parse, |doc.content|);
    ghost var anns0 := doc.annotations;
    r := doc.UpdateEach(RiverCallback(post, parse));
    if r.Ok? {
      UpdatedClears(anns0, RiverCallback(post, parse), IsRiverCard, IsRiver);
    }
  }
}
