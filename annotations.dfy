/**
 * Annotations as values: the typed spans of an annotated document, their attribute shapes, and
 * the position arithmetic of the document operations (insertion, deletion, slicing, sorting).
 *
 * The document library is not part of this model; the rules below are its assumed contract:
 *  - insertion of n characters at `at` moves a boundary p to p + n when p > at, and also when
 *    p == at under the `Default` adjacency behaviour; under `Preserve` a boundary at `at` stays;
 *  - deletion of [s, e) keeps boundaries up to s, moves those from e on left by e - s, and
 *    collapses the ones in between to s (annotations are clipped, never dropped);
 *  - `sort()` orders by start ascending, then length descending, keeping document order for ties.
 */
module Annotations {
  import opened Wrappers
  import opened Js
  import opened Entities

  /** The venue summary carried by a schedule entry or a river item's event. */
  datatype Place = Place(name: string, latitude: string, longitude: string)

  /** One event of a `-qtc-schedule` (instants as milliseconds since the epoch). */
  datatype ScheduleEntry = ScheduleEntry(
    name: string, startsAt: int, endsAt: int, timeZone: string, location: Option<Place>)

  /** One post listed by a `-qtc-river`. */
  datatype RiverItem = RiverItem(
    featured: bool, url: string, title: string, description: Option<string>,
    photo: Option<Photo>, events: seq<ScheduleEntry>)

  datatype GalleryPhoto = GalleryPhoto(url: string, width: int, height: int, altText: string)

  /** The page-level metadata of a rendered post, and the site fields it carries along. */
  datatype PageInfo = PageInfo(
    locale: string, title: string, description: Option<string>, url: string,
    image: Option<string>, section: Option<Section>,
    siteName: string, siteEmail: string, sections: seq<Section>)

  /** An annotation's type together with its attributes. */
  datatype Body =
    // compact (Mobiledoc) input types
    | MobiledocParagraph
    | MobiledocSmall
    | RiverCard(postIds: Option<seq<Scalar>>, channelId: Option<Scalar>, featured: bool)
    | TicketCard(ticketId: string, callToAction: string)
    | ItineraryCard(eventIds: seq<Scalar>)
    | PersonCard(personId: Scalar)
    | LocationCard(locationId: Scalar, cardExtendedAddress: Option<string>)
    | PhotoCard(photoId: Scalar, align: Option<string>, caption: Option<string>, size: Option<string>)
    | GalleryCard(photoIds: seq<Scalar>, galleryCaption: Option<string>, gallerySize: Option<string>)
    // hydrated types
    | River(posts: seq<RiverItem>)
    | BuyButton(code: string, callToAction: string, locale: string, description: string,
                cost: int, currency: string, stripeFee: int)
    | Schedule(events: seq<ScheduleEntry>)
    | Byline(role: string, people: seq<Person>)
    | LocationName(nameLocationId: string, name: string, extendedAddress: Option<string>)
    | QtcPerson(qtcId: Scalar)
    | QtcLocation(place: Location)
    | QtcPhoto(url: string, width: int, height: int, altText: string,
               photoCaption: Option<string>, photoAlign: Option<string>, photoSize: Option<string>)
    | Gallery(photos: seq<GalleryPhoto>, style: string, caption: Option<string>, size: Option<string>)
    | Footnote
    | Page(info: PageInfo)
    // generic rich-text types
    | Heading(level: nat, sticky: bool)
    | LineBreak
    | ListItem
    | OffsetParagraph
    | ParseToken
    | Other(typeName: string)

  /** A typed span [start, end) of a document's content. */
  datatype Annotation = Annotation(id: nat, start: nat, end: nat, body: Body)

  /** A compact document as the parser hands it over: content and annotations (their ids unused). */
  datatype Snapshot = Snapshot(content: string, annotations: seq<Annotation>)

  datatype Behaviour = Default | Preserve

  predicate AllWithin(anns: seq<Annotation>, n: nat) {
    forall a | a in anns :: a.start <= a.end <= n
  }

  predicate IdsBelow(anns: seq<Annotation>, next: nat) {
    forall a | a in anns :: a.id < next
  }

  predicate WellFormed(s: Snapshot) {
    AllWithin(s.annotations, |s.content|)
  }

  /** The same annotations, one by one, with only their offsets possibly changed. */
  predicate SameBodies(a: seq<Annotation>, b: seq<Annotation>) {
    |a| == |b| && forall i | 0 <= i < |a| :: a[i].id == b[i].id && a[i].body == b[i].body
  }

  /** Anything but a paragraph with no text (`where({type: "-mobiledoc-p"}).where(a => a.start === a.end)`). */
  predicate NotEmptyParagraph(a: Annotation) {
    !(a.body.MobiledocParagraph? && a.start == a.end)
  }

  // ---------------------------------------------------------------------------------------
  // Insertion

  function InsertPos(p: nat, at: nat, n: nat, b: Behaviour): nat {
    if p > at || (p == at && b == Default) then p + n else p
  }

  function Inserted(a: Annotation, at: nat, n: nat, b: Behaviour): Annotation {
    a.(start := InsertPos(a.start, at, n, b), end := InsertPos(a.end, at, n, b))
  }

  /** The annotations after `n` characters are inserted at `at`. */
  function InsertedAll(anns: seq<Annotation>, at: nat, n: nat, b: Behaviour): (r: seq<Annotation>)
    ensures |r| == |anns|
  {
    seq(|anns|, i requires 0 <= i < |anns| => Inserted(anns[i], at, n, b))
  }

  lemma InsertedAllWithin(anns: seq<Annotation>, len: nat, at: nat, n: nat, b: Behaviour)
    requires AllWithin(anns, len) && at <= len
    ensures AllWithin(InsertedAll(anns, at, n, b), len + n)
  {
  }

  /** A boundary before the insertion point never moves; one after it moves by exactly n. */
  lemma InsertPosMoves(p: nat, at: nat, n: nat, b: Behaviour)
    ensures p < at ==> InsertPos(p, at, n, b) == p
    ensures p > at ==> InsertPos(p, at, n, b) == p + n
    ensures p == at ==> InsertPos(p, at, n, b) == (if b == Default then p + n else p)
  {
  }

  /** Inserting at the very end of the content under `Preserve` moves nothing. */
  lemma InsertedAtEndPreserve(anns: seq<Annotation>, len: nat, n: nat)
    requires AllWithin(anns, len)
    ensures InsertedAll(anns, len, n, Preserve) == anns
  {
    assert forall i | 0 <= i < |anns| :: Inserted(anns[i], len, n, Preserve) == anns[i];
  }

  /** Inserting at offset 0 under `Default` moves every boundary by exactly n. */
  lemma InsertedAtStartDefault(anns: seq<Annotation>, n: nat)
    ensures forall i | 0 <= i < |anns| ::
      InsertedAll(anns, 0, n, Default)[i] == anns[i].(start := anns[i].start + n, end := anns[i].end + n)
  {
  }

  // ---------------------------------------------------------------------------------------
  // Deletion

  function DeletePos(p: nat, s: nat, e: nat): nat
    requires s <= e
  {
    if p <= s then p else if p >= e then p - (e - s) else s
  }

  function Deleted(a: Annotation, s: nat, e: nat): Annotation
    requires s <= e
  {
    a.(start := DeletePos(a.start, s, e), end := DeletePos(a.end, s, e))
  }

  /** The annotations after the characters [s, e) are deleted. */
  function DeletedAll(anns: seq<Annotation>, s: nat, e: nat): (r: seq<Annotation>)
    requires s <= e
    ensures |r| == |anns|
  {
    seq(|anns|, i requires 0 <= i < |anns| => Deleted(anns[i], s, e))
  }

  lemma DeletedAllWithin(anns: seq<Annotation>, len: nat, s: nat, e: nat)
    requires AllWithin(anns, len) && s <= e <= len
    ensures AllWithin(DeletedAll(anns, s, e), len - (e - s))
  {
  }

  // ---------------------------------------------------------------------------------------
  // Slicing, stamping and rebasing

  function SlicePos(p: nat, s: nat, e: nat): nat
    requires s <= e
  {
    if p <= s then 0 else if p >= e then e - s else p - s
  }

  /**
   * `doc.slice(s, e)`: the text [s, e) and every annotation clipped to it and rebased to 0;
   * annotations wholly before the range end up zero-width at 0, those wholly after at the end.
   */
  function Slice(content: string, anns: seq<Annotation>, s: nat, e: nat): (r: Snapshot)
    requires s <= e <= |content| && AllWithin(anns, |content|)
    ensures |r.content| == e - s && |r.annotations| == |anns|
    ensures WellFormed(r)
  {
    Snapshot(content[s..e],
             seq(|anns|, i requires 0 <= i < |anns| =>
               anns[i].(start := SlicePos(anns[i].start, s, e), end := SlicePos(anns[i].end, s, e))))
  }

  /** The annotations numbered `base`, `base + 1`, ... in order. */
  function Stamp(anns: seq<Annotation>, base: nat): (r: seq<Annotation>)
    ensures |r| == |anns|
    ensures forall i | 0 <= i < |r| :: r[i] == anns[i].(id := base + i)
  {
    seq(|anns|, i requires 0 <= i < |anns| => anns[i].(id := base + i))
  }

  /** A sub-document's annotations moved by `offset`, numbered from `base`. */
  function Rebased(anns: seq<Annotation>, offset: nat, base: nat): (r: seq<Annotation>)
    ensures |r| == |anns|
    ensures forall i | 0 <= i < |r| ::
      r[i] == Annotation(base + i, anns[i].start + offset, anns[i].end + offset, anns[i].body)
  {
    if anns == [] then []
    else [Annotation(base, anns[0].start + offset, anns[0].end + offset, anns[0].body)] + Rebased(anns[1..], offset, base + 1)
  }

  /** Annotations of a sub-document of length `len` moved to `at` stay inside a text of length `total`. */
  lemma RebasedWithin(anns: seq<Annotation>, len: nat, at: nat, total: nat)
    requires AllWithin(anns, len) && at + len <= total
    ensures AllWithin(Rebased(anns, at, 0), total)
  {
    var r := Rebased(anns, at, 0);
    forall a | a in r ensures a.start <= a.end <= total {
      var i :| 0 <= i < |r| && r[i] == a;
      assert anns[i] in anns;
    }
  }

  // ---------------------------------------------------------------------------------------
  // Sort order

  /** `a` comes strictly before `b` in `sort()`: it starts earlier, or at the same offset and is longer. */
  predicate SortsBefore(a: Annotation, b: Annotation) {
    a.start < b.start || (a.start == b.start && a.end > b.end)
  }

  /** The index of the first annotation of `sort()`: least key, earliest of equal keys. */
  function FirstSortedIndex(anns: seq<Annotation>): (r: nat)
    requires |anns| > 0
    ensures r < |anns|
    ensures forall j | 0 <= j < |anns| :: !SortsBefore(anns[j], anns[r])
    ensures forall j | 0 <= j < r :: SortsBefore(anns[r], anns[j])
  {
    if |anns| == 1 then 0
    else
      var k := FirstSortedIndex(anns[..|anns| - 1]);
      if SortsBefore(anns[|anns| - 1], anns[k]) then |anns| - 1 else k
  }

  /** The index of the last annotation of `sort()`: greatest key, latest of equal keys. */
  function LastSortedIndex(anns: seq<Annotation>): (r: nat)
    requires |anns| > 0
    ensures r < |anns|
    ensures forall j | 0 <= j < |anns| :: !SortsBefore(anns[r], anns[j])
    ensures forall j | r < j < |anns| :: SortsBefore(anns[j], anns[r])
  {
    if |anns| == 1 then 0
    else
      var k := LastSortedIndex(anns[..|anns| - 1]);
      if SortsBefore(anns[k], anns[|anns| - 1]) || !SortsBefore(anns[|anns| - 1], anns[k])
      then |anns| - 1 else k
  }

  /** `[...where(p).sort()][0]`. */
  function FirstSorted(anns: seq<Annotation>, p: Body -> bool): (r: Option<Annotation>)
    ensures r.None? <==> forall a | a in anns :: !p(a.body)
    ensures r.Some? ==> r.value in anns && p(r.value.body)
    ensures r.Some? ==> forall a | a in anns && p(a.body) :: !SortsBefore(a, r.value)
  {
    var matching := Matching(anns, p);
    if matching == [] then None else Some(matching[FirstSortedIndex(matching)])
  }

  /** `[...where(p).sort()][length - 1]`. */
  function LastSorted(anns: seq<Annotation>, p: Body -> bool): (r: Option<Annotation>)
    ensures r.None? <==> forall a | a in anns :: !p(a.body)
    ensures r.Some? ==> r.value in anns && p(r.value.body)
    ensures r.Some? ==> forall a | a in anns && p(a.body) :: !SortsBefore(r.value, a)
  {
    var matching := Matching(anns, p);
    if matching == [] then None else Some(matching[LastSortedIndex(matching)])
  }

  // ---------------------------------------------------------------------------------------
  // Queries by type

  /** `where(p)`: the annotations whose type and attributes satisfy `p`, in document order. */
  function Matching(anns: seq<Annotation>, p: Body -> bool): (r: seq<Annotation>)
    ensures |r| <= |anns|
    ensures forall a :: a in r <==> a in anns && p(a.body)
  {
    if anns == [] then []
    else (if p(anns[0].body) then [anns[0]] else []) + Matching(anns[1..], p)
  }

  lemma {:induction false} MatchingAppend(a: seq<Annotation>, b: seq<Annotation>, p: Body -> bool)
    ensures Matching(a + b, p) == Matching(a, p) + Matching(b, p)
  {
    if a == [] {
      assert a + b == b;
    } else {
      assert (a + b)[1..] == a[1..] + b;
      MatchingAppend(a[1..], b, p);
    }
  }

  lemma {:induction false} MatchingNone(anns: seq<Annotation>, p: Body -> bool)
    requires forall a | a in anns :: !p(a.body)
    ensures Matching(anns, p) == []
  {
    if anns != [] {
      assert anns[0] in anns;
      assert forall a | a in anns[1..] :: a in anns;
      MatchingNone(anns[1..], p);
    }
  }

  /** `where(p).length`. */
  function CountWhere(anns: seq<Annotation>, p: Body -> bool): nat {
    if anns == [] then 0 else (if p(anns[0].body) then 1 else 0) + CountWhere(anns[1..], p)
  }

  lemma {:induction false} CountWhereZero(anns: seq<Annotation>, p: Body -> bool)
    ensures CountWhere(anns, p) == 0 <==> forall i | 0 <= i < |anns| :: !p(anns[i].body)
  {
    if anns != [] {
      CountWhereZero(anns[1..], p);
      assert forall i | 1 <= i < |anns| :: anns[i] == anns[1..][i - 1];
    }
  }

  lemma {:induction false} CountWhereAppend(a: seq<Annotation>, b: seq<Annotation>, p: Body -> bool)
    ensures CountWhere(a + b, p) == CountWhere(a, p) + CountWhere(b, p)
  {
    if a == [] {
      assert a + b == b;
    } else {
      assert (a + b)[1..] == a[1..] + b;
      CountWhereAppend(a[1..], b, p);
    }
  }

  lemma {:induction false} CountWhereSameBodies(a: seq<Annotation>, b: seq<Annotation>, p: Body -> bool)
    requires |a| == |b| && forall i | 0 <= i < |a| :: a[i].body == b[i].body
    ensures CountWhere(a, p) == CountWhere(b, p)
  {
    if a != [] {
      CountWhereSameBodies(a[1..], b[1..], p);
    }
  }

  /** Replacing annotations by ones the test judges the same way does not change the count. */
  lemma {:induction false} CountWhereSameVerdicts(a: seq<Annotation>, b: seq<Annotation>, p: Body -> bool)
    requires |a| == |b| && forall i | 0 <= i < |a| :: p(a[i].body) == p(b[i].body)
    ensures CountWhere(a, p) == CountWhere(b, p)
  {
    if a != [] {
      CountWhereSameVerdicts(a[1..], b[1..], p);
    }
  }

  /** Renumbering, shifting or re-spanning annotations does not change what their types count. */
  lemma CountWhereMoved(anns: seq<Annotation>, at: nat, n: nat, b: Behaviour, base: nat, offset: nat, p: Body -> bool)
    ensures CountWhere(InsertedAll(anns, at, n, b), p) == CountWhere(anns, p)
    ensures CountWhere(Stamp(anns, base), p) == CountWhere(anns, p)
    ensures CountWhere(Rebased(anns, offset, base), p) == CountWhere(anns, p)
  {
    CountWhereSameBodies(anns, InsertedAll(anns, at, n, b), p);
    CountWhereSameBodies(anns, Stamp(anns, base), p);
    CountWhereSameBodies(anns, Rebased(anns, offset, base), p);
  }

  predicate IsPersonCardFor(key: Scalar, b: Body) {
    b.PersonCard? && b.personId == key
  }

  function PersonCardFor(key: Scalar): Body -> bool {
    (b: Body) => IsPersonCardFor(key, b)
  }

  /** The location dedup test: `a.type === "location-card" && a.attributes.locationId == id`. */
  function LocationCardFor(id: int): Body -> bool {
    (b: Body) => b.LocationCard? && LooseEquals(b.locationId, id)
  }

  function IsPersonCard(b: Body): bool { b.PersonCard? }
}
