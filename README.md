# QTC post hydration, modelled in Dafny

A published post of the site engine is stored as a compact Mobiledoc body. It is turned into a
rich annotated document by `QTCSource.fromRaw`. The engine parses the body into text plus typed
spans (annotations). It then runs a fixed sequence of passes over that document:

- the title line and its heading go in front;
- empty paragraphs are dropped;
- river cards become lists of post summaries;
- ticket cards become buy buttons while the ticket is on sale;
- itinerary cards become schedules, followed by one list item per event, with byline and
  venue lines and the event's own description;
- person cards become the person's name heading and biography;
- location, photo and gallery cards are resolved against the loaded rows;
- every `-mobiledoc-small` span is cut out and moved to the end of the text as a footnote.

The web application around it decides a few things from the request alone:

- the https redirect and the `/home` redirect;
- the post slug and response format of a path;
- the sitemap's `lastmod` date;
- the payment dashboard link;
- the `Page` annotation that spans a rendered post.

The model also covers the ticket price arithmetic (`total`, `stripeFee`) and the row joins of
the ticket and event models.

How the model is laid out:

- The document is a class, `Documents.Document`, with fields `content`, `annotations` and
  `nextId`, changed in place.
- Each pass is a method that edits it.
- Each method is proved against a function on values (`Draft`) that says what the pass computes.
- The properties are lemmas about those functions.
- The whole pipeline is `Hydration.FromRaw`, proved equal to the function `Hydration.Hydrated`.

The document library the engine builds on is not part of this repository. The model assumes
the following contract for it (stated in the headers of annotations.dfy and document.dfy):

- `insertText(at, text)` moves a boundary `p` right by `|text|` when `p > at`. With the default
  adjacency behaviour it also moves a boundary at `at`; with `preserve` such a boundary stays.
- `deleteText(s, e)` keeps boundaries up to `s` and moves those from `e` on left by `e - s`. It
  collapses the ones in between to `s` and drops no annotation.
- `slice(s, e)` is a copy with the text outside `[s, e)` deleted in the same way.
- `sort()` orders by start ascending, then by length descending, keeping document order for ties.
  The library's per-type rank is dropped: every sorted query of the core sorts a single type.
- `replaceAnnotation` keeps the replaced annotation's place in the list. The new annotation
  takes the old one's id, which has left the document and is as fresh as a new one.
- Added annotations take fresh ids from a counter.
- `where(...).update(f)` iterates over a snapshot of the matching annotations taken before the
  first call. An annotation an earlier callback removed is still visited, with the offsets it
  had when it was removed. The footnote pass follows this: a small inside an earlier small is
  visited at its last offsets (FootnotePass.Watch).

## Model

| member | source | states |
|---|---|---|
| OpeningPasses.TitledLayout | src/qtc-source.ts:78-95 | for the `home` slug nothing changes. Otherwise the text becomes title + newline + old text, and every old annotation moves right by `\|title\|+1` and still covers the same characters. A parse token covers the newline, and a level-1 heading covers the title and newline, under the next two ids. |
| OpeningPasses.InsertTitle | src/qtc-source.ts:78-95 | the in-place insertion leaves the document in exactly the state `Titled` describes |
| OpeningPasses.EmptyParagraphsDroppedProps | src/qtc-source.ts:97-100 | an annotation survives iff it is not a zero-width `-mobiledoc-p`. The text and id counter are unchanged, a second run changes nothing, and a document without empty paragraphs is left as it is. |
| OpeningPasses.DropEmptyParagraphs | src/qtc-source.ts:97-100 | the in-place removal reaches the state `EmptyParagraphsDropped` describes |
| Rivers.SelectPostsCases | src/qtc-source.ts:103-125 | non-empty `postIds` pick posts id by id. Otherwise a truthy channel keeps exactly the posts whose section id equals the parsed channel id (and that are featured, when the card asks for featured). Otherwise the featured flag keeps exactly the featured posts, and nothing is chosen without it. |
| Rivers.SelectByIdsFollowsIds | src/qtc-source.ts:103-107 | the posts chosen by ids follow the order of the ids, each id contributing its first matching post or nothing |
| Rivers.SelectByFilterKeepsOrder | src/qtc-source.ts:108-125 | filtering by channel or featured flag keeps the posts' own order (it distributes over concatenation) |
| Rivers.RiverItemFields | src/qtc-source.ts:134-187 | a body that does not parse fails. A summary links to `/` + slug and copies title and featured flag. It has a description iff the post has a non-empty paragraph, a photo only from the host's photos, and one event per itinerary event id, each in the listed post's own time zone. |
| Rivers.RiverItemEvents | src/qtc-source.ts:147-185 | the summary's i-th event is the schedule entry (title, start, end, the listed post's time zone, the venue's place) of the first host event whose id equals the i-th itinerary event id parsed as an integer; every such id names a host event. |
| Rivers.RiverItemMissingEvent | src/qtc-source.ts:155-177 | when the first itinerary event id whose event cannot be listed names no host event, the summary fails with MissingEvent. |
| Rivers.RiverItemChosen | src/qtc-source.ts:136-173 | the description is the trimmed text of a non-empty paragraph no other precedes in sort order. The photo is the first host photo whose id loosely equals the id on the first photo card in sort order, and there is none without a photo card. |
| Rivers.RiverActionCases | src/qtc-source.ts:127-191 | the card succeeds iff every chosen post summarises. It then becomes a River over the card's own `[start, end)` with one summary per chosen post, in order. |
| Rivers.RiverCallbackClears | src/qtc-source.ts:102-192 | the callback turns each river card into a River and leaves every other annotation alone |
| Rivers.HydrateRivers | src/qtc-source.ts:102-192 | the in-place pass succeeds iff the specification does and then yields its annotations. No river card is left, the text and every annotation other than river cards and rivers are unchanged. |
| CardPasses.TicketActionCases | src/qtc-source.ts:196-219 | a card whose `ticketId` contains no ticket id fails. A ticket off sale leaves the card as it is. An on-sale ticket becomes a BuyButton over `[start, start+1)` carrying the group code + "-" + ticket id, the call to action, locale, description and cost, the lower-cased currency, and a fee that makes cost + fee the ticket's total. |
| CardPasses.HydrateTickets | src/qtc-source.ts:194-220 | the in-place pass succeeds iff the specification does and then yields its annotations; the text is unchanged |
| CardPasses.LocationActionCases | src/qtc-source.ts:453-481 | a card naming no loaded location is removed. Otherwise it becomes the first matching location over the same `[start, end)`, the card's extended address winning when truthy. |
| CardPasses.HydrateLocations | src/qtc-source.ts:451-482 | the pass always succeeds and leaves no location card. The text and all annotations other than location cards and locations are unchanged. |
| CardPasses.PhotoActionCases | src/qtc-source.ts:484-507 | a card naming no loaded photo is removed. Otherwise it becomes that photo's url, size and alt text over the same span, with the card's caption, align and size. |
| CardPasses.HydratePhotos | src/qtc-source.ts:484-508 | the pass always succeeds and leaves no photo card. The text and all other annotations are unchanged. |
| CardPasses.GalleryActionCases | src/qtc-source.ts:512-538 | every gallery card becomes a mosaic Gallery over the same span, with the card's caption and size and one entry per found photo |
| CardPasses.GalleryPhotosFollowIds | src/qtc-source.ts:513-517 | gallery photos follow the order of the ids, each id contributing its first photo with that parsed id or nothing, and only loaded photos appear |
| CardPasses.HydrateGalleries | src/qtc-source.ts:510-539 | the pass always succeeds and leaves no gallery card. The text and all other annotations are unchanged. |
| Schedules.EntryFor | src/qtc-source.ts:236-247 | an event's schedule entry has its title, start, end and the group's time zone. It has a place iff the event has a venue, and that place is the venue location's name, latitude and longitude. It fails with MissingLocation exactly when the venue's location was not loaded. |
| Schedules.EntriesCases | src/qtc-source.ts:236-247 | the entries exist iff every event was found and has its venue location. There is then one entry per event, in order, each being that event's EntryFor. |
| Schedules.EntriesFirstFailure | src/qtc-source.ts:236-247 | entries fail with the first unlistable event's failure: MissingEvent for an event not found, MissingLocation for a venue whose location is not loaded. |
| ItineraryPass.Listed | src/qtc-source.ts:225-227 | an event is listed iff it is one of the post's events and its numeric id is among the card's event ids |
| Itineraries.RoleGroupMembers | src/qtc-source.ts:285-293 | a role's group holds exactly the bylines with that role |
| Itineraries.RolesAreKeys | src/qtc-source.ts:285-295 | the roles written are exactly the roles of the bylines, each once |
| Itineraries.GroupsPartitionBylines | src/qtc-source.ts:285-311 | the role groups taken role by role hold every byline exactly once (as a multiset) |
| Itineraries.BlockTextLayout | src/qtc-source.ts:253-398 | an event's list item text has title, newline, date range and newline, then two characters per role starting with an object character, one more object character with a venue, and the description. Its length is the sum of those parts. |
| Itineraries.BlockTextEnds | src/qtc-source.ts:258-398 | the list item text starts with the title and a newline and ends with the description |
| Itineraries.BlockMarksPlaced | src/qtc-source.ts:277-406 | the marks of one event are, in order: a LineBreak on the date line's newline, one Byline per role on its object character naming the role's people, a LocationName on the venue character with the venue id, name and extended address (venue's own first), and a ListItem over the whole text |
| Itineraries.BlockMarksWithin | src/qtc-source.ts:277-406 | the event's marks lie inside its text and include no person or location card |
| Itineraries.PersonCardSlot | src/qtc-source.ts:323-328 | a new person card goes no earlier than any position all person cards start from, and never past the text |
| ItineraryCards.PersonCardedCounts | src/qtc-source.ts:312-339 | the person check adds one card for a person with a biography whom no card names yet, and adds or removes no other card |
| ItineraryCards.LocationCardedCounts | src/qtc-source.ts:343-366 | the venue check adds one location card for a venue no card names yet, and adds or removes no other card |
| ItineraryCards.EventWrittenCounts | src/qtc-source.ts:253-407 | writing one event adds exactly one person card per byline person with a biography and no card yet, and one location card for an uncarded venue |
| ItineraryLayout.EventWrittenLayout | src/qtc-source.ts:253-407 | when no person card starts before `p`, writing an event at `s` makes the text begin with the old text up to `s`, the event's list item, then the old text from `s` to `p`. Person cards still start at or after `p` moved by the item's length. |
| ItineraryLayout.EventWrittenMarks | src/qtc-source.ts:400-406 | the event's marks are the last annotations added, in order, under consecutive fresh ids |
| ItineraryPass.EventBlockCases | src/qtc-source.ts:253-407 | an event is written iff its people and venue location are loaded and its description parses. A failing event names the first of those that fails. |
| ItineraryPass.FirstFailureCases | src/qtc-source.ts:253-407 | no failure iff every event is ready. Otherwise the failure is that of the first event that is not ready. |
| ItineraryPass.EventsWrittenFails | src/qtc-source.ts:253-407 | writing the listed events succeeds iff no event fails, and a failure is the first failing event's |
| ItineraryPass.EventsWrittenLayout | src/qtc-source.ts:253-407 | all events go in at the same position, so the items appear in reverse list order before the old text from `s` to `p` (when no person card precedes `p`) |
| ItineraryPass.EventsWrittenCounts | src/qtc-source.ts:253-407 | writing all events adds one person card per byline person with a biography and no card yet, and one location card per uncarded venue id |
| ItineraryPass.EventsWrittenKeeps | src/qtc-source.ts:253-407 | annotations that were there keep their ids and bodies in order; new ones are only appended |
| ItineraryPass.ItineraryMissingLocation | src/qtc-source.ts:236-247 | a listed event whose venue location is missing fails the card with MissingLocation |
| ItineraryPass.ItineraryExpandedFails | src/qtc-source.ts:224-407 | with all venues loaded, the card succeeds iff no listed event fails, and otherwise returns the first failing event's failure. A zero-width card at the end of the text is a RangeError. |
| ItineraryPass.ItineraryExpandedCounts | src/qtc-source.ts:224-407 | expanding a card adds exactly the missing person cards and venue location cards of its listed events |
| ItineraryPass.ItineraryExpandedLayout | src/qtc-source.ts:229-407 | the text reads as before up to the card's first character, then the stacked event items, the rest of the card, a newline, and the old text up to `p` |
| ItineraryPass.ItineraryExpandedSchedule | src/qtc-source.ts:229-251 | the card keeps its id and place in the list and becomes a Schedule of its listed events' entries. Every other annotation keeps its id and body. |
| ItineraryPass.ItinerariesUpToSchedules | src/qtc-source.ts:222-408 | after the pass over the first `n` annotations, each of them that was an itinerary card is a Schedule and every other one is unchanged in id and body |
| ItineraryHydration.WriteEvent | src/qtc-source.ts:253-407 | the in-place writing of one event reaches exactly the state `EventWritten` describes |
| ItineraryHydration.ExpandItinerary | src/qtc-source.ts:224-407 | the in-place callback on one card fails or succeeds as `ItineraryExpanded` does, and then leaves its state |
| ItineraryHydration.HydrateItineraries | src/qtc-source.ts:222-408 | the in-place pass over every itinerary card mirrors `ItinerariesExpanded` |
| PersonPass.PersonFound | src/qtc-source.ts:411-413 | no person is found iff no loaded person's id loosely equals the card's id; a found person's id does |
| PersonPass.PersonExpandedFails | src/qtc-source.ts:410-449 | the card fails with MissingPerson iff no person matches. For a card covering a character and a found person, it succeeds iff the biography is empty or parses. |
| PersonPass.ExpandPerson | src/qtc-source.ts:410-449 | the in-place callback on one card mirrors `PersonExpanded` |
| PersonLayout.PersonContent | src/qtc-source.ts:415-444 | the text becomes: before the card, the name line (absent when the name equals the post title), the biography text, the rest of the card after its first character, a newline, and the text after the card |
| PersonLayout.PersonOthers | src/qtc-source.ts:415-444 | every other annotation moves exactly as the newline, name, biography and the deletion move its boundaries |
| PersonLayout.PersonKeepsText | src/qtc-source.ts:415-444 | an annotation disjoint from the card keeps its id and body and still covers the same characters |
| PersonLayout.PersonCardBecomes | src/qtc-source.ts:415-448 | the card keeps its id and becomes a `-qtc-person` with the card's person id, starting where it did and covering the name line and biography |
| PersonLayout.PersonCounts | src/qtc-source.ts:419-443 | one annotation is added for the heading (when the name differs from the title) plus one per biography annotation, under fresh ids |
| PersonLayout.PersonHeading | src/qtc-source.ts:419-431 | when the name differs from the title, a sticky level-3 heading covers exactly the name under the next id |
| PersonLayout.PersonBioMarks | src/qtc-source.ts:434-442 | each biography annotation is added, in order and under consecutive ids, moved to sit after the name line |
| PersonLayout.BiographyEmpty | src/qtc-source.ts:434-443 | an empty biography changes nothing |
| PersonHydration.PersonExpandedExtends | src/qtc-source.ts:410-449 | expanding a card keeps every earlier annotation's id and body, turns the card into a `-qtc-person`, and only appends others |
| PersonHydration.PersonsUpToTurned | src/qtc-source.ts:410-449 | after the pass over the first `n` annotations, each person card among them is a `-qtc-person` with its id and every other annotation keeps id and body |
| PersonHydration.HydratePersons | src/qtc-source.ts:410-449 | the in-place pass over every person card mirrors `PersonsExpanded` |
| FootnotePass.Footnoted | src/qtc-source.ts:542-561 | moving a footnote keeps the length of the text |
| FootnotePass.FootnotedLayout | src/qtc-source.ts:542-561 | the text becomes text before the small, text after it, then the small's text. Annotations inside the small are removed; the rest are clipped by the deletion. A Footnote covers the moved text. The small's own annotations, without zero-width ones at its start, follow it rebased to the tail under fresh ids. |
| FootnotePass.FootnoteKeepsMarkup | src/qtc-source.ts:542-561 | every non-empty annotation inside the small reappears with its body over the same characters at the end of the text |
| FootnotePass.NoFootnotes | src/qtc-source.ts:541-562 | a document without smalls is left unchanged |
| FootnotePass.FootnotesMovedFree | src/qtc-source.ts:541-562 | moving footnotes introduces no annotation of a kind that was absent, apart from Footnote |
| FootnotePass.MoveFootnote | src/qtc-source.ts:542-561 | the in-place cut, append and add reach exactly the state `Footnoted` describes |
| FootnotePass.HydrateFootnotes | src/qtc-source.ts:541-562 | the in-place pass over every small reaches the state `FootnotesMoved` describes |
| Hydration.HydratedFree | src/qtc-source.ts:76-562 | a hydrated post contains no location, photo or gallery card |
| Hydration.FromRaw | src/qtc-source.ts:76-563 | the in-place pipeline succeeds iff `Hydrated` does, fails with its failure, and yields its document |
| TicketModel.Total | src/models/ticket.ts:43-45 | the total is `(cost + 30) / 0.971` rounded to the nearest integer, halves up |
| TicketModel.TotalCoversFixedFee | src/models/ticket.ts:43-49 | for `cost + 30 >= 0` the total covers cost and the 30-cent fixed fee, so the fee is at least 30 |
| TicketModel.TotalCoversPercentageFee | src/models/ticket.ts:43-45 | 97.1% of the total covers cost + 30, up to half a cent of rounding |
| TicketModel.TotalMonotone | src/models/ticket.ts:43-45 | a dearer ticket never has a smaller total |
| TicketModel.StripeFee | src/models/ticket.ts:47-49 | cost plus fee is the total |
| TicketModel.TicketEventsAreFirstMatches | src/models/ticket.ts:59-61 | the ticket's i-th event is the first loaded event with the i-th ticketed event id, or none |
| TicketModel.MakeTicket | src/models/ticket.ts:51-61 | id, description, quantity, cost, currency and validity dates come from the row; the events are `TicketEvents` of the row's event ids, so the i-th is the first loaded event whose id is the i-th ticketed event id, or none |
| EventModel.MakeEvent | src/models/event.ts:20-39 | id, title, description, level and times come from the row. There is a venue iff the row has one, and one byline per guest. |
| EventModel.MakeEventJoins | src/models/event.ts:27-38 | the venue's location is the first location with the venue's id and keeps the row's extended address. Each byline has its guest's role and the first person with the guest's person id. |
| App.HttpsRedirect | src/app.ts:23-34 | a redirect starts with `https://`, ends with the original url and has exactly the request's host between them; secure and `/health` requests are never redirected |
| App.HttpsRedirectSettles | src/app.ts:24-30 | the redirect is taken iff the request is not secure, the proxy says `http` and the path is not `/health`. The redirected request, arriving as `https`, is let through. |
| App.Slug | src/app.ts:294-299 | a slug is never empty |
| App.SlugOfPath | src/app.ts:294-299 | `/name` with no extension, `.json`, `.html` or `.hir` gives back `name`, for any name that is not empty and does not itself end in one of those |
| App.SlugExamples | src/app.ts:294-299 | the extensions come off in the fixed order `.json`, `.html`, `.hir`, one each, and the root gives `home` |
| App.FormatOf | src/app.ts:301-303 | JSON iff the client does not take HTML or the path ends in `.json`; the HIR iff it takes HTML and the path ends in `.hir` but not `.json`; HTML otherwise |
| App.FormatOfPath | src/app.ts:301-303 | for an HTML client, `/name.json` is JSON, `/name.hir` the HIR, and `/name` or `/name.html` HTML |
| App.Routed | src/app.ts:230-234 | a redirect is chosen iff the path is `/home`; any other path serves a non-empty slug |
| App.HomeRedirectLands | src/app.ts:231-234 | `/home` redirects to the site root, and the root serves the `home` post as HTML |
| App.LastMod | src/app.ts:186-187 | the date is a prefix of the timestamp |
| App.LastModOfTimestamp | src/app.ts:186-187 | for a date without `T`, date + `T` + time gives back the date |
| App.PaymentUrl | src/app.ts:110-112 | a live key (starting `pk_live`) links the live dashboard, any other the test dashboard, with the charge id appended |
| App.PaymentUrlTells | src/app.ts:110-112 | equal links mean the same mode and the same charge id |
| App.PageInfoFor | src/app.ts:325-347 | there is a description iff the document has a paragraph, and an image iff it has a photo. The url is protocol + `://` + hostname + `/` + slug. |
| App.PageInfoChosen | src/app.ts:326-340 | the description is the trimmed text of a paragraph no other precedes in sort order, with no white space at either end. The image is the url of a photo no other precedes. |
| App.PagedCovers | src/app.ts:329-347 | the page annotation is appended under a fresh id over the whole text with these attributes; text and existing annotations are unchanged |
| App.AnnotatePage | src/app.ts:329-347 | the in-place `addAnnotations` reaches exactly the state `Paged` describes |

## Left out

- The document library's behaviour is the contract stated above. The library itself is not
  part of this model.
- Text units: text is a sequence of Unicode code points, while JavaScript's `length` and offsets
  count UTF-16 code units. Offsets match the source only for text in the Basic Multilingual
  Plane. After an astral character (an emoji in a title, a name or a description), every later
  offset in the source is one larger per such character than in the model: the title heading,
  `NameEnd`, the event cursor and the footnote's tail start.
- CardPasses.TicketAction: a ticket card of width zero at the very end of the text stops the pass
  with RangeError. The source writes the BuyButton over `[start, start+1)` past the end and goes
  on. Parsed Mobiledoc cards always cover one object character, so this input does not arise from
  a parsed body; an out-of-range span is not representable in the model.
- ItineraryPass.ItineraryExpanded: a zero-width itinerary card at the very end of the text stops
  the pass with RangeError (`Listing`, `ListAtRoom`, `ItineraryExpandedFails`), where the source
  writes the Schedule over `[start, start+1)` past the end. The reason is the same as for tickets.
- PersonPass.Opened: a person card whose start + 1 passes the end of the text stops the pass with
  RangeError, where the source sets the card's end past the text and goes on. The reason is the
  same as for tickets.
- ItineraryPass.ItineraryExpandedLayout, ItineraryPass.EventsWrittenLayout and
  ItineraryLayout.EventWrittenLayout: the layout is stated only under two conditions. First, no
  person card starts before the end of the itinerary card (the cursor for one event). Otherwise
  the source puts a new person card at the end of the last person card, before the cursor. Its
  two characters then shift the text under the pending LineBreak, Byline and ListItem spans and
  later insertions, which the model follows as written without a layout promise. Second, no
  event description carries a person or location card (`AllReady` for the pass,
  `CardFree(desc.annotations)` for one event). A description's person card lands inside the
  written text, before the next event's cursor, and the first condition then fails for every
  later event; the model writes such descriptions as the source does but promises no layout.
- ItineraryPass.ItineraryExpandedCounts, ItineraryPass.EventsWrittenCounts and
  ItineraryCards.EventWrittenCounts: the card counts are stated only when no event description
  carries a person or location card. Otherwise the description's own card and the check's new
  card for the same person both appear, so one card per person is not promised.
- A missing ticket, a byline person that was not loaded, a venue location that was not loaded,
  and a river summary's itinerary event id that names no event of the host post make the source
  throw a TypeError, which rejects `fromRaw`. The model returns the failures MissingTicket,
  MissingPerson, MissingLocation and MissingEvent instead. A failing event in the middle of an
  itinerary leaves no partial document in the model, as the rejected promise leaves none to the
  caller.
- Loose equality and `Number(...)` are modelled for decimal integer literals only (Js.ToNumber).
  `"1.0" == 1`, `"0x1" == 1` and `"1e0" == 1` hold in JavaScript but not in the model. This
  affects the lookups that compare a string id with `==`: the person lookup (PersonPass.PersonNamed),
  the photo lookup of photo cards and of river summaries (CardPasses.PhotoNamed) and the
  itinerary's venue de-duplication (Annotations.LocationCardFor). The location, event and post
  lookups go through `parseInt`, which is modelled in full for the decimal radix.
- CardPasses.BuyButtonFor: the ticket currency is lower-cased for ASCII letters only
  (Js.AsciiLower), where `toLowerCase` folds every Unicode letter.
- Itineraries.Roles: roles are written in the order they first appear. `Object.keys` lists
  integer-like role names first, in ascending numeric order, and only then the others in
  insertion order. A role named like an `Object.prototype` member (`constructor`) makes the
  source's `.push` throw; the model groups it like any other role.
- `sort()`'s tiebreak by annotation rank is dropped (see the library contract above).
  Annotations.FirstSorted and Annotations.LastSorted rely on it only among annotations of one type.
- App.FormatOf: content negotiation is the parameter `wantsHtml`. The 406 answer `res.format`
  gives when the client accepts neither HTML nor JSON is not modelled.
- App.Routed: the editor and asset branches, the favicon answer, the 400 answer for a host
  without a group or website, and the 404 page for an unknown slug are not modelled. They depend
  on database lookups.
- TicketModel.Total: the source divides in IEEE doubles by `1 - 0.029`, which is not exactly
  0.971; the model computes the exact quotient `(cost + 30) * 1000 / 971` and rounds it. The
  exact quotient is never a half and lies at least 1/1942 from one (its doubled numerator is
  odd), while the double's error stays far below that for any cost under 10^12 (cents), so both
  round to the same integer there. Larger costs are not promised to agree.
- App.LastMod: the timestamp is a parameter. `toISOString` always writes a `T`, so the no-`T`
  case (dropping the last character) is modelled but does not arise.
- `new Date()`, `formatDateRange`, `JSON.parse` and the Mobiledoc parser are parameters (`now`,
  `format`, `parse`). The date range text and parsed snapshots are whatever they return.
- The ISO-string rendering of event times in schedule entries is not modelled: instants are kept
  as numbers.
- The conversion `doc.convertTo(OffsetSource).toJSON()` at the end of `fromRaw` is not modelled.
  The `Page` annotation is computed on the hydrated document, whose paragraph and photo types are
  assumed to be the converted ones.
- Database queries, Express routing, Stripe calls, the ticket purchase and stub loop, rendering,
  HIR output and `console.log` are I/O and are left out.
- Each added biography, description or footnote annotation is added by its own call in the
  source, and in one call here. Fresh ids are consecutive either way.
