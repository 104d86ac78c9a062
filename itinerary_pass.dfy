/**
 * The itinerary pass: each itinerary card of the document as it stood becomes a `-qtc-schedule`
 * of the events it lists, followed by one list item per event, every one written just after the
 * schedule's character, so that the list reads from the last event listed to the first.
 */
module ItineraryPass {
  import opened Wrappers
  import opened Js
  import opened Collections
  import opened Entities
  import opened EventModel
  import opened Annotations
  import opened Documents
  import opened Schedules
  import opened Itineraries
  import opened ItineraryCards
  import opened ItineraryLayout

  /** `formatDateRange(startsAt, endsAt, timeZone)`, the host's date formatting. */
  type RangeFormat = (int, int, string) -> string

  /** `eventIds.indexOf(event.id) !== -1`: strict equality, so a string id lists no event. */
  function ListedIn(ids: seq<Scalar>): Event -> bool {
    (ev: Event) => Num(ev.id) in ids
  }

  /** The events of a card's list, as lookups that all succeeded. */
  function Found(events: seq<Event>): (r: seq<Option<Event>>)
    ensures |r| == |events| && forall i | 0 <= i < |events| :: r[i] == Some(events[i])
  {
    seq(|events|, i requires 0 <= i < |events| => Some(events[i]))
  }

  /** What writing an event needs: its people and its venue's location loaded, a description that parses. */
  predicate Ready(ev: Event, parse: string -> Option<Snapshot>) {
    PeopleLoaded(ev.bylines) && VenueLoaded(ev) && Embedded(ev.description, parse).Ok?
  }

  /** Why an event that is not ready cannot be written, in the order the writing finds out. */
  function Failing(ev: Event): Failure {
    if !PeopleLoaded(ev.bylines) then MissingPerson
    else if !VenueLoaded(ev) then MissingLocation
    else Malformed
  }

  /** The parsed description of an event: empty without one (or when it does not parse). */
  function DescriptionOf(ev: Event, parse: string -> Option<Snapshot>): Snapshot {
    match Embedded(ev.description, parse)
    case Ok(desc) => desc
    case Err(_) => Snapshot("", [])
  }

  /** The text of an event's list item. */
  function Block(ev: Event, tz: string, format: RangeFormat, parse: string -> Option<Snapshot>): string {
    BlockText(ev, format(ev.startsAt, ev.endsAt, tz), DescriptionOf(ev, parse).content)
  }

  /** One event written at `s`. */
  function EventBlock(d: Draft, s: nat, ev: Event, tz: string, format: RangeFormat,
                      parse: string -> Option<Snapshot>): (r: Result<Draft, Failure>)
    requires Fits(d) && s <= |d.content|
    ensures r.Ok? ==> Fits(r.value) && |r.value.content| >= |d.content| && |r.value.annotations| >= |d.annotations|
  {
    if !PeopleLoaded(ev.bylines) then Err(MissingPerson)
    else if !VenueLoaded(ev) then Err(MissingLocation)
    else
      match Embedded(ev.description, parse)
      case Err(e) => Err(e)
      case Ok(desc) => Ok(EventWritten(d, s, ev, format(ev.startsAt, ev.endsAt, tz), desc))
  }

  /** `events.forEach(...)`: the events written one after the other, all at `s`. */
  function EventsWritten(d: Draft, s: nat, events: seq<Event>, tz: string, format: RangeFormat,
                         parse: string -> Option<Snapshot>): (r: Result<Draft, Failure>)
    requires Fits(d) && s <= |d.content|
    ensures r.Ok? ==> Fits(r.value) && |r.value.content| >= |d.content| && |r.value.annotations| >= |d.annotations|
    decreases |events|
  {
    if events == [] then Ok(d)
    else
      match EventsWritten(d, s, events[..|events| - 1], tz, format, parse)
      case Err(e) => Err(e)
      case Ok(mid) => EventBlock(mid, s, events[|events| - 1], tz, format, parse)
  }

  /** The list items of `events` as they stand once all are written: the last event's first. */
  function Stacked(events: seq<Event>, tz: string, format: RangeFormat, parse: string -> Option<Snapshot>): string
    decreases |events|
  {
    if events == [] then ""
    else Block(events[|events| - 1], tz, format, parse) + Stacked(events[..|events| - 1], tz, format, parse)
  }

  /** One event written: the edits of `EventWritten` when the event is ready, else the failure it hits. */
  lemma EventBlockCases(d: Draft, s: nat, ev: Event, tz: string, format: RangeFormat, parse: string -> Option<Snapshot>)
    requires Fits(d) && s <= |d.content|
    ensures EventBlock(d, s, ev, tz, format, parse).Ok? <==> Ready(ev, parse)
    ensures !Ready(ev, parse) ==> EventBlock(d, s, ev, tz, format, parse) == Err(Failing(ev))
    ensures Ready(ev, parse) ==>
      EventBlock(d, s, ev, tz, format, parse).value ==
        EventWritten(d, s, ev, format(ev.startsAt, ev.endsAt, tz), DescriptionOf(ev, parse))
  {
  }

  /** The failure of the first event that is not ready, if any. */
  function FirstFailure(events: seq<Event>, parse: string -> Option<Snapshot>): Option<Failure>
    decreases |events|
  {
    if events == [] then None
    else
      match FirstFailure(events[..|events| - 1], parse)
      case Some(e) => Some(e)
      case None => if Ready(events[|events| - 1], parse) then None else Some(Failing(events[|events| - 1]))
  }

  /** There is a failure exactly when some event is not ready, and it is the first such event's. */
  lemma {:induction false} FirstFailureCases(events: seq<Event>, parse: string -> Option<Snapshot>)
    ensures FirstFailure(events, parse).None? <==> forall i | 0 <= i < |events| :: Ready(events[i], parse)
    ensures FirstFailure(events, parse).Some? ==>
      exists i | 0 <= i < |events| ::
        && !Ready(events[i], parse) && (forall j | 0 <= j < i :: Ready(events[j], parse))
        && FirstFailure(events, parse).value == Failing(events[i])
    decreases |events|
  {
    if events != [] {
      var init := events[..|events| - 1];
      FirstFailureCases(init, parse);
      assert forall i | 0 <= i < |init| :: init[i] == events[i];
      if FirstFailure(init, parse).Some? {
        var i :| 0 <= i < |init| && !Ready(init[i], parse) && (forall j | 0 <= j < i :: Ready(init[j], parse)) &&
                 FirstFailure(init, parse).value == Failing(init[i]);
        assert !Ready(events[i], parse);
      }
    }
  }

  /**
   * Writing a list of events succeeds exactly when every event is ready; otherwise the first
   * event that is not ready decides the failure (see `FirstFailureCases`).
   */
  lemma {:induction false} EventsWrittenFails(d: Draft, s: nat, events: seq<Event>, tz: string, format: RangeFormat,
                                              parse: string -> Option<Snapshot>)
    requires Fits(d) && s <= |d.content|
    ensures EventsWritten(d, s, events, tz, format, parse).Ok? <==> FirstFailure(events, parse).None?
    ensures EventsWritten(d, s, events, tz, format, parse).Err? ==>
      FirstFailure(events, parse) == Some(EventsWritten(d, s, events, tz, format, parse).error)
    decreases |events|
  {
    if events != [] {
      var init, last := events[..|events| - 1], events[|events| - 1];
      EventsWrittenFails(d, s, init, tz, format, parse);
      if EventsWritten(d, s, init, tz, format, parse).Ok? {
        EventBlockCases(EventsWritten(d, s, init, tz, format, parse).value, s, last, tz, format, parse);
      }
    }
  }

  /** Once an event fails, the events after it are not written: the failure is the list's. */
  lemma {:induction false} EventsWrittenStops(d: Draft, s: nat, events: seq<Event>, j: nat, tz: string,
                                              format: RangeFormat, parse: string -> Option<Snapshot>)
    requires Fits(d) && s <= |d.content| && j <= |events| && EventsWritten(d, s, events[..j], tz, format, parse).Err?
    ensures EventsWritten(d, s, events, tz, format, parse) == EventsWritten(d, s, events[..j], tz, format, parse)
    decreases |events|
  {
    if j < |events| {
      var init := events[..|events| - 1];
      assert init[..j] == events[..j];
      EventsWrittenStops(d, s, init, j, tz, format, parse);
    } else {
      assert events[..j] == events;
    }
  }

  /** All of the events are ready and no description carries a card. */
  predicate AllReady(events: seq<Event>, parse: string -> Option<Snapshot>) {
    forall ev | ev in events :: Ready(ev, parse) && CardFree(DescriptionOf(ev, parse).annotations)
  }

  /**
   * The events' list items all sit at `s`, the last event's first: the text reads what came
   * before `s`, the stacked items, then what came after `s` up to `p`, when no person card starts
   * before `p`.
   */
  lemma {:induction false} EventsWrittenLayout(d: Draft, s: nat, p: nat, events: seq<Event>, tz: string,
                                               format: RangeFormat, parse: string -> Option<Snapshot>)
    requires Fits(d) && s <= p <= |d.content| && PersonCardsFrom(d.annotations, p) && AllReady(events, parse)
    ensures EventsWritten(d, s, events, tz, format, parse).Ok?
    ensures var r := EventsWritten(d, s, events, tz, format, parse).value;
      var stacked := Stacked(events, tz, format, parse);
      Begins(r.content, d.content[..s] + stacked + d.content[s..p]) && PersonCardsFrom(r.annotations, p + |stacked|)
    decreases |events|
  {
    if events == [] {
      NothingStacked(d.content, s, p);
    } else {
      var init, last := events[..|events| - 1], events[|events| - 1];
      AllReadySnoc(events, parse, init, last);
      EventsWrittenLayout(d, s, p, init, tz, format, parse);
      var mid := EventsWritten(d, s, init, tz, format, parse).value;
      var before := Stacked(init, tz, format, parse);
      EventsWrittenSnoc(d, s, events, tz, format, parse, init, last, mid);
      StackStep(mid, d.content, s, p, last, tz, format, parse, before,
                EventsWritten(d, s, events, tz, format, parse), Stacked(events, tz, format, parse));
    }
  }

  lemma NothingStacked(c: string, s: nat, p: nat)
    requires s <= p <= |c|
    ensures Begins(c, c[..s] + "" + c[s..p])
  {
    assert c[..s] + "" + c[s..p] == c[..p];
  }

  lemma AllReadySnoc(events: seq<Event>, parse: string -> Option<Snapshot>, init: seq<Event>, last: Event)
    requires AllReady(events, parse) && |events| > 0 && init == events[..|events| - 1] && last == events[|events| - 1]
    ensures events == init + [last] && AllReady(init, parse)
    ensures Ready(last, parse) && CardFree(DescriptionOf(last, parse).annotations)
  {
    assert forall ev | ev in init :: ev in events;
  }

  /** The last event is written on what the others made of the document. */
  lemma EventsWrittenSnoc(d: Draft, s: nat, events: seq<Event>, tz: string, format: RangeFormat,
                          parse: string -> Option<Snapshot>, init: seq<Event>, last: Event, mid: Draft)
    requires Fits(d) && s <= |d.content| && events == init + [last]
    requires EventsWritten(d, s, init, tz, format, parse) == Ok(mid)
    ensures Fits(mid) && s <= |mid.content|
    ensures EventsWritten(d, s, events, tz, format, parse) == EventBlock(mid, s, last, tz, format, parse)
    ensures Stacked(events, tz, format, parse) == Block(last, tz, format, parse) + Stacked(init, tz, format, parse)
  {
    assert events[..|events| - 1] == init;
  }

  /** Nothing listed yet writes nothing; everything listed is the whole list. */
  lemma EventsWrittenEnds(d: Draft, s: nat, events: seq<Event>, tz: string, format: RangeFormat,
                          parse: string -> Option<Snapshot>)
    requires Fits(d) && s <= |d.content|
    ensures EventsWritten(d, s, events[..0], tz, format, parse) == Ok(d)
    ensures EventsWritten(d, s, events[..|events|], tz, format, parse) == EventsWritten(d, s, events, tz, format, parse)
  {
    assert events[..0] == [];
    assert events[..|events|] == events;
  }

  /** The events up to `i` written, the `i`th is written on top of them. */
  lemma EventsWrittenNext(d: Draft, s: nat, events: seq<Event>, i: nat, tz: string, format: RangeFormat,
                          parse: string -> Option<Snapshot>, mid: Draft)
    requires Fits(d) && s <= |d.content| && i < |events|
    requires EventsWritten(d, s, events[..i], tz, format, parse) == Ok(mid)
    ensures Fits(mid) && s <= |mid.content|
    ensures EventsWritten(d, s, events[..i + 1], tz, format, parse) == EventBlock(mid, s, events[i], tz, format, parse)
  {
    TakeNext(events, i);
    EventsWrittenSnoc(d, s, events[..i + 1], tz, format, parse, events[..i], events[i], mid);
  }

  /** The text after one more item goes on top of the stack at `s`. */
  lemma StackText(c: string, r: string, s: nat, q: nat, pre: string, before: string, post: string, block: string)
    requires s == |pre| && q == |pre| + |before| + |post|
    requires Begins(c, pre + before + post) && Begins(r, c[..s] + block + c[s..q])
    ensures Begins(r, pre + (block + before) + post)
  {
    assert c[..q] == pre + before + post;
    assert c[..s] == pre;
    assert c[s..q] == before + post;
    assert pre + block + (before + post) == pre + (block + before) + post;
  }

  /** The step of `EventsWrittenLayout`: one more item on top of the stack. */
  lemma StackStep(mid: Draft, c: string, s: nat, p: nat, ev: Event, tz: string, format: RangeFormat,
                  parse: string -> Option<Snapshot>, before: string, whole: Result<Draft, Failure>, stacked: string)
    requires Fits(mid) && s <= p <= |c|
    requires Begins(mid.content, c[..s] + before + c[s..p]) && PersonCardsFrom(mid.annotations, p + |before|)
    requires Ready(ev, parse) && CardFree(DescriptionOf(ev, parse).annotations)
    requires whole == EventBlock(mid, s, ev, tz, format, parse) && stacked == Block(ev, tz, format, parse) + before
    ensures whole.Ok?
    ensures Begins(whole.value.content, c[..s] + stacked + c[s..p]) && PersonCardsFrom(whole.value.annotations, p + |stacked|)
  {
    var range := format(ev.startsAt, ev.endsAt, tz);
    var desc := DescriptionOf(ev, parse);
    var pre, post := c[..s], c[s..p];
    var q := p + |before|;
    EventBlockCases(mid, s, ev, tz, format, parse);
    var r := EventWritten(mid, s, ev, range, desc);
    assert whole.value == r;
    EventWrittenLayout(mid, s, q, ev, range, desc);
    StackText(mid.content, r.content, s, q, pre, before, post, BlockText(ev, range, desc.content));
  }

  // ---------------------------------------------------------------------------------------
  // The cards and the annotations the events leave behind

  /** The person-card keys the bylines of `events` ask for. */
  ghost function EventsKeys(events: seq<Event>): set<Scalar>
    decreases |events|
  {
    if events == [] then {} else EventsKeys(events[..|events| - 1]) + CardKeys(events[|events| - 1].bylines)
  }

  /** The location ids the venues of `events` ask a card for. */
  function EventsIds(events: seq<Event>): set<int>
    decreases |events|
  {
    if events == [] then {} else EventsIds(events[..|events| - 1]) + VenueIds(events[|events| - 1])
  }

  /**
   * Writing the events adds one person card per byline person with a biography and one location
   * card per venue location, each only when no card for it exists yet.
   */
  lemma {:induction false} EventsWrittenCounts(d: Draft, s: nat, events: seq<Event>, tz: string, format: RangeFormat,
                                               parse: string -> Option<Snapshot>)
    requires Fits(d) && s <= |d.content| && AllReady(events, parse)
    ensures EventsWritten(d, s, events, tz, format, parse).Ok?
    ensures CardsAdded(d.annotations, EventsWritten(d, s, events, tz, format, parse).value.annotations,
                       EventsKeys(events), EventsIds(events))
    decreases |events|
  {
    if events != [] {
      var init, last := events[..|events| - 1], events[|events| - 1];
      assert forall ev | ev in init :: ev in events;
      EventsWrittenCounts(d, s, init, tz, format, parse);
      var mid := EventsWritten(d, s, init, tz, format, parse).value;
      var range := format(last.startsAt, last.endsAt, tz);
      EventBlockCases(mid, s, last, tz, format, parse);
      EventWrittenCounts(mid, s, last, range, DescriptionOf(last, parse));
      var r := EventWritten(mid, s, last, range, DescriptionOf(last, parse));
      CardsAddedStep(d.annotations, mid.annotations, r.annotations,
                     EventsWritten(d, s, events, tz, format, parse).value.annotations,
                     EventsKeys(init), CardKeys(last.bylines), EventsKeys(events),
                     EventsIds(init), VenueIds(last), EventsIds(events));
    }
  }

  /** Every annotation that was there is still there, at its index, with its id and its type. */
  predicate Keeps(before: seq<Annotation>, after: seq<Annotation>) {
    |before| <= |after| && forall i | 0 <= i < |before| :: after[i].id == before[i].id && after[i].body == before[i].body
  }

  lemma KeepsChain(a: seq<Annotation>, b: seq<Annotation>, c: seq<Annotation>)
    requires Keeps(a, b) && Keeps(b, c)
    ensures Keeps(a, c)
  {
  }

  /** Inserted text moves annotations and added ones go at the end: none changes id or type. */
  lemma AppliedKeeps(d: Draft, e: Edit)
    requires Fits(d) && Lands(d, e)
    ensures Keeps(d.annotations, Applied(d, e).annotations)
  {
    match e
    case Write(at, text) =>
    case Mark(drafts) =>
    case PersonCheck(person) =>
      if CardsPerson(d.annotations, person) {
        var slot := PersonCardSlot(d.annotations, |d.content|);
        KeepsChain(d.annotations, WithText(d, slot.0, "\U{FFFC}\n", slot.1).annotations, PersonCarded(d, person).annotations);
      }
    case LocationCheck(loc) =>
      if LocationCount(d.annotations, loc.id) == 0 {
        KeepsChain(d.annotations, WithText(d, |d.content|, "\U{FFFC}\n", Preserve).annotations,
                   LocationCarded(d, loc).annotations);
      }
  }

  lemma {:induction false} RunKeeps(d: Draft, edits: seq<Edit>, at: nat)
    requires Fits(d) && at <= |d.content| && Contiguous(edits, at)
    ensures Keeps(d.annotations, Run(d, edits, at).annotations)
    decreases |edits|
  {
    if edits != [] {
      var prefix, e := edits[..|edits| - 1], edits[|edits| - 1];
      assert edits == prefix + [e];
      ContiguousSplit(edits, at, prefix, e);
      RunSnoc(d, prefix, at, e);
      RunKeeps(d, prefix, at);
      AppliedKeeps(Run(d, prefix, at), e);
      KeepsChain(d.annotations, Run(d, prefix, at).annotations, Run(d, edits, at).annotations);
    }
  }

  lemma {:induction false} EventsWrittenKeeps(d: Draft, s: nat, events: seq<Event>, tz: string, format: RangeFormat,
                                              parse: string -> Option<Snapshot>)
    requires Fits(d) && s <= |d.content| && EventsWritten(d, s, events, tz, format, parse).Ok?
    ensures Keeps(d.annotations, EventsWritten(d, s, events, tz, format, parse).value.annotations)
    decreases |events|
  {
    if events != [] {
      var init, last := events[..|events| - 1], events[|events| - 1];
      EventsWrittenKeeps(d, s, init, tz, format, parse);
      var mid := EventsWritten(d, s, init, tz, format, parse).value;
      var range := format(last.startsAt, last.endsAt, tz);
      var desc := DescriptionOf(last, parse);
      EventBlockCases(mid, s, last, tz, format, parse);
      EventEditsContiguous(s, last, range, desc);
      RunKeeps(mid, EventEdits(s, last, range, desc), s);
      KeepsChain(d.annotations, mid.annotations, EventsWritten(d, s, events, tz, format, parse).value.annotations);
    }
  }

  // ---------------------------------------------------------------------------------------
  // One itinerary card

  /** The events an itinerary card lists, in the post's order. */
  function Listed(card: Body, events: seq<Event>): (r: seq<Event>)
    requires card.ItineraryCard?
    ensures forall ev :: ev in r <==> ev in events && Num(ev.id) in card.eventIds
  {
    Filter(events, ListedIn(card.eventIds))
  }

  /** The schedule entries of the listed events; empty when one cannot be built. */
  function EntriesOf(listed: seq<Event>, tz: string): seq<ScheduleEntry> {
    match Entries(Found(listed), tz)
    case Ok(entries) => entries
    case Err(_) => []
  }

  /** The card at `k` replaced by a schedule over its first character, keeping its id. */
  function Scheduled(d: Draft, k: nat, entries: seq<ScheduleEntry>): (r: Draft)
    requires Fits(d) && k < |d.annotations| && d.annotations[k].start + 1 <= |d.content|
    ensures Fits(r) && r.content == d.content && r.nextId == d.nextId && |r.annotations| == |d.annotations|
  {
    var card := d.annotations[k];
    d.(annotations := d.annotations[k := Annotation(card.id, card.start, card.start + 1, Schedule(entries))])
  }

  /**
   * One itinerary card: the schedule of its events (a venue whose location is missing stops it),
   * a newline after the card, the card replaced by the schedule over its first character, and
   * each listed event written just after that character.
   */
  function ItineraryExpanded(d: Draft, k: nat, tz: string, events: seq<Event>, format: RangeFormat,
                             parse: string -> Option<Snapshot>): (r: Result<Draft, Failure>)
    requires Fits(d) && k < |d.annotations| && d.annotations[k].body.ItineraryCard?
    ensures r.Ok? ==> Fits(r.value) && |r.value.annotations| >= |d.annotations|
  {
    var card := d.annotations[k];
    var listed := Listed(card.body, events);
    match Entries(Found(listed), tz)
    case Err(e) => Err(e)
    case Ok(entries) =>
      Listing(WithText(d, card.end, "\n", Default), k, entries, listed, tz, format, parse)
  }

  /**
   * The schedule put in place of the card at `k` and the listed events written just after the
   * card's first character.
   */
  function Listing(lined: Draft, k: nat, entries: seq<ScheduleEntry>, listed: seq<Event>, tz: string,
                   format: RangeFormat, parse: string -> Option<Snapshot>): (r: Result<Draft, Failure>)
    requires Fits(lined) && k < |lined.annotations|
    ensures r.Ok? ==> Fits(r.value) && |r.value.annotations| >= |lined.annotations|
    ensures lined.annotations[k].start + 1 > |lined.content| ==> r == Err(RangeError)
  {
    if lined.annotations[k].start + 1 > |lined.content| then Err(RangeError)
    else EventsWritten(Scheduled(lined, k, entries), lined.annotations[k].start + 1, listed, tz, format, parse)
  }

  /** Where the events of the card at `k` are written, once the newline is in. */
  function ListAt(d: Draft, k: nat): nat
    requires Fits(d) && k < |d.annotations|
  {
    InsertPos(d.annotations[k].start, d.annotations[k].end, 1, Default) + 1
  }

  /** The newline goes in at the card's end, so the list starts just after its first character. */
  lemma ListAtIs(d: Draft, k: nat)
    requires Fits(d) && k < |d.annotations|
    ensures var lined := WithText(d, d.annotations[k].end, "\n", Default);
      lined.annotations[k].start + 1 == ListAt(d, k)
  {
    var lined := WithText(d, d.annotations[k].end, "\n", Default);
    assert lined.annotations[k] == Inserted(d.annotations[k], d.annotations[k].end, 1, Default);
  }

  /** The card's expansion once its schedule entries are built. */
  lemma ItineraryExpandedIs(d: Draft, k: nat, tz: string, events: seq<Event>, format: RangeFormat,
                            parse: string -> Option<Snapshot>, listed: seq<Event>, entries: seq<ScheduleEntry>)
    requires Fits(d) && k < |d.annotations| && d.annotations[k].body.ItineraryCard?
    requires listed == Listed(d.annotations[k].body, events) && Entries(Found(listed), tz) == Ok(entries)
    ensures ItineraryExpanded(d, k, tz, events, format, parse) ==
      Listing(WithText(d, d.annotations[k].end, "\n", Default), k, entries, listed, tz, format, parse)
  {
  }

  /**
   * The schedule is built before anything is written, so a listed event whose venue's location
   * is missing fails the card first.
   */
  lemma ItineraryMissingLocation(d: Draft, k: nat, tz: string, events: seq<Event>, format: RangeFormat,
                                 parse: string -> Option<Snapshot>)
    requires Fits(d) && k < |d.annotations| && d.annotations[k].body.ItineraryCard?
    requires exists ev | ev in Listed(d.annotations[k].body, events) :: !VenueLoaded(ev)
    ensures ItineraryExpanded(d, k, tz, events, format, parse) == Err(MissingLocation)
  {
    var listed := Listed(d.annotations[k].body, events);
    var found := Found(listed);
    var ev :| ev in listed && !VenueLoaded(ev);
    var i :| 0 <= i < |listed| && listed[i] == ev;
    MissingLocationFirst(found, tz, i);
  }

  /** Only a card that covers no character at the very end of the text leaves no room for its list. */
  lemma ListAtRoom(d: Draft, k: nat)
    requires Fits(d) && k < |d.annotations|
    ensures ListAt(d, k) > |d.content| + 1 <==> d.annotations[k].start == d.annotations[k].end == |d.content|
  {
  }

  /**
   * With every venue's location loaded, a card that covers no character at the very end of the
   * text fails for want of room; any other card expands exactly when every listed event is
   * ready, and the first one that is not decides the failure.
   */
  lemma ItineraryExpandedFails(d: Draft, k: nat, tz: string, events: seq<Event>, format: RangeFormat,
                               parse: string -> Option<Snapshot>)
    requires Fits(d) && k < |d.annotations| && d.annotations[k].body.ItineraryCard?
    requires forall ev | ev in Listed(d.annotations[k].body, events) :: VenueLoaded(ev)
    ensures var listed := Listed(d.annotations[k].body, events);
      var r := ItineraryExpanded(d, k, tz, events, format, parse);
      && (d.annotations[k].start == d.annotations[k].end == |d.content| ==> r == Err(RangeError))
      && (!(d.annotations[k].start == d.annotations[k].end == |d.content|) ==>
            (r.Ok? <==> FirstFailure(listed, parse).None?) && (r.Err? ==> FirstFailure(listed, parse) == Some(r.error)))
  {
    var card := d.annotations[k];
    var listed := Listed(card.body, events);
    var entries := EntriesWhenLoaded(listed, tz);
    var lined := WithText(d, card.end, "\n", Default);
    ItineraryExpandedIs(d, k, tz, events, format, parse, listed, entries);
    ListAtIs(d, k);
    ListAtRoom(d, k);
    if ListAt(d, k) <= |lined.content| {
      EventsWrittenFails(Scheduled(lined, k, entries), ListAt(d, k), listed, tz, format, parse);
    }
  }

  /** With every venue's location loaded, the entries can be built. */
  lemma EntriesWhenLoaded(listed: seq<Event>, tz: string) returns (entries: seq<ScheduleEntry>)
    requires forall ev | ev in listed :: VenueLoaded(ev)
    ensures Entries(Found(listed), tz) == Ok(entries)
  {
    EntriesCases(Found(listed), tz);
    assert forall i | 0 <= i < |listed| :: listed[i] in listed;
    entries := Entries(Found(listed), tz).value;
  }

  /** Entries that could be built mean every venue's location is loaded. */
  lemma EntriesLoaded(listed: seq<Event>, tz: string)
    requires Entries(Found(listed), tz).Ok?
    ensures forall ev | ev in listed :: VenueLoaded(ev)
  {
    EntriesCases(Found(listed), tz);
    forall ev | ev in listed ensures VenueLoaded(ev) {
      var i :| 0 <= i < |listed| && listed[i] == ev;
      assert Found(listed)[i] == Some(ev);
    }
  }

  /** Building the entries fails with a missing location whenever some venue lacks one. */
  lemma MissingLocationFirst(found: seq<Option<Event>>, tz: string, i: nat)
    requires i < |found| && found[i].Some? && found[i].value.venue.Some? && found[i].value.venue.value.location.None?
    requires forall j | 0 <= j < |found| :: found[j].Some?
    ensures Entries(found, tz) == Err(MissingLocation)
  {
    EntriesAllFail(found, tz);
  }

  /** Every way building the entries can fail with found events is a missing location. */
  lemma {:induction false} EntriesAllFail(found: seq<Option<Event>>, tz: string)
    requires forall j | 0 <= j < |found| :: found[j].Some?
    ensures Entries(found, tz).Err? ==> Entries(found, tz).error == MissingLocation
    decreases |found|
  {
    if found != [] {
      EntriesAllFail(found[1..], tz);
    }
  }

  /** The schedule that replaces an itinerary card is no card, and neither was the itinerary card. */
  lemma ScheduledCardsAdded(lined: Draft, k: nat, entries: seq<ScheduleEntry>)
    requires Fits(lined) && k < |lined.annotations| && lined.annotations[k].start + 1 <= |lined.content|
    requires lined.annotations[k].body.ItineraryCard?
    ensures CardsAdded(lined.annotations, Scheduled(lined, k, entries).annotations, {}, {})
  {
    var before, after := lined.annotations, Scheduled(lined, k, entries).annotations;
    forall key ensures PersonCount(after, key) == PersonCount(before, key) {
      CountWhereSameVerdicts(before, after, PersonCardFor(key));
    }
    forall l ensures LocationCount(after, l) == LocationCount(before, l) {
      CountWhereSameVerdicts(before, after, LocationCardFor(l));
    }
  }

  /** Replacing the itinerary card by its schedule moves no person card. */
  lemma ScheduledPersonCards(lined: Draft, k: nat, entries: seq<ScheduleEntry>, p: nat)
    requires Fits(lined) && k < |lined.annotations| && lined.annotations[k].start + 1 <= |lined.content|
    requires PersonCardsFrom(lined.annotations, p)
    ensures PersonCardsFrom(Scheduled(lined, k, entries).annotations, p)
  {
    var after := Scheduled(lined, k, entries).annotations;
    forall a | a in after && a.body.PersonCard? ensures a.start >= p {
      var i :| 0 <= i < |after| && after[i] == a;
      assert lined.annotations[i] in lined.annotations;
    }
  }

  /**
   * The stages of a card's expansion when every venue has its location and there is room after
   * the card: the entries, the newline, the schedule in the card's place and the events' writing.
   */
  lemma ExpansionStages(d: Draft, k: nat, tz: string, events: seq<Event>, format: RangeFormat,
                        parse: string -> Option<Snapshot>)
    returns (listed: seq<Event>, entries: seq<ScheduleEntry>, lined: Draft, sched: Draft, s: nat)
    requires Fits(d) && k < |d.annotations| && d.annotations[k].body.ItineraryCard?
    requires forall ev | ev in Listed(d.annotations[k].body, events) :: VenueLoaded(ev)
    requires !(d.annotations[k].start == d.annotations[k].end == |d.content|)
    ensures listed == Listed(d.annotations[k].body, events) && Entries(Found(listed), tz) == Ok(entries)
    ensures lined == WithText(d, d.annotations[k].end, "\n", Default)
    ensures s == ListAt(d, k) == lined.annotations[k].start + 1 && s <= |lined.content|
    ensures sched == Scheduled(lined, k, entries) && s <= |sched.content|
    ensures ItineraryExpanded(d, k, tz, events, format, parse) == EventsWritten(sched, s, listed, tz, format, parse)
  {
    listed := Listed(d.annotations[k].body, events);
    entries := EntriesWhenLoaded(listed, tz);
    lined := WithText(d, d.annotations[k].end, "\n", Default);
    ItineraryExpandedIs(d, k, tz, events, format, parse, listed, entries);
    ListAtIs(d, k);
    ListAtRoom(d, k);
    s := ListAt(d, k);
    sched := Scheduled(lined, k, entries);
  }

  /**
   * After the newline: a list start past the text's end fails for want of room, any other start
   * leaves the expansion to the events written after the schedule.
   */
  lemma LinedCases(d: Draft, k: nat, tz: string, events: seq<Event>, format: RangeFormat,
                   parse: string -> Option<Snapshot>, listed: seq<Event>, entries: seq<ScheduleEntry>, lined: Draft, s: nat)
    requires Fits(d) && k < |d.annotations| && d.annotations[k].body.ItineraryCard?
    requires listed == Listed(d.annotations[k].body, events) && Entries(Found(listed), tz) == Ok(entries)
    requires lined == WithText(d, d.annotations[k].end, "\n", Default) && s == lined.annotations[k].start + 1
    ensures s > |lined.content| ==> ItineraryExpanded(d, k, tz, events, format, parse) == Err(RangeError)
    ensures s <= |lined.content| ==>
      ItineraryExpanded(d, k, tz, events, format, parse) == EventsWritten(Scheduled(lined, k, entries), s, listed, tz, format, parse)
  {
    EntriesLoaded(listed, tz);
    ListAtIs(d, k);
    ListAtRoom(d, k);
    if d.annotations[k].start == d.annotations[k].end == |d.content| {
      ItineraryExpandedFails(d, k, tz, events, format, parse);
    } else {
      var listed', entries', lined, sched, s := ExpansionStages(d, k, tz, events, format, parse);
    }
  }

  /** An expansion that succeeded went through every stage. */
  lemma ExpandedStages(d: Draft, k: nat, tz: string, events: seq<Event>, format: RangeFormat,
                       parse: string -> Option<Snapshot>)
    requires Fits(d) && k < |d.annotations| && d.annotations[k].body.ItineraryCard?
    requires ItineraryExpanded(d, k, tz, events, format, parse).Ok?
    ensures forall ev | ev in Listed(d.annotations[k].body, events) :: VenueLoaded(ev)
    ensures !(d.annotations[k].start == d.annotations[k].end == |d.content|)
  {
    if exists ev | ev in Listed(d.annotations[k].body, events) :: !VenueLoaded(ev) {
      ItineraryMissingLocation(d, k, tz, events, format, parse);
    } else {
      ItineraryExpandedFails(d, k, tz, events, format, parse);
    }
  }

  /** The newline after the card: the text splits there, and person cards past it move along. */
  lemma LinedLayout(d: Draft, k: nat, p: nat, lined: Draft)
    requires Fits(d) && k < |d.annotations| && d.annotations[k].end <= p <= |d.content|
    requires PersonCardsFrom(d.annotations, p) && lined == WithText(d, d.annotations[k].end, "\n", Default)
    ensures lined.content == d.content[..d.annotations[k].end] + "\n" + d.content[d.annotations[k].end..]
    ensures PersonCardsFrom(lined.annotations, p + 1)
  {
    var pre, post := d.content[..d.annotations[k].end], d.content[d.annotations[k].end..p];
    assert d.content[..p] == pre + post;
    WriteLayout(d, "\n", pre, post);
  }

  /** The schedule replaces the card at `k` and nothing else. */
  lemma ScheduledKeeps(lined: Draft, k: nat, entries: seq<ScheduleEntry>)
    requires Fits(lined) && k < |lined.annotations| && lined.annotations[k].start + 1 <= |lined.content|
    ensures var r := Scheduled(lined, k, entries).annotations;
      && r[k].id == lined.annotations[k].id && r[k].body == Schedule(entries)
      && forall i | 0 <= i < |lined.annotations| && i != k :: r[i] == lined.annotations[i]
  {
  }

  /**
   * A card whose listed events are all ready gains a person card for every byline person with a
   * biography and a location card for every venue location, each only when none is there yet.
   */
  lemma ItineraryExpandedCounts(d: Draft, k: nat, tz: string, events: seq<Event>, format: RangeFormat,
                                parse: string -> Option<Snapshot>)
    requires Fits(d) && k < |d.annotations| && d.annotations[k].body.ItineraryCard?
    requires AllReady(Listed(d.annotations[k].body, events), parse)
    requires !(d.annotations[k].start == d.annotations[k].end == |d.content|)
    ensures ItineraryExpanded(d, k, tz, events, format, parse).Ok?
    ensures var listed := Listed(d.annotations[k].body, events);
      CardsAdded(d.annotations, ItineraryExpanded(d, k, tz, events, format, parse).value.annotations,
                 EventsKeys(listed), EventsIds(listed))
  {
    var listed, entries, lined, sched, s := ExpansionStages(d, k, tz, events, format, parse);
    WithTextCardsAdded(d, d.annotations[k].end, "\n", Default);
    ScheduledCardsAdded(lined, k, entries);
    CardsAddedChain(d.annotations, lined.annotations, sched.annotations, {}, {}, {}, {});
    EventsWrittenCounts(sched, s, listed, tz, format, parse);
    CardsAddedStep(d.annotations, sched.annotations, EventsWritten(sched, s, listed, tz, format, parse).value.annotations,
                   ItineraryExpanded(d, k, tz, events, format, parse).value.annotations,
                   {}, EventsKeys(listed), EventsKeys(listed), {}, EventsIds(listed), EventsIds(listed));
  }

  /**
   * Where a card's list lands: a newline goes in after the card, and every listed event's item
   * just after the card's character, the last event listed first. The text up to `p` stays in
   * place around them provided no person card starts before `p`, since cards are only appended
   * after it.
   */
  lemma ItineraryExpandedLayout(d: Draft, k: nat, p: nat, tz: string, events: seq<Event>, format: RangeFormat,
                                parse: string -> Option<Snapshot>)
    requires Fits(d) && k < |d.annotations| && d.annotations[k].body.ItineraryCard?
    requires AllReady(Listed(d.annotations[k].body, events), parse)
    requires d.annotations[k].start < d.annotations[k].end <= p <= |d.content| && PersonCardsFrom(d.annotations, p)
    ensures ItineraryExpanded(d, k, tz, events, format, parse).Ok?
    ensures var c, card := d.content, d.annotations[k];
      var stacked := Stacked(Listed(card.body, events), tz, format, parse);
      var r := ItineraryExpanded(d, k, tz, events, format, parse).value;
      && Begins(r.content, c[..card.start + 1] + stacked + c[card.start + 1..card.end] + "\n" + c[card.end..p])
      && PersonCardsFrom(r.annotations, p + 1 + |stacked|)
  {
    var listed, entries, lined, sched, s := ExpansionStages(d, k, tz, events, format, parse);
    LinedLayout(d, k, p, lined);
    ScheduledPersonCards(lined, k, entries, p + 1);
    EventsWrittenLayout(sched, s, p + 1, listed, tz, format, parse);
    LinedText(d.content, d.annotations[k].start + 1, d.annotations[k].end, p, lined.content, Stacked(listed, tz, format, parse));
  }

  lemma LinedText(c: string, s: nat, e: nat, p: nat, lined: string, stacked: string)
    requires s <= e <= p <= |c| && lined == c[..e] + "\n" + c[e..]
    ensures lined[..s] + stacked + lined[s..p + 1] == c[..s] + stacked + c[s..e] + "\n" + c[e..p]
  {
    assert lined[..s] == c[..s];
    assert lined[s..p + 1] == c[s..e] + "\n" + c[e..p];
  }

  /**
   * A card that expands keeps its id and place in the annotations and becomes the schedule of
   * its listed events; every other annotation keeps its id and its type.
   */
  lemma ItineraryExpandedSchedule(d: Draft, k: nat, tz: string, events: seq<Event>, format: RangeFormat,
                                  parse: string -> Option<Snapshot>)
    requires Fits(d) && k < |d.annotations| && d.annotations[k].body.ItineraryCard?
    requires ItineraryExpanded(d, k, tz, events, format, parse).Ok?
    ensures var r := ItineraryExpanded(d, k, tz, events, format, parse).value;
      && |r.annotations| >= |d.annotations|
      && r.annotations[k].id == d.annotations[k].id
      && r.annotations[k].body == Schedule(EntriesOf(Listed(d.annotations[k].body, events), tz))
      && forall i | 0 <= i < |d.annotations| && i != k ::
           r.annotations[i].id == d.annotations[i].id && r.annotations[i].body == d.annotations[i].body
  {
    ExpandedStages(d, k, tz, events, format, parse);
    var listed, entries, lined, sched, s := ExpansionStages(d, k, tz, events, format, parse);
    ScheduledKeeps(lined, k, entries);
    EventsWrittenKeeps(sched, s, listed, tz, format, parse);
  }

  // ---------------------------------------------------------------------------------------
  // Every itinerary card

  /**
   * `doc.where({type: "-mobiledoc-itinerary-card"}).update(...)` over the first `n` annotations:
   * each itinerary card among them expanded in document order, the first failure stopping the
   * pass. Expanding a card only appends annotations and replaces the card in its place, so the
   * annotation at each later index is still the one the pass selected.
   */
  function ItinerariesUpTo(d: Draft, n: nat, tz: string, events: seq<Event>, format: RangeFormat,
                           parse: string -> Option<Snapshot>): (r: Result<Draft, Failure>)
    requires Fits(d) && n <= |d.annotations|
    ensures r.Ok? ==> Fits(r.value) && |r.value.annotations| >= |d.annotations|
    decreases n
  {
    if n == 0 then Ok(d)
    else
      match ItinerariesUpTo(d, n - 1, tz, events, format, parse)
      case Err(e) => Err(e)
      case Ok(mid) =>
        if mid.annotations[n - 1].body.ItineraryCard? then ItineraryExpanded(mid, n - 1, tz, events, format, parse)
        else Ok(mid)
  }

  /** Once a card fails, the pass stops with that card's failure. */
  lemma {:induction false} ItinerariesUpToStops(d: Draft, j: nat, n: nat, tz: string, events: seq<Event>,
                                                format: RangeFormat, parse: string -> Option<Snapshot>)
    requires Fits(d) && j <= n <= |d.annotations| && ItinerariesUpTo(d, j, tz, events, format, parse).Err?
    ensures ItinerariesUpTo(d, n, tz, events, format, parse) == ItinerariesUpTo(d, j, tz, events, format, parse)
    decreases n
  {
    if j < n {
      ItinerariesUpToStops(d, j, n - 1, tz, events, format, parse);
    }
  }

  /** The itinerary pass over the whole document. */
  function ItinerariesExpanded(d: Draft, tz: string, events: seq<Event>, format: RangeFormat,
                               parse: string -> Option<Snapshot>): (r: Result<Draft, Failure>)
    requires Fits(d)
    ensures r.Ok? ==> Fits(r.value) && |r.value.annotations| >= |d.annotations|
  {
    ItinerariesUpTo(d, |d.annotations|, tz, events, format, parse)
  }

  /** What the pass over the first `n` annotations makes of the annotation at `i`. */
  predicate Became(before: Annotation, after: Annotation, expanded: bool, tz: string, events: seq<Event>) {
    && after.id == before.id
    && if expanded && before.body.ItineraryCard? then after.body == Schedule(EntriesOf(Listed(before.body, events), tz))
       else after.body == before.body
  }

  /**
   * After the pass over the first `n` annotations, every itinerary card among them is the
   * schedule of the events it listed, under its own id and at its own index; every other
   * annotation of the document keeps its id and its type.
   */
  lemma {:induction false} ItinerariesUpToSchedules(d: Draft, n: nat, tz: string, events: seq<Event>, format: RangeFormat,
                                                   parse: string -> Option<Snapshot>)
    requires Fits(d) && n <= |d.annotations| && ItinerariesUpTo(d, n, tz, events, format, parse).Ok?
    ensures var r := ItinerariesUpTo(d, n, tz, events, format, parse).value;
      forall i | 0 <= i < |d.annotations| :: Became(d.annotations[i], r.annotations[i], i < n, tz, events)
    decreases n
  {
    if n > 0 {
      ItinerariesUpToSchedules(d, n - 1, tz, events, format, parse);
      UpToStep(d, n, tz, events, format, parse, ItinerariesUpTo(d, n - 1, tz, events, format, parse).value);
    }
  }

  lemma UpToStep(d: Draft, n: nat, tz: string, events: seq<Event>, format: RangeFormat,
                 parse: string -> Option<Snapshot>, mid: Draft)
    requires Fits(d) && 0 < n <= |d.annotations| && ItinerariesUpTo(d, n - 1, tz, events, format, parse) == Ok(mid)
    requires ItinerariesUpTo(d, n, tz, events, format, parse).Ok?
    requires forall i | 0 <= i < |d.annotations| :: Became(d.annotations[i], mid.annotations[i], i < n - 1, tz, events)
    ensures var r := ItinerariesUpTo(d, n, tz, events, format, parse).value;
      forall i | 0 <= i < |d.annotations| :: Became(d.annotations[i], r.annotations[i], i < n, tz, events)
  {
    UpToSnoc(d, n, tz, events, format, parse, mid);
    var r := ItinerariesUpTo(d, n, tz, events, format, parse);
    assert Became(d.annotations[n - 1], mid.annotations[n - 1], false, tz, events);
    if mid.annotations[n - 1].body.ItineraryCard? {
      CardStep(d.annotations, mid, r.value, n, tz, events, format, parse);
    } else {
      BecameStep(d.annotations, mid.annotations, r.value.annotations, n, tz, events, false);
    }
  }

  lemma CardStep(anns: seq<Annotation>, mid: Draft, r: Draft, n: nat, tz: string, events: seq<Event>, format: RangeFormat,
                 parse: string -> Option<Snapshot>)
    requires Fits(mid) && 0 < n <= |anns| <= |mid.annotations| && mid.annotations[n - 1].body.ItineraryCard?
    requires ItineraryExpanded(mid, n - 1, tz, events, format, parse) == Ok(r)
    requires forall i | 0 <= i < |anns| :: Became(anns[i], mid.annotations[i], i < n - 1, tz, events)
    ensures forall i | 0 <= i < |anns| :: Became(anns[i], r.annotations[i], i < n, tz, events)
  {
    ItineraryExpandedSchedule(mid, n - 1, tz, events, format, parse);
    assert Became(anns[n - 1], mid.annotations[n - 1], false, tz, events);
    BecameStep(anns, mid.annotations, r.annotations, n, tz, events, true);
  }

  /** One more annotation considered after the first `n - 1`. */
  lemma UpToSnoc(d: Draft, n: nat, tz: string, events: seq<Event>, format: RangeFormat,
                 parse: string -> Option<Snapshot>, mid: Draft)
    requires Fits(d) && 0 < n <= |d.annotations| && ItinerariesUpTo(d, n - 1, tz, events, format, parse) == Ok(mid)
    ensures n - 1 < |mid.annotations|
    ensures ItinerariesUpTo(d, n, tz, events, format, parse) ==
      if mid.annotations[n - 1].body.ItineraryCard? then ItineraryExpanded(mid, n - 1, tz, events, format, parse) else Ok(mid)
  {
  }

  lemma BecameStep(anns: seq<Annotation>, mid: seq<Annotation>, r: seq<Annotation>, n: nat, tz: string,
                   events: seq<Event>, card: bool)
    requires 0 < n <= |anns| <= |mid| <= |r|
    requires forall i | 0 <= i < |anns| :: Became(anns[i], mid[i], i < n - 1, tz, events)
    requires card <==> anns[n - 1].body.ItineraryCard?
    requires card ==> r[n - 1].id == mid[n - 1].id && r[n - 1].body == Schedule(EntriesOf(Listed(anns[n - 1].body, events), tz))
    requires forall i | 0 <= i < |mid| && (i != n - 1 || !card) :: r[i].id == mid[i].id && r[i].body == mid[i].body
    ensures forall i | 0 <= i < |anns| :: Became(anns[i], r[i], i < n, tz, events)
  {
    assert Became(anns[n - 1], mid[n - 1], false, tz, events);
  }
}
