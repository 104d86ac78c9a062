/**
 * The schedule entries a river item or an itinerary lists for its events: title, start and end,
 * the time zone of the post's group and, for an event with a venue, where on the map it is.
 */
module Schedules {
  import opened Wrappers
  import opened Collections
  import opened Entities
  import opened EventModel
  import opened Annotations
  import opened Documents

  /** One event's entry; `event.venue.location.name` throws when the venue's location is missing. */
  function EntryFor(ev: Event, timeZone: string): (r: Result<ScheduleEntry, Failure>)
    ensures r.Ok? <==> ev.venue.None? || ev.venue.value.location.Some?
    ensures r.Err? ==> r.error == MissingLocation
    ensures r.Ok? ==> r.value.name == ev.title && r.value.timeZone == timeZone
    ensures r.Ok? ==> r.value.startsAt == ev.startsAt && r.value.endsAt == ev.endsAt
    ensures r.Ok? ==> (r.value.location.Some? <==> ev.venue.Some?)
    ensures r.Ok? && ev.venue.Some? ==>
      var loc := ev.venue.value.location.value;
      r.value.location == Some(Place(loc.name, loc.latitude, loc.longitude))
  {
    match ev.venue
    case None => Ok(ScheduleEntry(ev.title, ev.startsAt, ev.endsAt, timeZone, None))
    case Some(v) =>
      match v.location
      case None => Err(MissingLocation)
      case Some(loc) =>
        Ok(ScheduleEntry(ev.title, ev.startsAt, ev.endsAt, timeZone,
                         Some(Place(loc.name, loc.latitude, loc.longitude))))
  }

  /** An event that was looked up; `undefined` throws on `event.title`. */
  function EntryForFound(timeZone: string): Option<Event> -> Result<ScheduleEntry, Failure> {
    (ev: Option<Event>) => if ev.None? then Err(MissingEvent) else EntryFor(ev.value, timeZone)
  }

  /** `events.map(event => ({name: event.title, ...}))`. */
  function Entries(events: seq<Option<Event>>, timeZone: string): Result<seq<ScheduleEntry>, Failure> {
    MapResult(events, EntryForFound(timeZone))
  }

  /**
   * The entries exist exactly when every event was found and every venue's location was loaded;
   * then there is one entry per event, in order, each carrying its event's title and times.
   */
  lemma EntriesCases(events: seq<Option<Event>>, timeZone: string)
    ensures Entries(events, timeZone).Ok? <==>
      forall i | 0 <= i < |events| ::
        events[i].Some? && (events[i].value.venue.None? || events[i].value.venue.value.location.Some?)
    ensures Entries(events, timeZone).Ok? ==>
      var r := Entries(events, timeZone).value;
      |r| == |events| &&
      forall i | 0 <= i < |events| ::
        r[i].name == events[i].value.title && r[i].startsAt == events[i].value.startsAt &&
        r[i].endsAt == events[i].value.endsAt && r[i].timeZone == timeZone &&
        r[i] == EntryFor(events[i].value, timeZone).value
  {
    var f := EntryForFound(timeZone);
    assert forall i | 0 <= i < |events| ::
      f(events[i]).Ok? <==>
        events[i].Some? && (events[i].value.venue.None? || events[i].value.venue.value.location.Some?);
  }

  /**
   * The entries fail with the failure of the first event that has none: `MissingEvent` when it
   * was not found, `MissingLocation` when its venue's location was not loaded.
   */
  lemma EntriesFirstFailure(events: seq<Option<Event>>, timeZone: string, i: nat)
    requires i < |events|
    requires events[i].None? || (events[i].value.venue.Some? && events[i].value.venue.value.location.None?)
    requires forall j | 0 <= j < i ::
      events[j].Some? && (events[j].value.venue.None? || events[j].value.venue.value.location.Some?)
    ensures Entries(events, timeZone) == Err(if events[i].None? then MissingEvent else MissingLocation)
  {
    var f := EntryForFound(timeZone);
    assert forall j | 0 <= j < i :: f(events[j]).Ok?;
    MapResultFirstFailure(events, f, i);
  }
}
