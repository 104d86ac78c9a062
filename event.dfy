/**
 * The event model: an `events` row joined with its venue and guests. The venue's location and
 * each guest's person are looked up by id in the locations and people loaded for the post; a
 * lookup that finds nothing leaves `undefined` behind, which later steps may trip over.
 */
module EventModel {
  import opened Wrappers
  import opened Collections
  import opened Entities

  datatype GuestRow = GuestRow(role: string, personId: int)

  datatype VenueRow = VenueRow(locationId: int, extendedAddress: Option<string>)

  datatype EventRow = EventRow(
    id: int, title: string, description: Option<string>, level: string,
    startsAt: int, endsAt: int, venue: Option<VenueRow>, guests: seq<GuestRow>)

  datatype Venue = Venue(location: Option<Location>, extendedAddress: Option<string>)

  datatype Byline = Byline(role: string, person: Option<Person>)

  /** Instants are milliseconds since the epoch. */
  datatype Event = Event(
    id: int, title: string, description: Option<string>, level: string,
    startsAt: int, endsAt: int, venue: Option<Venue>, bylines: seq<Byline>)

  function LocationWithId(id: int): Location -> bool {
    (loc: Location) => loc.id == id
  }

  function PersonWithId(id: int): Person -> bool {
    (p: Person) => p.id == id
  }

  function GuestByline(guest: GuestRow, people: seq<Person>): Byline {
    Byline(guest.role, Find(people, PersonWithId(guest.personId)))
  }

  /** `new Event(json, locations, people)`. */
  function MakeEvent(row: EventRow, locations: seq<Location>, people: seq<Person>): (e: Event)
    ensures e.id == row.id && e.title == row.title && e.description == row.description
    ensures e.level == row.level && e.startsAt == row.startsAt && e.endsAt == row.endsAt
    ensures e.venue.Some? <==> row.venue.Some?
    ensures |e.bylines| == |row.guests|
  {
    var venue :=
      match row.venue
      case None => None
      case Some(v) => Some(Venue(Find(locations, LocationWithId(v.locationId)), v.extendedAddress));
    Event(row.id, row.title, row.description, row.level, row.startsAt, row.endsAt, venue,
          seq(|row.guests|, i requires 0 <= i < |row.guests| => GuestByline(row.guests[i], people)))
  }

  /**
   * The joins of the event constructor: the venue carries the first location whose id is the
   * venue's `location_id` and the venue's own `extended_address`; byline `i` carries guest `i`'s
   * role and the first person whose id is the guest's `person_id`.
   */
  lemma MakeEventJoins(row: EventRow, locations: seq<Location>, people: seq<Person>)
    ensures var e := MakeEvent(row, locations, people);
      && (row.venue.Some? ==>
            && e.venue.value.extendedAddress == row.venue.value.extendedAddress
            && IsFirstMatch(locations, LocationWithId(row.venue.value.locationId), e.venue.value.location))
      && forall i | 0 <= i < |row.guests| ::
           && e.bylines[i].role == row.guests[i].role
           && IsFirstMatch(people, PersonWithId(row.guests[i].personId), e.bylines[i].person)
  {
    if row.venue.Some? {
      FindIsFirstMatch(locations, LocationWithId(row.venue.value.locationId));
    }
    forall i | 0 <= i < |row.guests|
      ensures IsFirstMatch(people, PersonWithId(row.guests[i].personId),
                           MakeEvent(row, locations, people).bylines[i].person)
    {
      FindIsFirstMatch(people, PersonWithId(row.guests[i].personId));
    }
  }
}
