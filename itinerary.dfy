/**
 * Itinerary cards. Each card becomes a `-qtc-schedule` over its character followed by one list
 * item per listed event: a title line, a date line, one line per byline role, an optional venue
 * character and the event's description. People with a biography and venues get a card of
 * their own at the tail of the document, at most one per person and per location.
 */
module Itineraries {
  import opened Wrappers
  import opened Js
  import opened Collections
  import opened Entities
  import opened EventModel
  import opened Posts
  import opened Annotations
  import opened Documents
  import opened Schedules

  // ---------------------------------------------------------------------------------------
  // Role groups

  function HasRole(role: string): Byline -> bool {
    (b: Byline) => b.role == role
  }

  /** `bylines.filter(b => b.role === role)`: the bylines of one role, in byline order. */
  function RoleGroup(bylines: seq<Byline>, role: string): (r: seq<Byline>)
    ensures |r| <= |bylines| && (PeopleLoaded(bylines) ==> PeopleLoaded(r))
  {
    if bylines == [] then []
    else (if bylines[0].role == role then [bylines[0]] else []) + RoleGroup(bylines[1..], role)
  }

  /** The same group as the generic filter by `HasRole` gives. */
  lemma {:induction false} RoleGroupIsFilter(bylines: seq<Byline>, role: string)
    ensures RoleGroup(bylines, role) == Filter(bylines, HasRole(role))
    decreases |bylines|
  {
    if bylines != [] {
      RoleGroupIsFilter(bylines[1..], role);
    }
  }

  /** A role's group holds exactly the bylines of that role. */
  lemma RoleGroupMembers(bylines: seq<Byline>, role: string)
    ensures forall b :: b in RoleGroup(bylines, role) <==> b in bylines && b.role == role
  {
    RoleGroupIsFilter(bylines, role);
  }

  function RoleIn(roles: seq<string>): Byline -> bool {
    (b: Byline) => b.role in roles
  }

  /** The keys of `bylines.reduce(...)` grouping by role: each role once, in order of first appearance. */
  function Roles(bylines: seq<Byline>): (r: seq<string>)
    ensures |r| <= |bylines|
  {
    if bylines == [] then []
    else
      var r := Roles(bylines[..|bylines| - 1]);
      if bylines[|bylines| - 1].role in r then r else r + [bylines[|bylines| - 1].role]
  }

  /** Every byline's role is a key, every key is some byline's role, and no key repeats. */
  lemma {:induction false} RolesAreKeys(bylines: seq<Byline>)
    ensures forall b | b in bylines :: b.role in Roles(bylines)
    ensures forall x | x in Roles(bylines) :: exists b | b in bylines :: b.role == x
    ensures forall i, j | 0 <= i < j < |Roles(bylines)| :: Roles(bylines)[i] != Roles(bylines)[j]
  {
    if bylines != [] {
      var prefix := bylines[..|bylines| - 1];
      var last := bylines[|bylines| - 1];
      assert bylines == prefix + [last];
      RolesAreKeys(prefix);
      assert forall b | b in prefix :: b in bylines;
    }
  }

  /** The bylines of each role in turn, each group in the order the bylines came. */
  function Grouped(bylines: seq<Byline>, roles: seq<string>): seq<Byline> {
    if roles == [] then [] else RoleGroup(bylines, roles[0]) + Grouped(bylines, roles[1..])
  }

  lemma {:induction false} FilterByRoles(bylines: seq<Byline>, roles: seq<string>)
    requires |roles| > 0 && roles[0] !in roles[1..]
    ensures multiset(Filter(bylines, RoleIn(roles))) ==
            multiset(RoleGroup(bylines, roles[0])) + multiset(Filter(bylines, RoleIn(roles[1..])))
  {
    if bylines != [] {
      FilterByRoles(bylines[1..], roles);
    }
  }

  lemma {:induction false} GroupedByRoles(bylines: seq<Byline>, roles: seq<string>)
    requires forall i, j | 0 <= i < j < |roles| :: roles[i] != roles[j]
    ensures multiset(Grouped(bylines, roles)) == multiset(Filter(bylines, RoleIn(roles)))
  {
    if roles == [] {
      FilterDropsAll(bylines, RoleIn(roles));
    } else {
      assert roles[0] !in roles[1..] by {
        forall j | 0 <= j < |roles[1..]| ensures roles[1..][j] != roles[0] {
          assert roles[1..][j] == roles[j + 1];
        }
      }
      GroupedByRoles(bylines, roles[1..]);
      FilterByRoles(bylines, roles);
    }
  }

  /** Every byline lands in exactly one role group: the groups are a permutation of the bylines. */
  lemma GroupsPartitionBylines(bylines: seq<Byline>)
    ensures multiset(Grouped(bylines, Roles(bylines))) == multiset(bylines)
  {
    RolesAreKeys(bylines);
    GroupedByRoles(bylines, Roles(bylines));
    FilterKeepsAll(bylines, RoleIn(Roles(bylines)));
  }

  predicate PeopleLoaded(bylines: seq<Byline>) {
    forall b | b in bylines :: b.person.Some?
  }

  /** `bylines.map(byline => byline.person)`. */
  function PeopleOf(group: seq<Byline>): (r: seq<Person>)
    requires PeopleLoaded(group)
    ensures |r| == |group| && forall i | 0 <= i < |group| :: r[i] == group[i].person.value
  {
    if group == [] then [] else [group[0].person.value] + PeopleOf(group[1..])
  }

  /** `person.id.toString()`, the attribute a person card carries. */
  function PersonKey(p: Person): Scalar {
    Str(IntToString(p.id))
  }

  /** The person-card keys a list of bylines asks for: those of people with a biography. */
  ghost function CardKeys(bylines: seq<Byline>): set<Scalar> {
    set b | b in bylines && b.person.Some? && b.person.value.biography.Some? :: PersonKey(b.person.value)
  }

  lemma CardKeysSnoc(done: seq<Byline>, b: Byline)
    ensures CardKeys(done + [b]) ==
      CardKeys(done) + (if b.person.Some? && b.person.value.biography.Some? then {PersonKey(b.person.value)} else {})
  {
    assert forall c | c in done + [b] :: c in done || c == b;
  }

  lemma CardKeysSameElements(a: seq<Byline>, b: seq<Byline>)
    requires multiset(a) == multiset(b)
    ensures CardKeys(a) == CardKeys(b)
  {
    assert forall c :: c in a <==> c in b by {
      forall c ensures c in a <==> c in b {
        assert c in a <==> c in multiset(a);
        assert c in b <==> c in multiset(b);
      }
    }
  }

  // ---------------------------------------------------------------------------------------
  // The text and the annotations of one event's block

  /** `n` lines holding one object-replacement character each. */
  function MarkerLines(n: nat): (r: string)
    ensures |r| == 2 * n
  {
    if n == 0 then "" else MarkerLines(n - 1) + "\U{FFFC}\n"
  }

  lemma {:induction false} MarkerLinesChars(n: nat)
    ensures forall i | 0 <= i < n :: MarkerLines(n)[2 * i] == '\U{FFFC}' && MarkerLines(n)[2 * i + 1] == '\n'
  {
    if n > 0 {
      MarkerLinesChars(n - 1);
      assert forall i | 0 <= i < n - 1 :: MarkerLines(n)[2 * i] == MarkerLines(n - 1)[2 * i];
      assert forall i | 0 <= i < n - 1 :: MarkerLines(n)[2 * i + 1] == MarkerLines(n - 1)[2 * i + 1];
    }
  }

  function VenueText(ev: Event): string {
    if ev.venue.Some? then "\U{FFFC}" else ""
  }

  /** The text of one event's list item: title, date range, role lines, venue, description. */
  function BlockText(ev: Event, range: string, description: string): string {
    ev.title + "\n" + range + "\n" + MarkerLines(|Roles(ev.bylines)|) + VenueText(ev) + description
  }

  predicate VenueLoaded(ev: Event) {
    ev.venue.Some? ==> ev.venue.value.location.Some?
  }

  /** One Byline per role, on the role's line, naming the people of the role in byline order. */
  function BylineMarks(bylines: seq<Byline>, roles: seq<string>, at: nat): (r: seq<Annotation>)
    requires PeopleLoaded(bylines)
    ensures |r| == |roles|
    ensures forall i | 0 <= i < |roles| :: r[i].start == at + 2 * i && r[i].end == at + 2 * i + 1 && r[i].body.Byline?
    decreases |roles|
  {
    if roles == [] then []
    else
      [Annotation(0, at, at + 1, Body.Byline(roles[0], PeopleOf(RoleGroup(bylines, roles[0]))))] +
      BylineMarks(bylines, roles[1..], at + 2)
  }

  /** Role `i`'s Byline names the people of that role, in byline order. */
  lemma {:induction false} BylineMarksAt(bylines: seq<Byline>, roles: seq<string>, at: nat, i: nat)
    requires PeopleLoaded(bylines) && i < |roles|
    ensures BylineMarks(bylines, roles, at)[i] ==
      Annotation(0, at + 2 * i, at + 2 * i + 1, Body.Byline(roles[i], PeopleOf(RoleGroup(bylines, roles[i]))))
    decreases |roles|
  {
    if i > 0 {
      BylineMarksAt(bylines, roles[1..], at + 2, i - 1);
    }
  }

  /** The Bylines of one more role: those of the roles before it, then its own. */
  lemma {:induction false} BylineMarksSnoc(bylines: seq<Byline>, roles: seq<string>, at: nat, j: nat)
    requires PeopleLoaded(bylines) && j < |roles|
    ensures BylineMarks(bylines, roles[..j + 1], at) ==
      BylineMarks(bylines, roles[..j], at) +
      [Annotation(0, at + 2 * j, at + 2 * j + 1, Body.Byline(roles[j], PeopleOf(RoleGroup(bylines, roles[j]))))]
  {
    var a, b := BylineMarks(bylines, roles[..j + 1], at), BylineMarks(bylines, roles[..j], at);
    forall i | 0 <= i < j + 1
      ensures a[i] == (b + [Annotation(0, at + 2 * j, at + 2 * j + 1, Body.Byline(roles[j], PeopleOf(RoleGroup(bylines, roles[j]))))])[i]
    {
      BylineMarksAt(bylines, roles[..j + 1], at, i);
      if i < j {
        BylineMarksAt(bylines, roles[..j], at, i);
      }
    }
  }

  /** The LocationName of an event with a venue: the location's id and name, and the venue's extended address, else the location's. */
  function VenueMarks(ev: Event, at: nat): (r: seq<Annotation>)
    requires VenueLoaded(ev)
    ensures |r| == |VenueText(ev)|
  {
    match ev.venue
    case None => []
    case Some(v) =>
      var loc := v.location.value;
      [Annotation(0, at, at + 1,
        LocationName(IntToString(loc.id), loc.name, OrElse(v.extendedAddress, loc.extendedAddress)))]
  }

  /** The annotations collected while a block is written at `s`, and the ListItem over all of it. */
  function BlockMarks(s: nat, ev: Event, range: string, description: string): seq<Annotation>
    requires PeopleLoaded(ev.bylines) && VenueLoaded(ev)
  {
    [Annotation(0, LinesAt(s, ev, range) - 1, LinesAt(s, ev, range), LineBreak)] +
    BylineMarks(ev.bylines, Roles(ev.bylines), LinesAt(s, ev, range)) + VenueMarks(ev, VenueAt(s, ev, range)) +
    [Annotation(0, s, s + |BlockText(ev, range, description)|, ListItem)]
  }

  /** Where each character a mark covers sits in a block's text, counted from the block's start. */
  lemma BlockTextLayout(ev: Event, range: string, description: string)
    ensures var text := BlockText(ev, range, description);
      var lines := |ev.title| + 1 + |range| + 1;
      && |text| == lines + 2 * |Roles(ev.bylines)| + |VenueText(ev)| + |description|
      && text[lines - 1] == '\n'
      && (forall i | 0 <= i < |Roles(ev.bylines)| :: text[lines + 2 * i] == '\U{FFFC}')
      && (ev.venue.Some? ==> text[lines + 2 * |Roles(ev.bylines)|] == '\U{FFFC}')
  {
    var text := BlockText(ev, range, description);
    var roles := Roles(ev.bylines);
    var lines := |ev.title| + 1 + |range| + 1;
    var head := ev.title + "\n" + range + "\n";
    var m := MarkerLines(|roles|);
    MarkerLinesChars(|roles|);
    assert text == head + (m + VenueText(ev) + description);
    assert text[lines - 1] == head[lines - 1];
    forall i | 0 <= i < |roles|
      ensures text[lines + 2 * i] == '\U{FFFC}'
    {
      assert text[lines + 2 * i] == m[2 * i];
    }
    if ev.venue.Some? {
      assert text[lines + 2 * |roles|] == VenueText(ev)[0];
    }
  }

  /** A block's text starts with the event's title and ends with the description. */
  lemma BlockTextEnds(ev: Event, range: string, description: string)
    ensures var text := BlockText(ev, range, description);
      && |text| >= |ev.title| + |description|
      && text[..|ev.title|] == ev.title && text[|ev.title|] == '\n'
      && text[|text| - |description|..] == description
  {
    var text := BlockText(ev, range, description);
    var tail := "\n" + range + "\n" + MarkerLines(|Roles(ev.bylines)|) + VenueText(ev);
    assert text == ev.title + tail + description;
  }

  /** A block's marks, piece by piece. */
  lemma BlockMarksIs(s: nat, ev: Event, range: string, description: string)
    requires PeopleLoaded(ev.bylines) && VenueLoaded(ev)
    ensures BlockMarks(s, ev, range, description) ==
      [Annotation(0, LinesAt(s, ev, range) - 1, LinesAt(s, ev, range), LineBreak)] +
      BylineMarks(ev.bylines, Roles(ev.bylines), LinesAt(s, ev, range)) + VenueMarks(ev, VenueAt(s, ev, range)) +
      [Annotation(0, s, s + |BlockText(ev, range, description)|, ListItem)]
  {
  }

  /** The block's annotations lie inside the block's text, and none of them is a card. */
  lemma BlockMarksWithin(s: nat, ev: Event, range: string, description: string)
    requires PeopleLoaded(ev.bylines) && VenueLoaded(ev)
    ensures AllWithin(BlockMarks(s, ev, range, description), s + |BlockText(ev, range, description)|)
    ensures forall a | a in BlockMarks(s, ev, range, description) :: s <= a.start
    ensures CardFree(BlockMarks(s, ev, range, description))
  {
    var total := s + |BlockText(ev, range, description)|;
    var bl := BylineMarks(ev.bylines, Roles(ev.bylines), LinesAt(s, ev, range));
    var vm := VenueMarks(ev, VenueAt(s, ev, range));
    BlockMarksIs(s, ev, range, description);
    assert total == VenueAt(s, ev, range) + |VenueText(ev)| + |description|;
    forall a | a in BlockMarks(s, ev, range, description)
      ensures s <= a.start <= a.end <= total && !a.body.PersonCard? && !a.body.LocationCard?
    {
      if a in bl {
        var i :| 0 <= i < |bl| && bl[i] == a;
      } else if a in vm {
        assert vm == [vm[0]];
      }
    }
  }

  /** A block has a LineBreak, one Byline per role, a LocationName when it has a venue, and the ListItem. */
  /** Positions in a sequence made of a first element, two runs and a last element. */
  lemma Pieces(first: Annotation, xs: seq<Annotation>, ys: seq<Annotation>, last: Annotation)
    ensures var m := [first] + xs + ys + [last];
      && |m| == |xs| + |ys| + 2 && m[0] == first && m[|m| - 1] == last
      && (forall i | 0 <= i < |xs| :: m[1 + i] == xs[i])
      && (forall i | 0 <= i < |ys| :: m[1 + |xs| + i] == ys[i])
  {
  }

  /** The marks of a block, in the order they are added, with the LineBreak first and the ListItem last. */
  lemma BlockMarksOrder(s: nat, ev: Event, range: string, description: string)
    requires PeopleLoaded(ev.bylines) && VenueLoaded(ev)
    ensures var marks := BlockMarks(s, ev, range, description);
      var bylineMarks := BylineMarks(ev.bylines, Roles(ev.bylines), LinesAt(s, ev, range));
      var venueMarks := VenueMarks(ev, VenueAt(s, ev, range));
      && |marks| == |Roles(ev.bylines)| + |VenueText(ev)| + 2
      && marks[0] == Annotation(0, LinesAt(s, ev, range) - 1, LinesAt(s, ev, range), LineBreak)
      && (forall i | 0 <= i < |bylineMarks| :: marks[1 + i] == bylineMarks[i])
      && (forall i | 0 <= i < |venueMarks| :: marks[1 + |bylineMarks| + i] == venueMarks[i])
      && marks[|marks| - 1] == Annotation(0, s, s + |BlockText(ev, range, description)|, ListItem)
  {
    BlockMarksIs(s, ev, range, description);
    Pieces(Annotation(0, LinesAt(s, ev, range) - 1, LinesAt(s, ev, range), LineBreak),
           BylineMarks(ev.bylines, Roles(ev.bylines), LinesAt(s, ev, range)), VenueMarks(ev, VenueAt(s, ev, range)),
           Annotation(0, s, s + |BlockText(ev, range, description)|, ListItem));
  }

  /**
   * Where the marks of a block written at `s` sit: the LineBreak on the newline that ends the date
   * line; role `i`'s Byline, naming the people of that role in byline order, on the object
   * character `2 * i` past the date line; for a venue, the LocationName with the location's id and
   * name and the venue's extended address (else the location's) on the object character after the
   * role lines; and last the ListItem over the whole block. The characters themselves are given by
   * `BlockTextLayout`.
   */
  lemma BlockMarksPlaced(s: nat, ev: Event, range: string, description: string)
    requires PeopleLoaded(ev.bylines) && VenueLoaded(ev)
    ensures var marks := BlockMarks(s, ev, range, description);
      var roles := Roles(ev.bylines);
      var at := s + |ev.title| + 1 + |range| + 1;
      && |marks| == |roles| + |VenueText(ev)| + 2
      && marks[0] == Annotation(0, at - 1, at, LineBreak)
      && (forall i | 0 <= i < |roles| ::
            marks[1 + i] == Annotation(0, at + 2 * i, at + 2 * i + 1,
              Body.Byline(roles[i], PeopleOf(RoleGroup(ev.bylines, roles[i])))))
      && (ev.venue.Some? ==>
            var loc := ev.venue.value.location.value;
            marks[1 + |roles|] == Annotation(0, at + 2 * |roles|, at + 2 * |roles| + 1,
              LocationName(IntToString(loc.id), loc.name, OrElse(ev.venue.value.extendedAddress, loc.extendedAddress))))
      && marks[|marks| - 1] == Annotation(0, s, s + |BlockText(ev, range, description)|, ListItem)
  {
    BlockMarksOrder(s, ev, range, description);
    var roles := Roles(ev.bylines);
    var at := LinesAt(s, ev, range);
    var bl := BylineMarks(ev.bylines, roles, at);
    assert |bl| == |roles|;
    forall i | 0 <= i < |roles|
      ensures bl[i] == Annotation(0, at + 2 * i, at + 2 * i + 1, Body.Byline(roles[i], PeopleOf(RoleGroup(ev.bylines, roles[i]))))
    {
      BylineMarksAt(ev.bylines, roles, at, i);
    }
    if ev.venue.Some? {
      var vm := VenueMarks(ev, VenueAt(s, ev, range));
      assert vm[0] == BlockMarks(s, ev, range, description)[1 + |bl| + 0];
    }
  }

  // ---------------------------------------------------------------------------------------
  // Person and location cards appended while a block is written

  function PersonCount(anns: seq<Annotation>, key: Scalar): nat {
    CountWhere(anns, PersonCardFor(key))
  }

  function LocationCount(anns: seq<Annotation>, id: int): nat {
    CountWhere(anns, LocationCardFor(id))
  }

  /** No person card starts before `p`. */
  predicate PersonCardsFrom(anns: seq<Annotation>, p: nat) {
    forall a | a in anns && a.body.PersonCard? :: a.start >= p
  }

  /** No person card and no location card. */
  predicate CardFree(anns: seq<Annotation>) {
    forall a | a in anns :: !a.body.PersonCard? && !a.body.LocationCard?
  }

  /**
   * From `before` to `after`, a person card was added for each key of `keys` no card carried yet
   * and a location card for each id of `ids` no card matched yet, and no other card came or went.
   */
  ghost predicate CardsAdded(before: seq<Annotation>, after: seq<Annotation>, keys: set<Scalar>, ids: set<int>) {
    && (forall k {:trigger PersonCount(after, k)} :: PersonCount(after, k) ==
          PersonCount(before, k) + (if PersonCount(before, k) == 0 && k in keys then 1 else 0))
    && (forall l {:trigger LocationCount(after, l)} :: LocationCount(after, l) ==
          LocationCount(before, l) + (if LocationCount(before, l) == 0 && l in ids then 1 else 0))
  }

  /** Where a new person card goes: at the end of the last person card in sort order, else at the tail. */
  function PersonCardSlot(anns: seq<Annotation>, len: nat): (r: (nat, Behaviour))
    requires AllWithin(anns, len)
    ensures r.0 <= len
    ensures forall p: nat | p <= len && PersonCardsFrom(anns, p) :: r.0 >= p
  {
    match LastSorted(anns, IsPersonCard)
    case None => (len, Preserve)
    case Some(last) => (last.end, Default)
  }

  /** A byline's person gets a card when they have a biography and no person card carries their id yet. */
  predicate CardsPerson(anns: seq<Annotation>, person: Person) {
    PersonCount(anns, PersonKey(person)) == 0 && person.biography.Some?
  }

  /** One byline's person-card check. */
  function PersonCarded(d: Draft, person: Person): (r: Draft)
    requires Fits(d)
    ensures Fits(r) && |r.content| >= |d.content|
    ensures |r.annotations| >= |d.annotations|
  {
    if CardsPerson(d.annotations, person) then
      var slot := PersonCardSlot(d.annotations, |d.content|);
      WithAdded(WithText(d, slot.0, "\U{FFFC}\n", slot.1), [Annotation(0, slot.0, slot.0 + 1, PersonCard(PersonKey(person)))])
    else d
  }

  /** The location-card check: a line and a location card at the tail when no card matches the id. */
  function LocationCarded(d: Draft, loc: Location): (r: Draft)
    requires Fits(d)
    ensures Fits(r) && |r.content| >= |d.content|
    ensures |r.annotations| >= |d.annotations|
  {
    if LocationCount(d.annotations, loc.id) == 0 then
      var at := |d.content|;
      WithAdded(WithText(d, at, "\U{FFFC}\n", Preserve), [Annotation(0, at, at + 1, LocationCard(Str(IntToString(loc.id)), None))])
    else d
  }

  // ---------------------------------------------------------------------------------------
  // The edits that write one event's block

  /**
   * One edit the pass makes while it writes a block: text inserted at an offset (adjacent
   * annotations grow with it), annotations added, or a person-card or location-card check.
   */
  datatype Edit =
    | Write(at: nat, text: string)
    | Mark(drafts: seq<Annotation>)
    | PersonCheck(person: Person)
    | LocationCheck(loc: Location)

  /** The edit falls inside the text as it stands. */
  predicate Lands(d: Draft, e: Edit) {
    match e
    case Write(at, _) => at <= |d.content|
    case Mark(drafts) => AllWithin(drafts, |d.content|)
    case _ => true
  }

  /** The text an edit inserts where it is meant to go, if any. */
  function Written(e: Edit): string {
    if e.Write? then e.text else ""
  }

  function Applied(d: Draft, e: Edit): (r: Draft)
    requires Fits(d) && Lands(d, e)
    ensures Fits(r) && |r.content| >= |d.content| + |Written(e)|
    ensures |r.annotations| >= |d.annotations|
  {
    match e
    case Write(at, text) => WithText(d, at, text, Default)
    case Mark(drafts) => WithAdded(d, drafts)
    case PersonCheck(person) => PersonCarded(d, person)
    case LocationCheck(loc) => LocationCarded(d, loc)
  }

  /** The text the writes insert, in order. */
  function Spelled(edits: seq<Edit>): string
    decreases |edits|
  {
    if edits == [] then "" else Written(edits[0]) + Spelled(edits[1..])
  }

  /** A write goes at `at`; a mark covers only text before `at`. */
  predicate Follows(e: Edit, at: nat) {
    match e
    case Write(p, _) => p == at
    case Mark(drafts) => AllWithin(drafts, at)
    case _ => true
  }

  /**
   * The writes put their texts one after the other from `at`, and each mark covers only text
   * that is there by the time it is added.
   */
  predicate Contiguous(edits: seq<Edit>, at: nat)
    decreases |edits|
  {
    edits == [] || (Follows(edits[0], at) && Contiguous(edits[1..], at + |Written(edits[0])|))
  }

  lemma {:induction false} ContiguousAppend(a: seq<Edit>, b: seq<Edit>, at: nat)
    ensures Spelled(a + b) == Spelled(a) + Spelled(b)
    ensures Contiguous(a + b, at) <==> Contiguous(a, at) && Contiguous(b, at + |Spelled(a)|)
    decreases |a|
  {
    if a == [] {
      assert a + b == b;
    } else {
      assert (a + b)[1..] == a[1..] + b;
      ContiguousAppend(a[1..], b, at + |Written(a[0])|);
    }
  }

  /** A single edit is contiguous exactly when it follows. */
  lemma Single(e: Edit, at: nat)
    ensures Contiguous([e], at) <==> Follows(e, at)
    ensures Spelled([e]) == Written(e)
  {
    assert [e][1..] == [];
  }

  lemma ContiguousSplit(edits: seq<Edit>, at: nat, prefix: seq<Edit>, last: Edit)
    requires edits == prefix + [last]
    ensures Contiguous(edits, at) <==> Contiguous(prefix, at) && Follows(last, at + |Spelled(prefix)|)
    ensures Spelled(edits) == Spelled(prefix) + Written(last)
  {
    ContiguousAppend(prefix, [last], at);
    Single(last, at + |Spelled(prefix)|);
  }

  /** The last edit of a contiguous list follows the text its predecessors write. */
  lemma ContiguousLast(edits: seq<Edit>, at: nat)
    requires Contiguous(edits, at) && edits != []
    ensures Contiguous(edits[..|edits| - 1], at)
    ensures Follows(edits[|edits| - 1], at + |Spelled(edits[..|edits| - 1])|)
    ensures Spelled(edits) == Spelled(edits[..|edits| - 1]) + Written(edits[|edits| - 1])
  {
    assert edits == edits[..|edits| - 1] + [edits[|edits| - 1]];
    ContiguousSplit(edits, at, edits[..|edits| - 1], edits[|edits| - 1]);
  }

  /** The edits applied in order, the writes putting their texts one after the other from `at`. */
  function Run(d: Draft, edits: seq<Edit>, at: nat): (r: Draft)
    requires Fits(d) && at <= |d.content| && Contiguous(edits, at)
    ensures Fits(r) && |r.content| >= |d.content| + |Spelled(edits)|
    ensures |r.annotations| >= |d.annotations|
    decreases |edits|
  {
    if edits == [] then d
    else
      ContiguousLast(edits, at);
      Applied(Run(d, edits[..|edits| - 1], at), edits[|edits| - 1])
  }

  /** One more edit after a run. */
  lemma RunSnoc(d: Draft, edits: seq<Edit>, at: nat, e: Edit)
    requires Fits(d) && at <= |d.content| && Contiguous(edits, at) && Follows(e, at + |Spelled(edits)|)
    ensures Contiguous(edits + [e], at) && Spelled(edits + [e]) == Spelled(edits) + Written(e)
    ensures Lands(Run(d, edits, at), e)
    ensures Run(d, edits + [e], at) == Applied(Run(d, edits, at), e)
  {
    ContiguousSplit(edits + [e], at, edits, e);
    assert (edits + [e])[..|edits|] == edits;
  }

  /** The first `n` edits of a contiguous list are contiguous too. */
  lemma ContiguousPrefix(edits: seq<Edit>, at: nat, n: nat)
    requires Contiguous(edits, at) && n <= |edits|
    ensures Contiguous(edits[..n], at)
  {
    assert edits == edits[..n] + edits[n..];
    ContiguousAppend(edits[..n], edits[n..], at);
  }

  /** The state once the first `n` edits are applied. */
  function RunPrefix(d: Draft, edits: seq<Edit>, at: nat, n: nat): (r: Draft)
    requires Fits(d) && at <= |d.content| && Contiguous(edits, at) && n <= |edits|
    ensures Fits(r)
  {
    ContiguousPrefix(edits, at, n);
    Run(d, edits[..n], at)
  }

  /** Nothing applied yet, and everything applied. */
  lemma RunPrefixEnds(d: Draft, edits: seq<Edit>, at: nat)
    requires Fits(d) && at <= |d.content| && Contiguous(edits, at)
    ensures RunPrefix(d, edits, at, 0) == d
    ensures RunPrefix(d, edits, at, |edits|) == Run(d, edits, at)
  {
    assert edits[..0] == [];
    assert edits[..|edits|] == edits;
  }

  /** The edit at `n` applied after the first `n`. */
  lemma RunStep(d: Draft, edits: seq<Edit>, at: nat, n: nat, before: Draft, e: Edit)
    requires Fits(d) && at <= |d.content| && Contiguous(edits, at) && n < |edits|
    requires before == RunPrefix(d, edits, at, n) && e == edits[n]
    ensures Fits(before) && Lands(before, e)
    ensures RunPrefix(d, edits, at, n + 1) == Applied(before, e)
  {
    var done, next := edits[..n], edits[..n + 1];
    ContiguousPrefix(edits, at, n + 1);
    assert next == done + [e];
    ContiguousSplit(next, at, done, e);
    RunSnoc(d, done, at, e);
  }

  /** Two runs of contiguous writes, the second starting where the first ends, make one. */
  lemma Join(a: seq<Edit>, b: seq<Edit>, at: nat, mid: nat, sa: string, sb: string)
    requires Contiguous(a, at) && Spelled(a) == sa && mid == at + |sa| && Contiguous(b, mid) && Spelled(b) == sb
    ensures Contiguous(a + b, at) && Spelled(a + b) == sa + sb
  {
    ContiguousAppend(a, b, at);
  }

  /** A last mark over text already written keeps the edits contiguous. */
  lemma CloseWithMark(edits: seq<Edit>, at: nat, text: string, drafts: seq<Annotation>)
    requires Contiguous(edits, at) && Spelled(edits) == text && AllWithin(drafts, at + |text|)
    ensures Contiguous(edits + [Mark(drafts)], at) && Spelled(edits + [Mark(drafts)]) == text
  {
    var m := [Mark(drafts)];
    assert m[1..] == [];
    Join(edits, m, at, at + |text|, text, "");
    assert text + "" == text;
  }

  /** Card checks only: no writes and no marks. */
  predicate ChecksOnly(edits: seq<Edit>) {
    forall i | 0 <= i < |edits| :: edits[i].PersonCheck? || edits[i].LocationCheck?
  }

  lemma {:induction false} ChecksOnlyContiguous(edits: seq<Edit>, at: nat)
    requires ChecksOnly(edits)
    ensures Contiguous(edits, at) && Spelled(edits) == ""
    decreases |edits|
  {
    if edits != [] {
      ChecksOnlyContiguous(edits[1..], at);
    }
  }

  /** The person-card checks of one role's bylines, in byline order. */
  function PersonChecks(group: seq<Byline>): (r: seq<Edit>)
    requires PeopleLoaded(group)
    ensures |r| == |group| && ChecksOnly(r)
    ensures forall i | 0 <= i < |group| :: r[i] == PersonCheck(group[i].person.value)
  {
    if group == [] then [] else [PersonCheck(group[0].person.value)] + PersonChecks(group[1..])
  }

  /** One role's line at `at`, then the person-card checks of its bylines. */
  function RoleLine(bylines: seq<Byline>, role: string, at: nat): seq<Edit>
    requires PeopleLoaded(bylines)
  {
    [Write(at, "\U{FFFC}\n")] + PersonChecks(RoleGroup(bylines, role))
  }

  lemma RoleLineContiguous(bylines: seq<Byline>, role: string, at: nat)
    requires PeopleLoaded(bylines)
    ensures Contiguous(RoleLine(bylines, role, at), at) && Spelled(RoleLine(bylines, role, at)) == "\U{FFFC}\n"
  {
    var checks := PersonChecks(RoleGroup(bylines, role));
    ChecksOnlyContiguous(checks, at + 2);
    assert RoleLine(bylines, role, at)[1..] == checks;
  }

  /** Each role's line at `at` onwards, each followed by the person-card checks of its bylines. */
  function RoleEdits(bylines: seq<Byline>, roles: seq<string>, at: nat): seq<Edit>
    requires PeopleLoaded(bylines)
    decreases |roles|
  {
    if roles == [] then []
    else RoleEdits(bylines, roles[..|roles| - 1], at) + RoleLine(bylines, roles[|roles| - 1], at + 2 * (|roles| - 1))
  }

  lemma {:induction false} RoleEditsSnoc(bylines: seq<Byline>, roles: seq<string>, at: nat)
    requires PeopleLoaded(bylines) && roles != []
    ensures RoleEdits(bylines, roles, at) ==
      RoleEdits(bylines, roles[..|roles| - 1], at) + RoleLine(bylines, roles[|roles| - 1], at + 2 * (|roles| - 1))
  {
  }

  /** The role lines are written one after the other: one marker line per role. */
  lemma {:induction false} RoleEditsContiguous(bylines: seq<Byline>, roles: seq<string>, at: nat)
    requires PeopleLoaded(bylines)
    ensures Contiguous(RoleEdits(bylines, roles, at), at)
    ensures Spelled(RoleEdits(bylines, roles, at)) == MarkerLines(|roles|)
    decreases |roles|
  {
    if roles != [] {
      var n := |roles| - 1;
      RoleEditsSnoc(bylines, roles, at);
      RoleEditsContiguous(bylines, roles[..n], at);
      RoleLineContiguous(bylines, roles[n], at + 2 * n);
      Join(RoleEdits(bylines, roles[..n], at), RoleLine(bylines, roles[n], at + 2 * n), at, at + 2 * n, MarkerLines(n), "\U{FFFC}\n");
    }
  }

  /** The venue: the location-card check, then the venue's character at `at`. */
  function VenueEdits(ev: Event, at: nat): seq<Edit>
    requires VenueLoaded(ev)
  {
    if ev.venue.Some? then [LocationCheck(ev.venue.value.location.value), Write(at, "\U{FFFC}")] else []
  }

  lemma VenueEditsContiguous(ev: Event, at: nat)
    requires VenueLoaded(ev)
    ensures Contiguous(VenueEdits(ev, at), at) && Spelled(VenueEdits(ev, at)) == VenueText(ev)
  {
    if ev.venue.Some? {
      var e := VenueEdits(ev, at);
      assert e[1..][1..] == [];
      assert Spelled(e[1..]) == "\U{FFFC}";
    }
  }

  /** Where the role lines of a block written at `s` start: after its title and range lines. */
  function LinesAt(s: nat, ev: Event, range: string): nat {
    s + |ev.title| + 1 + |range| + 1
  }

  /** Where the venue's character of a block written at `s` goes: after its role lines. */
  function VenueAt(s: nat, ev: Event, range: string): nat {
    LinesAt(s, ev, range) + 2 * |Roles(ev.bylines)|
  }

  /** Where the description of a block written at `s` goes: after the venue. */
  function DescriptionAt(s: nat, ev: Event, range: string): nat {
    VenueAt(s, ev, range) + |VenueText(ev)|
  }

  /** The title line with its heading, then the range line. */
  function HeadEdits(s: nat, ev: Event, range: string): seq<Edit> {
    [Write(s, ev.title + "\n"), Mark([Annotation(0, s, s + |ev.title|, Heading(4, false))]),
     Write(s + |ev.title| + 1, range + "\n")]
  }

  lemma HeadEditsContiguous(s: nat, ev: Event, range: string)
    ensures Contiguous(HeadEdits(s, ev, range), s)
    ensures Spelled(HeadEdits(s, ev, range)) == ev.title + "\n" + range + "\n"
  {
    var e := HeadEdits(s, ev, range);
    assert e[1..][1..][1..] == [];
    assert Spelled(e[1..][1..]) == range + "\n";
    assert Spelled(e[1..]) == range + "\n";
    assert Contiguous(e[1..][1..], s + |ev.title| + 1);
    assert Contiguous(e[1..], s + |ev.title| + 1);
  }

  /** The description's text at `at`, then its annotations moved there. */
  function DescriptionEdits(at: nat, desc: Snapshot): seq<Edit> {
    [Write(at, desc.content), Mark(Rebased(desc.annotations, at, 0))]
  }

  lemma DescriptionEditsContiguous(at: nat, desc: Snapshot)
    requires WellFormed(desc)
    ensures Contiguous(DescriptionEdits(at, desc), at) && Spelled(DescriptionEdits(at, desc)) == desc.content
  {
    var e := DescriptionEdits(at, desc);
    assert e[1..][1..] == [];
    assert Spelled(e[1..]) == "";
    RebasedWithin(desc.annotations, |desc.content|, at, at + |desc.content|);
  }

  /**
   * The edits that write one event at `s`: title and heading, range, role lines with their
   * person-card checks, the venue with its location-card check, the description, and at last the
   * marks collected on the way together with the ListItem.
   */
  function EventEdits(s: nat, ev: Event, range: string, desc: Snapshot): seq<Edit>
    requires PeopleLoaded(ev.bylines) && VenueLoaded(ev)
  {
    HeadEdits(s, ev, range) + RoleEdits(ev.bylines, Roles(ev.bylines), LinesAt(s, ev, range)) +
    VenueEdits(ev, VenueAt(s, ev, range)) + DescriptionEdits(DescriptionAt(s, ev, range), desc) +
    [Mark(BlockMarks(s, ev, range, desc.content))]
  }

  lemma {:induction false} HeadRolesContiguous(s: nat, ev: Event, range: string)
    requires PeopleLoaded(ev.bylines)
    ensures var e := HeadEdits(s, ev, range) + RoleEdits(ev.bylines, Roles(ev.bylines), LinesAt(s, ev, range));
      Contiguous(e, s) && Spelled(e) == ev.title + "\n" + range + "\n" + MarkerLines(|Roles(ev.bylines)|)
  {
    HeadEditsContiguous(s, ev, range);
    RoleEditsContiguous(ev.bylines, Roles(ev.bylines), LinesAt(s, ev, range));
    Join(HeadEdits(s, ev, range), RoleEdits(ev.bylines, Roles(ev.bylines), LinesAt(s, ev, range)), s, LinesAt(s, ev, range),
         ev.title + "\n" + range + "\n", MarkerLines(|Roles(ev.bylines)|));
  }

  lemma {:induction false} UpToVenueContiguous(s: nat, ev: Event, range: string)
    requires PeopleLoaded(ev.bylines) && VenueLoaded(ev)
    ensures var e := HeadEdits(s, ev, range) + RoleEdits(ev.bylines, Roles(ev.bylines), LinesAt(s, ev, range)) +
                     VenueEdits(ev, VenueAt(s, ev, range));
      Contiguous(e, s) &&
      Spelled(e) == ev.title + "\n" + range + "\n" + MarkerLines(|Roles(ev.bylines)|) + VenueText(ev)
  {
    HeadRolesContiguous(s, ev, range);
    VenueEditsContiguous(ev, VenueAt(s, ev, range));
    Join(HeadEdits(s, ev, range) + RoleEdits(ev.bylines, Roles(ev.bylines), LinesAt(s, ev, range)),
         VenueEdits(ev, VenueAt(s, ev, range)), s, VenueAt(s, ev, range),
         ev.title + "\n" + range + "\n" + MarkerLines(|Roles(ev.bylines)|), VenueText(ev));
  }

  lemma {:induction false} UpToDescriptionContiguous(s: nat, ev: Event, range: string, desc: Snapshot)
    requires PeopleLoaded(ev.bylines) && VenueLoaded(ev) && WellFormed(desc)
    ensures var e := HeadEdits(s, ev, range) + RoleEdits(ev.bylines, Roles(ev.bylines), LinesAt(s, ev, range)) +
                     VenueEdits(ev, VenueAt(s, ev, range)) + DescriptionEdits(DescriptionAt(s, ev, range), desc);
      Contiguous(e, s) && Spelled(e) == BlockText(ev, range, desc.content)
  {
    UpToVenueContiguous(s, ev, range);
    DescriptionEditsContiguous(DescriptionAt(s, ev, range), desc);
    Join(HeadEdits(s, ev, range) + RoleEdits(ev.bylines, Roles(ev.bylines), LinesAt(s, ev, range)) +
         VenueEdits(ev, VenueAt(s, ev, range)), DescriptionEdits(DescriptionAt(s, ev, range), desc), s,
         DescriptionAt(s, ev, range),
         ev.title + "\n" + range + "\n" + MarkerLines(|Roles(ev.bylines)|) + VenueText(ev), desc.content);
  }

  /** An event's writes spell its block's text, from `s` on. */
  lemma {:induction false} EventEditsContiguous(s: nat, ev: Event, range: string, desc: Snapshot)
    requires PeopleLoaded(ev.bylines) && VenueLoaded(ev) && WellFormed(desc)
    ensures Contiguous(EventEdits(s, ev, range, desc), s)
    ensures Spelled(EventEdits(s, ev, range, desc)) == BlockText(ev, range, desc.content)
  {
    UpToDescriptionContiguous(s, ev, range, desc);
    BlockMarksWithin(s, ev, range, desc.content);
    CloseWithMark(HeadEdits(s, ev, range) + RoleEdits(ev.bylines, Roles(ev.bylines), LinesAt(s, ev, range)) +
                  VenueEdits(ev, VenueAt(s, ev, range)) + DescriptionEdits(DescriptionAt(s, ev, range), desc),
                  s, BlockText(ev, range, desc.content), BlockMarks(s, ev, range, desc.content));
  }

  /** One event written at `s`: its block's text, the cards it asks for, and its annotations. */
  function EventWritten(d: Draft, s: nat, ev: Event, range: string, desc: Snapshot): (r: Draft)
    requires Fits(d) && s <= |d.content| && PeopleLoaded(ev.bylines) && VenueLoaded(ev) && WellFormed(desc)
    ensures Fits(r) && |r.content| >= |d.content| + |BlockText(ev, range, desc.content)|
    ensures |r.annotations| >= |d.annotations|
  {
    EventEditsContiguous(s, ev, range, desc);
    Run(d, EventEdits(s, ev, range, desc), s)
  }
}
