/**
 * De-duplication while itineraries are expanded: each step adds a person card only for a person
 * with a biography whom no card names yet, and a location card only for a location no card
 * matches yet, so no person and no location ever gets a second card from the pass.
 */
module ItineraryCards {
  import opened Wrappers
  import opened Js
  import opened Collections
  import opened Entities
  import opened EventModel
  import opened Annotations
  import opened Documents
  import opened Itineraries

  /** Two steps in a row add the cards either of them asks for, still at most one per key. */
  lemma CardsAddedChain(a: seq<Annotation>, b: seq<Annotation>, c: seq<Annotation>,
                        keys1: set<Scalar>, keys2: set<Scalar>, ids1: set<int>, ids2: set<int>)
    requires CardsAdded(a, b, keys1, ids1) && CardsAdded(b, c, keys2, ids2)
    ensures CardsAdded(a, c, keys1 + keys2, ids1 + ids2)
  {
    forall k ensures PersonCount(c, k) ==
      PersonCount(a, k) + (if PersonCount(a, k) == 0 && k in keys1 + keys2 then 1 else 0)
    {
      assert PersonCount(b, k) == PersonCount(a, k) + (if PersonCount(a, k) == 0 && k in keys1 then 1 else 0);
      assert PersonCount(c, k) == PersonCount(b, k) + (if PersonCount(b, k) == 0 && k in keys2 then 1 else 0);
    }
    forall l ensures LocationCount(c, l) ==
      LocationCount(a, l) + (if LocationCount(a, l) == 0 && l in ids1 + ids2 then 1 else 0)
    {
      assert LocationCount(b, l) == LocationCount(a, l) + (if LocationCount(a, l) == 0 && l in ids1 then 1 else 0);
      assert LocationCount(c, l) == LocationCount(b, l) + (if LocationCount(b, l) == 0 && l in ids2 then 1 else 0);
    }
  }

  /** One step, then the rest: the chain above, stated for a whole that equals its parts. */
  lemma CardsAddedStep(a: seq<Annotation>, b: seq<Annotation>, c: seq<Annotation>, whole: seq<Annotation>,
                       keys1: set<Scalar>, keys2: set<Scalar>, keys: set<Scalar>,
                       ids1: set<int>, ids2: set<int>, ids: set<int>)
    requires CardsAdded(a, b, keys1, ids1) && CardsAdded(b, c, keys2, ids2)
    requires whole == c && keys == keys1 + keys2 && ids == ids1 + ids2
    ensures CardsAdded(a, whole, keys, ids)
  {
    CardsAddedChain(a, b, c, keys1, keys2, ids1, ids2);
  }

  /** Moving annotations about (inserting text) changes no count. */
  lemma WithTextCardsAdded(d: Draft, at: nat, text: string, behaviour: Behaviour)
    requires Fits(d) && at <= |d.content|
    ensures CardsAdded(d.annotations, WithText(d, at, text, behaviour).annotations, {}, {})
  {
    var after := WithText(d, at, text, behaviour).annotations;
    forall k ensures PersonCount(after, k) == PersonCount(d.annotations, k) {
      CountWhereSameBodies(d.annotations, after, PersonCardFor(k));
    }
    forall l ensures LocationCount(after, l) == LocationCount(d.annotations, l) {
      CountWhereSameBodies(d.annotations, after, LocationCardFor(l));
    }
  }

  /** Adding annotations none of which is a card changes no count. */
  lemma WithAddedCardsAdded(d: Draft, drafts: seq<Annotation>)
    requires Fits(d) && AllWithin(drafts, |d.content|) && CardFree(drafts)
    ensures CardsAdded(d.annotations, WithAdded(d, drafts).annotations, {}, {})
  {
    var stamped := Stamp(drafts, d.nextId);
    assert forall i | 0 <= i < |stamped| :: stamped[i].body == drafts[i].body && drafts[i] in drafts;
    forall k ensures PersonCount(WithAdded(d, drafts).annotations, k) == PersonCount(d.annotations, k) {
      CountWhereAppend(d.annotations, stamped, PersonCardFor(k));
      CountWhereZero(stamped, PersonCardFor(k));
    }
    forall l ensures LocationCount(WithAdded(d, drafts).annotations, l) == LocationCount(d.annotations, l) {
      CountWhereAppend(d.annotations, stamped, LocationCardFor(l));
      CountWhereZero(stamped, LocationCardFor(l));
    }
  }

  /** Counting over one more annotation. */
  lemma CountWhereSnoc(anns: seq<Annotation>, a: Annotation, p: Body -> bool)
    ensures CountWhere(anns + [a], p) == CountWhere(anns, p) + (if p(a.body) then 1 else 0)
  {
    CountWhereAppend(anns, [a], p);
    assert [a][1..] == [];
  }

  /** The key a person's card would carry, if their byline asks for one. */
  function BiographyKey(person: Person): set<Scalar> {
    if person.biography.Some? then {PersonKey(person)} else {}
  }

  /**
   * A byline's check adds a card for its person exactly when they have a biography and no
   * person card carries their id; it adds no location card.
   */
  lemma PersonCardedCounts(d: Draft, person: Person)
    requires Fits(d)
    ensures CardsAdded(d.annotations, PersonCarded(d, person).annotations, BiographyKey(person), {})
  {
    if CardsPerson(d.annotations, person) {
      var slot := PersonCardSlot(d.annotations, |d.content|);
      var moved := WithText(d, slot.0, "\U{FFFC}\n", slot.1);
      var card := Annotation(0, slot.0, slot.0 + 1, PersonCard(PersonKey(person)));
      WithTextCardsAdded(d, slot.0, "\U{FFFC}\n", slot.1);
      var stamped := Stamp([card], moved.nextId);
      assert stamped == [card.(id := moved.nextId)];
      forall k ensures PersonCount(PersonCarded(d, person).annotations, k) ==
        PersonCount(moved.annotations, k) + (if k == PersonKey(person) then 1 else 0)
      {
        CountWhereSnoc(moved.annotations, stamped[0], PersonCardFor(k));
      }
      forall l ensures LocationCount(PersonCarded(d, person).annotations, l) == LocationCount(moved.annotations, l) {
        CountWhereSnoc(moved.annotations, stamped[0], LocationCardFor(l));
      }
    }
  }

  /** The location-card check adds a card for the location exactly when no card matches its id. */
  lemma LocationCardedCounts(d: Draft, loc: Location)
    requires Fits(d)
    ensures CardsAdded(d.annotations, LocationCarded(d, loc).annotations, {}, {loc.id})
  {
    if LocationCount(d.annotations, loc.id) == 0 {
      var at := |d.content|;
      var moved := WithText(d, at, "\U{FFFC}\n", Preserve);
      var card := Annotation(0, at, at + 1, LocationCard(Str(IntToString(loc.id)), None));
      WithTextCardsAdded(d, at, "\U{FFFC}\n", Preserve);
      var stamped := Stamp([card], moved.nextId);
      assert stamped == [card.(id := moved.nextId)];
      LooseEqualsIntToString(loc.id);
      forall k ensures PersonCount(LocationCarded(d, loc).annotations, k) == PersonCount(moved.annotations, k) {
        CountWhereSnoc(moved.annotations, stamped[0], PersonCardFor(k));
      }
      forall l ensures LocationCount(LocationCarded(d, loc).annotations, l) ==
        LocationCount(moved.annotations, l) + (if l == loc.id then 1 else 0)
      {
        CountWhereSnoc(moved.annotations, stamped[0], LocationCardFor(l));
      }
    }
  }

  /** The location id an event's venue asks a card for. */
  function VenueIds(ev: Event): set<int> {
    if ev.venue.Some? && ev.venue.value.location.Some? then {ev.venue.value.location.value.id} else {}
  }


  lemma RebasedCardFree(anns: seq<Annotation>, offset: nat, base: nat)
    requires CardFree(anns)
    ensures CardFree(Rebased(anns, offset, base))
  {
    var r := Rebased(anns, offset, base);
    forall a | a in r ensures !a.body.PersonCard? && !a.body.LocationCard? {
      var i :| 0 <= i < |r| && r[i] == a;
      assert anns[i] in anns;
    }
  }

  // ---------------------------------------------------------------------------------------
  // Edit lists

  /** The person-card key and the location id an edit's check asks for. */
  function EditKeys(e: Edit): set<Scalar> {
    if e.PersonCheck? then BiographyKey(e.person) else {}
  }

  function EditIds(e: Edit): set<int> {
    if e.LocationCheck? then {e.loc.id} else {}
  }

  ghost function KeysOf(edits: seq<Edit>): set<Scalar> {
    set e | e in edits && e.PersonCheck? && e.person.biography.Some? :: PersonKey(e.person)
  }

  ghost function IdsOf(edits: seq<Edit>): set<int> {
    set e | e in edits && e.LocationCheck? :: e.loc.id
  }

  /** No mark adds a person card or a location card. */
  predicate MarksCardFree(edits: seq<Edit>) {
    forall e | e in edits && e.Mark? :: CardFree(e.drafts)
  }

  lemma KeysOfSnoc(edits: seq<Edit>, prefix: seq<Edit>, e: Edit)
    requires edits == prefix + [e]
    ensures KeysOf(edits) == KeysOf(prefix) + EditKeys(e) && IdsOf(edits) == IdsOf(prefix) + EditIds(e)
    ensures MarksCardFree(edits) ==> MarksCardFree(prefix) && (e.Mark? ==> CardFree(e.drafts))
  {
    assert forall x | x in edits :: x == e || x in prefix;
    assert forall x | x in prefix :: x in edits;
    assert e in edits;
  }

  lemma KeysOfAppend(a: seq<Edit>, b: seq<Edit>)
    ensures KeysOf(a + b) == KeysOf(a) + KeysOf(b) && IdsOf(a + b) == IdsOf(a) + IdsOf(b)
    ensures MarksCardFree(a + b) <==> MarksCardFree(a) && MarksCardFree(b)
  {
    assert forall e | e in a + b :: e in a || e in b;
  }

  /** One edit adds the card its check asks for, if none is there yet; writes and card-free marks add none. */
  lemma AppliedCounts(d: Draft, e: Edit)
    requires Fits(d) && Lands(d, e) && (e.Mark? ==> CardFree(e.drafts))
    ensures CardsAdded(d.annotations, Applied(d, e).annotations, EditKeys(e), EditIds(e))
  {
    match e
    case Write(at, text) =>
      WithTextCardsAdded(d, at, text, Default);
    case Mark(drafts) =>
      WithAddedCardsAdded(d, drafts);
    case PersonCheck(person) =>
      PersonCardedCounts(d, person);
    case LocationCheck(loc) =>
      LocationCardedCounts(d, loc);
  }

  /**
   * A run of edits adds one person card per key its checks ask for and one location card per id,
   * each only when no card carried it before the run, and no other card.
   */
  lemma {:induction false} RunCounts(d: Draft, edits: seq<Edit>, at: nat)
    requires Fits(d) && at <= |d.content| && Contiguous(edits, at) && MarksCardFree(edits)
    ensures CardsAdded(d.annotations, Run(d, edits, at).annotations, KeysOf(edits), IdsOf(edits))
    decreases |edits|
  {
    if edits == [] {
      assert KeysOf(edits) == {} && IdsOf(edits) == {};
    } else {
      var prefix, e := edits[..|edits| - 1], edits[|edits| - 1];
      assert edits == prefix + [e];
      ContiguousSplit(edits, at, prefix, e);
      KeysOfSnoc(edits, prefix, e);
      RunSnoc(d, prefix, at, e);
      var mid := Run(d, prefix, at);
      RunCounts(d, prefix, at);
      AppliedCounts(mid, e);
      CardsAddedStep(d.annotations, mid.annotations, Applied(mid, e).annotations, Run(d, edits, at).annotations,
                     KeysOf(prefix), EditKeys(e), KeysOf(edits), IdsOf(prefix), EditIds(e), IdsOf(edits));
    }
  }

  // ---------------------------------------------------------------------------------------
  // One event

  lemma {:induction false} PersonChecksKeys(group: seq<Byline>)
    requires PeopleLoaded(group)
    ensures KeysOf(PersonChecks(group)) == CardKeys(group) && IdsOf(PersonChecks(group)) == {}
    ensures MarksCardFree(PersonChecks(group))
  {
    var checks := PersonChecks(group);
    forall k ensures k in KeysOf(checks) <==> k in CardKeys(group) {
      if k in KeysOf(checks) {
        var e :| e in checks && e.PersonCheck? && e.person.biography.Some? && PersonKey(e.person) == k;
        var i :| 0 <= i < |checks| && checks[i] == e;
        assert group[i] in group;
      }
      if k in CardKeys(group) {
        var b :| b in group && b.person.Some? && b.person.value.biography.Some? && PersonKey(b.person.value) == k;
        var i :| 0 <= i < |group| && group[i] == b;
        assert checks[i] in checks;
      }
    }
  }

  /** The person-card keys the bylines of the given roles ask for. */
  ghost function RoleKeys(bylines: seq<Byline>, roles: seq<string>): set<Scalar> {
    set b | b in bylines && b.role in roles && b.person.Some? && b.person.value.biography.Some? :: PersonKey(b.person.value)
  }

  lemma RoleKeysSnoc(bylines: seq<Byline>, roles: seq<string>, role: string)
    ensures RoleKeys(bylines, roles + [role]) == RoleKeys(bylines, roles) + CardKeys(RoleGroup(bylines, role))
  {
    RoleGroupMembers(bylines, role);
  }

  /** Every byline's role is among the roles, so the roles together ask for every byline's key. */
  lemma RoleKeysOfRoles(bylines: seq<Byline>)
    ensures RoleKeys(bylines, Roles(bylines)) == CardKeys(bylines)
  {
    RolesAreKeys(bylines);
  }

  lemma RoleLineKeys(bylines: seq<Byline>, role: string, at: nat)
    requires PeopleLoaded(bylines)
    ensures KeysOf(RoleLine(bylines, role, at)) == CardKeys(RoleGroup(bylines, role))
    ensures IdsOf(RoleLine(bylines, role, at)) == {} && MarksCardFree(RoleLine(bylines, role, at))
  {
    var checks := PersonChecks(RoleGroup(bylines, role));
    PersonChecksKeys(RoleGroup(bylines, role));
    KeysOfAppend([Write(at, "\U{FFFC}\n")], checks);
  }

  lemma {:induction false} RoleEditsKeys(bylines: seq<Byline>, roles: seq<string>, at: nat)
    requires PeopleLoaded(bylines)
    ensures KeysOf(RoleEdits(bylines, roles, at)) == RoleKeys(bylines, roles)
    ensures IdsOf(RoleEdits(bylines, roles, at)) == {} && MarksCardFree(RoleEdits(bylines, roles, at))
    decreases |roles|
  {
    if roles == [] {
      assert RoleKeys(bylines, roles) == {};
    } else {
      var n := |roles| - 1;
      RoleEditsSnoc(bylines, roles, at);
      RoleEditsKeys(bylines, roles[..n], at);
      RoleLineKeys(bylines, roles[n], at + 2 * n);
      KeysOfAppend(RoleEdits(bylines, roles[..n], at), RoleLine(bylines, roles[n], at + 2 * n));
      assert roles == roles[..n] + [roles[n]];
      RoleKeysSnoc(bylines, roles[..n], roles[n]);
    }
  }

  lemma VenueEditsKeys(ev: Event, at: nat)
    requires VenueLoaded(ev)
    ensures KeysOf(VenueEdits(ev, at)) == {} && IdsOf(VenueEdits(ev, at)) == VenueIds(ev)
    ensures MarksCardFree(VenueEdits(ev, at))
  {
  }

  lemma HeadEditsKeys(s: nat, ev: Event, range: string)
    ensures KeysOf(HeadEdits(s, ev, range)) == {} && IdsOf(HeadEdits(s, ev, range)) == {}
    ensures MarksCardFree(HeadEdits(s, ev, range))
  {
  }

  lemma DescriptionEditsKeys(at: nat, desc: Snapshot)
    requires CardFree(desc.annotations)
    ensures KeysOf(DescriptionEdits(at, desc)) == {} && IdsOf(DescriptionEdits(at, desc)) == {}
    ensures MarksCardFree(DescriptionEdits(at, desc))
  {
    RebasedCardFree(desc.annotations, at, 0);
  }

  lemma {:induction false} EventEditsKeys(s: nat, ev: Event, range: string, desc: Snapshot)
    requires PeopleLoaded(ev.bylines) && VenueLoaded(ev) && CardFree(desc.annotations)
    ensures KeysOf(EventEdits(s, ev, range, desc)) == CardKeys(ev.bylines)
    ensures IdsOf(EventEdits(s, ev, range, desc)) == VenueIds(ev)
    ensures MarksCardFree(EventEdits(s, ev, range, desc))
  {
    var head := HeadEdits(s, ev, range);
    var roles := RoleEdits(ev.bylines, Roles(ev.bylines), LinesAt(s, ev, range));
    var venue := VenueEdits(ev, VenueAt(s, ev, range));
    var description := DescriptionEdits(DescriptionAt(s, ev, range), desc);
    var marks := [Mark(BlockMarks(s, ev, range, desc.content))];
    HeadEditsKeys(s, ev, range);
    RoleEditsKeys(ev.bylines, Roles(ev.bylines), LinesAt(s, ev, range));
    RoleKeysOfRoles(ev.bylines);
    VenueEditsKeys(ev, VenueAt(s, ev, range));
    DescriptionEditsKeys(DescriptionAt(s, ev, range), desc);
    BlockMarksWithin(s, ev, range, desc.content);
    KeysOfAppend(head, roles);
    KeysOfAppend(head + roles, venue);
    KeysOfAppend(head + roles + venue, description);
    KeysOfAppend(head + roles + venue + description, marks);
  }

  /**
   * Writing one event adds a person card for each byline person with a biography who has no
   * card yet, and a location card for its venue's location when no card matches it: never a
   * second card for the same person or location.
   */
  lemma {:induction false} EventWrittenCounts(d: Draft, s: nat, ev: Event, range: string, desc: Snapshot)
    requires Fits(d) && s <= |d.content| && PeopleLoaded(ev.bylines) && VenueLoaded(ev) && WellFormed(desc)
    requires CardFree(desc.annotations)
    ensures CardsAdded(d.annotations, EventWritten(d, s, ev, range, desc).annotations, CardKeys(ev.bylines), VenueIds(ev))
  {
    EventEditsContiguous(s, ev, range, desc);
    EventEditsKeys(s, ev, range, desc);
    RunCounts(d, EventEdits(s, ev, range, desc), s);
  }
}
