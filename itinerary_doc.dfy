/**
 * The itinerary pass as it runs on the document: the same steps as `ItineraryPass`, made one
 * `insertText`/`addAnnotations` at a time, each method proved to leave the document in the state
 * the corresponding specification function describes.
 */
module ItineraryHydration {
  import opened Wrappers
  import opened Js
  import opened Collections
  import opened Entities
  import opened EventModel
  import opened Annotations
  import opened Documents
  import opened Schedules
  import opened Itineraries
  import opened ItineraryPass

  /**
   * `part` sits in `all` from `base` on. Stated one edit at a time so that it unfolds only as far
   * as a proof asks.
   */
  predicate SitsAt(all: seq<Edit>, base: nat, part: seq<Edit>)
    decreases |part|
  {
    base + |part| <= |all| && (part == [] || (all[base] == part[0] && SitsAt(all, base + 1, part[1..])))
  }

  lemma {:induction false} SitsAtIndex(all: seq<Edit>, base: nat, part: seq<Edit>, i: nat)
    requires SitsAt(all, base, part) && i < |part|
    ensures base + |part| <= |all| && all[base + i] == part[i]
    decreases i
  {
    if i > 0 {
      SitsAtIndex(all, base + 1, part[1..], i - 1);
    }
  }

  lemma {:induction false} SitsAtFromIndex(all: seq<Edit>, base: nat, part: seq<Edit>)
    requires base + |part| <= |all| && forall i | 0 <= i < |part| :: all[base + i] == part[i]
    ensures SitsAt(all, base, part)
    decreases |part|
  {
    if part != [] {
      forall i | 0 <= i < |part| - 1 ensures all[base + 1 + i] == part[1..][i] {
        assert all[base + (1 + i)] == part[1 + i];
      }
      SitsAtFromIndex(all, base + 1, part[1..]);
    }
  }

  /** A piece of what sits at `base`, found further on. */
  lemma SitsAtPiece(all: seq<Edit>, base: nat, every: seq<Edit>, done: seq<Edit>, piece: seq<Edit>)
    requires SitsAt(all, base, every) && |done| + |piece| <= |every| && every[..|done| + |piece|] == done + piece
    ensures SitsAt(all, base + |done|, piece)
  {
    forall i | 0 <= i < |piece| ensures all[base + |done| + i] == piece[i] {
      assert every[|done| + i] == every[..|done| + |piece|][|done| + i] == (done + piece)[|done| + i];
      SitsAtIndex(all, base, every, |done| + i);
    }
    SitsAtFromIndex(all, base + |done|, piece);
  }

  /** The role lines of the first `j` roles make a prefix of all of them. */
  lemma {:induction false} RoleEditsPrefix(bylines: seq<Byline>, roles: seq<string>, at: nat, j: nat)
    requires PeopleLoaded(bylines) && j <= |roles|
    ensures var done := RoleEdits(bylines, roles[..j], at);
      |done| <= |RoleEdits(bylines, roles, at)| && RoleEdits(bylines, roles, at)[..|done|] == done
    decreases |roles| - j
  {
    if j < |roles| {
      var n := |roles| - 1;
      RoleEditsPrefix(bylines, roles[..n], at, j);
      assert roles[..n][..j] == roles[..j];
      RoleEditsSnoc(bylines, roles, at);
    } else {
      assert roles[..j] == roles;
    }
  }

  /** A piece that ends a prefix of what sits at `base` sits just after the rest of that prefix. */
  lemma SitsAtGrown(all: seq<Edit>, base: nat, every: seq<Edit>, grown: seq<Edit>, done: seq<Edit>, piece: seq<Edit>)
    requires SitsAt(all, base, every) && |grown| <= |every| && every[..|grown|] == grown && grown == done + piece
    ensures SitsAt(all, base + |done|, piece)
  {
    SitsAtPiece(all, base, every, done, piece);
  }

  /** The role lines of the first `j + 1` roles: those of the first `j`, then the line of role `j`. */
  lemma RoleEditsGrown(bylines: seq<Byline>, roles: seq<string>, at: nat, j: nat)
    requires PeopleLoaded(bylines) && j < |roles|
    ensures RoleEdits(bylines, roles[..j + 1], at) == RoleEdits(bylines, roles[..j], at) + RoleLine(bylines, roles[j], at + 2 * j)
  {
    RoleEditsSnoc(bylines, roles[..j + 1], at);
    assert roles[..j + 1][..j] == roles[..j];
  }

  /** A role's line: its marker write, then one person-card check per byline of the role. */
  lemma RoleLineIs(bylines: seq<Byline>, role: string, at: nat)
    requires PeopleLoaded(bylines)
    ensures var line, group := RoleLine(bylines, role, at), RoleGroup(bylines, role);
      PeopleLoaded(group) && |line| == 1 + |group| && line[0] == Write(at, "\U{FFFC}\n")
  {
  }

  /** The check of the `i`th byline of the role follows the marker write. */
  lemma RoleLineAt(bylines: seq<Byline>, role: string, at: nat, i: nat)
    requires PeopleLoaded(bylines) && i < |RoleGroup(bylines, role)|
    ensures var line, group := RoleLine(bylines, role, at), RoleGroup(bylines, role);
      PeopleLoaded(group) && 1 + i < |line| && line[1 + i] == PersonCheck(group[i].person.value)
  {
  }

  /** A role's line sits at `n` of `all`: its marker write, then the check of each byline of `group`. */
  predicate LineLaid(all: seq<Edit>, n: nat, group: seq<Byline>, at: nat) {
    && PeopleLoaded(group) && n + 1 + |group| <= |all| && all[n] == Write(at, "\U{FFFC}\n")
    && forall i | 0 <= i < |group| :: all[n + 1 + i] == PersonCheck(group[i].person.value)
  }

  /** A role's line sitting at `n`: its marker write, then the check of each byline of the role. */
  lemma RoleLineLaid(all: seq<Edit>, n: nat, bylines: seq<Byline>, role: string, at: nat)
    requires PeopleLoaded(bylines) && SitsAt(all, n, RoleLine(bylines, role, at))
    ensures var group := RoleGroup(bylines, role);
      |RoleLine(bylines, role, at)| == 1 + |group| && LineLaid(all, n, group, at)
  {
    var line, group := RoleLine(bylines, role, at), RoleGroup(bylines, role);
    RoleLineIs(bylines, role, at);
    SitsAtIndex(all, n, line, 0);
    forall i | 0 <= i < |group| ensures all[n + 1 + i] == PersonCheck(group[i].person.value) {
      RoleLineAt(bylines, role, at, i);
      SitsAtIndex(all, n, line, 1 + i);
    }
  }

  /**
   * The line of each role sits at its start in `all`: its marker write, then the check of each
   * byline of the role; the next role's line starts right after it, the first at 3.
   */
  predicate RolesAt(all: seq<Edit>, bylines: seq<Byline>, roles: seq<string>, lines: nat, starts: seq<nat>)
    requires PeopleLoaded(bylines)
  {
    && |starts| == |roles| + 1 && starts[0] == 3 && starts[|roles|] <= |all|
    && forall j | 0 <= j < |roles| ::
         && starts[j + 1] == starts[j] + 1 + |RoleGroup(bylines, roles[j])|
         && LineLaid(all, starts[j], RoleGroup(bylines, roles[j]), lines + 2 * j)
  }

  /** Role `j`'s line sits right after those of the roles before it. */
  lemma RoleSlot(all: seq<Edit>, bylines: seq<Byline>, roles: seq<string>, lines: nat, j: nat)
    requires PeopleLoaded(bylines) && j < |roles| && SitsAt(all, 3, RoleEdits(bylines, roles, lines))
    ensures var done := RoleEdits(bylines, roles[..j], lines);
      && |RoleEdits(bylines, roles[..j + 1], lines)| == |done| + 1 + |RoleGroup(bylines, roles[j])|
      && LineLaid(all, 3 + |done|, RoleGroup(bylines, roles[j]), lines + 2 * j)
  {
    var done, line := RoleEdits(bylines, roles[..j], lines), RoleLine(bylines, roles[j], lines + 2 * j);
    RoleEditsGrown(bylines, roles, lines, j);
    RoleEditsPrefix(bylines, roles, lines, j + 1);
    SitsAtGrown(all, 3, RoleEdits(bylines, roles, lines), RoleEdits(bylines, roles[..j + 1], lines), done, line);
    RoleLineLaid(all, 3 + |done|, bylines, roles[j], lines + 2 * j);
  }

  /** Role lines sitting after the first three edits start where the lines before them end. */
  lemma RolesLaidFrom(all: seq<Edit>, bylines: seq<Byline>, roles: seq<string>, lines: nat) returns (starts: seq<nat>)
    requires PeopleLoaded(bylines) && SitsAt(all, 3, RoleEdits(bylines, roles, lines))
    ensures RolesAt(all, bylines, roles, lines, starts) && starts[|roles|] == 3 + |RoleEdits(bylines, roles, lines)|
  {
    starts := seq(|roles| + 1, j requires 0 <= j <= |roles| => 3 + |RoleEdits(bylines, roles[..j], lines)|);
    assert roles[..0] == [] && roles[..|roles|] == roles;
    forall j | 0 <= j < |roles|
      ensures && starts[j + 1] == starts[j] + 1 + |RoleGroup(bylines, roles[j])|
              && LineLaid(all, starts[j], RoleGroup(bylines, roles[j]), lines + 2 * j)
    {
      RoleSlot(all, bylines, roles, lines, j);
    }
  }

  /** The title line, its Heading and the date line: the first three edits of a block. */
  predicate HeadLaid(all: seq<Edit>, s: nat, ev: Event, range: string) {
    && |all| >= 3
    && all[0] == Write(s, ev.title + "\n")
    && all[1] == Mark([Annotation(0, s, s + |ev.title|, Heading(4, false))])
    && all[2] == Write(s + |ev.title| + 1, range + "\n")
  }

  /**
   * The last edit of a block whose venue's character is at `at`: the annotations collected on the
   * way (the LineBreak ending the date line at `lines`, then `bylines`), the LocationName, and the
   * ListItem over the whole block.
   */
  function TailMark(s: nat, at: nat, ev: Event, desc: Snapshot, lines: nat, bylines: seq<Annotation>): Edit
    requires VenueLoaded(ev) && 1 <= lines
  {
    Mark([Annotation(0, lines - 1, lines, LineBreak)] + bylines + VenueMarks(ev, at) +
         [Annotation(0, s, at + |VenueText(ev)| + |desc.content|, ListItem)])
  }

  /** The edits of a block after its role lines: the venue's check and character, the description, the last mark. */
  function TailEdits(s: nat, at: nat, ev: Event, desc: Snapshot, lines: nat, bylines: seq<Annotation>): seq<Edit>
    requires VenueLoaded(ev) && 1 <= lines
  {
    VenueEdits(ev, at) + DescriptionEdits(at + |VenueText(ev)|, desc) + [TailMark(s, at, ev, desc, lines, bylines)]
  }

  /** A tail's edits one by one at `n`, the last edits of `all`. */
  predicate TailLaid(all: seq<Edit>, n: nat, s: nat, at: nat, ev: Event, desc: Snapshot, lines: nat, bylines: seq<Annotation>)
    requires VenueLoaded(ev) && 1 <= lines
  {
    var t, from := n + 2 * |VenueText(ev)|, at + |VenueText(ev)|;
    && |all| == t + 3
    && (ev.venue.Some? ==>
          all[n] == LocationCheck(ev.venue.value.location.value) && all[n + 1] == Write(at, "\U{FFFC}"))
    && all[t] == Write(from, desc.content)
    && all[t + 1] == Mark(Rebased(desc.annotations, from, 0))
    && all[t + 2] == TailMark(s, at, ev, desc, lines, bylines)
  }

  /** A tail written after `pre` is laid out edit by edit. */
  lemma TailLaidAfter(pre: seq<Edit>, s: nat, at: nat, ev: Event, desc: Snapshot, lines: nat, bylines: seq<Annotation>)
    requires VenueLoaded(ev) && 1 <= lines
    ensures TailLaid(pre + TailEdits(s, at, ev, desc, lines, bylines), |pre|, s, at, ev, desc, lines, bylines)
  {
    var tail := TailEdits(s, at, ev, desc, lines, bylines);
    var all, n, v := pre + tail, |pre|, |VenueEdits(ev, at)|;
    assert v == 2 * |VenueText(ev)|;
    assert all[n + v] == tail[v] && all[n + v + 1] == tail[v + 1] && all[n + v + 2] == tail[v + 2];
    if ev.venue.Some? {
      assert all[n] == tail[0] && all[n + 1] == tail[1];
    }
  }

  lemma SitsInFive(a: seq<Edit>, b: seq<Edit>, c: seq<Edit>, d: seq<Edit>, e: seq<Edit>)
    ensures SitsAt(a + b + c + d + e, |a|, b)
  {
    var all := a + b + c + d + e;
    forall i | 0 <= i < |b| ensures all[|a| + i] == b[i] {
      assert all[|a| + i] == (a + b)[|a| + i];
    }
    SitsAtFromIndex(all, |a|, b);
  }

  lemma FirstOfFive(a: seq<Edit>, b: seq<Edit>, c: seq<Edit>, d: seq<Edit>, e: seq<Edit>, i: nat)
    requires i < |a|
    ensures (a + b + c + d + e)[i] == a[i]
  {
  }

  lemma EventHeadLaid(s: nat, ev: Event, range: string, desc: Snapshot)
    requires PeopleLoaded(ev.bylines) && VenueLoaded(ev)
    ensures HeadLaid(EventEdits(s, ev, range, desc), s, ev, range)
  {
    var head, roles := HeadEdits(s, ev, range), RoleEdits(ev.bylines, Roles(ev.bylines), LinesAt(s, ev, range));
    var venue, description := VenueEdits(ev, VenueAt(s, ev, range)), DescriptionEdits(DescriptionAt(s, ev, range), desc);
    var last := [Mark(BlockMarks(s, ev, range, desc.content))];
    FirstOfFive(head, roles, venue, description, last, 0);
    FirstOfFive(head, roles, venue, description, last, 1);
    FirstOfFive(head, roles, venue, description, last, 2);
  }

  lemma EventRolesLaid(s: nat, ev: Event, range: string, desc: Snapshot) returns (starts: seq<nat>)
    requires PeopleLoaded(ev.bylines) && VenueLoaded(ev)
    ensures var lines := LinesAt(s, ev, range);
      && RolesAt(EventEdits(s, ev, range, desc), ev.bylines, Roles(ev.bylines), lines, starts)
      && starts[|Roles(ev.bylines)|] == 3 + |RoleEdits(ev.bylines, Roles(ev.bylines), lines)|
  {
    SitsInFive(HeadEdits(s, ev, range), RoleEdits(ev.bylines, Roles(ev.bylines), LinesAt(s, ev, range)),
               VenueEdits(ev, VenueAt(s, ev, range)), DescriptionEdits(DescriptionAt(s, ev, range), desc),
               [Mark(BlockMarks(s, ev, range, desc.content))]);
    starts := RolesLaidFrom(EventEdits(s, ev, range, desc), ev.bylines, Roles(ev.bylines), LinesAt(s, ev, range));
  }

  /** A block's text ends where its description does. */
  lemma BlockEnd(s: nat, ev: Event, range: string, description: string)
    ensures s + |BlockText(ev, range, description)| == DescriptionAt(s, ev, range) + |description|
  {
    BlockTextLayout(ev, range, description);
  }

  /** A block's marks: what was collected on the way, the LocationName, and the ListItem up to the description's end. */
  lemma BlockMarksSplit(s: nat, ev: Event, range: string, description: string)
    requires PeopleLoaded(ev.bylines) && VenueLoaded(ev)
    ensures var lines := LinesAt(s, ev, range);
      BlockMarks(s, ev, range, description) ==
      [Annotation(0, lines - 1, lines, LineBreak)] + BylineMarks(ev.bylines, Roles(ev.bylines), lines) +
      VenueMarks(ev, VenueAt(s, ev, range)) +
      [Annotation(0, s, DescriptionAt(s, ev, range) + |description|, ListItem)]
  {
    BlockMarksIs(s, ev, range, description);
    BlockEnd(s, ev, range, description);
  }

  lemma Regrouped(a: seq<Edit>, b: seq<Edit>, c: seq<Edit>, d: seq<Edit>, e: seq<Edit>)
    ensures a + b + c + d + e == (a + b) + (c + d + e)
  {
  }

  /** A block's last three pieces are the tail that follows its role lines. */
  lemma EventTailIs(s: nat, ev: Event, range: string, desc: Snapshot)
    requires PeopleLoaded(ev.bylines) && VenueLoaded(ev)
    ensures var lines := LinesAt(s, ev, range);
      TailEdits(s, VenueAt(s, ev, range), ev, desc, lines, BylineMarks(ev.bylines, Roles(ev.bylines), lines)) ==
      VenueEdits(ev, VenueAt(s, ev, range)) + DescriptionEdits(DescriptionAt(s, ev, range), desc) +
      [Mark(BlockMarks(s, ev, range, desc.content))]
  {
    var lines, at := LinesAt(s, ev, range), VenueAt(s, ev, range);
    BlockMarksSplit(s, ev, range, desc.content);
    TailEditsIs(s, at, ev, desc, lines, BylineMarks(ev.bylines, Roles(ev.bylines), lines),
                DescriptionAt(s, ev, range), BlockMarks(s, ev, range, desc.content));
  }

  /** A tail's edits, with its last mark given piece by piece. */
  lemma TailEditsIs(s: nat, at: nat, ev: Event, desc: Snapshot, lines: nat, bylines: seq<Annotation>,
                    from: nat, marks: seq<Annotation>)
    requires VenueLoaded(ev) && 1 <= lines && from == at + |VenueText(ev)|
    requires marks == [Annotation(0, lines - 1, lines, LineBreak)] + bylines + VenueMarks(ev, at) +
                      [Annotation(0, s, from + |desc.content|, ListItem)]
    ensures TailEdits(s, at, ev, desc, lines, bylines) == VenueEdits(ev, at) + DescriptionEdits(from, desc) + [Mark(marks)]
  {
  }

  lemma EventTailLaid(s: nat, ev: Event, range: string, desc: Snapshot)
    requires PeopleLoaded(ev.bylines) && VenueLoaded(ev)
    ensures var lines := LinesAt(s, ev, range);
      TailLaid(EventEdits(s, ev, range, desc), 3 + |RoleEdits(ev.bylines, Roles(ev.bylines), lines)|, s,
               VenueAt(s, ev, range), ev, desc, lines, BylineMarks(ev.bylines, Roles(ev.bylines), lines))
  {
    var lines := LinesAt(s, ev, range);
    var head, roles := HeadEdits(s, ev, range), RoleEdits(ev.bylines, Roles(ev.bylines), lines);
    EventTailIs(s, ev, range, desc);
    Regrouped(head, roles, VenueEdits(ev, VenueAt(s, ev, range)), DescriptionEdits(DescriptionAt(s, ev, range), desc),
              [Mark(BlockMarks(s, ev, range, desc.content))]);
    TailLaidAfter(head + roles, s, VenueAt(s, ev, range), ev, desc, lines, BylineMarks(ev.bylines, Roles(ev.bylines), lines));
  }

  /** Each piece of a block's edits where the block's writer expects it, the role lines at `starts`. */
  predicate BlockLaid(all: seq<Edit>, s: nat, ev: Event, range: string, desc: Snapshot, starts: seq<nat>)
    requires PeopleLoaded(ev.bylines) && VenueLoaded(ev)
  {
    var lines, roles := LinesAt(s, ev, range), Roles(ev.bylines);
    && HeadLaid(all, s, ev, range)
    && RolesAt(all, ev.bylines, roles, lines, starts)
    && TailLaid(all, starts[|roles|], s, VenueAt(s, ev, range), ev, desc, lines, BylineMarks(ev.bylines, roles, lines))
  }

  lemma EventLaid(s: nat, ev: Event, range: string, desc: Snapshot) returns (starts: seq<nat>)
    requires PeopleLoaded(ev.bylines) && VenueLoaded(ev)
    ensures BlockLaid(EventEdits(s, ev, range, desc), s, ev, range, desc, starts)
  {
    EventHeadLaid(s, ev, range, desc);
    starts := EventRolesLaid(s, ev, range, desc);
    EventTailLaid(s, ev, range, desc);
  }

  /** Byline annotations that agree with `BylineMarks` one by one are `BylineMarks`. */
  lemma BylineMarksEach(bylines: seq<Byline>, roles: seq<string>, at: nat, marks: seq<Annotation>)
    requires PeopleLoaded(bylines) && |marks| == |roles|
    requires forall i | 0 <= i < |roles| :: marks[i] == RoleMark(bylines, roles[i], at + 2 * i)
    ensures marks == BylineMarks(bylines, roles, at)
  {
    forall i | 0 <= i < |roles| ensures marks[i] == BylineMarks(bylines, roles, at)[i] {
      BylineMarksAt(bylines, roles, at, i);
    }
  }

  /** A byline's person-card check, on the document. */
  method CardPerson(doc: Document, person: Person)
    requires doc.Valid()
    modifies doc
    ensures doc.Valid() && doc.State() == PersonCarded(old(doc.State()), person)
  {
    if PersonCount(doc.annotations, PersonKey(person)) == 0 && person.biography.Some? {
      var slot := PersonCardSlot(doc.annotations, |doc.content|);
      doc.InsertText(slot.0, "\U{FFFC}\n", slot.1);
      doc.AddAnnotations([Annotation(0, slot.0, slot.0 + 1, PersonCard(PersonKey(person)))]);
    }
  }

  /** The venue's location-card check, on the document. */
  method CardLocation(doc: Document, loc: Location)
    requires doc.Valid()
    modifies doc
    ensures doc.Valid() && doc.State() == LocationCarded(old(doc.State()), loc)
  {
    if LocationCount(doc.annotations, loc.id) == 0 {
      var at := |doc.content|;
      doc.InsertText(at, "\U{FFFC}\n", Preserve);
      doc.AddAnnotations([Annotation(0, at, at + 1, LocationCard(Str(IntToString(loc.id)), None))]);
    }
  }

  /** The next edit of `all`, applied to the document as `Applied` specifies it. */
  method Apply(doc: Document, ghost d0: Draft, ghost all: seq<Edit>, s: nat, ghost n: nat, e: Edit)
    requires Fits(d0) && s <= |d0.content| && Contiguous(all, s) && n < |all| && all[n] == e
    requires doc.Valid() && doc.State() == RunPrefix(d0, all, s, n)
    modifies doc
    ensures doc.Valid() && doc.State() == RunPrefix(d0, all, s, n + 1)
  {
    RunStep(d0, all, s, n, doc.State(), e);
    match e
    case Write(at, text) => doc.InsertText(at, text, Default);
    case Mark(drafts) => doc.AddAnnotations(drafts);
    case PersonCheck(person) => CardPerson(doc, person);
    case LocationCheck(loc) => CardLocation(doc, loc);
  }

  /** The title line with its level-4 Heading, then the date line: the first three edits of a block. */
  method WriteHead(doc: Document, ghost d0: Draft, ghost all: seq<Edit>, s: nat, ev: Event, range: string)
    requires Fits(d0) && s <= |d0.content| && Contiguous(all, s) && HeadLaid(all, s, ev, range)
    requires doc.Valid() && doc.State() == RunPrefix(d0, all, s, 0)
    modifies doc
    ensures doc.Valid() && doc.State() == RunPrefix(d0, all, s, 3)
  {
    Apply(doc, d0, all, s, 0, Write(s, ev.title + "\n"));
    Apply(doc, d0, all, s, 1, Mark([Annotation(0, s, s + |ev.title|, Heading(4, false))]));
    Apply(doc, d0, all, s, 2, Write(s + |ev.title| + 1, range + "\n"));
  }

  /** One role's `"\U{FFFC}\n"` line, then the person-card check of each byline of the role. */
  method WriteRoleLine(doc: Document, ghost d0: Draft, ghost all: seq<Edit>, s: nat, ghost n: nat,
                       group: seq<Byline>, at: nat)
    requires Fits(d0) && s <= |d0.content| && Contiguous(all, s) && LineLaid(all, n, group, at)
    requires doc.Valid() && doc.State() == RunPrefix(d0, all, s, n)
    modifies doc
    ensures doc.Valid() && doc.State() == RunPrefix(d0, all, s, n + 1 + |group|)
  {
    Apply(doc, d0, all, s, n, Write(at, "\U{FFFC}\n"));
    var i := 0;
    while i < |group|
      invariant 0 <= i <= |group| && doc.Valid()
      invariant doc.State() == RunPrefix(d0, all, s, n + 1 + i)
    {
      assert all[n + 1 + i] == PersonCheck(group[i].person.value);
      Apply(doc, d0, all, s, n + 1 + i, PersonCheck(group[i].person.value));
      i := i + 1;
    }
  }

  /** A role's Byline annotation over its line at `at`: the role and the people of its bylines. */
  function RoleMark(bylines: seq<Byline>, role: string, at: nat): Annotation
    requires PeopleLoaded(bylines)
  {
    Annotation(0, at, at + 1, Body.Byline(role, PeopleOf(RoleGroup(bylines, role))))
  }

  /** The Byline annotations of the first `j` roles, as the roles loop collects them. */
  function BylinesUpTo(bylines: seq<Byline>, roles: seq<string>, lines: nat, j: nat): seq<Annotation>
    requires PeopleLoaded(bylines) && j <= |roles|
  {
    if j == 0 then [] else BylinesUpTo(bylines, roles, lines, j - 1) + [RoleMark(bylines, roles[j - 1], lines + 2 * (j - 1))]
  }

  /** Collected annotation `i` is role `i`'s. */
  lemma {:induction false} BylinesUpToAt(bylines: seq<Byline>, roles: seq<string>, lines: nat, j: nat)
    requires PeopleLoaded(bylines) && j <= |roles|
    ensures var m := BylinesUpTo(bylines, roles, lines, j);
      |m| == j && forall i | 0 <= i < j :: m[i] == RoleMark(bylines, roles[i], lines + 2 * i)
  {
    if j > 0 {
      BylinesUpToAt(bylines, roles, lines, j - 1);
    }
  }

  /** Once every role is done, the collected annotations are the block's Byline marks. */
  lemma BylinesUpToAll(bylines: seq<Byline>, roles: seq<string>, lines: nat)
    requires PeopleLoaded(bylines)
    ensures BylinesUpTo(bylines, roles, lines, |roles|) == BylineMarks(bylines, roles, lines)
  {
    BylinesUpToAt(bylines, roles, lines, |roles|);
    BylineMarksEach(bylines, roles, lines, BylinesUpTo(bylines, roles, lines, |roles|));
  }

  /** One more role's Byline annotation collected. */
  lemma BylinesUpToNext(bylines: seq<Byline>, roles: seq<string>, lines: nat, j: nat, marks: seq<Annotation>, mark: Annotation)
    requires PeopleLoaded(bylines) && j < |roles|
    requires marks == BylinesUpTo(bylines, roles, lines, j) && mark == RoleMark(bylines, roles[j], lines + 2 * j)
    ensures marks + [mark] == BylinesUpTo(bylines, roles, lines, j + 1)
  {
  }

  /** Role `j`'s line, written where `starts` puts it, and the role's Byline annotation. */
  method WriteRole(doc: Document, ghost d0: Draft, ghost all: seq<Edit>, s: nat,
                   bylines: seq<Byline>, roles: seq<string>, lines: nat, ghost starts: seq<nat>, j: nat)
    returns (mark: Annotation)
    requires Fits(d0) && s <= |d0.content| && Contiguous(all, s) && PeopleLoaded(bylines)
    requires RolesAt(all, bylines, roles, lines, starts) && j < |roles|
    requires doc.Valid() && doc.State() == RunPrefix(d0, all, s, starts[j])
    modifies doc
    ensures doc.Valid() && doc.State() == RunPrefix(d0, all, s, starts[j + 1])
    ensures mark == RoleMark(bylines, roles[j], lines + 2 * j)
  {
    var group := RoleGroup(bylines, roles[j]);
    assert starts[j + 1] == starts[j] + 1 + |group| && LineLaid(all, starts[j], group, lines + 2 * j);
    WriteRoleLine(doc, d0, all, s, starts[j], group, lines + 2 * j);
    mark := Annotation(0, lines + 2 * j, lines + 2 * j + 1, Body.Byline(roles[j], PeopleOf(group)));
  }

  /** Every role's line in turn, collecting the role's Byline annotation on the way. */
  method WriteRoles(doc: Document, ghost d0: Draft, ghost all: seq<Edit>, s: nat,
                    bylines: seq<Byline>, roles: seq<string>, lines: nat, ghost starts: seq<nat>)
    returns (marks: seq<Annotation>)
    requires Fits(d0) && s <= |d0.content| && Contiguous(all, s) && PeopleLoaded(bylines)
    requires RolesAt(all, bylines, roles, lines, starts)
    requires doc.Valid() && doc.State() == RunPrefix(d0, all, s, 3)
    modifies doc
    ensures doc.Valid() && doc.State() == RunPrefix(d0, all, s, starts[|roles|])
    ensures marks == BylineMarks(bylines, roles, lines)
  {
    marks := [];
    var j := 0;
    while j < |roles|
      invariant 0 <= j <= |roles| && doc.Valid()
      invariant doc.State() == RunPrefix(d0, all, s, starts[j])
      invariant marks == BylinesUpTo(bylines, roles, lines, j)
    {
      var mark := WriteRole(doc, d0, all, s, bylines, roles, lines, starts, j);
      BylinesUpToNext(bylines, roles, lines, j, marks, mark);
      marks := marks + [mark];
      j := j + 1;
    }
    BylinesUpToAll(bylines, roles, lines);
  }

  /** The venue's location-card check and its character, with the LocationName over it. */
  method WriteVenue(doc: Document, ghost d0: Draft, ghost all: seq<Edit>, s: nat, ghost n: nat, at: nat,
                    ev: Event)
    requires Fits(d0) && s <= |d0.content| && Contiguous(all, s)
    requires VenueLoaded(ev) && n + 2 * |VenueText(ev)| <= |all|
    requires ev.venue.Some? ==>
      all[n] == LocationCheck(ev.venue.value.location.value) && all[n + 1] == Write(at, "\U{FFFC}")
    requires doc.Valid() && doc.State() == RunPrefix(d0, all, s, n)
    modifies doc
    ensures doc.Valid() && doc.State() == RunPrefix(d0, all, s, n + 2 * |VenueText(ev)|)
  {
    if ev.venue.Some? {
      var loc := ev.venue.value.location.value;
      Apply(doc, d0, all, s, n, LocationCheck(loc));
      Apply(doc, d0, all, s, n + 1, Write(at, "\U{FFFC}"));
    }
  }

  /** The venue, the description, then every annotation collected on the way. */
  method WriteTail(doc: Document, ghost d0: Draft, ghost all: seq<Edit>, s: nat, ghost n: nat, at: nat,
                   ev: Event, desc: Snapshot, lines: nat, bylines: seq<Annotation>)
    requires Fits(d0) && s <= |d0.content| && Contiguous(all, s) && 1 <= lines
    requires VenueLoaded(ev) && TailLaid(all, n, s, at, ev, desc, lines, bylines)
    requires doc.Valid() && doc.State() == RunPrefix(d0, all, s, n)
    modifies doc
    ensures doc.Valid() && doc.State() == RunPrefix(d0, all, s, |all|)
  {
    var from := at + |VenueText(ev)|;
    WriteVenue(doc, d0, all, s, n, at, ev);
    Apply(doc, d0, all, s, n + 2 * |VenueText(ev)|, Write(from, desc.content));
    Apply(doc, d0, all, s, n + 2 * |VenueText(ev)| + 1, Mark(Rebased(desc.annotations, from, 0)));
    Apply(doc, d0, all, s, n + 2 * |VenueText(ev)| + 2, TailMark(s, at, ev, desc, lines, bylines));
  }

  /** A block's role lines and tail, once its head is written. */
  method WriteBody(doc: Document, ghost d0: Draft, ghost all: seq<Edit>, s: nat, ev: Event, range: string, desc: Snapshot,
                   ghost starts: seq<nat>)
    requires Fits(d0) && s <= |d0.content| && Contiguous(all, s) && PeopleLoaded(ev.bylines) && VenueLoaded(ev)
    requires RolesAt(all, ev.bylines, Roles(ev.bylines), LinesAt(s, ev, range), starts)
    requires TailLaid(all, starts[|Roles(ev.bylines)|], s, VenueAt(s, ev, range), ev, desc,
                      LinesAt(s, ev, range), BylineMarks(ev.bylines, Roles(ev.bylines), LinesAt(s, ev, range)))
    requires doc.Valid() && doc.State() == RunPrefix(d0, all, s, 3)
    modifies doc
    ensures doc.Valid() && doc.State() == RunPrefix(d0, all, s, |all|)
  {
    var lines, roles := LinesAt(s, ev, range), Roles(ev.bylines);
    var bylines := WriteRoles(doc, d0, all, s, ev.bylines, roles, lines, starts);
    WriteTail(doc, d0, all, s, starts[|roles|], VenueAt(s, ev, range), ev, desc, lines, bylines);
  }

  /** The edits of a block, laid out as `BlockLaid` says, applied to the document one after another. */
  method WriteBlock(doc: Document, ghost d0: Draft, ghost all: seq<Edit>, s: nat, ev: Event, range: string, desc: Snapshot,
                    ghost starts: seq<nat>)
    requires Fits(d0) && s <= |d0.content| && Contiguous(all, s)
    requires PeopleLoaded(ev.bylines) && VenueLoaded(ev) && BlockLaid(all, s, ev, range, desc, starts)
    requires doc.Valid() && doc.State() == RunPrefix(d0, all, s, 0)
    modifies doc
    ensures doc.Valid() && doc.State() == RunPrefix(d0, all, s, |all|)
  {
    WriteHead(doc, d0, all, s, ev, range);
    WriteBody(doc, d0, all, s, ev, range, desc, starts);
  }

  /**
   * One event written at `s`, as the `events.forEach` callback writes it: each piece of text at
   * the cursor, the cards at the tail, and the annotations collected on the way added at the end
   * together with the ListItem.
   */
  method WriteEvent(doc: Document, s: nat, ev: Event, range: string, desc: Snapshot)
    requires doc.Valid() && s <= |doc.content| && PeopleLoaded(ev.bylines) && VenueLoaded(ev) && WellFormed(desc)
    modifies doc
    ensures doc.Valid() && doc.State() == EventWritten(old(doc.State()), s, ev, range, desc)
  {
    ghost var d0 := doc.State();
    EventEditsContiguous(s, ev, range, desc);
    ghost var starts := EventLaid(s, ev, range, desc);
    RunPrefixEnds(d0, EventEdits(s, ev, range, desc), s);
    WriteBlock(doc, d0, EventEdits(s, ev, range, desc), s, ev, range, desc, starts);
  }

  /**
   * One event of a card's list written at `s`: its people and its venue's location must be
   * loaded and its description must parse, or the pass stops.
   */
  method WriteListed(doc: Document, s: nat, ev: Event, tz: string, format: RangeFormat,
                     parse: string -> Option<Snapshot>) returns (r: Result<(), Failure>)
    requires doc.Valid() && s <= |doc.content|
    modifies doc
    ensures r.Ok? ==> doc.Valid()
    ensures Mirrors(r, EventBlock(old(doc.State()), s, ev, tz, format, parse), doc.State())
  {
    if !PeopleLoaded(ev.bylines) {
      return Err(MissingPerson);
    }
    if !VenueLoaded(ev) {
      return Err(MissingLocation);
    }
    var desc := Embedded(ev.description, parse);
    if desc.Err? {
      return Err(desc.error);
    }
    WriteEvent(doc, s, ev, format(ev.startsAt, ev.endsAt, tz), desc.value);
    return Ok(());
  }

  /** The `i`th listed event written after the ones before it, or the failure that stops the list. */
  method WriteNext(doc: Document, ghost d0: Draft, s: nat, listed: seq<Event>, i: nat, tz: string, format: RangeFormat,
                   parse: string -> Option<Snapshot>) returns (r: Result<(), Failure>)
    requires Fits(d0) && s <= |d0.content| && i < |listed|
    requires doc.Valid() && EventsWritten(d0, s, listed[..i], tz, format, parse) == Ok(doc.State())
    modifies doc
    ensures r.Ok? ==> doc.Valid() && EventsWritten(d0, s, listed[..i + 1], tz, format, parse) == Ok(doc.State())
    ensures r.Err? ==> EventsWritten(d0, s, listed, tz, format, parse) == Err(r.error)
  {
    EventsWrittenNext(d0, s, listed, i, tz, format, parse, doc.State());
    r := WriteListed(doc, s, listed[i], tz, format, parse);
    if r.Err? {
      EventsWrittenStops(d0, s, listed, i + 1, tz, format, parse);
    }
  }

  /** `events.forEach(...)`: every listed event written at `s` in turn; the first failure stops it. */
  method WriteListing(doc: Document, s: nat, listed: seq<Event>, tz: string, format: RangeFormat,
                      parse: string -> Option<Snapshot>) returns (r: Result<(), Failure>)
    requires doc.Valid() && s <= |doc.content|
    modifies doc
    ensures r.Ok? ==> doc.Valid()
    ensures Mirrors(r, EventsWritten(old(doc.State()), s, listed, tz, format, parse), doc.State())
  {
    ghost var d0 := doc.State();
    EventsWrittenEnds(d0, s, listed, tz, format, parse);
    r := Ok(());
    var i := 0;
    while i < |listed| && r.Ok?
      invariant i <= |listed|
      invariant r.Ok? ==> doc.Valid() && EventsWritten(d0, s, listed[..i], tz, format, parse) == Ok(doc.State())
      invariant r.Err? ==> EventsWritten(d0, s, listed, tz, format, parse) == Err(r.error)
    {
      r := WriteNext(doc, d0, s, listed, i, tz, format, parse);
      i := i + 1;
    }
  }

  /** `replaceAnnotation(card, new Schedule({start, end: start + 1, ...}))`. */
  method PlaceSchedule(doc: Document, k: nat, entries: seq<ScheduleEntry>)
    requires doc.Valid() && k < |doc.annotations| && doc.annotations[k].start + 1 <= |doc.content|
    modifies doc
    ensures doc.Valid() && doc.State() == Scheduled(old(doc.State()), k, entries)
  {
    var card := doc.annotations[k];
    doc.ReplaceAt(k, card.start, card.start + 1, Schedule(entries));
  }

  /**
   * One itinerary card: its schedule entries built (a venue without its location stops it),
   * then the card laid out.
   */
  method ExpandItinerary(doc: Document, k: nat, tz: string, events: seq<Event>, format: RangeFormat,
                         parse: string -> Option<Snapshot>) returns (r: Result<(), Failure>)
    requires doc.Valid() && k < |doc.annotations| && doc.annotations[k].body.ItineraryCard?
    modifies doc
    ensures r.Ok? ==> doc.Valid()
    ensures Mirrors(r, ItineraryExpanded(old(doc.State()), k, tz, events, format, parse), doc.State())
  {
    var listed := Listed(doc.annotations[k].body, events);
    var built := Entries(Found(listed), tz);
    if built.Err? {
      return Err(built.error);
    }
    r := LayOut(doc, k, tz, events, format, parse, listed, built.value);
  }

  /**
   * The card at `k` with its entries built: a newline after the card, the card replaced by the
   * schedule over its first character (a card that covers no character at the very end leaves
   * no room), then the listed events written just after that character.
   */
  method LayOut(doc: Document, k: nat, tz: string, events: seq<Event>, format: RangeFormat,
                parse: string -> Option<Snapshot>, listed: seq<Event>, entries: seq<ScheduleEntry>)
    returns (r: Result<(), Failure>)
    requires doc.Valid() && k < |doc.annotations| && doc.annotations[k].body.ItineraryCard?
    requires listed == Listed(doc.annotations[k].body, events) && Entries(Found(listed), tz) == Ok(entries)
    modifies doc
    ensures r.Ok? ==> doc.Valid()
    ensures Mirrors(r, ItineraryExpanded(old(doc.State()), k, tz, events, format, parse), doc.State())
  {
    ghost var d0 := doc.State();
    doc.InsertText(doc.annotations[k].end, "\n", Default);
    var s := doc.annotations[k].start + 1;
    LinedCases(d0, k, tz, events, format, parse, listed, entries, doc.State(), s);
    if s > |doc.content| {
      return Err(RangeError);
    }
    r := ScheduleListing(doc, k, entries, s, listed, tz, format, parse, Scheduled(doc.State(), k, entries));
  }

  /** The schedule put in place of the card at `k`, then the listed events written at `s`. */
  method ScheduleListing(doc: Document, k: nat, entries: seq<ScheduleEntry>, s: nat, listed: seq<Event>, tz: string,
                         format: RangeFormat, parse: string -> Option<Snapshot>, ghost sched: Draft)
    returns (r: Result<(), Failure>)
    requires doc.Valid() && k < |doc.annotations| && s == doc.annotations[k].start + 1 <= |doc.content|
    requires sched == Scheduled(doc.State(), k, entries)
    modifies doc
    ensures r.Ok? ==> doc.Valid()
    ensures Mirrors(r, EventsWritten(sched, s, listed, tz, format, parse), doc.State())
  {
    PlaceSchedule(doc, k, entries);
    r := WriteListing(doc, s, listed, tz, format, parse);
  }

  /** The annotation at `k` expanded if it is an itinerary card, after the ones before it. */
  method ExpandNext(doc: Document, ghost d0: Draft, k: nat, tz: string, events: seq<Event>, format: RangeFormat,
                    parse: string -> Option<Snapshot>) returns (r: Result<(), Failure>)
    requires Fits(d0) && k < |d0.annotations| && doc.Valid()
    requires ItinerariesUpTo(d0, k, tz, events, format, parse) == Ok(doc.State())
    modifies doc
    ensures r.Ok? ==> doc.Valid() && ItinerariesUpTo(d0, k + 1, tz, events, format, parse) == Ok(doc.State())
    ensures r.Err? ==> ItinerariesExpanded(d0, tz, events, format, parse) == Err(r.error)
  {
    UpToSnoc(d0, k + 1, tz, events, format, parse, doc.State());
    r := Ok(());
    if doc.annotations[k].body.ItineraryCard? {
      r := ExpandItinerary(doc, k, tz, events, format, parse);
      if r.Err? {
        ItinerariesUpToStops(d0, k + 1, |d0.annotations|, tz, events, format, parse);
      }
    }
  }

  /**
   * `doc.where({type: "-mobiledoc-itinerary-card"}).update(...)`: every itinerary card of the
   * document as it stood, in order, expanded; the first failure stops the pass. Expanding a card
   * only appends annotations and replaces the card in its place, so visiting the indices the
   * document had at the start visits exactly the cards the query selected.
   */
  method HydrateItineraries(doc: Document, tz: string, events: seq<Event>, format: RangeFormat,
                            parse: string -> Option<Snapshot>) returns (r: Result<(), Failure>)
    requires doc.Valid()
    modifies doc
    ensures r.Ok? ==> doc.Valid()
    ensures Mirrors(r, ItinerariesExpanded(old(doc.State()), tz, events, format, parse), doc.State())
  {
    ghost var d0 := doc.State();
    var n := |doc.annotations|;
    r := Ok(());
    var k := 0;
    while k < n && r.Ok?
      invariant k <= n == |d0.annotations|
      invariant r.Ok? ==> doc.Valid() && ItinerariesUpTo(d0, k, tz, events, format, parse) == Ok(doc.State())
      invariant r.Err? ==> ItinerariesExpanded(d0, tz, events, format, parse) == Err(r.error)
    {
      r := ExpandNext(doc, d0, k, tz, events, format, parse);
      k := k + 1;
    }
  }
}
