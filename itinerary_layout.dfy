/**
 * Where an event's block lands. The pass writes every block at one fixed offset `s`, just after
 * the schedule character, moving its cursor only by what it writes there; the cards it asks for
 * go after every existing person card or at the very end. So as long as no person card sits
 * before the end of the text that follows the cursor, those tail insertions never reach the
 * cursor, and the text reads: what came before `s`, the block, what came after.
 */
module ItineraryLayout {
  import opened Wrappers
  import opened Js
  import opened Entities
  import opened EventModel
  import opened Annotations
  import opened Documents
  import opened Itineraries
  import opened ItineraryCards

  /** `c` starts with `w`. */
  predicate Begins(c: string, w: string) {
    |w| <= |c| && c[..|w|] == w
  }

  /** Insertion at `q` leaves every boundary at least where it was. */
  lemma InsertedNoEarlier(anns: seq<Annotation>, q: nat, n: nat, b: Behaviour, bound: nat)
    requires PersonCardsFrom(anns, bound)
    ensures PersonCardsFrom(InsertedAll(anns, q, n, b), bound)
  {
    var r := InsertedAll(anns, q, n, b);
    forall a | a in r && a.body.PersonCard? ensures a.start >= bound {
      var i :| 0 <= i < |r| && r[i] == a;
      assert anns[i] in anns;
    }
  }

  /** Annotations none of which is a card keep the person cards where they are. */
  lemma AddedNoPersonCard(anns: seq<Annotation>, drafts: seq<Annotation>, base: nat, bound: nat)
    requires PersonCardsFrom(anns, bound) && CardFree(drafts)
    ensures PersonCardsFrom(anns + Stamp(drafts, base), bound)
  {
    var stamped := Stamp(drafts, base);
    forall i | 0 <= i < |stamped| ensures !stamped[i].body.PersonCard? {
      assert drafts[i] in drafts;
    }
  }

  /** Text inserted at the cursor goes between what came before and what follows. */
  lemma WriteLayout(d: Draft, text: string, pre: string, post: string)
    requires Fits(d) && Begins(d.content, pre + post) && PersonCardsFrom(d.annotations, |pre| + |post|)
    ensures var r := WithText(d, |pre|, text, Default);
      Begins(r.content, pre + text + post) && PersonCardsFrom(r.annotations, |pre| + |text| + |post|)
  {
    var c := d.content;
    var r := WithText(d, |pre|, text, Default);
    assert c[..|pre|] == (pre + post)[..|pre|] == pre;
    assert c[|pre|..][..|post|] == c[..|pre| + |post|][|pre|..] == post;
    assert r.content == pre + text + c[|pre|..];
    assert r.content[..|pre| + |text| + |post|] == pre + text + post;
    forall a | a in r.annotations && a.body.PersonCard? ensures a.start >= |pre| + |text| + |post| {
      var i :| 0 <= i < |r.annotations| && r.annotations[i] == a;
      assert d.annotations[i] in d.annotations;
      InsertPosMoves(d.annotations[i].start, |pre|, |text|, Default);
    }
  }

  /** Text inserted at or after `|w|` leaves the first `|w|` characters alone. */
  lemma TailLayout(d: Draft, q: nat, text: string, b: Behaviour, w: string)
    requires Fits(d) && Begins(d.content, w) && |w| <= q <= |d.content|
    ensures Begins(WithText(d, q, text, b).content, w)
  {
    var c := d.content;
    assert (c[..q] + text + c[q..])[..|w|] == c[..q][..|w|] == c[..|w|];
  }

  /** A person-card check leaves the text up to the bound alone and adds its card after it. */
  lemma PersonCheckLayout(d: Draft, person: Person, w: string)
    requires Fits(d) && Begins(d.content, w) && PersonCardsFrom(d.annotations, |w|)
    ensures var r := PersonCarded(d, person);
      Begins(r.content, w) && PersonCardsFrom(r.annotations, |w|)
  {
    if CardsPerson(d.annotations, person) {
      var slot := PersonCardSlot(d.annotations, |d.content|);
      TailLayout(d, slot.0, "\U{FFFC}\n", slot.1, w);
      InsertedNoEarlier(d.annotations, slot.0, 2, slot.1, |w|);
      var moved := WithText(d, slot.0, "\U{FFFC}\n", slot.1);
      var card := Annotation(0, slot.0, slot.0 + 1, PersonCard(PersonKey(person)));
      assert Stamp([card], moved.nextId) == [card.(id := moved.nextId)];
    }
  }

  /** A location-card check writes only at the very end and adds no person card. */
  lemma LocationCheckLayout(d: Draft, loc: Location, w: string)
    requires Fits(d) && Begins(d.content, w) && PersonCardsFrom(d.annotations, |w|)
    ensures var r := LocationCarded(d, loc);
      Begins(r.content, w) && PersonCardsFrom(r.annotations, |w|)
  {
    if LocationCount(d.annotations, loc.id) == 0 {
      var at := |d.content|;
      TailLayout(d, at, "\U{FFFC}\n", Preserve, w);
      InsertedNoEarlier(d.annotations, at, 2, Preserve, |w|);
      var moved := WithText(d, at, "\U{FFFC}\n", Preserve);
      var card := Annotation(0, at, at + 1, LocationCard(Str(IntToString(loc.id)), None));
      assert Stamp([card], moved.nextId) == [card.(id := moved.nextId)];
    }
  }

  /** One edit of a block that follows the cursor: the text goes in between, cards stay behind. */
  lemma AppliedLayout(d: Draft, e: Edit, pre: string, post: string)
    requires Fits(d) && Lands(d, e) && Follows(e, |pre|) && (e.Mark? ==> CardFree(e.drafts))
    requires Begins(d.content, pre + post) && PersonCardsFrom(d.annotations, |pre| + |post|)
    ensures var r := Applied(d, e);
      Begins(r.content, pre + Written(e) + post) && PersonCardsFrom(r.annotations, |pre| + |Written(e)| + |post|)
  {
    if e.Write? {
      WriteLayout(d, e.text, pre, post);
    } else {
      assert pre + Written(e) + post == pre + post;
      match e
      case Mark(drafts) => AddedNoPersonCard(d.annotations, drafts, d.nextId, |pre| + |post|);
      case PersonCheck(person) => PersonCheckLayout(d, person, pre + post);
      case LocationCheck(loc) => LocationCheckLayout(d, loc, pre + post);
    }
  }

  /** One more edit after `done` was written: the chain step of `RunLayout`. */
  lemma LayoutStep(mid: Draft, r: Draft, e: Edit, pre: string, done: string, all: string, post: string)
    requires Fits(mid) && Lands(mid, e) && Follows(e, |pre + done|) && (e.Mark? ==> CardFree(e.drafts))
    requires Begins(mid.content, pre + done + post) && PersonCardsFrom(mid.annotations, |pre| + |done| + |post|)
    requires r == Applied(mid, e) && all == done + Written(e)
    ensures Begins(r.content, pre + all + post) && PersonCardsFrom(r.annotations, |pre| + |all| + |post|)
  {
    AppliedLayout(mid, e, pre + done, post);
    assert pre + done + Written(e) + post == pre + all + post;
  }

  /**
   * Edits that write contiguously from the cursor put their text between what came before it
   * and what follows, however many cards they append on the way.
   */
  lemma {:induction false} RunLayout(d: Draft, edits: seq<Edit>, pre: string, post: string)
    requires Fits(d) && |pre| <= |d.content| && Contiguous(edits, |pre|) && MarksCardFree(edits)
    requires Begins(d.content, pre + post) && PersonCardsFrom(d.annotations, |pre| + |post|)
    ensures var r := Run(d, edits, |pre|);
      Begins(r.content, pre + Spelled(edits) + post) &&
      PersonCardsFrom(r.annotations, |pre| + |Spelled(edits)| + |post|)
    decreases |edits|
  {
    if edits == [] {
      assert pre + Spelled(edits) + post == pre + post;
    } else {
      var prefix, e := edits[..|edits| - 1], edits[|edits| - 1];
      assert edits == prefix + [e];
      ContiguousSplit(edits, |pre|, prefix, e);
      KeysOfSnoc(edits, prefix, e);
      RunSnoc(d, prefix, |pre|, e);
      RunLayout(d, prefix, pre, post);
      LayoutStep(Run(d, prefix, |pre|), Run(d, edits, |pre|), e, pre, Spelled(prefix), Spelled(edits), post);
    }
  }

  /**
   * Writing one event at `s` puts its block's text at `s`: the text reads what came before `s`,
   * the block, then at least what came after `s` up to `p`, provided no person card starts
   * before `p`; and the person cards keep clear of the text written.
   */
  lemma EventWrittenLayout(d: Draft, s: nat, p: nat, ev: Event, range: string, desc: Snapshot)
    requires Fits(d) && s <= p <= |d.content| && PersonCardsFrom(d.annotations, p)
    requires PeopleLoaded(ev.bylines) && VenueLoaded(ev) && WellFormed(desc) && CardFree(desc.annotations)
    ensures var r := EventWritten(d, s, ev, range, desc);
      var text := BlockText(ev, range, desc.content);
      Begins(r.content, d.content[..s] + text + d.content[s..p]) &&
      PersonCardsFrom(r.annotations, p + |text|)
  {
    var pre, post := d.content[..s], d.content[s..p];
    assert d.content[..p] == pre + post;
    EventEditsContiguous(s, ev, range, desc);
    EventEditsKeys(s, ev, range, desc);
    RunLayout(d, EventEdits(s, ev, range, desc), pre, post);
  }

  /**
   * The last annotations writing one event adds are its block's marks, numbered in order from
   * the counter: nothing it does after them moves them.
   */
  lemma EventWrittenMarks(d: Draft, s: nat, ev: Event, range: string, desc: Snapshot)
    requires Fits(d) && s <= |d.content| && PeopleLoaded(ev.bylines) && VenueLoaded(ev) && WellFormed(desc)
    ensures var r := EventWritten(d, s, ev, range, desc);
      var marks := BlockMarks(s, ev, range, desc.content);
      |marks| <= |r.annotations| && |marks| <= r.nextId &&
      r.annotations[|r.annotations| - |marks|..] == Stamp(marks, r.nextId - |marks|)
  {
    var marks := BlockMarks(s, ev, range, desc.content);
    var prefix := HeadEdits(s, ev, range) + RoleEdits(ev.bylines, Roles(ev.bylines), LinesAt(s, ev, range)) +
                  VenueEdits(ev, VenueAt(s, ev, range)) + DescriptionEdits(DescriptionAt(s, ev, range), desc);
    UpToDescriptionContiguous(s, ev, range, desc);
    BlockMarksWithin(s, ev, range, desc.content);
    assert EventEdits(s, ev, range, desc) == prefix + [Mark(marks)];
    RunSnoc(d, prefix, s, Mark(marks));
    var mid := Run(d, prefix, s);
    var r := WithAdded(mid, marks);
    assert r.annotations == mid.annotations + Stamp(marks, mid.nextId);
    assert r.annotations[|r.annotations| - |marks|..] == Stamp(marks, mid.nextId);
  }
}
