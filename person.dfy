/**
 * The person-card pass: each person card of the post becomes the person's name line (unless it
 * repeats the post's title) and biography, written where the card's object character stood, and
 * the card itself becomes a `-qtc-person` annotation spanning them.
 */
module PersonPass {
  import opened Wrappers
  import opened Js
  import opened Collections
  import opened Entities
  import opened Posts
  import opened Annotations
  import opened Documents

  /** `card.attributes.personId == person.id`. */
  function PersonNamed(personId: Scalar): Person -> bool {
    (p: Person) => LooseEquals(personId, p.id)
  }

  /** The line naming the person, left out when it would repeat the post's title. */
  function NameLine(name: string, title: string): string {
    if name != title then name + "\n" else ""
  }

  /** Where the biography goes: past the object character at `s` and past the name line, if any. */
  function NameEnd(s: nat, name: string, title: string): (r: nat)
    ensures r == s + 1 + |NameLine(name, title)|
  {
    if name != title then s + 1 + |name| + 1 else s + 1
  }

  /** The name line written at `at`, with a sticky level-3 heading over the name. */
  function Named(d: Draft, at: nat, name: string, title: string): (r: Draft)
    requires Fits(d) && at <= |d.content|
    ensures Fits(r) && |r.content| == |d.content| + |NameLine(name, title)|
    ensures |r.annotations| >= |d.annotations|
  {
    if name == title then d
    else WithAdded(WithText(d, at, name + "\n", Default), [Annotation(0, at, at + |name|, Heading(3, true))])
  }

  /** The biography's text written at `at`, its annotations moved there and added in order. */
  function Biography(d: Draft, at: nat, bio: Snapshot): (r: Draft)
    requires Fits(d) && at <= |d.content| && WellFormed(bio)
    ensures Fits(r) && |r.content| == |d.content| + |bio.content|
    ensures |r.annotations| >= |d.annotations|
  {
    var written := WithText(d, at, bio.content, Default);
    RebasedWithin(bio.annotations, |bio.content|, at, |written.content|);
    WithAdded(written, Rebased(bio.annotations, at, 0))
  }

  /** The card's object character at `s` deleted, and the card renamed to a `-qtc-person`. */
  function Closed(d: Draft, k: nat, s: nat, id: Scalar): (r: Draft)
    requires Fits(d) && k < |d.annotations| && s + 1 <= |d.content|
    ensures Fits(r) && |r.annotations| == |d.annotations| && r.nextId == d.nextId
  {
    var cut := WithDeleted(d, s, s + 1);
    WithReplaced(cut, k, cut.annotations[k].start, cut.annotations[k].end, QtcPerson(id))
  }

  /**
   * The callback on the person card at `k`: a newline after the card, the card cut down to its
   * first character, then the rest written there. A card naming no person of the post stops
   * the pass, as does a card that covers no character.
   */
  function PersonExpanded(d: Draft, k: nat, post: Post, parse: string -> Option<Snapshot>): (r: Result<Draft, Failure>)
    requires Fits(d) && k < |d.annotations| && d.annotations[k].body.PersonCard?
    ensures r.Ok? ==> Fits(r.value) && |r.value.annotations| >= |d.annotations|
  {
    var id := d.annotations[k].body.personId;
    match Find(post.people, PersonNamed(id))
    case None => Err(MissingPerson)
    case Some(person) => Opened(WithText(d, d.annotations[k].end, "\n", Default), k, id, person, post.title, parse)
  }

  /**
   * With the newline after the card at `k` written: the card cut down to its first character,
   * then the rest written after it; a card that covers no character stops the pass.
   */
  function Opened(d: Draft, k: nat, id: Scalar, person: Person, title: string,
                  parse: string -> Option<Snapshot>): (r: Result<Draft, Failure>)
    requires Fits(d) && k < |d.annotations|
    ensures r.Ok? ==> Fits(r.value) && |r.value.annotations| >= |d.annotations|
    ensures r.Err? ==> r.error == RangeError || r.error == Malformed
  {
    var s := d.annotations[k].start;
    if s + 1 > |d.content| then Err(RangeError)
    else PersonWritten(WithReplaced(d, k, s, s + 1, d.annotations[k].body), k, s, id, person, title, parse)
  }

  /**
   * With the card at `k` cut down to its object character at `s`: the name line and the
   * biography written after that character, then the character removed. A biography that does
   * not parse stops the pass.
   */
  function PersonWritten(d: Draft, k: nat, s: nat, id: Scalar, person: Person, title: string,
                         parse: string -> Option<Snapshot>): (r: Result<Draft, Failure>)
    requires Fits(d) && k < |d.annotations| && s + 1 <= |d.content|
    ensures r.Ok? ==> Fits(r.value) && |r.value.annotations| >= |d.annotations|
    ensures r.Err? ==> r.error == Malformed
  {
    var named := Named(d, s + 1, person.name, title);
    Finished(named, k, s, NameEnd(s, person.name, title), id, person.biography, parse)
  }

  /** The biography, if the person has one, written at `at`; then the object character at `s` removed. */
  function Finished(d: Draft, k: nat, s: nat, at: nat, id: Scalar, biography: Option<string>,
                    parse: string -> Option<Snapshot>): (r: Result<Draft, Failure>)
    requires Fits(d) && k < |d.annotations| && s + 1 <= at <= |d.content|
    ensures r.Ok? ==> Fits(r.value) && |r.value.annotations| >= |d.annotations|
    ensures r.Err? ==> r.error == Malformed
  {
    if !Truthy(biography) then Ok(Closed(d, k, s, id))
    else
      match Embedded(biography, parse)
      case Err(e) => Err(e)
      case Ok(bio) => Ok(Closed(Biography(d, at, bio), k, s, id))
  }

  /** `people.find(...)` comes back empty exactly when no person has the card's id. */
  lemma PersonFound(people: seq<Person>, id: Scalar)
    ensures Find(people, PersonNamed(id)).None? <==> forall p | p in people :: !LooseEquals(id, p.id)
    ensures Find(people, PersonNamed(id)).Some? ==> LooseEquals(id, Find(people, PersonNamed(id)).value.id)
  {
    var found := Find(people, PersonNamed(id));
    if found.None? {
      forall p | p in people ensures !LooseEquals(id, p.id) {
        var j :| 0 <= j < |people| && people[j] == p;
        assert !PersonNamed(id)(people[j]);
      }
    } else {
      assert PersonNamed(id)(found.value);
    }
  }

  /** A card that covers its object character always has room to be cut down to it. */
  lemma OpenedRoom(d: Draft, k: nat)
    requires Fits(d) && k < |d.annotations| && d.annotations[k].start < d.annotations[k].end
    ensures var lined := WithText(d, d.annotations[k].end, "\n", Default);
      lined.annotations[k].start == d.annotations[k].start && lined.annotations[k].start + 1 <= |lined.content|
  {
  }

  /**
   * The card fails with `MissingPerson` exactly when no person of the post has its id. A card
   * that covers its character and names a person fails only when that person's biography is
   * present but does not parse, and then with `Malformed`.
   */
  lemma PersonExpandedFails(d: Draft, k: nat, post: Post, parse: string -> Option<Snapshot>)
    requires Fits(d) && k < |d.annotations| && d.annotations[k].body.PersonCard?
    ensures var r := PersonExpanded(d, k, post, parse);
      var id := d.annotations[k].body.personId;
      && ((forall p | p in post.people :: !LooseEquals(id, p.id)) <==> r == Err(MissingPerson))
      && (d.annotations[k].start < d.annotations[k].end && Find(post.people, PersonNamed(id)).Some? ==>
            var bio := Find(post.people, PersonNamed(id)).value.biography;
            && (r.Ok? <==> !Truthy(bio) || (parse(bio.value).Some? && WellFormed(parse(bio.value).value)))
            && (r.Err? ==> r.error == Malformed))
  {
    var id := d.annotations[k].body.personId;
    PersonFound(post.people, id);
    if Find(post.people, PersonNamed(id)).Some? && d.annotations[k].start < d.annotations[k].end {
      var person, s, named := PersonExpandedStages(d, k, post, parse);
    }
  }

  /**
   * A card that expands names a person of the post, and what it becomes is what `Finished` makes
   * of the state with the newline written, the card cut down to its first character and the name
   * line written.
   */
  lemma PersonExpandedStages(d: Draft, k: nat, post: Post, parse: string -> Option<Snapshot>)
    returns (person: Person, s: nat, named: Draft)
    requires Fits(d) && k < |d.annotations| && d.annotations[k].body.PersonCard?
    requires || PersonExpanded(d, k, post, parse).Ok?
             || (Find(post.people, PersonNamed(d.annotations[k].body.personId)).Some? && d.annotations[k].start < d.annotations[k].end)
    ensures Find(post.people, PersonNamed(d.annotations[k].body.personId)) == Some(person)
    ensures var lined := WithText(d, d.annotations[k].end, "\n", Default);
      && s == lined.annotations[k].start && s + 1 <= |lined.content|
      && named == Named(WithReplaced(lined, k, s, s + 1, lined.annotations[k].body), s + 1, person.name, post.title)
    ensures s + 1 <= NameEnd(s, person.name, post.title) <= |named.content| && k < |named.annotations|
    ensures PersonExpanded(d, k, post, parse) ==
      Finished(named, k, s, NameEnd(s, person.name, post.title), d.annotations[k].body.personId, person.biography, parse)
  {
    var id := d.annotations[k].body.personId;
    person := Find(post.people, PersonNamed(id)).value;
    var lined := WithText(d, d.annotations[k].end, "\n", Default);
    assert PersonExpanded(d, k, post, parse) == Opened(lined, k, id, person, post.title, parse);
    s := lined.annotations[k].start;
    var cut := WithReplaced(lined, k, s, s + 1, lined.annotations[k].body);
    assert Opened(lined, k, id, person, post.title, parse) == PersonWritten(cut, k, s, id, person, post.title, parse);
    named := Named(cut, s + 1, person.name, post.title);
  }

  /** The name line at `at`, as the pass writes it. */
  method WriteName(doc: Document, at: nat, name: string, title: string)
    requires doc.Valid() && at <= |doc.content|
    modifies doc
    ensures doc.Valid() && doc.State() == Named(old(doc.State()), at, name, title)
  {
    if name != title {
      doc.InsertText(at, name + "\n", Default);
      doc.AddAnnotations([Annotation(0, at, at + |name|, Heading(3, true))]);
    }
  }

  /** A biography at `at`, as the pass writes it: its text, then its annotations moved there. */
  method WriteBiography(doc: Document, at: nat, bio: Snapshot)
    requires doc.Valid() && at <= |doc.content| && WellFormed(bio)
    modifies doc
    ensures doc.Valid() && doc.State() == Biography(old(doc.State()), at, bio)
  {
    doc.InsertText(at, bio.content, Default);
    RebasedWithin(bio.annotations, |bio.content|, at, |doc.content|);
    doc.AddAnnotations(Rebased(bio.annotations, at, 0));
  }

  /** The object character at `s` deleted and the card at `k` renamed. */
  method CloseCard(doc: Document, k: nat, s: nat, id: Scalar)
    requires doc.Valid() && k < |doc.annotations| && s + 1 <= |doc.content|
    modifies doc
    ensures doc.Valid() && doc.State() == Closed(old(doc.State()), k, s, id)
  {
    doc.DeleteText(s, s + 1);
    doc.ReplaceAt(k, doc.annotations[k].start, doc.annotations[k].end, QtcPerson(id));
  }

  /** The biography, if any, at `at`, then the object character at `s` removed. */
  method Finish(doc: Document, k: nat, s: nat, at: nat, id: Scalar, biography: Option<string>,
                parse: string -> Option<Snapshot>) returns (r: Result<(), Failure>)
    requires doc.Valid() && k < |doc.annotations| && s + 1 <= at <= |doc.content|
    modifies doc
    ensures r.Ok? ==> doc.Valid()
    ensures Mirrors(r, Finished(old(doc.State()), k, s, at, id, biography, parse), doc.State())
  {
    if Truthy(biography) {
      var bio := Embedded(biography, parse);
      if bio.Err? {
        return Err(bio.error);
      }
      WriteBiography(doc, at, bio.value);
    }
    CloseCard(doc, k, s, id);
    r := Ok(());
  }

  /** Everything after the card was cut down to its object character at `s`. */
  method WritePerson(doc: Document, k: nat, s: nat, id: Scalar, person: Person, title: string,
                     parse: string -> Option<Snapshot>) returns (r: Result<(), Failure>)
    requires doc.Valid() && k < |doc.annotations| && s + 1 <= |doc.content|
    modifies doc
    ensures r.Ok? ==> doc.Valid()
    ensures Mirrors(r, PersonWritten(old(doc.State()), k, s, id, person, title, parse), doc.State())
  {
    ghost var named := Named(doc.State(), s + 1, person.name, title);
    WriteName(doc, s + 1, person.name, title);
    assert doc.State() == named;
    r := Finish(doc, k, s, NameEnd(s, person.name, title), id, person.biography, parse);
  }

  /** The card at `k` cut down to its first character, then the rest written after it. */
  method OpenCard(doc: Document, k: nat, id: Scalar, person: Person, title: string,
                  parse: string -> Option<Snapshot>) returns (r: Result<(), Failure>)
    requires doc.Valid() && k < |doc.annotations|
    modifies doc
    ensures r.Ok? ==> doc.Valid()
    ensures Mirrors(r, Opened(old(doc.State()), k, id, person, title, parse), doc.State())
  {
    ghost var d := doc.State();
    var s := doc.annotations[k].start;
    if s + 1 > |doc.content| {
      assert Opened(d, k, id, person, title, parse) == Err(RangeError);
      return Err(RangeError);
    }
    ghost var cut := WithReplaced(d, k, s, s + 1, doc.annotations[k].body);
    assert Opened(d, k, id, person, title, parse) == PersonWritten(cut, k, s, id, person, title, parse);
    doc.ReplaceAt(k, s, s + 1, doc.annotations[k].body);
    assert doc.State() == cut;
    r := WritePerson(doc, k, s, id, person, title, parse);
  }

  /** The person card at `k`, as the pass writes it. */
  method ExpandPerson(doc: Document, k: nat, post: Post, parse: string -> Option<Snapshot>) returns (r: Result<(), Failure>)
    requires doc.Valid() && k < |doc.annotations| && doc.annotations[k].body.PersonCard?
    modifies doc
    ensures r.Ok? ==> doc.Valid()
    ensures Mirrors(r, PersonExpanded(old(doc.State()), k, post, parse), doc.State())
  {
    var id := doc.annotations[k].body.personId;
    var found := Find(post.people, PersonNamed(id));
    if found.None? {
      return Err(MissingPerson);
    }
    doc.InsertText(doc.annotations[k].end, "\n", Default);
    r := OpenCard(doc, k, id, found.value, post.title, parse);
  }
}
