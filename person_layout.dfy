/**
 * Where a person card's expansion puts things. For a card [s, e) covering its object character
 * at s, the text reads: what came before the card, the name line, the biography, the rest of the
 * card's text, a newline, and what came after the card. The card becomes a `-qtc-person` over
 * the name line and the biography; annotations wholly before the card stay, those wholly after
 * it move by what was written, and both keep covering the same text.
 */
module PersonLayout {
  import opened Wrappers
  import opened Js
  import opened Collections
  import opened Entities
  import opened Posts
  import opened Annotations
  import opened Documents
  import opened PersonPass

  /** `anns[i]` is `x`. */
  predicate At(anns: seq<Annotation>, i: nat, x: Annotation) {
    i < |anns| && anns[i] == x
  }

  /** Without a biography the pass writes nothing for it: the same as writing an empty one. */
  lemma BiographyEmpty(d: Draft, at: nat)
    requires Fits(d) && at <= |d.content|
    ensures Biography(d, at, Snapshot("", [])) == d
  {
    var w := WithText(d, at, "", Default);
    assert w.content == d.content;
    assert w.annotations == d.annotations;
    assert Rebased([], at, 0) == [];
    assert Stamp([], d.nextId) == [];
    assert d.annotations + [] == d.annotations;
  }

  /** The biography a person contributes: the parsed one, or nothing when there is none. */
  function BioOf(person: Person, parse: string -> Option<Snapshot>): Result<Snapshot, Failure> {
    Embedded(person.biography, parse)
  }

  /**
   * The expansion of a card at `k` that covers its object character, stage by stage: the
   * newline after the card, the card cut down to its character, the name line, the biography,
   * the character removed.
   */
  function Laid(d: Draft, k: nat, name: string, title: string, bio: Snapshot): Draft
    requires Fits(d) && k < |d.annotations| && d.annotations[k].body.PersonCard?
    requires d.annotations[k].start < d.annotations[k].end && WellFormed(bio)
  {
    var s := d.annotations[k].start;
    OpenedRoom(d, k);
    var lined := WithText(d, d.annotations[k].end, "\n", Default);
    var named := Named(WithReplaced(lined, k, s, s + 1, lined.annotations[k].body), s + 1, name, title);
    Closed(Biography(named, NameEnd(s, name, title), bio), k, s, d.annotations[k].body.personId)
  }

  /**
   * A successful expansion of the person card at `k`, which covers its object character: the
   * person it names, the biography that person contributes (empty when there is none), and the
   * resulting state.
   */
  ghost predicate Expands(d: Draft, k: nat, post: Post, parse: string -> Option<Snapshot>, person: Person, bio: Snapshot, r: Draft) {
    Chosen(d, k, post, parse, person, bio) && r == Laid(d, k, person.name, post.title, bio)
  }

  /** The card at `k` covers its object character, names `person`, and `bio` is what that person contributes. */
  ghost predicate Chosen(d: Draft, k: nat, post: Post, parse: string -> Option<Snapshot>, person: Person, bio: Snapshot) {
    && Fits(d) && k < |d.annotations| && d.annotations[k].body.PersonCard?
    && d.annotations[k].start < d.annotations[k].end
    && Find(post.people, PersonNamed(d.annotations[k].body.personId)) == Some(person)
    && BioOf(person, parse) == Ok(bio) && WellFormed(bio)
  }

  /** Every successful expansion of a card that covers its character is one `Expands` describes. */
  lemma PersonParts(d: Draft, k: nat, post: Post, parse: string -> Option<Snapshot>) returns (person: Person, bio: Snapshot, r: Draft)
    requires Fits(d) && k < |d.annotations| && d.annotations[k].body.PersonCard?
    requires d.annotations[k].start < d.annotations[k].end && PersonExpanded(d, k, post, parse).Ok?
    ensures Expands(d, k, post, parse, person, bio, r) && PersonExpanded(d, k, post, parse) == Ok(r)
  {
    var s, named;
    person, s, named := PersonExpandedStages(d, k, post, parse);
    OpenedRoom(d, k);
    bio := BioOf(person, parse).value;
    r := PersonExpanded(d, k, post, parse).value;
    if !Truthy(person.biography) {
      BiographyEmpty(named, NameEnd(s, person.name, post.title));
    }
  }

  /**
   * The stages of the expansion: the newline written, the card cut down, the name line written,
   * the biography written (nothing, when there is none), the character removed.
   */
  lemma PersonStages(d: Draft, k: nat, post: Post, parse: string -> Option<Snapshot>, person: Person, bio: Snapshot, r: Draft)
    returns (lined: Draft, named: Draft, biod: Draft)
    requires Expands(d, k, post, parse, person, bio, r)
    ensures WellFormed(bio)
    ensures lined == WithText(d, d.annotations[k].end, "\n", Default)
    ensures lined.annotations[k].start == d.annotations[k].start && d.annotations[k].start + 1 <= |lined.content|
    ensures named == Named(WithReplaced(lined, k, d.annotations[k].start, d.annotations[k].start + 1, lined.annotations[k].body),
                           d.annotations[k].start + 1, person.name, post.title)
    ensures NameEnd(d.annotations[k].start, person.name, post.title) <= |named.content|
    ensures biod == Biography(named, NameEnd(d.annotations[k].start, person.name, post.title), bio)
    ensures d.annotations[k].start + 1 <= |biod.content|
    ensures r == Closed(biod, k, d.annotations[k].start, d.annotations[k].body.personId)
  {
    var s := d.annotations[k].start;
    OpenedRoom(d, k);
    lined := WithText(d, d.annotations[k].end, "\n", Default);
    named := Named(WithReplaced(lined, k, s, s + 1, lined.annotations[k].body), s + 1, person.name, post.title);
    var at := NameEnd(s, person.name, post.title);
    biod := Biography(named, at, bio);
  }

  /** The text after the name line is written: the line goes in at `at`. */
  lemma NamedContent(d: Draft, at: nat, name: string, title: string)
    requires Fits(d) && at <= |d.content|
    ensures Named(d, at, name, title).content == d.content[..at] + NameLine(name, title) + d.content[at..]
  {
    if name == title {
      assert d.content[..at] + NameLine(name, title) + d.content[at..] == d.content;
    }
  }

  /**
   * The text a card [s, e) ends up as: what came before it, the name line, the biography, the
   * rest of the card's text past its object character, a newline, and what came after it.
   */
  function CardText(c: string, s: nat, e: nat, head: string, bio: string): (r: string)
    requires s < e <= |c|
    ensures |r| == |c| + |head| + |bio|
  {
    c[..s] + head + bio + c[s + 1..e] + "\n" + c[e..]
  }

  /** The text a card [s, e) ends up as, from the text with the newline written and everything inserted at s + 1. */
  lemma SplicedText(c: string, s: nat, e: nat, head: string, bio: string, lined: string, named: string, biod: string, r: string)
    requires s < e <= |c|
    requires lined == c[..e] + "\n" + c[e..]
    requires named == lined[..s + 1] + head + lined[s + 1..]
    requires biod == named[..s + 1 + |head|] + bio + named[s + 1 + |head|..]
    requires r == biod[..s] + biod[s + 1..]
    ensures r == CardText(c, s, e, head, bio)
  {
    assert biod == lined[..s + 1] + head + bio + lined[s + 1..];
    assert lined[..s] == c[..s];
    assert lined[s + 1..] == c[s + 1..e] + "\n" + c[e..];
  }

  /**
   * The card's object character gives way to the name line and the biography, and the card's
   * other characters and a newline follow them; everything else of the text is unchanged.
   */
  lemma PersonContent(d: Draft, k: nat, post: Post, parse: string -> Option<Snapshot>, person: Person, bio: Snapshot, r: Draft)
    requires Expands(d, k, post, parse, person, bio, r)
    ensures var c, s, e := d.content, d.annotations[k].start, d.annotations[k].end;
      r.content == CardText(c, s, e, NameLine(person.name, post.title), bio.content)
  {
    var s := d.annotations[k].start;
    var lined, named, biod := PersonStages(d, k, post, parse, person, bio, r);
    var cut := WithReplaced(lined, k, s, s + 1, lined.annotations[k].body);
    NamedContent(cut, s + 1, person.name, post.title);
    SplicedText(d.content, s, d.annotations[k].end, NameLine(person.name, post.title), bio.content,
                lined.content, named.content, biod.content, Closed(biod, k, s, d.annotations[k].body.personId).content);
  }

  /** Where a boundary at `p` ends up when the card [s, e) gets a name line of `h` and a biography of `b` characters. */
  function Moved(p: nat, s: nat, e: nat, h: nat, b: nat): nat {
    DeletePos(InsertPos(InsertPos(InsertPos(p, e, 1, Default), s + 1, h, Default), s + 1 + h, b, Default), s, s + 1)
  }

  /** Boundaries up to the card's start stay; those inside it move by one less than was written; those from its end on, by all of it. */
  lemma MovedCases(p: nat, s: nat, e: nat, h: nat, b: nat)
    requires s < e
    ensures p <= s ==> Moved(p, s, e, h, b) == p
    ensures s < p < e ==> Moved(p, s, e, h, b) == p + h + b - 1
    ensures e <= p ==> Moved(p, s, e, h, b) == p + h + b
  {
  }

  /**
   * Every annotation the document had, other than the card, has its boundaries moved as `Moved`
   * says and keeps its id and its type.
   */
  lemma PersonOthers(d: Draft, k: nat, post: Post, parse: string -> Option<Snapshot>, person: Person, bio: Snapshot, r: Draft, i: nat)
    requires Expands(d, k, post, parse, person, bio, r)
    requires i < |d.annotations| && i != k
    ensures var a, s, e := d.annotations[i], d.annotations[k].start, d.annotations[k].end;
      var h, b := |NameLine(person.name, post.title)|, |bio.content|;
      i < |r.annotations| && r.annotations[i] == a.(start := Moved(a.start, s, e, h, b), end := Moved(a.end, s, e, h, b))
  {
    var s := d.annotations[k].start;
    var lined, named, biod := PersonStages(d, k, post, parse, person, bio, r);
    var cut := WithReplaced(lined, k, s, s + 1, lined.annotations[k].body);
    var h := |NameLine(person.name, post.title)|;
    var at := NameEnd(s, person.name, post.title);
    var a := d.annotations[i];
    assert cut.annotations[i] == Inserted(a, d.annotations[k].end, 1, Default);
    NamedKeeps(cut, s + 1, person.name, post.title, i);
    BiographyKeeps(named, at, bio, i);
    ClosedKeeps(biod, k, s, d.annotations[k].body.personId, i);
    MovedChain(a, s, d.annotations[k].end, h, |bio.content|, at, cut.annotations[i], named.annotations[i], biod.annotations[i],
               r.annotations[i]);
  }

  lemma MovedChain(a: Annotation, s: nat, e: nat, h: nat, b: nat, at: nat, x1: Annotation, x2: Annotation, x3: Annotation, x4: Annotation)
    requires at == s + 1 + h
    requires x1 == Inserted(a, e, 1, Default) && x2 == Inserted(x1, s + 1, h, Default)
    requires x3 == Inserted(x2, at, b, Default) && x4 == Deleted(x3, s, s + 1)
    ensures x4 == a.(start := Moved(a.start, s, e, h, b), end := Moved(a.end, s, e, h, b))
  {
  }

  /** Writing the name line moves the annotations already there as inserting its text does. */
  lemma NamedKeeps(d: Draft, at: nat, name: string, title: string, i: nat)
    requires Fits(d) && at <= |d.content| && i < |d.annotations|
    ensures var r := Named(d, at, name, title);
      i < |r.annotations| && r.annotations[i] == Inserted(d.annotations[i], at, |NameLine(name, title)|, Default)
  {
  }

  /** Writing a biography moves the annotations already there as inserting its text does. */
  lemma BiographyKeeps(d: Draft, at: nat, bio: Snapshot, i: nat)
    requires Fits(d) && at <= |d.content| && WellFormed(bio) && i < |d.annotations|
    ensures var r := Biography(d, at, bio);
      i < |r.annotations| && r.annotations[i] == Inserted(d.annotations[i], at, |bio.content|, Default)
  {
  }

  /** Removing the object character moves every other annotation as deleting it does. */
  lemma ClosedKeeps(d: Draft, k: nat, s: nat, id: Scalar, i: nat)
    requires Fits(d) && k < |d.annotations| && s + 1 <= |d.content| && i < |d.annotations| && i != k
    ensures var r := Closed(d, k, s, id);
      i < |r.annotations| && r.annotations[i] == Deleted(d.annotations[i], s, s + 1)
  {
  }

  /** Annotations wholly before the card or wholly after it keep covering the same text. */
  lemma PersonKeepsText(d: Draft, k: nat, post: Post, parse: string -> Option<Snapshot>, person: Person, bio: Snapshot, r: Draft, i: nat)
    requires Expands(d, k, post, parse, person, bio, r)
    requires i < |d.annotations| && i != k
    requires d.annotations[i].end <= d.annotations[k].start || d.annotations[k].end <= d.annotations[i].start
    ensures var a := d.annotations[i];
      && i < |r.annotations| && r.annotations[i].id == a.id && r.annotations[i].body == a.body
      && r.annotations[i].start <= r.annotations[i].end <= |r.content|
      && r.content[r.annotations[i].start..r.annotations[i].end] == d.content[a.start..a.end]
  {
    var c, s, e := d.content, d.annotations[k].start, d.annotations[k].end;
    var a := d.annotations[i];
    var head := NameLine(person.name, post.title);
    PersonOthers(d, k, post, parse, person, bio, r, i);
    PersonContent(d, k, post, parse, person, bio, r);
    KeptText(c, s, e, head, bio.content, a);
  }

  /** The text an annotation wholly before or wholly after the card covers, found where `Moved` puts it. */
  lemma KeptText(c: string, s: nat, e: nat, head: string, bio: string, a: Annotation)
    requires s < e <= |c| && a.start <= a.end <= |c| && (a.end <= s || e <= a.start)
    ensures var rc := CardText(c, s, e, head, bio);
      var from, to := Moved(a.start, s, e, |head|, |bio|), Moved(a.end, s, e, |head|, |bio|);
      from <= to <= |rc| && rc[from..to] == c[a.start..a.end]
  {
    var rc := c[..s] + head + bio + c[s + 1..e] + "\n" + c[e..];
    MovedCases(a.start, s, e, |head|, |bio|);
    MovedCases(a.end, s, e, |head|, |bio|);
    if a.end <= s {
      assert rc == c[..s] + (head + bio + c[s + 1..e] + "\n" + c[e..]);
      assert rc[a.start..a.end] == c[..s][a.start..a.end];
    } else {
      var shift := |head| + |bio|;
      assert rc == (c[..s] + head + bio + c[s + 1..e] + "\n") + c[e..];
      assert |c[..s] + head + bio + c[s + 1..e] + "\n"| == e + shift;
      assert rc[a.start + shift..a.end + shift] == c[e..][a.start - e..a.end - e];
    }
  }

  /** Removing the object character shrinks the card over it and renames it, under its own id. */
  lemma ClosedCard(d: Draft, k: nat, s: nat, id: Scalar)
    requires Fits(d) && k < |d.annotations| && s + 1 <= |d.content|
    ensures var r := Closed(d, k, s, id);
      var a := d.annotations[k];
      k < |r.annotations| && r.annotations[k] == Annotation(a.id, DeletePos(a.start, s, s + 1), DeletePos(a.end, s, s + 1), QtcPerson(id))
  {
  }

  /**
   * The card becomes a `-qtc-person` for the same person id under its own id, spanning exactly
   * the name line and the biography that replaced its object character.
   */
  lemma PersonCardBecomes(d: Draft, k: nat, post: Post, parse: string -> Option<Snapshot>, person: Person, bio: Snapshot, r: Draft)
    requires Expands(d, k, post, parse, person, bio, r)
    ensures var s := d.annotations[k].start;
      var head := NameLine(person.name, post.title);
      && k < |r.annotations|
      && r.annotations[k] == Annotation(d.annotations[k].id, s, s + |head| + |bio.content|, QtcPerson(d.annotations[k].body.personId))
  {
    var s := d.annotations[k].start;
    var lined, named, biod := PersonStages(d, k, post, parse, person, bio, r);
    var cut := WithReplaced(lined, k, s, s + 1, lined.annotations[k].body);
    var at := NameEnd(s, person.name, post.title);
    var id := d.annotations[k].body.personId;
    NamedKeeps(cut, s + 1, person.name, post.title, k);
    BiographyKeeps(named, at, bio, k);
    ClosedCard(biod, k, s, id);
    CardChain(d.annotations[k].id, s, |NameLine(person.name, post.title)|, |bio.content|, at, id,
              cut.annotations[k], named.annotations[k], biod.annotations[k], Closed(biod, k, s, id).annotations[k]);
  }

  lemma CardChain(id: nat, s: nat, h: nat, b: nat, at: nat, personId: Scalar, x1: Annotation, x2: Annotation, x3: Annotation, x4: Annotation)
    requires at == s + 1 + h && x1.id == id && x1.start == s && x1.end == s + 1
    requires x2 == Inserted(x1, s + 1, h, Default) && x3 == Inserted(x2, at, b, Default)
    requires x4 == Annotation(x3.id, DeletePos(x3.start, s, s + 1), DeletePos(x3.end, s, s + 1), QtcPerson(personId))
    ensures x4 == Annotation(id, s, s + h + b, QtcPerson(personId))
  {
  }

  /** The card's text starts with the name line and the biography. */
  lemma WrittenText(c: string, s: nat, e: nat, head: string, bio: string)
    requires s < e <= |c|
    ensures var rc := CardText(c, s, e, head, bio);
      s + |head| + |bio| <= |rc| && rc[s..s + |head| + |bio|] == head + bio
  {
    var rc := c[..s] + head + bio + c[s + 1..e] + "\n" + c[e..];
    assert rc == c[..s] + (head + bio) + (c[s + 1..e] + "\n" + c[e..]);
  }

  /** How many headings the name line adds: one, unless the name repeats the title. */
  function Headings(name: string, title: string): nat {
    if name != title then 1 else 0
  }

  /** The name line's heading is added last, numbered from the counter. */
  lemma NamedAdds(d: Draft, at: nat, name: string, title: string)
    requires Fits(d) && at <= |d.content|
    ensures var r := Named(d, at, name, title);
      && |r.annotations| == |d.annotations| + Headings(name, title) && r.nextId == d.nextId + Headings(name, title)
      && (name != title ==> r.annotations[|d.annotations|] == Annotation(d.nextId, at, at + |name|, Heading(3, true)))
  {
  }

  /** The biography's annotation `j` is added after all that were there, moved to `at` and numbered from the counter. */
  lemma BiographyAddsAt(d: Draft, at: nat, bio: Snapshot, j: nat)
    requires Fits(d) && at <= |d.content| && WellFormed(bio) && j < |bio.annotations|
    ensures var r, a := Biography(d, at, bio), bio.annotations[j];
      |d.annotations| + j < |r.annotations| && r.annotations[|d.annotations| + j] == Annotation(d.nextId + j, at + a.start, at + a.end, a.body)
  {
    var added := Stamp(Rebased(bio.annotations, at, 0), d.nextId);
    StampedAt(bio.annotations, at, d.nextId, j);
    assert Biography(d, at, bio).annotations == WithText(d, at, bio.content, Default).annotations + added;
  }

  /** A sub-document's annotation `j`, moved by `at` and numbered from `base`. */
  lemma StampedAt(anns: seq<Annotation>, at: nat, base: nat, j: nat)
    requires j < |anns|
    ensures var a := anns[j];
      Stamp(Rebased(anns, at, 0), base)[j] == Annotation(base + j, at + a.start, at + a.end, a.body)
  {
  }

  /** The biography's annotations are added last, moved to `at` and numbered from the counter. */
  lemma BiographyAdds(d: Draft, at: nat, bio: Snapshot)
    requires Fits(d) && at <= |d.content| && WellFormed(bio)
    ensures var r := Biography(d, at, bio);
      && |r.annotations| == |d.annotations| + |bio.annotations| && r.nextId == d.nextId + |bio.annotations|
      && forall j | 0 <= j < |bio.annotations| ::
           r.annotations[|d.annotations| + j] ==
             Annotation(d.nextId + j, at + bio.annotations[j].start, at + bio.annotations[j].end, bio.annotations[j].body)
  {
    forall j | 0 <= j < |bio.annotations|
      ensures Biography(d, at, bio).annotations[|d.annotations| + j] ==
                Annotation(d.nextId + j, at + bio.annotations[j].start, at + bio.annotations[j].end, bio.annotations[j].body)
    {
      BiographyAddsAt(d, at, bio, j);
    }
  }

  /** The expansion adds the heading, if any, and the biography's annotations, and numbers them from the counter. */
  lemma PersonCounts(d: Draft, k: nat, post: Post, parse: string -> Option<Snapshot>, person: Person, bio: Snapshot, r: Draft)
    requires Expands(d, k, post, parse, person, bio, r)
    ensures var added := Headings(person.name, post.title) + |bio.annotations|;
      |r.annotations| == |d.annotations| + added && r.nextId == d.nextId + added
  {
    var s := d.annotations[k].start;
    var lined, named, biod := PersonStages(d, k, post, parse, person, bio, r);
    var cut := WithReplaced(lined, k, s, s + 1, lined.annotations[k].body);
    NamedAdds(cut, s + 1, person.name, post.title);
    BiographyAdds(named, NameEnd(s, person.name, post.title), bio);
  }

  lemma HeadingChain(s: nat, n: nat, at: nat, b: nat, id: nat, x1: Annotation, x2: Annotation, x3: Annotation)
    requires at == s + 1 + n + 1
    requires x1 == Annotation(id, s + 1, s + 1 + n, Heading(3, true))
    requires x2 == Inserted(x1, at, b, Default) && x3 == Deleted(x2, s, s + 1)
    ensures x3 == Annotation(id, s, s + n, Heading(3, true))
  {
  }

  /** From the card cut down to its character at `s` on: the heading over the name comes first among the added. */
  lemma WrittenHeading(cut: Draft, k: nat, s: nat, name: string, title: string, bio: Snapshot, id: Scalar)
    requires Fits(cut) && k < |cut.annotations| && s + 1 <= |cut.content| && WellFormed(bio) && name != title
    ensures var named := Named(cut, s + 1, name, title);
      var r := Closed(Biography(named, NameEnd(s, name, title), bio), k, s, id);
      |cut.annotations| < |r.annotations| && r.annotations[|cut.annotations|] == Annotation(cut.nextId, s, s + |name|, Heading(3, true))
  {
    var named := Named(cut, s + 1, name, title);
    var at := NameEnd(s, name, title);
    var biod := Biography(named, at, bio);
    var i := |cut.annotations|;
    NamedAdds(cut, s + 1, name, title);
    BiographyKeeps(named, at, bio, i);
    ClosedKeeps(biod, k, s, id, i);
    HeadingChain(s, |name|, at, |bio.content|, cut.nextId, named.annotations[i], biod.annotations[i], Closed(biod, k, s, id).annotations[i]);
  }

  /**
   * Unless the name repeats the post's title, a sticky level-3 heading spans the name where the
   * card's object character was, numbered first from the counter.
   */
  lemma PersonHeading(d: Draft, k: nat, post: Post, parse: string -> Option<Snapshot>, person: Person, bio: Snapshot, r: Draft)
    requires Expands(d, k, post, parse, person, bio, r)
    requires person.name != post.title
    ensures var s := d.annotations[k].start;
      |d.annotations| < |r.annotations| && r.annotations[|d.annotations|] == Annotation(d.nextId, s, s + |person.name|, Heading(3, true))
  {
    var s := d.annotations[k].start;
    var lined, named, biod := PersonStages(d, k, post, parse, person, bio, r);
    var cut := WithReplaced(lined, k, s, s + 1, lined.annotations[k].body);
    WrittenHeading(cut, k, s, person.name, post.title, bio, d.annotations[k].body.personId);
  }

  /** The name line, when there is one, starts the card's text with the name. */
  lemma NameText(c: string, s: nat, e: nat, name: string, title: string, bio: string)
    requires s < e <= |c| && name != title
    ensures var rc := CardText(c, s, e, NameLine(name, title), bio);
      s + |name| <= |rc| && rc[s..s + |name|] == name
  {
    var rc := CardText(c, s, e, NameLine(name, title), bio);
    assert rc == c[..s] + name + ("\n" + bio + c[s + 1..e] + "\n" + c[e..]);
  }

  /**
   * The biography about to be written into `named` at `at`, just past the object character at
   * `s`, with `base` annotations there numbered up to `next`; `r` is the finished state.
   */
  ghost predicate BioReady(named: Draft, k: nat, s: nat, at: nat, bio: Snapshot, id: Scalar, base: int, next: int, r: Draft) {
    && Fits(named) && k < |named.annotations| && s + 1 <= at <= |named.content| && WellFormed(bio)
    && |named.annotations| == base && named.nextId == next
    && r == Closed(Biography(named, at, bio), k, s, id)
  }

  /** The biography's annotation `j` comes after all that were there, moved to just before `at`. */
  lemma NamedBioMark(named: Draft, k: nat, s: nat, at: nat, bio: Snapshot, id: Scalar, base: int, next: int, r: Draft, off: int, j: nat)
    requires BioReady(named, k, s, at, bio, id, base, next, r) && at == off + 1 && j < |bio.annotations|
    ensures var a := bio.annotations[j];
      At(r.annotations, base + j, Annotation(next + j, off + a.start, off + a.end, a.body))
  {
    BiographyAddsAt(named, at, bio, j);
    ClosedKeeps(Biography(named, at, bio), k, s, id, |named.annotations| + j);
  }

  /**
   * The biography's annotations follow the heading, if any, at the end of the document's
   * annotations, numbered in order from the counter and moved to where the biography's text
   * landed, just after the name line.
   */
  lemma PersonBioMarks(d: Draft, k: nat, post: Post, parse: string -> Option<Snapshot>, person: Person, bio: Snapshot, r: Draft, j: nat)
    requires Expands(d, k, post, parse, person, bio, r)
    requires j < |bio.annotations|
    ensures var a := bio.annotations[j];
      var s, h, n := d.annotations[k].start, |NameLine(person.name, post.title)|, Headings(person.name, post.title);
      At(r.annotations, |d.annotations| + n + j, Annotation(d.nextId + n + j, s + h + a.start, s + h + a.end, a.body))
  {
    var named, s, at, id := BioStages(d, k, post, parse, person, bio, r);
    var n := Headings(person.name, post.title);
    NamedBioMark(named, k, s, at, bio, id, |d.annotations| + n, d.nextId + n, r, s + |NameLine(person.name, post.title)|, j);
  }

  /** The state the biography is written into, and where it goes. */
  lemma BioStages(d: Draft, k: nat, post: Post, parse: string -> Option<Snapshot>, person: Person, bio: Snapshot, r: Draft)
    returns (named: Draft, s: nat, at: nat, id: Scalar)
    requires Expands(d, k, post, parse, person, bio, r)
    ensures var n := Headings(person.name, post.title);
      && s == d.annotations[k].start && at == s + |NameLine(person.name, post.title)| + 1
      && BioReady(named, k, s, at, bio, id, |d.annotations| + n, d.nextId + n, r)
  {
    s := d.annotations[k].start;
    id := d.annotations[k].body.personId;
    var lined, biod;
    lined, named, biod := PersonStages(d, k, post, parse, person, bio, r);
    NamedAdds(WithReplaced(lined, k, s, s + 1, lined.annotations[k].body), s + 1, person.name, post.title);
    at := NameEnd(s, person.name, post.title);
  }

  /** A biography annotation, in the text the card ends up as, covers what it covered in the biography. */
  lemma BioText(c: string, s: nat, e: nat, head: string, bio: Snapshot, j: nat)
    requires s < e <= |c| && WellFormed(bio) && j < |bio.annotations|
    ensures var rc, a := CardText(c, s, e, head, bio.content), bio.annotations[j];
      && a.start <= a.end <= |bio.content| && s + |head| + a.end <= |rc|
      && rc[s + |head| + a.start..s + |head| + a.end] == bio.content[a.start..a.end]
  {
    var rc := c[..s] + head + bio.content + c[s + 1..e] + "\n" + c[e..];
    assert bio.annotations[j] in bio.annotations;
    assert rc == (c[..s] + head) + bio.content + (c[s + 1..e] + "\n" + c[e..]);
  }
}
