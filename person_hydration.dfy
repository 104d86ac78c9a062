/**
 * `doc.where({type: "-mobiledoc-person-card"}).update(...)`: every person card of the document,
 * in document order, expanded into its person's name line and biography; the first card that
 * fails stops the pass.
 */
module PersonHydration {
  import opened Wrappers
  import opened Js
  import opened Collections
  import opened Entities
  import opened Posts
  import opened Annotations
  import opened Documents
  import opened PersonPass

  /**
   * `b` holds `a`'s annotations at their own indices under their own ids, each of a type it had,
   * except possibly at `k`; anything after them is new.
   */
  predicate Extends(a: seq<Annotation>, b: seq<Annotation>, k: nat) {
    |a| <= |b| && forall i | 0 <= i < |a| :: b[i].id == a[i].id && (i != k ==> b[i].body == a[i].body)
  }

  lemma ExtendsChain(a: seq<Annotation>, b: seq<Annotation>, c: seq<Annotation>, k: nat)
    requires Extends(a, b, k) && Extends(b, c, k)
    ensures Extends(a, c, k)
  {
  }

  lemma NamedExtends(d: Draft, at: nat, name: string, title: string, k: nat)
    requires Fits(d) && at <= |d.content|
    ensures Extends(d.annotations, Named(d, at, name, title).annotations, k)
  {
  }

  lemma BiographyExtends(d: Draft, at: nat, bio: Snapshot, k: nat)
    requires Fits(d) && at <= |d.content| && WellFormed(bio)
    ensures Extends(d.annotations, Biography(d, at, bio).annotations, k)
  {
  }

  lemma ClosedExtends(d: Draft, k: nat, s: nat, id: Scalar)
    requires Fits(d) && k < |d.annotations| && s + 1 <= |d.content|
    ensures var r := Closed(d, k, s, id);
      Extends(d.annotations, r.annotations, k) && r.annotations[k].body == QtcPerson(id)
  {
  }

  /** The document just before the object character is removed, when the card at `k` expands. */
  function Written(d: Draft, k: nat, s: nat, at: nat, biography: Option<string>,
                   parse: string -> Option<Snapshot>): (r: Draft)
    requires Fits(d) && k < |d.annotations| && s + 1 <= at <= |d.content|
    requires !Truthy(biography) || Embedded(biography, parse).Ok?
    ensures Fits(r) && s + 1 <= |r.content| && k < |r.annotations|
    ensures Extends(d.annotations, r.annotations, k)
  {
    if !Truthy(biography) then d
    else
      BiographyExtends(d, at, Embedded(biography, parse).value, k);
      Biography(d, at, Embedded(biography, parse).value)
  }

  /**
   * A card that expands keeps its id and its index and becomes a `-qtc-person` under the id of the
   * person it names; every other annotation of the document keeps its id, its index and its type.
   */
  lemma PersonExpandedExtends(d: Draft, k: nat, post: Post, parse: string -> Option<Snapshot>)
    requires Fits(d) && k < |d.annotations| && d.annotations[k].body.PersonCard?
    requires PersonExpanded(d, k, post, parse).Ok?
    ensures var r := PersonExpanded(d, k, post, parse).value;
      Extends(d.annotations, r.annotations, k) && r.annotations[k].body == QtcPerson(d.annotations[k].body.personId)
  {
    var id := d.annotations[k].body.personId;
    var person, s, named := PersonExpandedStages(d, k, post, parse);
    var lined := WithText(d, d.annotations[k].end, "\n", Default);
    var cut := WithReplaced(lined, k, s, s + 1, lined.annotations[k].body);
    NamedExtends(cut, s + 1, person.name, post.title, k);
    var full := Written(named, k, s, NameEnd(s, person.name, post.title), person.biography, parse);
    assert PersonExpanded(d, k, post, parse) == Ok(Closed(full, k, s, id));
    ClosedExtends(full, k, s, id);
    ExtendsChain(d.annotations, cut.annotations, named.annotations, k);
    ExtendsChain(d.annotations, named.annotations, full.annotations, k);
    ExtendsChain(d.annotations, full.annotations, Closed(full, k, s, id).annotations, k);
  }

  /**
   * The pass over the first `n` annotations: each person card among them expanded in document
   * order, the first failure stopping the pass. Expanding a card only appends annotations and
   * replaces the card in its place, so the annotation at each later index is still the one the
   * pass selected.
   */
  function PersonsUpTo(d: Draft, n: nat, post: Post, parse: string -> Option<Snapshot>): (r: Result<Draft, Failure>)
    requires Fits(d) && n <= |d.annotations|
    ensures r.Ok? ==> Fits(r.value) && |r.value.annotations| >= |d.annotations|
    decreases n
  {
    if n == 0 then Ok(d)
    else
      match PersonsUpTo(d, n - 1, post, parse)
      case Err(e) => Err(e)
      case Ok(mid) =>
        if mid.annotations[n - 1].body.PersonCard? then PersonExpanded(mid, n - 1, post, parse)
        else Ok(mid)
  }

  /** The person pass over the whole document. */
  function PersonsExpanded(d: Draft, post: Post, parse: string -> Option<Snapshot>): (r: Result<Draft, Failure>)
    requires Fits(d)
    ensures r.Ok? ==> Fits(r.value) && |r.value.annotations| >= |d.annotations|
  {
    PersonsUpTo(d, |d.annotations|, post, parse)
  }

  /** Once a card fails, the pass stops with that card's failure. */
  lemma {:induction false} PersonsUpToStops(d: Draft, j: nat, n: nat, post: Post, parse: string -> Option<Snapshot>)
    requires Fits(d) && j <= n <= |d.annotations| && PersonsUpTo(d, j, post, parse).Err?
    ensures PersonsUpTo(d, n, post, parse) == PersonsUpTo(d, j, post, parse)
    decreases n
  {
    if j < n {
      PersonsUpToStops(d, j, n - 1, post, parse);
    }
  }

  /** One more annotation considered after the first `n - 1`. */
  lemma PersonsUpToSnoc(d: Draft, n: nat, post: Post, parse: string -> Option<Snapshot>, mid: Draft)
    requires Fits(d) && 0 < n <= |d.annotations| && PersonsUpTo(d, n - 1, post, parse) == Ok(mid)
    ensures n - 1 < |mid.annotations|
    ensures PersonsUpTo(d, n, post, parse) ==
      if mid.annotations[n - 1].body.PersonCard? then PersonExpanded(mid, n - 1, post, parse) else Ok(mid)
  {
  }

  /** What the pass over the first `n` annotations makes of an annotation. */
  predicate Turned(before: Annotation, after: Annotation, visited: bool) {
    && after.id == before.id
    && if visited && before.body.PersonCard? then after.body == QtcPerson(before.body.personId)
       else after.body == before.body
  }

  /** Each of `before`'s annotations is turned, at its own index, into the one `after` holds there. */
  predicate AllTurned(before: seq<Annotation>, after: seq<Annotation>, n: nat) {
    |before| <= |after| && forall i | 0 <= i < |before| :: Turned(before[i], after[i], i < n)
  }

  /**
   * After the pass over the first `n` annotations, every person card among them is a
   * `-qtc-person` under its person's id, at its own index and under its own id; every other
   * annotation of the document keeps its id and its type.
   */
  lemma {:induction false} PersonsUpToTurned(d: Draft, n: nat, post: Post, parse: string -> Option<Snapshot>)
    requires Fits(d) && n <= |d.annotations| && PersonsUpTo(d, n, post, parse).Ok?
    ensures var r := PersonsUpTo(d, n, post, parse).value;
      AllTurned(d.annotations, r.annotations, n)
    decreases n
  {
    if n > 0 {
      PersonsUpToTurned(d, n - 1, post, parse);
      PersonsStep(d, n, post, parse, PersonsUpTo(d, n - 1, post, parse).value);
    }
  }

  lemma PersonsStep(d: Draft, n: nat, post: Post, parse: string -> Option<Snapshot>, mid: Draft)
    requires Fits(d) && 0 < n <= |d.annotations| && PersonsUpTo(d, n - 1, post, parse) == Ok(mid)
    requires PersonsUpTo(d, n, post, parse).Ok?
    requires AllTurned(d.annotations, mid.annotations, n - 1)
    ensures var r := PersonsUpTo(d, n, post, parse).value;
      AllTurned(d.annotations, r.annotations, n)
  {
    PersonsUpToSnoc(d, n, post, parse, mid);
    if mid.annotations[n - 1].body.PersonCard? {
      CardTurned(d.annotations, mid, n, post, parse);
    } else {
      TurnedStep(d.annotations, mid.annotations, mid.annotations, n);
    }
  }

  lemma CardTurned(anns: seq<Annotation>, mid: Draft, n: nat, post: Post, parse: string -> Option<Snapshot>)
    requires Fits(mid) && 0 < n <= |anns| <= |mid.annotations| && mid.annotations[n - 1].body.PersonCard?
    requires PersonExpanded(mid, n - 1, post, parse).Ok?
    requires AllTurned(anns, mid.annotations, n - 1)
    ensures var r := PersonExpanded(mid, n - 1, post, parse).value;
      AllTurned(anns, r.annotations, n)
  {
    PersonExpandedExtends(mid, n - 1, post, parse);
    TurnedStep(anns, mid.annotations, PersonExpanded(mid, n - 1, post, parse).value.annotations, n);
  }

  lemma TurnedStep(anns: seq<Annotation>, mid: seq<Annotation>, r: seq<Annotation>, n: nat)
    requires 0 < n <= |anns| <= |mid|
    requires AllTurned(anns, mid, n - 1)
    requires Extends(mid, r, n - 1)
    requires r[n - 1].body == if anns[n - 1].body.PersonCard? then QtcPerson(anns[n - 1].body.personId) else mid[n - 1].body
    ensures AllTurned(anns, r, n)
  {
    assert Turned(anns[n - 1], mid[n - 1], false);
  }

  /** The annotation at `k` expanded if it is a person card, after the ones before it. */
  method ExpandPersonNext(doc: Document, ghost d0: Draft, k: nat, post: Post, parse: string -> Option<Snapshot>)
    returns (r: Result<(), Failure>)
    requires Fits(d0) && k < |d0.annotations| && doc.Valid()
    requires PersonsUpTo(d0, k, post, parse) == Ok(doc.State())
    modifies doc
    ensures r.Ok? ==> doc.Valid() && PersonsUpTo(d0, k + 1, post, parse) == Ok(doc.State())
    ensures r.Err? ==> PersonsExpanded(d0, post, parse) == Err(r.error)
  {
    PersonsUpToSnoc(d0, k + 1, post, parse, doc.State());
    r := Ok(());
    if doc.annotations[k].body.PersonCard? {
      r := ExpandPerson(doc, k, post, parse);
      if r.Err? {
        PersonsUpToStops(d0, k + 1, |d0.annotations|, post, parse);
      }
    }
  }

  /**
   * The person pass: every person card of the document as it stood, in order, expanded; the
   * first failure stops the pass. Visiting the indices the document had at the start visits
   * exactly the cards the query selected.
   */
  method HydratePersons(doc: Document, post: Post, parse: string -> Option<Snapshot>) returns (r: Result<(), Failure>)
    requires doc.Valid()
    modifies doc
    ensures r.Ok? ==> doc.Valid()
    ensures Mirrors(r, PersonsExpanded(old(doc.State()), post, parse), doc.State())
  {
    ghost var d0 := doc.State();
    var n := |doc.annotations|;
    r := Ok(());
    var k := 0;
    while k < n && r.Ok?
      invariant k <= n == |d0.annotations|
      invariant r.Ok? ==> doc.Valid() && PersonsUpTo(d0, k, post, parse) == Ok(doc.State())
      invariant r.Err? ==> PersonsExpanded(d0, post, parse) == Err(r.error)
    {
      r := ExpandPersonNext(doc, d0, k, post, parse);
      k := k + 1;
    }
  }
}
