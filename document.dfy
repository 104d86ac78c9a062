/**
 * The mutable annotated document every hydration pass edits in place: its text, its annotations
 * in insertion order, and the counter that numbers newly added annotations.
 */
module Documents {
  import opened Wrappers
  import opened Js
  import opened Collections
  import opened Annotations

  /** Why hydration stops instead of producing a document. */
  datatype Failure =
    | Malformed        // a Mobiledoc payload that does not parse
    | MissingTicket    // a ticket card whose `ticketId` names no ticket of the post
    | MissingPerson    // a person card or byline whose person was not loaded
    | MissingLocation  // an event venue whose location was not loaded
    | MissingEvent     // a river item's itinerary naming an event that was not loaded
    | RangeError       // a card that covers no character where the pass writes past it

  /**
   * `MobiledocSource.fromRaw(JSON.parse(text))` for an optional Mobiledoc payload in a truthy
   * test: an absent or empty payload contributes an empty document; one that does not parse,
   * or parses into spans outside its own text, stops the pass.
   */
  function Embedded(text: Option<string>, parse: string -> Option<Snapshot>): (r: Result<Snapshot, Failure>)
    ensures r.Ok? ==> WellFormed(r.value)
    ensures r.Err? ==> r.error == Malformed
    ensures !Truthy(text) ==> r == Ok(Snapshot("", []))
    ensures Truthy(text) ==> (r.Ok? <==> parse(text.value).Some? && WellFormed(parse(text.value).value))
    ensures Truthy(text) && r.Ok? ==> r.value == parse(text.value).value
  {
    if !Truthy(text) then Ok(Snapshot("", []))
    else
      match parse(text.value)
      case None => Err(Malformed)
      case Some(d) => if WellFormed(d) then Ok(d) else Err(Malformed)
  }

  /** What an `update` callback that never edits text does with the annotation it is given. */
  datatype Action = Keep | Drop | Become(start: nat, end: nat, body: Body)

  function Apply(a: Annotation, act: Action): seq<Annotation> {
    match act
    case Keep => [a]
    case Drop => []
    case Become(s, e, b) => [Annotation(a.id, s, e, b)]
  }

  /**
   * The annotations after a callback has run on each of them in order, or the first failure.
   * A `Become` keeps the annotation's id and its place in the sequence.
   */
  function Updated(anns: seq<Annotation>, f: Annotation -> Result<Action, Failure>): Result<seq<Annotation>, Failure> {
    if anns == [] then Ok([])
    else
      match Updated(anns[..|anns| - 1], f)
      case Err(e) => Err(e)
      case Ok(prefix) =>
        match f(anns[|anns| - 1])
        case Err(e) => Err(e)
        case Ok(act) => Ok(prefix + Apply(anns[|anns| - 1], act))
  }

  /** The last callback's share of a successful pass. */
  lemma UpdatedLast(anns: seq<Annotation>, f: Annotation -> Result<Action, Failure>)
    requires |anns| > 0 && Updated(anns, f).Ok?
    ensures Updated(anns[..|anns| - 1], f).Ok? && f(anns[|anns| - 1]).Ok?
    ensures Updated(anns, f).value ==
      Updated(anns[..|anns| - 1], f).value + Apply(anns[|anns| - 1], f(anns[|anns| - 1]).value)
  {
  }

  /** Every span `f` asks for fits in a text of length `len`. */
  predicate ActionsFit(anns: seq<Annotation>, f: Annotation -> Result<Action, Failure>, len: nat) {
    forall a | a in anns :: f(a).Ok? && f(a).value.Become? ==> f(a).value.start <= f(a).value.end <= len
  }

  lemma {:induction false} UpdatedOk(anns: seq<Annotation>, f: Annotation -> Result<Action, Failure>)
    ensures Updated(anns, f).Ok? <==> forall i | 0 <= i < |anns| :: f(anns[i]).Ok?
  {
    if anns != [] {
      UpdatedOk(anns[..|anns| - 1], f);
    }
  }

  /** The first callback that fails decides the pass's failure. */
  lemma {:induction false} UpdatedFails(anns: seq<Annotation>, i: nat, f: Annotation -> Result<Action, Failure>)
    requires i < |anns| && Updated(anns[..i], f).Ok? && f(anns[i]).Err?
    ensures Updated(anns, f) == Err(f(anns[i]).error)
    decreases |anns|
  {
    var init := anns[..|anns| - 1];
    if |anns| == i + 1 {
      assert init == anns[..i];
    } else {
      assert init[..i] == anns[..i];
      UpdatedFails(init, i, f);
    }
  }

  /** One more callback on a successful prefix. */
  lemma UpdatedSnoc(anns: seq<Annotation>, i: nat, f: Annotation -> Result<Action, Failure>, done: seq<Annotation>, act: Action)
    requires i < |anns| && Updated(anns[..i], f) == Ok(done) && f(anns[i]) == Ok(act)
    ensures Updated(anns[..i + 1], f) == Ok(done + Apply(anns[i], act))
  {
    assert anns[..i + 1][..i] == anns[..i];
  }

  /** A pass whose callback asks only for spans that fit keeps every span inside the text. */
  lemma {:induction false} UpdatedWithin(anns: seq<Annotation>, f: Annotation -> Result<Action, Failure>, len: nat)
    requires AllWithin(anns, len) && ActionsFit(anns, f, len)
    requires Updated(anns, f).Ok?
    ensures AllWithin(Updated(anns, f).value, len)
  {
    if anns != [] {
      UpdatedWithin(anns[..|anns| - 1], f, len);
    }
  }

  /**
   * The callback of a hydration pass over the annotations `target` accepts: wherever it succeeds,
   * it keeps every other annotation, and drops each accepted one or turns it into one that
   * `made` accepts instead.
   */
  predicate Clears(anns: seq<Annotation>, f: Annotation -> Result<Action, Failure>,
                   target: Body -> bool, made: Body -> bool)
  {
    forall a | a in anns :: f(a).Ok? ==> ClearsOne(a, f(a).value, target, made)
  }

  predicate ClearsOne(a: Annotation, act: Action, target: Body -> bool, made: Body -> bool) {
    if target(a.body) then act.Drop? || (act.Become? && made(act.body) && !target(act.body))
    else act.Keep?
  }

  lemma ApplyClears(a: Annotation, act: Action, target: Body -> bool, made: Body -> bool)
    requires ClearsOne(a, act, target, made)
    ensures CountWhere(Apply(a, act), target) == 0 || !target(a.body)
    ensures CountWhere(Apply(a, act), target) == CountWhere([a], target) || target(a.body)
    ensures Matching(Apply(a, act), Neither(target, made)) == Matching([a], Neither(target, made))
  {
    assert [a][1..] == [];
    if act.Become? {
      var r := Apply(a, act);
      assert r[1..] == [];
    }
  }

  function Neither(target: Body -> bool, made: Body -> bool): Body -> bool {
    (b: Body) => !target(b) && !made(b)
  }

  /**
   * When such a pass succeeds, it leaves no accepted annotation behind and keeps every annotation
   * it neither consumes nor produces exactly as it was, in order.
   */
  lemma {:induction false} UpdatedClears(anns: seq<Annotation>, f: Annotation -> Result<Action, Failure>,
                                         target: Body -> bool, made: Body -> bool)
    requires Clears(anns, f, target, made) && Updated(anns, f).Ok?
    ensures CountWhere(Updated(anns, f).value, target) == 0
    ensures Matching(Updated(anns, f).value, Neither(target, made)) == Matching(anns, Neither(target, made))
  {
    if anns != [] {
      var init := anns[..|anns| - 1];
      var last := anns[|anns| - 1];
      assert anns == init + [last];
      assert [last][1..] == [];
      MatchingAppend(init, [last], Neither(target, made));
      assert forall a | a in init :: a in anns;
      UpdatedLast(anns, f);
      UpdatedClears(init, f, target, made);
      var prefix := Updated(init, f).value;
      var step := Apply(last, f(last).value);
      ApplyClears(last, f(last).value, target, made);
      CountWhereAppend(prefix, step, target);
      MatchingAppend(prefix, step, Neither(target, made));
    }
  }

  /** The position of the annotation numbered `id`, if it is still in the document. */
  function IndexOfId(anns: seq<Annotation>, id: nat): (r: Option<nat>)
    ensures r.Some? ==> r.value < |anns| && anns[r.value].id == id
    ensures r.None? ==> forall i | 0 <= i < |anns| :: anns[i].id != id
  {
    FindIndex(anns, (a: Annotation) => a.id == id)
  }

  /** A document's state as a value: its text, its annotations and its id counter. */
  datatype Draft = Draft(content: string, annotations: seq<Annotation>, nextId: nat)

  predicate Fits(d: Draft) {
    AllWithin(d.annotations, |d.content|)
  }

  /** `insertText(at, text, behaviour)` on a state. */
  function WithText(d: Draft, at: nat, text: string, behaviour: Behaviour): (r: Draft)
    requires Fits(d) && at <= |d.content|
    ensures Fits(r) && |r.content| == |d.content| + |text| && r.nextId == d.nextId
    ensures |r.annotations| == |d.annotations|
  {
    InsertedAllWithin(d.annotations, |d.content|, at, |text|, behaviour);
    Draft(d.content[..at] + text + d.content[at..], InsertedAll(d.annotations, at, |text|, behaviour), d.nextId)
  }

  /** `addAnnotations(...drafts)` on a state: appended in order, numbered from the counter. */
  function WithAdded(d: Draft, drafts: seq<Annotation>): (r: Draft)
    requires Fits(d) && AllWithin(drafts, |d.content|)
    ensures Fits(r) && r.content == d.content && r.nextId == d.nextId + |drafts|
  {
    Draft(d.content, d.annotations + Stamp(drafts, d.nextId), d.nextId + |drafts|)
  }

  /** `deleteText(s, e)` on a state. */
  function WithDeleted(d: Draft, s: nat, e: nat): (r: Draft)
    requires Fits(d) && s <= e <= |d.content|
    ensures Fits(r) && |r.content| == |d.content| - (e - s) && r.nextId == d.nextId
    ensures |r.annotations| == |d.annotations|
  {
    DeletedAllWithin(d.annotations, |d.content|, s, e);
    Draft(d.content[..s] + d.content[e..], DeletedAll(d.annotations, s, e), d.nextId)
  }

  /** `replaceAnnotation` or `set` on a state: the annotation at `k` keeps its id and its place. */
  function WithReplaced(d: Draft, k: nat, start: nat, end: nat, body: Body): (r: Draft)
    requires Fits(d) && k < |d.annotations| && start <= end <= |d.content|
    ensures Fits(r) && r.content == d.content && r.nextId == d.nextId
    ensures |r.annotations| == |d.annotations|
  {
    d.(annotations := d.annotations[k := Annotation(d.annotations[k].id, start, end, body)])
  }

  /**
   * A method's outcome is its specification's: it fails exactly when the specification does,
   * with the same failure, and otherwise leaves the document in the state the specification
   * gives.
   */
  ghost predicate Mirrors(r: Result<(), Failure>, spec: Result<Draft, Failure>, now: Draft) {
    && (r.Ok? <==> spec.Ok?) && (r.Err? ==> spec.error == r.error) && (r.Ok? ==> now == spec.value)
  }

  class Document {
    var content: string
    var annotations: seq<Annotation>
    var nextId: nat

    /** Every span lies inside the text and every id was handed out by the counter. */
    ghost predicate Valid()
      reads this
    {
      AllWithin(annotations, |content|) && IdsBelow(annotations, nextId)
    }

    ghost function State(): Draft
      reads this
    {
      Draft(content, annotations, nextId)
    }

    /** The document a parsed compact payload describes, its annotations numbered from 0. */
    constructor FromSnapshot(s: Snapshot)
      requires WellFormed(s)
      ensures Valid()
      ensures content == s.content && annotations == Stamp(s.annotations, 0)
      ensures nextId == |s.annotations|
    {
      content := s.content;
      annotations := Stamp(s.annotations, 0);
      nextId := |s.annotations|;
    }

    /** `insertText(at, text, behaviour)`. */
    method InsertText(at: nat, text: string, behaviour: Behaviour)
      requires Valid() && at <= |content|
      modifies this
      ensures Valid()
      ensures content == old(content)[..at] + text + old(content)[at..]
      ensures annotations == InsertedAll(old(annotations), at, |text|, behaviour)
      ensures nextId == old(nextId)
    {
      InsertedAllWithin(annotations, |content|, at, |text|, behaviour);
      content := content[..at] + text + content[at..];
      annotations := InsertedAll(annotations, at, |text|, behaviour);
    }

    /** `deleteText(s, e)`. */
    method DeleteText(s: nat, e: nat)
      requires Valid() && s <= e <= |content|
      modifies this
      ensures Valid()
      ensures content == old(content)[..s] + old(content)[e..]
      ensures annotations == DeletedAll(old(annotations), s, e)
      ensures nextId == old(nextId)
    {
      DeletedAllWithin(annotations, |content|, s, e);
      content := content[..s] + content[e..];
      annotations := DeletedAll(annotations, s, e);
    }

    /** `addAnnotations(...drafts)`: appended in order, numbered from the counter. */
    method AddAnnotations(drafts: seq<Annotation>)
      requires Valid() && AllWithin(drafts, |content|)
      modifies this
      ensures Valid()
      ensures content == old(content)
      ensures annotations == old(annotations) + Stamp(drafts, old(nextId))
      ensures nextId == old(nextId) + |drafts|
    {
      annotations := annotations + Stamp(drafts, nextId);
      nextId := nextId + |drafts|;
    }

    /** `removeAnnotation(annotations[k])`. */
    method RemoveAt(k: nat)
      requires Valid() && k < |annotations|
      modifies this
      ensures Valid()
      ensures content == old(content) && nextId == old(nextId)
      ensures annotations == old(annotations)[..k] + old(annotations)[k + 1..]
    {
      annotations := annotations[..k] + annotations[k + 1..];
    }

    /**
     * `replaceAnnotation(annotations[k], next)`, and equally `where({id}).set(...)` and
     * `rename(...)`: the annotation keeps its id and its place; its span and body change.
     */
    method ReplaceAt(k: nat, start: nat, end: nat, body: Body)
      requires Valid() && k < |annotations| && start <= end <= |content|
      modifies this
      ensures Valid()
      ensures content == old(content) && nextId == old(nextId)
      ensures annotations == old(annotations)[k := Annotation(old(annotations)[k].id, start, end, body)]
    {
      annotations := annotations[k := Annotation(annotations[k].id, start, end, body)];
    }

    /** `where(a => !keep(a)).remove()`: the annotations `keep` refuses go, the others stay in order. */
    method KeepOnly(keep: Annotation -> bool)
      requires Valid()
      modifies this
      ensures Valid()
      ensures content == old(content) && nextId == old(nextId)
      ensures annotations == Filter(old(annotations), keep)
    {
      annotations := Filter(annotations, keep);
    }

    /** What an `update` callback does with `annotations[k]`: keep it, remove it or replace it. */
    method Perform(k: nat, act: Action)
      requires Valid() && k < |annotations|
      requires act.Become? ==> act.start <= act.end <= |content|
      modifies this
      ensures Valid()
      ensures content == old(content) && nextId == old(nextId)
      ensures annotations == old(annotations)[..k] + Apply(old(annotations)[k], act) + old(annotations)[k + 1..]
    {
      assert annotations == annotations[..k] + [annotations[k]] + annotations[k + 1..];
      match act {
        case Keep =>
        case Drop =>
          RemoveAt(k);
        case Become(s, e, b) =>
          ReplaceAt(k, s, e, b);
      }
    }

    /**
     * `where(...).update(f)` for a callback that only keeps, drops or replaces the annotation it
     * is given and touches no text: the callbacks run in document order and the first failure
     * stops the pass.
     */
    method UpdateEach(f: Annotation -> Result<Action, Failure>) returns (r: Result<(), Failure>)
      requires Valid() && ActionsFit(annotations, f, |content|)
      modifies this
      ensures Valid()
      ensures content == old(content) && nextId == old(nextId)
      ensures r.Ok? <==> Updated(old(annotations), f).Ok?
      ensures r.Ok? ==> annotations == Updated(old(annotations), f).value
      ensures r.Err? ==> Updated(old(annotations), f) == Err(r.error)
    {
      var anns0 := annotations;
      ghost var done: seq<Annotation> := [];
      var i := 0;
      var j := 0;
      assert annotations == done + anns0[0..];
      while i < |anns0|
        invariant 0 <= i <= |anns0| && j == |done|
        invariant content == old(content) && nextId == old(nextId)
        invariant Updated(anns0[..i], f) == Ok(done)
        invariant annotations == done + anns0[i..]
        invariant Valid()
      {
        assert annotations[j] == anns0[i];
        var outcome := f(annotations[j]);
        if outcome.Err? {
          UpdatedFails(anns0, i, f);
          return Err(outcome.error);
        }
        var act := outcome.value;
        UpdatedSnoc(anns0, i, f, done, act);
        assert anns0[i] in anns0;
        Perform(j, act);
        assert anns0[i..][1..] == anns0[i + 1..];
        assert annotations == (done + Apply(anns0[i], act)) + anns0[i + 1..];
        done := done + Apply(anns0[i], act);
        if !act.Drop? {
          j := j + 1;
        }
        i := i + 1;
      }
      assert anns0[..i] == anns0;
      return Ok(());
    }
  }
}
