/**
 * The last hydration pass: the text under each `-mobiledoc-small` annotation moves to the end of
 * the document under a `-qtc-footnote`. The annotations inside the small text go with it; every
 * annotation the slice of that text still carries (all but those left zero-width at its start) is
 * added again over the moved text.
 */
module FootnotePass {
  import opened Collections
  import opened Annotations
  import opened Documents

  predicate IsSmall(b: Body) { b.MobiledocSmall? }

  /** What `footnote.where({start: 0, end: 0}).remove()` keeps. */
  predicate OffOrigin(a: Annotation) {
    !(a.start == 0 && a.end == 0)
  }

  /** What `doc.where(a => a.start >= s && a.end <= e).remove()` keeps. */
  function Outside(s: nat, e: nat): Annotation -> bool {
    (a: Annotation) => !(a.start >= s && a.end <= e)
  }

  /** The footnote's annotations: those of `doc.slice(s, e)` not left zero-width at its start. */
  function NoteMarks(d: Draft, s: nat, e: nat): (r: seq<Annotation>)
    requires Fits(d) && s <= e <= |d.content|
    ensures AllWithin(r, e - s)
  {
    Filter(Slice(d.content, d.annotations, s, e).annotations, OffOrigin)
  }

  /** The annotations inside [s, e) removed, then the text [s, e) deleted. */
  function Cut(d: Draft, s: nat, e: nat): (r: Draft)
    requires Fits(d) && s <= e <= |d.content|
    ensures Fits(r) && |r.content| == |d.content| - (e - s) && r.nextId == d.nextId
    ensures |r.annotations| == |Filter(d.annotations, Outside(s, e))|
  {
    WithDeleted(d.(annotations := Filter(d.annotations, Outside(s, e))), s, e)
  }

  /** A footnote's text written at the very end without moving anything that ends there, and a footnote over it. */
  function Noted(d: Draft, text: string): (r: Draft)
    requires Fits(d)
    ensures Fits(r) && |r.content| == |d.content| + |text| && r.nextId == d.nextId + 1
    ensures |r.annotations| == |d.annotations| + 1
  {
    var start := |d.content|;
    WithAdded(WithText(d, start, text, Preserve), [Annotation(0, start, start + |text|, Footnote)])
  }

  /** The footnote written, then its annotations moved onto its text. */
  function Appended(d: Draft, text: string, marks: seq<Annotation>): (r: Draft)
    requires Fits(d) && AllWithin(marks, |text|)
    ensures Fits(r) && |r.content| == |d.content| + |text|
  {
    RebasedWithin(marks, |text|, |d.content|, |d.content| + |text|);
    WithAdded(Noted(d, text), Rebased(marks, |d.content|, 0))
  }

  /** The callback on a small annotation spanning [s, e): the slice taken, the span cut out, the slice appended. */
  function Footnoted(d: Draft, s: nat, e: nat): (r: Draft)
    requires Fits(d) && s <= e <= |d.content|
    ensures Fits(r) && |r.content| == |d.content|
  {
    Appended(Cut(d, s, e), d.content[s..e], NoteMarks(d, s, e))
  }

  lemma CutLayout(d: Draft, s: nat, e: nat)
    requires Fits(d) && s <= e <= |d.content|
    ensures var r, kept := Cut(d, s, e), Filter(d.annotations, Outside(s, e));
      && r.content == d.content[..s] + d.content[e..] && r.nextId == d.nextId
      && r.annotations == DeletedAll(kept, s, e)
      && (forall a :: a in kept <==> a in d.annotations && !(s <= a.start && a.end <= e))
  {
  }

  /** The footnote written at the end, in closed form: nothing before it moves. */
  lemma NotedIs(d: Draft, text: string)
    requires Fits(d)
    ensures Noted(d, text) ==
      Draft(d.content + text, d.annotations + [Annotation(d.nextId, |d.content|, |d.content| + |text|, Footnote)], d.nextId + 1)
  {
    InsertedAtEndPreserve(d.annotations, |d.content|, |text|);
    assert d.content[..|d.content|] + text + d.content[|d.content|..] == d.content + text;
    var footnote := Annotation(0, |d.content|, |d.content| + |text|, Footnote);
    assert Stamp([footnote], d.nextId) == [footnote.(id := d.nextId)];
  }

  /** Appending in closed form: the footnote, then the marks moved onto its text and numbered after it. */
  lemma AppendedIs(d: Draft, text: string, marks: seq<Annotation>)
    requires Fits(d) && AllWithin(marks, |text|)
    ensures Appended(d, text, marks) ==
      Draft(d.content + text,
            d.annotations + [Annotation(d.nextId, |d.content|, |d.content| + |text|, Footnote)]
              + Stamp(Rebased(marks, |d.content|, 0), d.nextId + 1),
            d.nextId + 1 + |marks|)
  {
    NotedIs(d, text);
  }

  /** What appending adds: the text at the end, the footnote over it, then the marks moved onto it. */
  lemma AppendedLayout(d: Draft, text: string, marks: seq<Annotation>)
    requires Fits(d) && AllWithin(marks, |text|)
    ensures var r, n, t := Appended(d, text, marks), |d.annotations|, |d.content|;
      && r.content == d.content + text && r.nextId == d.nextId + 1 + |marks|
      && |r.annotations| == n + 1 + |marks|
      && (forall i | 0 <= i < n :: r.annotations[i] == d.annotations[i])
      && r.annotations[n] == Annotation(d.nextId, t, t + |text|, Footnote)
      && forall j | 0 <= j < |marks| ::
           r.annotations[n + 1 + j] == Annotation(d.nextId + 1 + j, t + marks[j].start, t + marks[j].end, marks[j].body)
  {
    AppendedIs(d, text, marks);
  }

  /**
   * One footnote: the text reads as before with [s, e) cut out and put at the end. The
   * annotations that stay are exactly those not inside [s, e), in order, moved as the deletion
   * moves them; then comes the footnote over the moved text, then each of the slice's remaining
   * annotations moved by where the text landed, all numbered from the counter.
   */
  lemma FootnotedLayout(d: Draft, s: nat, e: nat)
    requires Fits(d) && s <= e <= |d.content|
    ensures var r, kept, marks := Footnoted(d, s, e), Filter(d.annotations, Outside(s, e)), NoteMarks(d, s, e);
      var t := |d.content| - (e - s);
      && r.content == d.content[..s] + d.content[e..] + d.content[s..e]
      && (forall a :: a in kept <==> a in d.annotations && !(s <= a.start && a.end <= e))
      && r.nextId == d.nextId + 1 + |marks|
      && |r.annotations| == |kept| + 1 + |marks|
      && (forall i | 0 <= i < |kept| :: r.annotations[i] == Deleted(kept[i], s, e))
      && r.annotations[|kept|] == Annotation(d.nextId, t, |d.content|, Footnote)
      && forall j | 0 <= j < |marks| ::
           r.annotations[|kept| + 1 + j] == Annotation(d.nextId + 1 + j, t + marks[j].start, t + marks[j].end, marks[j].body)
  {
    CutLayout(d, s, e);
    assert Footnoted(d, s, e) == Appended(Cut(d, s, e), d.content[s..e], NoteMarks(d, s, e));
    AppendedLayout(Cut(d, s, e), d.content[s..e], NoteMarks(d, s, e));
  }

  /** The footnote's `m`th mark, where it lands. */
  lemma FootnoteMark(d: Draft, s: nat, e: nat, m: nat)
    requires Fits(d) && s <= e <= |d.content| && m < |NoteMarks(d, s, e)|
    ensures var r, n, x := Footnoted(d, s, e), |Filter(d.annotations, Outside(s, e))|, NoteMarks(d, s, e)[m];
      var t := |d.content| - (e - s);
      n + 1 + m < |r.annotations| && r.annotations[n + 1 + m] == Annotation(d.nextId + 1 + m, t + x.start, t + x.end, x.body)
  {
    var cut, text, marks := Cut(d, s, e), d.content[s..e], NoteMarks(d, s, e);
    AppendedMark(cut, text, marks, m);
    assert Footnoted(d, s, e) == Appended(cut, text, marks);
  }

  lemma AppendedMark(d: Draft, text: string, marks: seq<Annotation>, m: nat)
    requires Fits(d) && AllWithin(marks, |text|) && m < |marks|
    ensures var r, n, t := Appended(d, text, marks), |d.annotations|, |d.content|;
      n + 1 + m < |r.annotations| && r.annotations[n + 1 + m] == Annotation(d.nextId + 1 + m, t + marks[m].start, t + marks[m].end, marks[m].body)
  {
    AppendedIs(d, text, marks);
  }

  /** The footnote's text is the small text, moved to the end. */
  lemma FootnoteText(d: Draft, s: nat, e: nat)
    requires Fits(d) && s <= e <= |d.content|
    ensures Footnoted(d, s, e).content == d.content[..s] + d.content[e..] + d.content[s..e]
  {
  }

  /** An annotation of the small text that is not zero-width at its start is one of the footnote's. */
  lemma NoteMarksHold(d: Draft, s: nat, e: nat, i: nat) returns (m: nat)
    requires Fits(d) && s <= e <= |d.content| && i < |d.annotations|
    requires s <= d.annotations[i].start && d.annotations[i].end <= e && s < d.annotations[i].end
    ensures var a := d.annotations[i];
      m < |NoteMarks(d, s, e)| && NoteMarks(d, s, e)[m] == a.(start := a.start - s, end := a.end - s)
  {
    var note := Slice(d.content, d.annotations, s, e);
    var a := d.annotations[i];
    assert note.annotations[i] == a.(start := a.start - s, end := a.end - s);
    assert note.annotations[i] in note.annotations;
    var marks := NoteMarks(d, s, e);
    m :| 0 <= m < |marks| && marks[m] == note.annotations[i];
  }

  /**
   * The markup of the small text follows it: an annotation inside [s, e) that is not zero-width at
   * s is found again after the footnote, over the same text at its new place, with its type.
   */
  lemma FootnoteKeepsMarkup(d: Draft, s: nat, e: nat, i: nat) returns (j: nat)
    requires Fits(d) && s <= e <= |d.content| && i < |d.annotations|
    requires s <= d.annotations[i].start && d.annotations[i].end <= e && s < d.annotations[i].end
    ensures var r, a, t := Footnoted(d, s, e), d.annotations[i], |d.content| - (e - s);
      && |Filter(d.annotations, Outside(s, e))| < j < |r.annotations|
      && r.annotations[j].body == a.body
      && r.annotations[j].start == t + (a.start - s) && r.annotations[j].end == t + (a.end - s)
      && r.content[r.annotations[j].start..r.annotations[j].end] == d.content[a.start..a.end]
  {
    var m := NoteMarksHold(d, s, e, i);
    j := |Filter(d.annotations, Outside(s, e))| + 1 + m;
    FootnoteMark(d, s, e, m);
    FootnoteText(d, s, e);
    MarkupFollows(Footnoted(d, s, e), d.content, s, e, d.annotations[i], j);
  }

  /** A mark moved with the text it covers still covers that text. */
  lemma MarkupFollows(r: Draft, c: string, s: nat, e: nat, a: Annotation, j: nat)
    requires s <= a.start <= a.end <= e <= |c| && j < |r.annotations|
    requires r.content == c[..s] + c[e..] + c[s..e]
    requires var t := |c| - (e - s);
      r.annotations[j].start == t + (a.start - s) && r.annotations[j].end == t + (a.end - s)
    ensures r.annotations[j].start <= r.annotations[j].end <= |r.content|
    ensures r.content[r.annotations[j].start..r.annotations[j].end] == c[a.start..a.end]
  {
    MovedText(c, s, e, a.start, a.end);
  }

  lemma MovedText(c: string, s: nat, e: nat, p: nat, q: nat)
    requires s <= p <= q <= e <= |c|
    ensures var rc, t := c[..s] + c[e..] + c[s..e], |c| - (e - s);
      t + (q - s) <= |rc| && rc[t + (p - s)..t + (q - s)] == c[p..q]
  {
    var ab := c[..s] + c[e..];
    assert c[..s] + c[e..] + c[s..e] == ab + c[s..e];
    ShiftedSlice(ab, c[s..e], p - s, q - s);
    assert c[s..e][p - s..q - s] == c[p..q];
  }

  // ---------------------------------------------------------------------------------------
  // Every small annotation

  /**
   * A small annotation the pass has still to visit, as the callback will see it: while it is in
   * the document its offsets follow the edits, and once a footnote before it has removed it they
   * stay where they were.
   */
  datatype Watch = Watch(start: nat, end: nat, live: bool)

  predicate Watching(ws: seq<Watch>, len: nat) {
    forall w | w in ws :: w.start <= w.end <= len
  }

  /** A watched annotation after the footnote for [s, e): removed if inside, else moved by the deletion. */
  function Followed(w: Watch, s: nat, e: nat): (r: Watch)
    requires s <= e
  {
    if !w.live then w
    else if s <= w.start && w.end <= e then w.(live := false)
    else Watch(DeletePos(w.start, s, e), DeletePos(w.end, s, e), true)
  }

  function FollowedAll(ws: seq<Watch>, s: nat, e: nat): (r: seq<Watch>)
    requires s <= e
    ensures |r| == |ws| && forall i | 0 <= i < |ws| :: r[i] == Followed(ws[i], s, e)
  {
    seq(|ws|, i requires 0 <= i < |ws| => Followed(ws[i], s, e))
  }

  /** Offsets that fitted the text still do: a footnote never changes the text's length. */
  lemma FollowedWithin(ws: seq<Watch>, s: nat, e: nat, len: nat)
    requires Watching(ws, len) && s <= e <= len
    ensures Watching(FollowedAll(ws, s, e), len)
  {
    var r := FollowedAll(ws, s, e);
    forall w | w in r ensures w.start <= w.end <= len {
      var i :| 0 <= i < |r| && r[i] == w;
      assert ws[i] in ws;
    }
  }

  /** The footnote callbacks for the watched annotations in order. */
  function FootnotesFrom(d: Draft, ws: seq<Watch>): (r: Draft)
    requires Fits(d) && Watching(ws, |d.content|)
    ensures Fits(r) && |r.content| == |d.content|
    decreases |ws|
  {
    if ws == [] then d
    else
      var w := ws[0];
      assert w in ws;
      FollowedWithin(ws[1..], w.start, w.end, |d.content|);
      FootnotesFrom(Footnoted(d, w.start, w.end), FollowedAll(ws[1..], w.start, w.end))
  }

  function Watches(anns: seq<Annotation>): (r: seq<Watch>)
    ensures |r| == |anns| && forall i | 0 <= i < |anns| :: r[i] == Watch(anns[i].start, anns[i].end, true)
  {
    seq(|anns|, i requires 0 <= i < |anns| => Watch(anns[i].start, anns[i].end, true))
  }

  /** `doc.where({type: "-mobiledoc-small"}).update(...)`: every small annotation, in document order. */
  function FootnotesMoved(d: Draft): (r: Draft)
    requires Fits(d)
    ensures Fits(r) && |r.content| == |d.content|
  {
    var smalls := Matching(d.annotations, IsSmall);
    assert Watching(Watches(smalls), |d.content|) by {
      forall w | w in Watches(smalls) ensures w.start <= w.end <= |d.content| {
        var i :| 0 <= i < |smalls| && Watches(smalls)[i] == w;
        assert smalls[i] in smalls;
      }
    }
    FootnotesFrom(d, Watches(smalls))
  }

  /** A document without small annotations is left as it was. */
  lemma NoFootnotes(d: Draft)
    requires Fits(d) && forall a | a in d.annotations :: !IsSmall(a.body)
    ensures FootnotesMoved(d) == d
  {
    MatchingNone(d.annotations, IsSmall);
    assert |Watches(Matching(d.annotations, IsSmall))| == 0;
  }

  /** No annotation of `anns` has a type `p` accepts. */
  predicate Free(anns: seq<Annotation>, p: Body -> bool) {
    forall a | a in anns :: !p(a.body)
  }

  /**
   * A footnote brings in no type that was not there: what it keeps and what it adds again are
   * annotations the document had, apart from the footnote itself.
   */
  lemma FootnotedFree(d: Draft, s: nat, e: nat, p: Body -> bool)
    requires Fits(d) && s <= e <= |d.content| && Free(d.annotations, p) && !p(Footnote)
    ensures Free(Footnoted(d, s, e).annotations, p)
  {
    CutFree(d, s, e, p);
    NoteMarksFree(d, s, e, p);
    AppendedFree(Cut(d, s, e), d.content[s..e], NoteMarks(d, s, e), p);
  }

  lemma CutFree(d: Draft, s: nat, e: nat, p: Body -> bool)
    requires Fits(d) && s <= e <= |d.content| && Free(d.annotations, p)
    ensures Free(Cut(d, s, e).annotations, p)
  {
    var kept := Filter(d.annotations, Outside(s, e));
    var r := Cut(d, s, e);
    assert r.annotations == DeletedAll(kept, s, e);
    forall a | a in r.annotations ensures !p(a.body) {
      var i :| 0 <= i < |r.annotations| && r.annotations[i] == a;
      assert a.body == kept[i].body;
      assert kept[i] in kept;
    }
  }

  lemma NoteMarksFree(d: Draft, s: nat, e: nat, p: Body -> bool)
    requires Fits(d) && s <= e <= |d.content| && Free(d.annotations, p)
    ensures Free(NoteMarks(d, s, e), p)
  {
    var note := Slice(d.content, d.annotations, s, e);
    forall a | a in NoteMarks(d, s, e) ensures !p(a.body) {
      assert a in note.annotations;
      var m :| 0 <= m < |note.annotations| && note.annotations[m] == a;
      assert d.annotations[m] in d.annotations;
    }
  }

  lemma AppendedFree(d: Draft, text: string, marks: seq<Annotation>, p: Body -> bool)
    requires Fits(d) && AllWithin(marks, |text|) && Free(d.annotations, p) && Free(marks, p) && !p(Footnote)
    ensures Free(Appended(d, text, marks).annotations, p)
  {
    var r := Appended(d, text, marks);
    var n := |d.annotations|;
    AppendedLayout(d, text, marks);
    forall a | a in r.annotations ensures !p(a.body) {
      var i :| 0 <= i < |r.annotations| && r.annotations[i] == a;
      if i < n {
        assert a == r.annotations[..n][i];
        assert d.annotations[i] in d.annotations;
      } else if i > n {
        assert marks[i - n - 1] in marks;
      }
    }
  }

  /** The whole pass brings in no type that was not there, the footnotes apart. */
  lemma {:induction false} FootnotesFromFree(d: Draft, ws: seq<Watch>, p: Body -> bool)
    requires Fits(d) && Watching(ws, |d.content|) && Free(d.annotations, p) && !p(Footnote)
    ensures Free(FootnotesFrom(d, ws).annotations, p)
    decreases |ws|
  {
    if ws != [] {
      var w := ws[0];
      assert w in ws;
      FootnotedFree(d, w.start, w.end, p);
      FollowedWithin(ws[1..], w.start, w.end, |d.content|);
      FootnotesFromFree(Footnoted(d, w.start, w.end), FollowedAll(ws[1..], w.start, w.end), p);
    }
  }

  lemma FootnotesMovedFree(d: Draft, p: Body -> bool)
    requires Fits(d) && Free(d.annotations, p) && !p(Footnote)
    ensures Free(FootnotesMoved(d).annotations, p)
  {
    var smalls := Matching(d.annotations, IsSmall);
    assert Watching(Watches(smalls), |d.content|) by {
      forall w | w in Watches(smalls) ensures w.start <= w.end <= |d.content| {
        var i :| 0 <= i < |smalls| && Watches(smalls)[i] == w;
        assert smalls[i] in smalls;
      }
    }
    FootnotesFromFree(d, Watches(smalls), p);
  }

  /** The annotations inside [s, e) removed and the text deleted, as the pass does it. */
  method CutSmall(doc: Document, s: nat, e: nat)
    requires doc.Valid() && s <= e <= |doc.content|
    modifies doc
    ensures doc.Valid() && doc.State() == Cut(old(doc.State()), s, e)
  {
    doc.KeepOnly(Outside(s, e));
    doc.DeleteText(s, e);
  }

  /** A footnote's text and annotations appended, as the pass does it. */
  method AppendNote(doc: Document, text: string, marks: seq<Annotation>)
    requires doc.Valid() && AllWithin(marks, |text|)
    modifies doc
    ensures doc.Valid() && doc.State() == Appended(old(doc.State()), text, marks)
  {
    ghost var d := doc.State();
    var start := |doc.content|;
    doc.InsertText(start, text, Preserve);
    assert doc.State() == WithText(d, start, text, Preserve);
    doc.AddAnnotations([Annotation(0, start, start + |text|, Footnote)]);
    assert doc.State() == Noted(d, text);
    RebasedWithin(marks, |text|, start, |doc.content|);
    doc.AddAnnotations(Rebased(marks, start, 0));
  }

  /** One footnote, as the pass writes it. */
  method MoveFootnote(doc: Document, s: nat, e: nat)
    requires doc.Valid() && s <= e <= |doc.content|
    modifies doc
    ensures doc.Valid() && doc.State() == Footnoted(old(doc.State()), s, e)
  {
    var note := Slice(doc.content, doc.annotations, s, e);
    var marks := Filter(note.annotations, OffOrigin);
    ghost var d := doc.State();
    assert marks == NoteMarks(d, s, e) && note.content == d.content[s..e];
    CutSmall(doc, s, e);
    AppendNote(doc, note.content, marks);
  }

  /**
   * The footnote pass: the small annotations of the document as it stood, each handed to the
   * callback with its offsets as they are by then.
   */
  method HydrateFootnotes(doc: Document)
    requires doc.Valid()
    modifies doc
    ensures doc.Valid() && doc.State() == FootnotesMoved(old(doc.State()))
  {
    ghost var d0 := doc.State();
    var pending := Watches(Matching(doc.annotations, IsSmall));
    assert FootnotesMoved(d0) == FootnotesFrom(d0, pending);
    while pending != []
      invariant doc.Valid() && Watching(pending, |doc.content|)
      invariant FootnotesFrom(doc.State(), pending) == FootnotesMoved(d0)
      decreases |pending|
    {
      var w := pending[0];
      assert w in pending;
      FollowedWithin(pending[1..], w.start, w.end, |doc.content|);
      MoveFootnote(doc, w.start, w.end);
      pending := FollowedAll(pending[1..], w.start, w.end);
    }
  }
}
