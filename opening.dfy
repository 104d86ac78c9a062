/**
 * The first two passes of hydrating a post: the title line written above the body (every page
 * but the home page), and the removal of paragraphs that hold no text.
 */
module OpeningPasses {
  import opened Collections
  import opened Annotations
  import opened Documents

  /** The slug of the one post that is shown without a title line. */
  const HomeSlug := "home"

  /**
   * The title line on a state: the title and a newline go in at offset 0, then a parse token
   * over the newline, then a level-1 heading over the whole line, each added on its own.
   */
  function Titled(d: Draft, slug: string, title: string): (r: Draft)
    requires Fits(d)
    ensures Fits(r)
  {
    if slug == HomeSlug then d
    else
      var lined := WithText(d, 0, title + "\n", Default);
      var marked := WithAdded(lined, [Annotation(0, |title|, |title| + 1, ParseToken)]);
      WithAdded(marked, [Annotation(0, 0, |title| + 1, Heading(1, false))])
  }

  /**
   * The home page is left alone. Any other post reads its title and a newline, then the body
   * it had; every annotation it had moves down by the length of that line and still covers the
   * same text; after them come the parse token over the newline and the level-1 heading over
   * the whole line, numbered in that order from the counter.
   */
  lemma TitledLayout(d: Draft, slug: string, title: string)
    requires Fits(d)
    ensures slug == HomeSlug ==> Titled(d, slug, title) == d
    ensures slug != HomeSlug ==>
      var r := Titled(d, slug, title);
      var n := |title| + 1;
      && r.content == title + "\n" + d.content
      && r.nextId == d.nextId + 2
      && |r.annotations| == |d.annotations| + 2
      && (forall i | 0 <= i < |d.annotations| ::
            && r.annotations[i] == d.annotations[i].(start := d.annotations[i].start + n, end := d.annotations[i].end + n)
            && r.content[r.annotations[i].start..r.annotations[i].end] == d.content[d.annotations[i].start..d.annotations[i].end])
      && r.annotations[|d.annotations|] == Annotation(d.nextId, |title|, n, ParseToken)
      && r.annotations[|d.annotations| + 1] == Annotation(d.nextId + 1, 0, n, Heading(1, false))
      && r.content[..|title|] == title
  {
    if slug != HomeSlug {
      var n := |title| + 1;
      var r := Titled(d, slug, title);
      InsertedAtStartDefault(d.annotations, n);
      assert r.content == title + "\n" + d.content;
      forall i | 0 <= i < |d.annotations|
        ensures r.content[r.annotations[i].start..r.annotations[i].end] == d.content[d.annotations[i].start..d.annotations[i].end]
      {
        var a := d.annotations[i];
        assert r.annotations[i] == a.(start := a.start + n, end := a.end + n);
        ShiftedSlice(title + "\n", d.content, a.start, a.end);
      }
    }
  }

  /** The post's title line, written as the pass writes it. */
  method InsertTitle(doc: Document, slug: string, title: string)
    requires doc.Valid()
    modifies doc
    ensures doc.Valid() && doc.State() == Titled(old(doc.State()), slug, title)
  {
    if slug != HomeSlug {
      doc.InsertText(0, title + "\n", Default);
      doc.AddAnnotations([Annotation(0, |title|, |title| + 1, ParseToken)]);
      doc.AddAnnotations([Annotation(0, 0, |title| + 1, Heading(1, false))]);
    }
  }

  /** A state with its empty paragraphs removed; text and counter untouched. */
  function EmptyParagraphsDropped(d: Draft): (r: Draft)
    requires Fits(d)
    ensures Fits(r)
  {
    d.(annotations := Filter(d.annotations, NotEmptyParagraph))
  }

  /**
   * After the removal no paragraph is empty, every other annotation is still there, the text
   * and the counter are unchanged, a second removal changes nothing, and a document without an
   * empty paragraph is left exactly as it was.
   */
  lemma EmptyParagraphsDroppedProps(d: Draft)
    requires Fits(d)
    ensures var r := EmptyParagraphsDropped(d);
      && r.content == d.content && r.nextId == d.nextId
      && (forall a :: a in r.annotations <==> a in d.annotations && NotEmptyParagraph(a))
      && EmptyParagraphsDropped(r) == r
      && ((forall a | a in d.annotations :: NotEmptyParagraph(a)) ==> r == d)
  {
    var r := EmptyParagraphsDropped(d);
    FilterKeepsAll(r.annotations, NotEmptyParagraph);
    if forall a | a in d.annotations :: NotEmptyParagraph(a) {
      FilterKeepsAll(d.annotations, NotEmptyParagraph);
    }
  }

  /** `where({type: "-mobiledoc-p"}).where(a => a.start === a.end).remove()`. */
  method DropEmptyParagraphs(doc: Document)
    requires doc.Valid()
    modifies doc
    ensures doc.Valid() && doc.State() == EmptyParagraphsDropped(old(doc.State()))
  {
    doc.KeepOnly(NotEmptyParagraph);
  }
}
