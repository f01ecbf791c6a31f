/**
 * The diff review (`DiffModal`): the parts of a word diff rendered in order,
 * each as exactly one of added, removed or unchanged, and two buttons:
 * accept hands back the proposed text, cancel hands back nothing.
 * The diff itself comes from a library and is a parameter here.
 */
module DiffReview {

  /** One part of the diff library's output, as its `Change` type has it. */
  datatype Change = Change(value: string, added: bool, removed: bool)

  /** The word diff of an old and a new text, as the library computes it. */
  type WordDiff = (string, string) -> seq<Change>

  datatype Kind = Added | Removed | Unchanged

  /** A rendered span: the part's text and its one class. */
  datatype Span = Span(text: string, kind: Kind)

  /**
   * The class of a part: added takes precedence over removed, and a part
   * flagged neither way is unchanged.
   */
  function Classify(c: Change): (k: Kind)
    ensures k == Added <==> c.added
    ensures k == Removed <==> c.removed && !c.added
    ensures k == Unchanged <==> !c.added && !c.removed
  {
    if c.added then Added else if c.removed then Removed else Unchanged
  }

  /** The spans the review shows, one per part, in the parts' order. */
  function Rendered(changes: seq<Change>): (spans: seq<Span>)
    ensures |spans| == |changes|
    ensures forall i | 0 <= i < |changes| :: spans[i] == Span(changes[i].value, Classify(changes[i]))
  {
    if changes == [] then [] else [Span(changes[0].value, Classify(changes[0]))] + Rendered(changes[1..])
  }

  /** The `forEach` over the parts: one span per part, appended in order. */
  method RenderParts(changes: seq<Change>) returns (spans: seq<Span>)
    ensures spans == Rendered(changes)
  {
    spans := [];
    for i := 0 to |changes|
      invariant |spans| == i
      invariant forall j | 0 <= j < i :: spans[j] == Span(changes[j].value, Classify(changes[j]))
    {
      spans := spans + [Span(changes[i].value, Classify(changes[i]))];
    }
  }

  /** The text a side of the review shows: every span except those of the excluded kind, concatenated. */
  function SideText(spans: seq<Span>, excluded: Kind): string {
    if spans == [] then ""
    else (if spans[0].kind == excluded then "" else spans[0].text) + SideText(spans[1..], excluded)
  }

  /** The original a diff describes: the values of the parts not flagged added. */
  function OldSide(changes: seq<Change>): string {
    if changes == [] then ""
    else (if changes[0].added then "" else changes[0].value) + OldSide(changes[1..])
  }

  /** The proposal a diff describes: the values of the parts not flagged removed. */
  function NewSide(changes: seq<Change>): string {
    if changes == [] then ""
    else (if changes[0].removed then "" else changes[0].value) + NewSide(changes[1..])
  }

  /** No part is flagged both added and removed, as the diff library guarantees. */
  predicate Exclusive(changes: seq<Change>) {
    forall i | 0 <= i < |changes| :: !(changes[i].added && changes[i].removed)
  }

  /**
   * The rendering keeps both texts readable: the unchanged and removed spans
   * spell the original the diff describes, the unchanged and added spans the
   * proposal.
   */
  lemma {:induction false} RenderedSides(changes: seq<Change>)
    requires Exclusive(changes)
    ensures SideText(Rendered(changes), Added) == OldSide(changes)
    ensures SideText(Rendered(changes), Removed) == NewSide(changes)
  {
    if changes != [] {
      RenderedSides(changes[1..]);
      assert Rendered(changes)[1..] == Rendered(changes[1..]);
    }
  }

  /** The notice the review shows when the change is discarded. */
  const DiscardedNotice := "Changes discarded"

  /** The review dialog for one proposed change. */
  class DiffModal {
    const oldText: string
    const newText: string
    /** The text handed to `onAccept`; set once, never reassigned. */
    var result: string
    var isOpen: bool
    var spans: seq<Span>
    /** Every call of `onAccept`, in order. */
    var accepted: seq<string>

    ghost predicate Valid()
      reads this
    {
      result == newText
    }

    constructor (oldText: string, newText: string)
      ensures Valid()
      ensures this.oldText == oldText && this.newText == newText
      ensures !isOpen && spans == [] && accepted == []
    {
      this.oldText := oldText;
      this.newText := newText;
      result := newText;
      isOpen := false;
      spans := [];
      accepted := [];
    }

    /** `onOpen`: diff the old text against the new one, in that order, and render every part. */
    method Open(diffWords: WordDiff)
      requires Valid()
      modifies this
      ensures Valid() && isOpen
      ensures spans == Rendered(diffWords(oldText, newText))
      ensures accepted == old(accepted)
    {
      var changes := diffWords(oldText, newText);
      spans := RenderParts(changes);
      isOpen := true;
    }

    /** "Accept changes": `onAccept` receives exactly the proposed text, once, then the dialog closes. */
    method Accept() returns (finalText: string)
      requires Valid() && isOpen
      modifies this
      ensures Valid() && !isOpen
      ensures finalText == newText
      ensures accepted == old(accepted) + [newText]
      ensures spans == old(spans)
    {
      finalText := result;
      accepted := accepted + [finalText];
      isOpen := false;
    }

    /** "Cancel": the discard notice is shown, the dialog closes and `onAccept` is never called. */
    method Cancel() returns (notice: string)
      requires Valid() && isOpen
      modifies this
      ensures Valid() && !isOpen
      ensures notice == DiscardedNotice
      ensures accepted == old(accepted)
      ensures spans == old(spans)
    {
      notice := DiscardedNotice;
      isOpen := false;
    }

    /**
     * Closed by the host without either button (Escape, the close button, a
     * click outside): only `onClose` runs, so no notice is shown and
     * `onAccept` is never called.
     */
    method Dismiss()
      requires Valid() && isOpen
      modifies this
      ensures Valid() && !isOpen
      ensures accepted == old(accepted)
      ensures spans == old(spans)
    {
      isOpen := false;
    }
  }
}
