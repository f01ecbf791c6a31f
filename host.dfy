/**
 * The parts of the editing host the plugin touches: the editor (a document
 * with a selection, positions as character offsets) and keyboard events.
 */
module Host {

  /** The document after `replaceRange(t, from, to)`: the range gives way to `t`. */
  function Spliced(doc: string, t: string, from: nat, to: nat): (d: string)
    requires from <= to <= |doc|
    ensures |d| == |doc| - (to - from) + |t|
    ensures d[..from] == doc[..from]
    ensures d[from..from + |t|] == t
    ensures d[from + |t|..] == doc[to..]
  {
    doc[..from] + t + doc[to..]
  }

  /** Replacing a range with what it already holds leaves the document as it was. */
  lemma SplicedSelf(doc: string, from: nat, to: nat)
    requires from <= to <= |doc|
    ensures Spliced(doc, doc[from..to], from, to) == doc
  {
    assert doc == doc[..from] + doc[from..to] + doc[to..];
  }

  /** The editor of the active Markdown view. */
  class Editor {
    var text: string
    var from: nat
    var to: nat

    /** The selection lies inside the document, `from` before `to`. */
    ghost predicate Valid()
      reads this
    {
      from <= to <= |text|
    }

    constructor (text: string, from: nat, to: nat)
      requires from <= to <= |text|
      ensures Valid()
      ensures this.text == text && this.from == from && this.to == to
    {
      this.text := text;
      this.from := from;
      this.to := to;
    }

    /** `getSelection()`. */
    function Selection(): string
      reads this
      requires Valid()
    {
      text[from..to]
    }

    /** The user moves the selection. */
    method Select(newFrom: nat, newTo: nat)
      requires newFrom <= newTo <= |text|
      modifies this`from, this`to
      ensures Valid() && from == newFrom && to == newTo
    {
      from, to := newFrom, newTo;
    }

    /** `replaceRange(t, from, to)`; where the host leaves the cursor is not stated. */
    method ReplaceRange(t: string, rangeFrom: nat, rangeTo: nat)
      requires rangeFrom <= rangeTo <= |text|
      modifies this
      ensures Valid()
      ensures text == Spliced(old(text), t, rangeFrom, rangeTo)
    {
      text := Spliced(text, t, rangeFrom, rangeTo);
      from, to := rangeFrom + |t|, rangeFrom + |t|;
    }

    /** `setValue(t)`; where the host leaves the cursor is not stated. */
    method SetValue(t: string)
      modifies this
      ensures Valid()
      ensures text == t
    {
      text, from, to := t, 0, 0;
    }
  }

  /** A `keydown` event: the key name and the two modifiers the modals test. */
  datatype KeyEvent = KeyEvent(key: string, ctrlKey: bool, metaKey: bool)

  /** `e.ctrlKey || e.metaKey`: Ctrl on Windows and Linux, Cmd on macOS. */
  predicate IsMod(e: KeyEvent) {
    e.ctrlKey || e.metaKey
  }
}
