/**
 * The earlier instruction collector of `src/customInstructionsModal.ts`:
 * chips and a free-text field, Cancel and Submit buttons, and Ctrl/Cmd+Enter
 * as the only shortcut. Its `result` field starts out undefined, so a submit
 * before any input faults on `undefined.trim()`.
 */
module LegacyChipModal {
  import opened Outcomes
  import opened JsString
  import opened Host

  /** What a submit attempt comes to. */
  datatype SubmitOutcome =
    | Faulted    // `this.result.trim()` threw a TypeError: nothing submitted, dialog still open
    | Refused    // blank text: nothing submitted, dialog still open
    | Submitted(text: string)

  /** `handleSubmit()`'s decision on the field's current value (`None` while it is still undefined). */
  function SubmitDecision(result: Option<string>): (o: SubmitOutcome)
    ensures o.Faulted? <==> result.None?
    ensures o.Refused? <==> result.Some? && AllSpace(result.value)
    ensures o.Submitted? ==> result == Some(o.text)
  {
    if result.None? then Faulted
    else if IsBlank(result.value) then Refused
    else Submitted(result.value)
  }

  /** The only shortcut: Enter with Ctrl or Cmd held. */
  predicate IsSubmitKey(e: KeyEvent) {
    e.key == "Enter" && IsMod(e)
  }

  class CustomInstructionsModal {
    /** The instruction text; `None` until the first keystroke or chip click. */
    var result: Option<string>
    const suggestions: map<string, string>
    var isOpen: bool
    /** Every call of `onSubmit`, in order. */
    var submitted: seq<string>

    constructor (suggestions: map<string, string>)
      ensures result.None? && this.suggestions == suggestions
      ensures !isOpen && submitted == []
    {
      result := None;
      this.suggestions := suggestions;
      isOpen := false;
      submitted := [];
    }

    method Open()
      modifies this`isOpen
      ensures isOpen
    {
      isOpen := true;
    }

    /** A chip click: the field takes that chip's text. */
    method ClickChip(chip: string)
      requires isOpen && chip in suggestions
      modifies this`result
      ensures result == Some(suggestions[chip])
    {
      result := Some(suggestions[chip]);
    }

    /** A change in the text area. */
    method Change(value: string)
      requires isOpen
      modifies this`result
      ensures result == Some(value)
    {
      result := Some(value);
    }

    /** "Cancel": close without calling `onSubmit`. */
    method Cancel()
      requires isOpen
      modifies this`isOpen
      ensures !isOpen
    {
      isOpen := false;
    }

    /**
     * `handleSubmit()`: a fault or a blank text changes nothing; otherwise
     * `onSubmit` gets the untrimmed text once and the dialog closes.
     */
    method HandleSubmit() returns (outcome: SubmitOutcome)
      requires isOpen
      modifies this`submitted, this`isOpen
      ensures outcome == SubmitDecision(result)
      ensures outcome.Submitted? ==> submitted == old(submitted) + [outcome.text] && !isOpen
      ensures !outcome.Submitted? ==> submitted == old(submitted) && isOpen
    {
      if result.None? {
        return Faulted;
      }
      if IsBlank(result.value) {
        return Refused;
      }
      submitted := submitted + [result.value];
      isOpen := false;
      outcome := Submitted(result.value);
    }

    /** A `keydown`: Ctrl/Cmd+Enter prevents the default and submits; nothing else reacts. */
    method KeyDown(e: KeyEvent) returns (defaultPrevented: bool, outcome: Option<SubmitOutcome>)
      requires isOpen
      modifies this`submitted, this`isOpen
      ensures defaultPrevented == IsSubmitKey(e)
      ensures !IsSubmitKey(e) ==> outcome.None? && submitted == old(submitted) && isOpen
      ensures IsSubmitKey(e) ==> outcome == Some(SubmitDecision(result))
      ensures IsSubmitKey(e) && SubmitDecision(result).Submitted? ==>
        submitted == old(submitted) + [result.value] && !isOpen
      ensures IsSubmitKey(e) && !SubmitDecision(result).Submitted? ==> submitted == old(submitted) && isOpen
    {
      defaultPrevented := IsSubmitKey(e);
      outcome := None;
      if defaultPrevented {
        var o := HandleSubmit();
        outcome := Some(o);
      }
    }
  }

  /**
   * A submit before any keystroke or chip click faults: `onSubmit` is not
   * called and the dialog stays open.
   */
  method SubmitBeforeInput(suggestions: map<string, string>) returns (outcome: SubmitOutcome, handed: seq<string>, open: bool)
    ensures outcome == Faulted && handed == [] && open
  {
    var modal := new CustomInstructionsModal(suggestions);
    modal.Open();
    outcome := modal.HandleSubmit();
    handed, open := modal.submitted, modal.isOpen;
  }
}
