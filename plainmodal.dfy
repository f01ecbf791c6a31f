/**
 * The first instruction collector, `src/modal.ts`: a text area and a Submit
 * button. Submitting closes the dialog and passes the text on as it is; a
 * blank text is not refused.
 */
module PlainModal {
  import opened Host

  /** The only shortcut: Enter with Ctrl or Cmd held. */
  predicate IsSubmitKey(e: KeyEvent) {
    e.key == "Enter" && IsMod(e)
  }

  class CustomInstructionsModal {
    var result: string
    var isOpen: bool
    /** Every call of `onSubmit`, in order. */
    var submitted: seq<string>

    constructor ()
      ensures result == "" && !isOpen && submitted == []
    {
      result := "";
      isOpen := false;
      submitted := [];
    }

    method Open()
      modifies this`isOpen
      ensures isOpen
    {
      isOpen := true;
    }

    /** A change in the text area. */
    method Change(value: string)
      requires isOpen
      modifies this`result
      ensures result == value
    {
      result := value;
    }

    /** "Submit": close, then `onSubmit` with the text, whatever it is (the empty string included). */
    method Submit()
      requires isOpen
      modifies this`submitted, this`isOpen
      ensures !isOpen
      ensures submitted == old(submitted) + [result]
    {
      isOpen := false;
      submitted := submitted + [result];
    }

    /** A `keydown`: Ctrl/Cmd+Enter does what Submit does; every other key, plain Enter included, nothing. */
    method KeyDown(e: KeyEvent) returns (defaultPrevented: bool)
      requires isOpen
      modifies this`submitted, this`isOpen
      ensures defaultPrevented == IsSubmitKey(e)
      ensures IsSubmitKey(e) ==> !isOpen && submitted == old(submitted) + [result]
      ensures !IsSubmitKey(e) ==> isOpen && submitted == old(submitted)
    {
      defaultPrevented := IsSubmitKey(e);
      if defaultPrevented {
        Submit();
      }
    }
  }

  /**
   * Nothing guards a submit: a dialog left untouched hands the empty string
   * on and closes.
   */
  method SubmitUntouched() returns (handed: seq<string>)
    ensures handed == [""]
  {
    var modal := new CustomInstructionsModal();
    modal.Open();
    modal.Submit();
    handed := modal.submitted;
  }
}
