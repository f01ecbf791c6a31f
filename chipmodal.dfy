/**
 * The instruction collector of `src/modals/customInstructionsModal.ts`:
 * suggestion chips, a free-text field, and two intents, replace and ask,
 * reachable from buttons and keyboard shortcuts. A blank instruction text is
 * refused without closing.
 */
module ChipModal {
  import opened Outcomes
  import opened JsString
  import opened Host

  /** The two submission intents (`type: "replace" | "ask"`). */
  datatype Intent = Replace | Ask

  /** `ModaiResult`: what `onSubmit` receives. */
  datatype ModaiResult = ModaiResult(instructions: string, intent: Intent)

  /**
   * The keyboard shortcuts: with Ctrl or Cmd held, Enter and r/R mean
   * replace and a/A means ask; every other key, and any key without a
   * modifier, means nothing.
   */
  function KeyIntent(e: KeyEvent): (r: Option<Intent>)
    ensures r.Some? ==> IsMod(e)
    ensures r == Some(Ask) ==> |e.key| == 1
    ensures IsMod(e) && e.key == "Enter" ==> r == Some(Replace)
  {
    if IsMod(e) && e.key == "Enter" then Some(Replace)
    else if IsMod(e) && ToLowerAscii(e.key) == "r" then Some(Replace)
    else if IsMod(e) && ToLowerAscii(e.key) == "a" then Some(Ask)
    else None
  }

  /** The shortcut table, stated key by key: exactly which events submit, and with which intent. */
  lemma KeyIntentTable(e: KeyEvent)
    ensures KeyIntent(e) == Some(Replace) <==> IsMod(e) && (e.key == "Enter" || e.key == "r" || e.key == "R")
    ensures KeyIntent(e) == Some(Ask) <==> IsMod(e) && (e.key == "a" || e.key == "A")
    ensures !IsMod(e) ==> KeyIntent(e) == None
  {
    LowerKeyIs(e.key, 'r');
    LowerKeyIs(e.key, 'a');
    assert ToLowerAscii("Enter")[0] == 'e';
  }

  /**
   * `handleSubmit(type)`'s decision: a text that is all white space is
   * refused; any other is passed on untrimmed, with the intent.
   */
  function Submission(instructions: string, intent: Intent): (r: Option<ModaiResult>)
    ensures r.Some? <==> !AllSpace(instructions)
    ensures r.Some? ==> r.value.instructions == instructions && r.value.intent == intent
  {
    if IsBlank(instructions) then None else Some(ModaiResult(instructions, intent))
  }

  class CustomInstructionsModal {
    /** The one mutable field: the current instruction text. */
    var instructions: string
    /** The role table the chips are built from: label to instruction text. */
    const suggestions: map<string, string>
    var isOpen: bool
    /** Every call of `onSubmit`, in order. */
    var submitted: seq<ModaiResult>

    constructor (suggestions: map<string, string>)
      ensures instructions == "" && this.suggestions == suggestions
      ensures !isOpen && submitted == []
    {
      instructions := "";
      this.suggestions := suggestions;
      isOpen := false;
      submitted := [];
    }

    method Open()
      modifies this`isOpen
      ensures isOpen
    {
      isOpen := true;
    }

    /** A chip click: the field takes that chip's text, whatever it held; the dialog stays open. */
    method ClickChip(chip: string)
      requires isOpen && chip in suggestions
      modifies this`instructions
      ensures instructions == suggestions[chip]
    {
      instructions := suggestions[chip];
    }

    /** A change in the text area: the field takes the new value. */
    method Change(value: string)
      requires isOpen
      modifies this`instructions
      ensures instructions == value
    {
      instructions := value;
    }

    /** `handleSubmit(intent)`: refused while the text is blank; otherwise one `onSubmit` call, then close. */
    method HandleSubmit(intent: Intent)
      requires isOpen
      modifies this`submitted, this`isOpen
      ensures var s := Submission(instructions, intent);
        && submitted == old(submitted) + (if s.Some? then [s.value] else [])
        && isOpen == s.None?
    {
      if IsBlank(instructions) {
        return;
      }
      submitted := submitted + [ModaiResult(instructions, intent)];
      isOpen := false;
    }

    /** The "Ask" button. */
    method ClickAsk()
      requires isOpen
      modifies this`submitted, this`isOpen
      ensures var s := Submission(instructions, Ask);
        submitted == old(submitted) + (if s.Some? then [s.value] else []) && isOpen == s.None?
    {
      HandleSubmit(Ask);
    }

    /** The "Replace" button. */
    method ClickReplace()
      requires isOpen
      modifies this`submitted, this`isOpen
      ensures var s := Submission(instructions, Replace);
        submitted == old(submitted) + (if s.Some? then [s.value] else []) && isOpen == s.None?
    {
      HandleSubmit(Replace);
    }

    /** A `keydown`: a shortcut prevents the default action and submits with its intent; any other key does nothing. */
    method KeyDown(e: KeyEvent) returns (defaultPrevented: bool)
      requires isOpen
      modifies this`submitted, this`isOpen
      ensures defaultPrevented == KeyIntent(e).Some?
      ensures KeyIntent(e).None? ==> submitted == old(submitted) && isOpen
      ensures KeyIntent(e).Some? ==>
        var s := Submission(instructions, KeyIntent(e).value);
        submitted == old(submitted) + (if s.Some? then [s.value] else []) && isOpen == s.None?
    {
      var intent := KeyIntent(e);
      defaultPrevented := intent.Some?;
      if intent.Some? {
        HandleSubmit(intent.value);
      }
    }
  }
}
