/**
 * The plugin itself (`main.ts`): loading the settings, composing the prompt,
 * routing a model id to its provider, and the two commands, a fixed role
 * applied to the selection or the whole note, and custom instructions with a
 * replace or ask intent, each ending in a reviewed edit or none.
 */
module Main {
  import opened Outcomes
  import opened JsString
  import opened Wire
  import opened Host
  import Settings
  import Provider
  import Llama
  import opened ChipModal
  import opened DiffReview

  /**
   * `this.settings` after loading: the four members the defaults supply, and
   * four that only stored data can supply and that stay undefined otherwise.
   */
  datatype ModaiSettings = ModaiSettings(
    openAIKey: string,
    openAImodel: string,
    temperature: real,
    roles: map<string, string>,
    model: Option<string>,
    geminiAIKey: Option<string>,
    llamaAIKey: Option<string>,
    llamaBaseUrl: Option<string>)

  /** What `loadData()` returns: any member may be missing (all of them when nothing was saved). */
  datatype StoredSettings = StoredSettings(
    openAIKey: Option<string>,
    openAImodel: Option<string>,
    temperature: Option<real>,
    roles: Option<map<string, string>>,
    model: Option<string>,
    geminiAIKey: Option<string>,
    llamaAIKey: Option<string>,
    llamaBaseUrl: Option<string>)

  const NothingStored := StoredSettings(None, None, None, None, None, None, None, None)

  /**
   * `Object.assign({}, DEFAULT_SETTINGS, stored)`: a stored member replaces
   * the default one wholesale (the role table included, so stored roles are
   * not merged with the default roles); a missing member keeps the default.
   */
  function Merged(stored: StoredSettings): (s: ModaiSettings)
    ensures stored.openAIKey.Some? ==> s.openAIKey == stored.openAIKey.value
    ensures stored.openAIKey.None? ==> s.openAIKey == ""
    ensures stored.openAImodel.Some? ==> s.openAImodel == stored.openAImodel.value
    ensures stored.openAImodel.None? ==> s.openAImodel == "gpt-5-mini"
    ensures stored.temperature.Some? ==> s.temperature == stored.temperature.value
    ensures stored.temperature.None? ==> s.temperature == 0.7
    ensures stored.roles.Some? ==> s.roles == stored.roles.value
    ensures stored.roles.None? ==> s.roles == Settings.DefaultSettings.roles
    // members with no default stay undefined unless stored
    ensures s.model == stored.model && s.geminiAIKey == stored.geminiAIKey
    ensures s.llamaAIKey == stored.llamaAIKey && s.llamaBaseUrl == stored.llamaBaseUrl
  {
    var d := Settings.DefaultSettings;
    ModaiSettings(
      stored.openAIKey.GetOr(d.openAIKey),
      stored.openAImodel.GetOr(d.openAImodel),
      stored.temperature.GetOr(d.temperature),
      stored.roles.GetOr(d.roles),
      stored.model, stored.geminiAIKey, stored.llamaAIKey, stored.llamaBaseUrl)
  }

  /** What `saveData(this.settings)` writes: every member that is defined. */
  function Saved(s: ModaiSettings): (d: StoredSettings)
    ensures d.openAIKey == Some(s.openAIKey) && d.openAImodel == Some(s.openAImodel)
    ensures d.temperature == Some(s.temperature) && d.roles == Some(s.roles)
    ensures d.model == s.model && d.geminiAIKey == s.geminiAIKey
    ensures d.llamaAIKey == s.llamaAIKey && d.llamaBaseUrl == s.llamaBaseUrl
  {
    StoredSettings(Some(s.openAIKey), Some(s.openAImodel), Some(s.temperature), Some(s.roles),
      s.model, s.geminiAIKey, s.llamaAIKey, s.llamaBaseUrl)
  }

  /** Saving and loading again gives the same settings back. */
  lemma LoadAfterSave(s: ModaiSettings)
    ensures Merged(Saved(s)) == s
  {
  }

  /** With nothing saved, the settings are the defaults and no model is chosen. */
  lemma LoadWithNothingSaved()
    ensures var s := Merged(NothingStored);
      && s.openAIKey == "" && s.openAImodel == "gpt-5-mini" && s.temperature == 0.7
      && s.roles.Keys == {"Text editor", "SEO Engineer", "Author"}
      && s.model.None?
  {
  }

  /** `${value}` in a template literal: an undefined member reads "undefined". */
  function JsText(value: Option<string>): string {
    value.GetOr("undefined")
  }

  /** The fixed literal between the instructions and the text: newline, three tabs, header, newline, three tabs. */
  const InputHeader := "\n\t\t\t### INPUT TEXT\n\t\t\t"

  /**
   * The message sent for `instructions` and `text`: the instructions, the
   * header, then the text verbatim.
   */
  function Compose(instructions: string, text: string): (m: string)
    ensures |m| == |instructions| + |InputHeader| + |text|
    ensures m[..|instructions|] == instructions
    ensures m[|instructions|..|instructions| + |InputHeader|] == InputHeader
    ensures m[|instructions| + |InputHeader|..] == text
  {
    instructions + InputHeader + text
  }

  /** Reads the text back out of a message composed with the given instructions. */
  function InputOf(message: string, instructions: string): Option<string> {
    var n := |instructions| + |InputHeader|;
    if n <= |message| && message[..|instructions|] == instructions && message[|instructions|..n] == InputHeader
    then Some(message[n..]) else None
  }

  /** The text is recoverable from the message: nothing is truncated, escaped or re-encoded. */
  lemma ComposeRoundTrip(instructions: string, text: string)
    ensures InputOf(Compose(instructions, text), instructions) == Some(text)
  {
  }

  /** The backend families and the ordered prefix table the router tests. */
  datatype Family = OpenAIFamily | GeminiFamily | LlamaFamily

  const RoutingTable: seq<(string, Family)> :=
    [("gpt", OpenAIFamily), ("gemini", GeminiFamily), ("llama", LlamaFamily)]

  /** The family of the first table entry whose prefix the model id starts with. */
  function FirstMatch(table: seq<(string, Family)>, model: string): Option<Family> {
    if table == [] then None
    else if table[0].0 <= model then Some(table[0].1)
    else FirstMatch(table[1..], model)
  }

  /** First match wins: the entry found is the earliest one whose prefix matches, and none matches when nothing is found. */
  lemma {:induction false} FirstMatchIsFirst(table: seq<(string, Family)>, model: string)
    ensures FirstMatch(table, model).None? <==> forall i | 0 <= i < |table| :: !(table[i].0 <= model)
    ensures FirstMatch(table, model).Some? ==>
      exists i | 0 <= i < |table| :: table[i].0 <= model && table[i].1 == FirstMatch(table, model).value
        && forall j | 0 <= j < i :: !(table[j].0 <= model)
  {
    if table != [] {
      FirstMatchIsFirst(table[1..], model);
      if !(table[0].0 <= model) && FirstMatch(table, model).Some? {
        var i :| 0 <= i < |table[1..]| && table[1..][i].0 <= model && table[1..][i].1 == FirstMatch(table, model).value
          && forall j | 0 <= j < i :: !(table[1..][j].0 <= model);
        assert table[i + 1].0 <= model;
        assert forall j | 0 <= j < i + 1 :: !(table[j].0 <= model) by {
          forall j | 0 <= j < i + 1 ensures !(table[j].0 <= model) {
            if j > 0 { assert table[j] == table[1..][j - 1]; }
          }
        }
      }
    }
  }

  /** The three prefixes exclude one another: no model id starts with two of them, so their order never decides. */
  lemma PrefixesExclusive(model: string)
    ensures !("gpt" <= model && "gemini" <= model)
    ensures !("gpt" <= model && "llama" <= model)
    ensures !("gemini" <= model && "llama" <= model)
  {
    if "gpt" <= model {
      assert model[0] == 'g' && model[1] == 'p';
    }
    if "gemini" <= model {
      assert model[0] == 'g' && model[1] == 'e';
    }
  }

  const UnknownPrefix := "Unknown model provider for: "

  /** The table read entry by entry. */
  lemma RoutingTableUnfolded(model: string)
    ensures FirstMatch(RoutingTable, model) ==
      if "gpt" <= model then Some(OpenAIFamily)
      else if "gemini" <= model then Some(GeminiFamily)
      else if "llama" <= model then Some(LlamaFamily)
      else None
  {
    var t := RoutingTable;
    assert t[1..] == [("gemini", GeminiFamily), ("llama", LlamaFamily)];
    assert t[1..][1..] == [("llama", LlamaFamily)];
    assert t[1..][1..][1..] == [];
    assert FirstMatch(t[1..][1..][1..], model) == None;
    assert FirstMatch(t[1..][1..], model) == if "llama" <= model then Some(LlamaFamily) else None;
    assert FirstMatch(t[1..], model) ==
      if "gemini" <= model then Some(GeminiFamily) else FirstMatch(t[1..][1..], model);
  }

  function FamilyOf(p: Provider.Provider): Family {
    match p
    case ChatGpt(_) => OpenAIFamily
    case Gemini(_) => GeminiFamily
    case Llama(_) => LlamaFamily
  }

  /**
   * The provider for a model id, by the prefix table, built from the
   * settings' credentials; an id no prefix matches is an error naming it.
   */
  function Resolve(model: string, s: ModaiSettings): (r: Result<Provider.Provider>)
    ensures r.Err? <==> FirstMatch(RoutingTable, model).None?
    ensures r.Ok? ==> FirstMatch(RoutingTable, model) == Some(FamilyOf(r.value))
    ensures r.Err? ==> r.message == UnknownPrefix + model
    ensures r == Ok(Provider.ChatGpt(s.openAIKey)) || r == Ok(Provider.Gemini(JsText(s.geminiAIKey)))
      || r == Ok(Provider.Llama(Llama.New(s.llamaAIKey, s.llamaBaseUrl))) || r.Err?
  {
    RoutingTableUnfolded(model);
    if "gpt" <= model then Ok(Provider.ChatGpt(s.openAIKey))
    else if "gemini" <= model then Ok(Provider.Gemini(JsText(s.geminiAIKey)))
    else if "llama" <= model then Ok(Provider.Llama(Llama.New(s.llamaAIKey, s.llamaBaseUrl)))
    else Err(UnknownPrefix + model)
  }

  /** A query: the request it sent, if any, and what came of it. */
  datatype Query = Query(sent: Option<Request>, result: Result<string>)

  /** The requests a query adds to the log. */
  function SentLog(q: Query): seq<Request> {
    if q.sent.Some? then [q.sent.value] else []
  }

  /** The TypeError `this.settings.model.startsWith` throws when no model was ever stored. */
  const UndefinedModelRead := "Cannot read properties of undefined (reading 'startsWith')"

  /**
   * `queryProvider(instructions, text)`. With no model chosen it throws
   * before routing; with an unroutable model it throws before any request;
   * otherwise the chosen provider is called once with the composed message,
   * the model id and the temperature unchanged.
   */
  function QueryProvider(s: ModaiSettings, instructions: string, text: string, net: Network): (q: Query)
    ensures s.model.None? ==> q == Query(None, Err(UndefinedModelRead))
    ensures s.model.Some? && FirstMatch(RoutingTable, s.model.value).None? ==>
      q == Query(None, Err(UnknownPrefix + s.model.value))
    ensures s.model.Some? && Resolve(s.model.value, s).Ok? ==>
      var p := Resolve(s.model.value, s).value;
      && q.sent == Some(Provider.RequestFor(p, Compose(instructions, text), s.model.value, s.temperature))
      && Provider.SentMessage(p, q.sent.value) == Some(Compose(instructions, text))
      && q.result == Provider.Interpret(p, net(q.sent.value))
    ensures q.result.Ok? ==> q.sent.Some? && q.result.value != [] && IsTrimmed(q.result.value)
  {
    if s.model.None? then Query(None, Err(UndefinedModelRead))
    else
      var model := s.model.value;
      var routed := Resolve(model, s);
      if routed.Err? then Query(None, Err(routed.message))
      else
        var message := Compose(instructions, text);
        var request := Provider.RequestFor(routed.value, message, model, s.temperature);
        Query(Some(request), Provider.Call(routed.value, message, model, s.temperature, net))
  }

  /** An unroutable model id fails the same way whatever the network would have answered: no call is made. */
  lemma UnknownModelMakesNoCall(s: ModaiSettings, instructions: string, text: string, net1: Network, net2: Network)
    requires s.model.Some? && FirstMatch(RoutingTable, s.model.value).None?
    ensures QueryProvider(s, instructions, text, net1) == QueryProvider(s, instructions, text, net2)
    ensures QueryProvider(s, instructions, text, net1).sent.None?
  {
  }

  /** What a command captures before anything asynchronous: whether there is a selection, and the text to process. */
  datatype Capture = Capture(hasSelection: bool, text: string)

  /**
   * A selection counts when it holds a character that is not white space;
   * the text to process is then the selection as it is, else the whole
   * document. That text is blank exactly when both are.
   */
  function CaptureText(selection: string, doc: string): (c: Capture)
    ensures c.hasSelection <==> !AllSpace(selection)
    ensures c.text == if c.hasSelection then selection else doc
    ensures AllSpace(c.text) <==> AllSpace(selection) && AllSpace(doc)
  {
    var hasSelection := !IsBlank(selection);
    Capture(hasSelection, if hasSelection then selection else doc)
  }

  /**
   * How the diff review ends: the "Accept changes" button, the "Cancel"
   * button, or the dialog closed by the host without either (Escape, the
   * close button, a click outside).
   */
  datatype Decision = Accept | Discard | Dismiss

  const ErrorNotice := "Modai: error processing text."
  const RoleApplied := "Changes applied!"
  const CustomApplied := "Modai: changes applied!"
  const DocumentEmpty := "Document is empty."

  /** The persistent status shown while a request is pending. */
  function ThinkingNotice(s: ModaiSettings): string {
    "Modai: " + JsText(s.model) + " thinking..."
  }

  /** The status names the model id between its fixed prefix and suffix, so the id can be read back from it. */
  lemma ThinkingNoticeNamesModel(s: ModaiSettings)
    ensures var r := ThinkingNotice(s);
      && |r| == |JsText(s.model)| + 19
      && r[..7] == "Modai: " && r[7..|r| - 12] == JsText(s.model) && r[|r| - 12..] == " thinking..."
  {
  }

  /** What `onload` registers with the host. */
  datatype Registration =
    | RoleCommandEntry(id: string, name: string, instructions: string)
    | RibbonIcon(icon: string, title: string)
    | CustomCommandEntry(id: string, name: string)

  /** The command for one role; it keeps the role's instructions as they were at load time. */
  function RoleRegistration(role: string, instructions: string): Registration {
    RoleCommandEntry("Modai-" + role, "use " + role, instructions)
  }

  const CustomRibbon := RibbonIcon("paw-print", "Modai: custom instructions")
  const CustomCommand := CustomCommandEntry("modai-custom", "Use custom instructions")

  /** `Object.entries(roles)`: every role once, with its instructions, in some order. */
  predicate IsEntriesOf(entries: seq<(string, string)>, roles: map<string, string>) {
    && (forall i | 0 <= i < |entries| :: entries[i].0 in roles && roles[entries[i].0] == entries[i].1)
    && (forall i, j | 0 <= i < j < |entries| :: entries[i].0 != entries[j].0)
    && (forall role | role in roles :: exists i | 0 <= i < |entries| :: entries[i].0 == role)
  }

  /** One role command per entry, in the entries' order. */
  function RoleRegistrations(entries: seq<(string, string)>): (r: seq<Registration>)
    ensures |r| == |entries|
    ensures forall i | 0 <= i < |entries| :: r[i] == RoleRegistration(entries[i].0, entries[i].1)
  {
    if entries == [] then []
    else [RoleRegistration(entries[0].0, entries[0].1)] + RoleRegistrations(entries[1..])
  }

  /**
   * The registrations as `onload` writes them: the ribbon icon and the
   * custom-instructions command sit inside the loop over the roles, so each
   * is registered once per role.
   */
  function RegistrationsAsWritten(entries: seq<(string, string)>): (r: seq<Registration>)
    ensures |r| == 3 * |entries|
  {
    if entries == [] then []
    else [RoleRegistration(entries[0].0, entries[0].1), CustomRibbon, CustomCommand]
         + RegistrationsAsWritten(entries[1..])
  }

  /** As written, the custom command and its ribbon icon are registered exactly as many times as there are roles. */
  lemma {:induction false} CustomCommandPerRole(entries: seq<(string, string)>)
    ensures multiset(RegistrationsAsWritten(entries))[CustomCommand] == |entries|
    ensures multiset(RegistrationsAsWritten(entries))[CustomRibbon] == |entries|
  {
    if entries != [] {
      CustomCommandPerRole(entries[1..]);
      var head := RoleRegistration(entries[0].0, entries[0].1);
      assert RegistrationsAsWritten(entries)
          == [head, CustomRibbon, CustomCommand] + RegistrationsAsWritten(entries[1..]);
      assert head != CustomCommand && head != CustomRibbon;
    }
  }

  /** As written, an empty role table leaves the custom-instructions command unregistered. */
  lemma NoCustomCommandWithoutRoles()
    ensures CustomCommand !in RegistrationsAsWritten([])
    ensures CustomCommand in RoleRegistrations([]) + [CustomRibbon, CustomCommand]
  {
  }

  /** Registered once after the loop, the custom command and its icon are there exactly once, whatever the role table. */
  lemma CustomCommandOnce(entries: seq<(string, string)>)
    ensures multiset(RoleRegistrations(entries) + [CustomRibbon, CustomCommand])[CustomCommand] == 1
    ensures multiset(RoleRegistrations(entries) + [CustomRibbon, CustomCommand])[CustomRibbon] == 1
  {
    var r := RoleRegistrations(entries);
    assert CustomCommand !in r && CustomRibbon !in r by {
      forall i | 0 <= i < |r| ensures r[i].RoleCommandEntry? {
        assert r[i] == RoleRegistration(entries[i].0, entries[i].1);
      }
    }
    assert multiset(r + [CustomRibbon, CustomCommand]) == multiset(r) + multiset{CustomRibbon, CustomCommand};
  }

  lemma {:induction false} RoleRegistrationsAppend(entries: seq<(string, string)>, e: (string, string))
    ensures RoleRegistrations(entries + [e]) == RoleRegistrations(entries) + [RoleRegistration(e.0, e.1)]
  {
    if entries != [] {
      assert (entries + [e])[1..] == entries[1..] + [e];
      RoleRegistrationsAppend(entries[1..], e);
    }
  }

  /** Every role of the table gets its command, with its own instructions. */
  lemma RoleRegistrationsCover(entries: seq<(string, string)>, roles: map<string, string>,
                                before: seq<Registration>, after: seq<Registration>)
    requires IsEntriesOf(entries, roles)
    ensures forall role | role in roles ::
      RoleRegistration(role, roles[role]) in before + RoleRegistrations(entries) + after
  {
    var all := before + RoleRegistrations(entries) + after;
    forall role | role in roles
      ensures RoleRegistration(role, roles[role]) in all
    {
      var i :| 0 <= i < |entries| && entries[i].0 == role;
      assert all[|before| + i] == RoleRegistrations(entries)[i] == RoleRegistration(role, roles[role]);
    }
  }

  /** The plugin instance. */
  class Modai {
    /** The persisted plugin data (`loadData`/`saveData`). */
    var data: StoredSettings
    var settings: ModaiSettings
    /** The status bar's text: the model id. */
    var statusText: Option<string>
    /** Everything registered with the host, in order. */
    var registrations: seq<Registration>
    /** Every request handed to the network, in order. */
    var requests: seq<Request>
    /** Every notice shown, in order. */
    var notices: seq<string>
    /** Status notices currently on screen. */
    var openStatus: nat
    /** Every answer shown read-only, with the model id shown above it. */
    var answers: seq<(string, string)>

    /** A fresh instance over the persisted data, settings already loaded from it. */
    constructor (data: StoredSettings)
      ensures this.data == data && settings == Merged(data) && statusText == settings.model
      ensures registrations == [] && requests == [] && notices == [] && openStatus == 0 && answers == []
    {
      this.data := data;
      settings := Merged(data);
      statusText := data.model;
      registrations, requests, notices, openStatus, answers := [], [], [], 0, [];
    }

    /** `loadSettings()`: the defaults overlaid with the persisted data. */
    method LoadSettings()
      modifies this`settings
      ensures settings == Merged(data)
    {
      settings := Merged(data);
    }

    /** `saveSettings()`: the settings are persisted and the status bar shows the model. */
    method SaveSettings()
      modifies this`data, this`statusText
      ensures data == Saved(settings) && statusText == settings.model
    {
      data := Saved(settings);
      statusText := settings.model;
    }

    /**
     * `onload`: load the settings, show the model in the status bar, then
     * register one command per role carrying that role's instructions, and
     * the ribbon icon and custom-instructions command once.
     */
    method Onload(entries: seq<(string, string)>)
      requires IsEntriesOf(entries, Merged(data).roles)
      modifies this`settings, this`statusText, this`registrations
      ensures settings == Merged(data) && statusText == settings.model
      ensures registrations == old(registrations) + RoleRegistrations(entries) + [CustomRibbon, CustomCommand]
      ensures forall role | role in settings.roles :: RoleRegistration(role, settings.roles[role]) in registrations
    {
      LoadSettings();
      statusText := settings.model;
      var start := registrations;
      RegisterRoles(entries);
      registrations := registrations + [CustomRibbon, CustomCommand];
      assert settings.roles == Merged(data).roles;
      RoleRegistrationsCover(entries, settings.roles, start, [CustomRibbon, CustomCommand]);
      assert registrations == start + RoleRegistrations(entries) + [CustomRibbon, CustomCommand];
    }

    /** The loop over the role entries in `onload`: one command per entry, in order. */
    method RegisterRoles(entries: seq<(string, string)>)
      modifies this`registrations
      ensures registrations == old(registrations) + RoleRegistrations(entries)
    {
      var start := registrations;
      for i := 0 to |entries|
        invariant registrations == start + RoleRegistrations(entries[..i])
      {
        assert entries[..i + 1] == entries[..i] + [entries[i]];
        RoleRegistrationsAppend(entries[..i], entries[i]);
        registrations := registrations + [RoleRegistration(entries[i].0, entries[i].1)];
      }
      assert entries[..|entries|] == entries;
    }

    /**
     * The start of a request: the status notice goes up and stays, and the
     * provider is queried once.
     */
    method Dispatch(instructions: string, text: string, net: Network) returns (q: Query)
      modifies this`notices, this`openStatus, this`requests
      ensures q == QueryProvider(settings, instructions, text, net)
      ensures notices == old(notices) + [ThinkingNotice(settings)]
      ensures openStatus == old(openStatus) + 1
      ensures requests == old(requests) + SentLog(q)
    {
      notices := notices + [ThinkingNotice(settings)];
      openStatus := openStatus + 1;
      q := QueryProvider(settings, instructions, text, net);
      requests := requests + SentLog(q);
    }

    /**
     * The diff review of a proposed text: acceptance replaces the range (or
     * the whole document) with the text the review hands back and shows the
     * given notice; cancelling edits nothing and shows the discard notice;
     * closing the dialog otherwise edits nothing and shows nothing.
     */
    method Review(editor: Editor, original: string, proposed: string, diffWords: WordDiff,
                  decision: Decision, replaceRange: bool, from: nat, to: nat, applied: string)
      requires editor.Valid() && from <= to <= |editor.text|
      modifies this`notices, editor
      ensures editor.Valid()
      ensures decision == Discard ==> editor.text == old(editor.text) && notices == old(notices) + [DiscardedNotice]
      ensures decision == Dismiss ==> editor.text == old(editor.text) && notices == old(notices)
      ensures decision == Accept ==>
        && editor.text == (if replaceRange then Spliced(old(editor.text), proposed, from, to) else proposed)
        && notices == old(notices) + [applied]
    {
      var review := new DiffModal(original, proposed);
      review.Open(diffWords);
      if decision == Accept {
        var finalText := review.Accept();
        if replaceRange {
          editor.ReplaceRange(finalText, from, to);
        } else {
          editor.SetValue(finalText);
        }
        notices := notices + [applied];
      } else if decision == Discard {
        var notice := review.Cancel();
        notices := notices + [notice];
      } else {
        review.Dismiss();
      }
    }

    /**
     * The command for one role. A blank capture does nothing at all.
     * Otherwise the status shows while the provider is queried; an error
     * leaves the document alone and shows the error notice; a result goes to
     * the diff review, and only acceptance edits: the selection as it stands
     * when the user accepts (`moved`, the user may have moved it meanwhile)
     * is replaced, or without a selection the whole document. The status is
     * gone on every path.
     */
    method RoleCommand(editor: Editor?, instructions: string, net: Network, diffWords: WordDiff,
                       decision: Decision, moved: (nat, nat))
      requires editor != null ==> editor.Valid() && moved.0 <= moved.1 <= |editor.text|
      modifies this`notices, this`openStatus, this`requests, this`answers, editor
      ensures settings == old(settings) && openStatus == old(openStatus) && answers == old(answers)
      ensures editor == null ==> requests == old(requests) && notices == old(notices)
      ensures editor != null ==> editor.Valid()
      ensures editor != null ==>
        var c := CaptureText(old(editor.Selection()), old(editor.text));
        var q := QueryProvider(settings, instructions, c.text, net);
        && (AllSpace(c.text) ==>
              editor.text == old(editor.text) && requests == old(requests) && notices == old(notices))
        && (!AllSpace(c.text) ==> requests == old(requests) + SentLog(q))
        && (!AllSpace(c.text) && q.result.Err? ==>
              editor.text == old(editor.text) && notices == old(notices) + [ThinkingNotice(settings), ErrorNotice])
        && (!AllSpace(c.text) && q.result.Ok? && decision == Discard ==>
              editor.text == old(editor.text) && notices == old(notices) + [ThinkingNotice(settings), DiscardedNotice])
        && (!AllSpace(c.text) && q.result.Ok? && decision == Dismiss ==>
              editor.text == old(editor.text) && notices == old(notices) + [ThinkingNotice(settings)])
        && (!AllSpace(c.text) && q.result.Ok? && decision == Accept ==>
              && editor.text == (if c.hasSelection then Spliced(old(editor.text), q.result.value, moved.0, moved.1)
                                 else q.result.value)
              && notices == old(notices) + [ThinkingNotice(settings), RoleApplied])
    {
      if editor == null {
        return;
      }
      var capture := CaptureText(editor.Selection(), editor.text);
      if IsBlank(capture.text) {
        return;
      }
      ProcessRole(editor, capture, instructions, net, diffWords, decision, moved);
    }

    /**
     * The work a role command starts on a non-blank capture: the status
     * shows, the request is sent, and an error leaves the document alone; a
     * result goes to the diff review, whose acceptance replaces the selection
     * as it stands at that moment (`moved`), or the whole document without a
     * selection. The status is gone on every path.
     */
    method ProcessRole(editor: Editor, capture: Capture, instructions: string, net: Network,
                       diffWords: WordDiff, decision: Decision, moved: (nat, nat))
      requires editor.Valid() && moved.0 <= moved.1 <= |editor.text|
      modifies this`notices, this`openStatus, this`requests, editor
      ensures editor.Valid() && openStatus == old(openStatus)
      ensures
        var q := QueryProvider(settings, instructions, capture.text, net);
        && requests == old(requests) + SentLog(q)
        && (q.result.Err? ==>
              editor.text == old(editor.text) && notices == old(notices) + [ThinkingNotice(settings), ErrorNotice])
        && (q.result.Ok? && decision == Discard ==>
              editor.text == old(editor.text) && notices == old(notices) + [ThinkingNotice(settings), DiscardedNotice])
        && (q.result.Ok? && decision == Dismiss ==>
              editor.text == old(editor.text) && notices == old(notices) + [ThinkingNotice(settings)])
        && (q.result.Ok? && decision == Accept ==>
              && editor.text == (if capture.hasSelection then Spliced(old(editor.text), q.result.value, moved.0, moved.1)
                                 else q.result.value)
              && notices == old(notices) + [ThinkingNotice(settings), RoleApplied])
    {
      var q := Dispatch(instructions, capture.text, net);
      if q.result.Err? {
        notices := notices + [ErrorNotice];
        openStatus := openStatus - 1;
        return;
      }
      openStatus := openStatus - 1;
      // the review is open: the user may move the selection before accepting
      editor.Select(moved.0, moved.1);
      Review(editor, capture.text, q.result.value, diffWords, decision,
             capture.hasSelection, editor.from, editor.to, RoleApplied);
    }

    /**
     * The work a submitted instruction starts: the status shows, the range is
     * read before the request is sent, and an error leaves the document
     * alone; a replace goes to the diff review, whose acceptance replaces that
     * range (or the whole document without a selection); an ask shows the
     * answer and edits nothing. The status is gone on every path.
     */
    method ProcessContent(editor: Editor, capture: Capture, result: ModaiResult, net: Network,
                          diffWords: WordDiff, decision: Decision, moved: (nat, nat))
      requires editor.Valid() && moved.0 <= moved.1 <= |editor.text|
      modifies this`notices, this`openStatus, this`requests, this`answers, editor
      ensures editor.Valid() && openStatus == old(openStatus)
      ensures
        var q := QueryProvider(settings, result.instructions, capture.text, net);
        && requests == old(requests) + SentLog(q)
        && (q.result.Err? ==>
              && editor.text == old(editor.text) && answers == old(answers)
              && notices == old(notices) + [ThinkingNotice(settings), ErrorNotice])
        && (q.result.Ok? && result.intent == Ask ==>
              && editor.text == old(editor.text)
              && answers == old(answers) + [(JsText(settings.model), q.result.value)]
              && notices == old(notices) + [ThinkingNotice(settings)])
        && (q.result.Ok? && result.intent == Replace && decision == Discard ==>
              && editor.text == old(editor.text) && answers == old(answers)
              && notices == old(notices) + [ThinkingNotice(settings), DiscardedNotice])
        && (q.result.Ok? && result.intent == Replace && decision == Dismiss ==>
              && editor.text == old(editor.text) && answers == old(answers)
              && notices == old(notices) + [ThinkingNotice(settings)])
        && (q.result.Ok? && result.intent == Replace && decision == Accept ==>
              && editor.text == (if capture.hasSelection then Spliced(old(editor.text), q.result.value, old(editor.from), old(editor.to))
                                 else q.result.value)
              && answers == old(answers)
              && notices == old(notices) + [ThinkingNotice(settings), CustomApplied])
    {
      var from, to := editor.from, editor.to;
      var q := Dispatch(result.instructions, capture.text, net);
      // the request is pending: the user may move the selection
      editor.Select(moved.0, moved.1);
      if q.result.Err? {
        notices := notices + [ErrorNotice];
        openStatus := openStatus - 1;
        return;
      }
      if result.intent == Replace {
        openStatus := openStatus - 1;
        Review(editor, capture.text, q.result.value, diffWords, decision,
               capture.hasSelection, from, to, CustomApplied);
      } else {
        answers := answers + [(JsText(settings.model), q.result.value)];
        openStatus := openStatus - 1;
      }
    }

    /**
     * The custom-instructions command. A blank capture shows "Document is
     * empty." and opens no dialog. A dialog closed without submitting, or a
     * submission whose instructions are blank, does nothing. Otherwise the
     * range is read before the request is sent; an error leaves the
     * document alone; a replace goes to the diff review and acceptance
     * replaces that range (or the whole document without a selection); an
     * ask shows the answer and edits nothing. The status is gone on every
     * path.
     */
    method CustomInstructions(editor: Editor?, submission: Option<ModaiResult>, net: Network,
                              diffWords: WordDiff, decision: Decision, moved: (nat, nat))
      requires editor != null ==> editor.Valid() && moved.0 <= moved.1 <= |editor.text|
      modifies this`notices, this`openStatus, this`requests, this`answers, editor
      ensures settings == old(settings) && openStatus == old(openStatus)
      ensures editor == null ==> requests == old(requests) && notices == old(notices) && answers == old(answers)
      ensures editor != null ==> editor.Valid()
      ensures editor != null ==>
        var c := CaptureText(old(editor.Selection()), old(editor.text));
        var dispatched := !AllSpace(c.text) && submission.Some? && !AllSpace(submission.value.instructions);
        var q := QueryProvider(settings, if submission.Some? then submission.value.instructions else "", c.text, net);
        && (AllSpace(c.text) ==> notices == old(notices) + [DocumentEmpty])
        && (!dispatched ==>
              && editor.text == old(editor.text) && requests == old(requests) && answers == old(answers)
              && (!AllSpace(c.text) ==> notices == old(notices)))
        && (dispatched ==> requests == old(requests) + SentLog(q))
        && (dispatched && q.result.Err? ==>
              && editor.text == old(editor.text) && answers == old(answers)
              && notices == old(notices) + [ThinkingNotice(settings), ErrorNotice])
        && (dispatched && q.result.Ok? && submission.value.intent == Ask ==>
              && editor.text == old(editor.text)
              && answers == old(answers) + [(JsText(settings.model), q.result.value)]
              && notices == old(notices) + [ThinkingNotice(settings)])
        && (dispatched && q.result.Ok? && submission.value.intent == Replace && decision == Discard ==>
              && editor.text == old(editor.text) && answers == old(answers)
              && notices == old(notices) + [ThinkingNotice(settings), DiscardedNotice])
        && (dispatched && q.result.Ok? && submission.value.intent == Replace && decision == Dismiss ==>
              && editor.text == old(editor.text) && answers == old(answers)
              && notices == old(notices) + [ThinkingNotice(settings)])
        && (dispatched && q.result.Ok? && submission.value.intent == Replace && decision == Accept ==>
              && editor.text == (if c.hasSelection then Spliced(old(editor.text), q.result.value, old(editor.from), old(editor.to))
                                 else q.result.value)
              && answers == old(answers)
              && notices == old(notices) + [ThinkingNotice(settings), CustomApplied])
    {
      if editor == null {
        return;
      }
      var capture := CaptureText(editor.Selection(), editor.text);
      if IsBlank(capture.text) {
        notices := notices + [DocumentEmpty];
        return;
      }
      // the instruction dialog is open; `submission` is what it handed to `onSubmit`
      if submission.None? || IsBlank(submission.value.instructions) {
        return;
      }
      ProcessContent(editor, capture, submission.value, net, diffWords, decision, moved);
    }
  }

  /** An OpenAI-style reply whose first choice carries `text`. */
  function ChatReply(text: string): HttpOutcome {
    Replied(Reply(200, "", JsonObject(ResponseBody(Some([Choice(Some(ChatMessage(Some(text))))]), None, None))))
  }

  /** A backend that answers "new" to any request. */
  function AnswersNew(r: Request): HttpOutcome {
    ChatReply("new")
  }

  /** With a `gpt` model and a backend answering "new", the query succeeds with "new", whatever the other settings. */
  lemma ExampleAnswer(s: ModaiSettings, instructions: string, text: string)
    requires s.model == Some("gpt-5")
    ensures QueryProvider(s, instructions, text, AnswersNew).result == Ok("new")
  {
    assert "gpt" <= "gpt-5";
    assert !IsSpace("new"[0]) && !IsSpace("new"[2]);
    TrimOfPadded([], "new", []);
    assert [] + "new" + [] == "new";
  }

  /** The selection "old" is what a command captures from "old rest". */
  lemma ExampleCapture()
    ensures CaptureText("old", "old rest") == Capture(true, "old")
    ensures !AllSpace("old")
  {
    assert !IsSpace("old"[0]);
  }

  /** The selection [0, 3] of "old rest" is "old", and putting "new" in its place gives "new rest". */
  lemma ExampleSplice()
    ensures "old rest"[0..3] == "old"
    ensures Spliced("old rest", "new", 0, 3) == "new rest"
  {
    assert Spliced("old rest", "new", 0, 3) == "new" + "old rest"[3..];
  }

  /**
   * A role applied to the selection "old" at [0, 3] of "old rest", with the
   * backend answering "new": accepting the review gives "new rest",
   * discarding it leaves "old rest".
   */
  method ReplaceSelectionExample(decision: Decision) returns (doc: string)
    ensures decision == Accept ==> doc == "new rest"
    ensures decision != Accept ==> doc == "old rest"
  {
    var plugin := new Modai(NothingStored.(model := Some("gpt-5")));
    var editor := new Editor("old rest", 0, 3);
    assert plugin.settings.model == Some("gpt-5");
    doc := RunRoleOnExample(plugin, editor, decision);
  }

  /** The role command run on the example's plugin and editor. */
  method RunRoleOnExample(plugin: Modai, editor: Editor, decision: Decision) returns (doc: string)
    requires plugin.settings.model == Some("gpt-5")
    requires editor.Valid() && editor.text == "old rest" && editor.from == 0 && editor.to == 3
    modifies plugin, editor
    ensures decision == Accept ==> doc == "new rest"
    ensures decision != Accept ==> doc == "old rest"
  {
    var diffWords: WordDiff := (a: string, b: string) => [Change(a, false, true), Change(b, true, false)];
    ExampleSplice();
    ExampleCapture();
    ExampleAnswer(plugin.settings, "Improve.", "old");
    assert CaptureText(editor.Selection(), editor.text) == Capture(true, "old");
    plugin.RoleCommand(editor, "Improve.", AnswersNew, diffWords, decision, (0, 3));
    doc := editor.text;
  }
}
