# modai, modelled in Dafny

modai is an Obsidian plugin that sends a note, or the selection in it, to a
language model together with instructions. The instructions come from a
fixed role or are typed into a dialog. For a replace it shows the model's
answer as a word diff, and it writes the answer back only when the user
accepts the diff. For an ask it shows the answer read-only.

The project models that core:

- **Providers.** The three backends: OpenAI (`ChatGpt`), Google Generative
  Language (`Gemini`) and a local OpenAI-compatible server (`Llama`). Each
  builds exactly one request: URL, headers and JSON body. Each reads the
  reply into either a trimmed, non-empty answer or an error message. The
  error messages are the ones the source throws.
- **`Provider`.** The backends as a closed set of variants, with the common
  `call` contract.
- **`Main`.** This module holds:
  - loading and saving the settings, a shallow merge over the defaults;
  - composing the prompt;
  - routing a model id by prefix;
  - `queryProvider`;
  - `onload`'s registrations;
  - the two commands: a role applied to the selection or note, and custom
    instructions with a replace or ask intent.
- **`ChipModal`, `LegacyChipModal`, `PlainModal`.** The three instruction
  dialogs. Each is a class whose text field the user's events update.
- **`DiffReview`.** The review dialog. It renders the parts of a word diff,
  and Accept hands back the proposed text.
- **`Settings`, `SettingsTab`.** The defaults, and the role table's add, edit
  and delete operations with the tab controls that call them.
- **Supporting modules.** `JsString` models `String.prototype.trim` and the
  string helpers the source uses. `Wire` models requests, JSON values and
  transport outcomes. `Host` models the editor.

The network, the word-diff library, and the user's choices in the review and
the instruction dialog are parameters. The methods' contracts state every
notice shown, every request sent and the document's final text, for each
path: a blank input, an error, an ask, and a review that is accepted,
cancelled with its button, or closed without either button.

### Behaviour of the code worth knowing

- **The role command reads the selection when the user accepts, not before
  the request.** It calls `editor.getCursor` inside the accept callback
  (`src/main.ts:64-65`). The range it replaces is therefore the selection
  as it is at that moment. `Main.Modai.RoleCommand` takes that later
  selection as `moved`. The custom-instructions command reads the range
  before the request (`src/main.ts:119-120`).
- **No model is chosen by default.** The plugin reads `settings.model`,
  `geminiAIKey`, `llamaAIKey` and `llamaBaseUrl`, but the defaults
  (`src/settings.ts:14-23`) declare none of them. They hold `openAImodel`,
  which nothing routes on. Until a model id is stored:
  - `queryProvider` throws a TypeError on `undefined.startsWith`;
  - the status shows "Modai: undefined thinking...".

  A stored Gemini setup without a key sends the key `undefined`.
- **The dialog `src/modal.ts` submits a blank text.** It closes and hands the
  empty string on (`PlainModal.SubmitUntouched`). The dialog the commands use
  (`src/modals/customInstructionsModal.ts`) refuses a blank text and stays
  open.
- **The dialog `src/customInstructionsModal.ts` faults on an early submit.**
  It never initialises its text, so a submit before any input throws
  (`LegacyChipModal.SubmitBeforeInput`).
- **Import names.** `main.ts` imports the review dialog as `DeleteModal` from
  `modals/diffmodal`, and the provider interface from `providers/base`. The
  files present are `src/diffmodal.ts` (class `DiffModal`) and
  `src/providers/default.ts`. They are modelled as the dialog and the
  interface those imports name.

## Model

| member | source | states |
|---|---|---|
| JsString.Trim | src/providers/chatgpt.ts:39 | `trim()` gives at most as many characters, no white space at either end, and "" exactly when the input is all white space |
| JsString.TrimOfPadded | src/providers/chatgpt.ts:39 | independent characterisation: padding a trimmed string with white space on both sides and trimming gives it back |
| JsString.TrimIdempotent | src/providers/chatgpt.ts:39 | trimming twice is trimming once |
| JsString.TrimStartSplit | src/providers/chatgpt.ts:39 | the leading part `trim` removes is all white space, and what it keeps does not start with white space |
| JsString.TrimEndSplit | src/providers/chatgpt.ts:39 | the trailing part `trim` removes is all white space, and what it keeps does not end with white space |
| JsString.ToLowerAscii | src/modals/customInstructionsModal.ts:82 | lower-casing keeps the length and maps every character by itself |
| JsString.LowerKeyIs | src/modals/customInstructionsModal.ts:82-85 | `key.toLowerCase() === "r"` (or "a") holds for exactly the lower- and upper-case letter |
| JsString.Decimal | src/providers/llama.ts:47 | `${status}` is a non-empty string of decimal digits with no leading zero, and "0" alone for zero: the canonical numeral |
| JsString.DecimalRoundTrip | src/providers/llama.ts:47 | the status numeral reads back as the status |
| Wire.FirstChoiceContent | src/providers/chatgpt.ts:39 | `result?.choices?.[0]?.message?.content` is present exactly when every step of the path is, and it is then the first choice's content |
| Wire.MessageOf | src/providers/chatgpt.ts:44-48 | the rethrown message is an Error's own message, or the thrown value's string form |
| ChatGpt.RequestFor | src/providers/chatgpt.ts:24-35 | one request to the OpenAI endpoint, headers bearer key then JSON content type, body members model, messages, temperature in that order, the message as the sole user turn |
| ChatGpt.Interpret | src/providers/chatgpt.ts:38-48 | success exactly when the first choice's content is not blank, and the answer is that content trimmed; otherwise the raw reply text, or the thrown error's message |
| Llama.New | src/providers/llama.ts:16-19 | an undefined key becomes "ollama" and an undefined base URL "http://127.0.0.1:11434"; given values are kept |
| Llama.RequestFor | src/providers/llama.ts:27-40 | the URL is base URL plus `/v1/chat/completions`, bearer and JSON headers, body as OpenAI's plus `stream: false`, the message as the sole user turn |
| Llama.Interpret | src/providers/llama.ts:42-56 | success exactly when the first choice's content is not blank; an empty reply reports "No response content. Status: " and the status |
| Gemini.RequestFor | src/providers/gemini.ts:49-65 | URL is the models base, the model, `:generateContent?key=` and the key; only the JSON content type header; the message is the first part's text; temperature under generationConfig |
| Gemini.Interpret | src/providers/gemini.ts:67-89 | success exactly when a JSON object's first candidate's first part has non-blank text; no text gives the safety message for a non-empty block reason, else the malformed-reply message; a null body fails reading `candidates` |
| Gemini.FirstPartText | src/providers/gemini.ts:69-70 | `result.candidates?.[0]?.content?.parts?.[0]?.text` is present exactly when every step of the path is, and it is then the first candidate's first part's text |
| Gemini.BlockReason | src/providers/gemini.ts:73 | `result.promptFeedback?.blockReason` is present exactly when both steps are, and it is then the feedback's block reason |
| Gemini.BlockedIsNotMalformed | src/providers/gemini.ts:72-81 | the safety-filter message never equals the malformed-reply message |
| Gemini.TextWinsOverBlockReason | src/providers/gemini.ts:69-83 | when the first part has text, the block reason does not affect the answer |
| Provider.Call | src/providers/default.ts:2-5 | every backend sends the message unchanged and answers with a non-empty trimmed text or an error |
| Provider.LlamaBodyExtendsChatGpt | src/providers/llama.ts:34-39 | the local body is the OpenAI body with `stream: false` appended |
| Provider.OpenAIStyleRepliesAgree | src/providers/llama.ts:42-56 | the two OpenAI-style backends succeed on the same replies with the same answer and differ only in the no-content message |
| Provider.EmptyChoicesFail | src/providers/chatgpt.ts:39-42 | `choices: []` is an error for both OpenAI-style backends, never an empty success |
| Provider.SafetyBlockIsNamed | src/providers/gemini.ts:72-77 | a reply blocked for "SAFETY" fails with a message naming SAFETY |
| Host.Spliced | src/main.ts:132-136 | `replaceRange` keeps the text before the range and after it and puts the new text in between |
| Host.SplicedSelf | src/main.ts:132-136 | replacing a range with its own text changes nothing |
| Host.Editor.ReplaceRange | src/main.ts:132-136 | the document becomes the splice of the range |
| Host.Editor.SetValue | src/main.ts:138 | the document becomes the text |
| Settings.DefaultRoleNames | src/settings.ts:14-23 | the defaults hold exactly the roles "Text editor", "SEO Engineer" and "Author"; none is an inherited name, and adding one of them again, by either add handler, changes nothing |
| Settings.InOperator | src/settings.ts:107 | `name in roles` is true for every inherited name, and otherwise exactly for the table's own keys |
| Settings.AddRoleAsWritten | src/settings.ts:105-108 | as written: a name inherited from Object.prototype is never added |
| Settings.AddRoleAsWrittenRefusesConstructor | src/settings.ts:107 | as written, "constructor" cannot be added to an empty table; the corrected add adds it |
| Settings.AddRole | src/settings.ts:105-108 | existing roles are kept unchanged; a blank name changes nothing; otherwise the trimmed name is present, and a new name gets empty instructions; no other key appears |
| Settings.AddRoleAgreesOffPrototype | src/settings.ts:107 | the written and corrected add agree on every name not inherited from Object.prototype |
| Settings.AddRoleIdempotent | src/settings.ts:105-108 | adding the same name twice is adding it once |
| Settings.EditRole | src/settings.ts:122 | the role's text is replaced and no other role changes |
| Settings.DeleteRole | src/settings.ts:133 | exactly that role is removed and the rest keep their text |
| Settings.DeleteUndoesAdd | src/settings.ts:105-133 | deleting a role just added restores the table |
| SettingsTab.ModaiSettingsTab.SetOpenAIKey | src/settings.ts:44-47 | the key is replaced, nothing else in the settings changes, the settings are saved and the status bar shows the model id |
| SettingsTab.ModaiSettingsTab.SetTemperature | src/settings.ts:57-60 | the temperature is replaced and saved, and the status bar shows the model id |
| SettingsTab.ModaiSettingsTab.SetOpenAIModel | src/settings.ts:88-91 | `openAImodel` is replaced and saved; the routed model id is untouched and the status bar shows it |
| SettingsTab.ModaiSettingsTab.AddRole | src/settings.ts:104-111 | the role table becomes the corrected add's result; an added role is saved and the status bar shows the model id; a refused name saves nothing and leaves the status bar alone |
| SettingsTab.ModaiSettingsTab.EditRole | src/settings.ts:121-124 | the role table becomes the edit's result and is saved, and the status bar shows the model id |
| SettingsTab.ModaiSettingsTab.DeleteRole | src/settings.ts:131-136 | the role table becomes the delete's result and is saved, and the status bar shows the model id |
| Main.Merged | src/main.ts:198-204 | every stored member wins wholesale, the credentials included (stored roles are not merged with the default roles); a missing member keeps its default: "", "gpt-5-mini", 0.7 or the default roles, and the model id and the Gemini and local keys and base URL stay undefined |
| Main.Saved | src/main.ts:207 | every member of the settings is written, and the members with no default are written only when defined |
| Main.LoadAfterSave | src/main.ts:198-209 | loading what was saved gives the same settings |
| Main.LoadWithNothingSaved | src/main.ts:198-204 | with nothing saved: empty key, "gpt-5-mini", 0.7, the three default roles, and no model id |
| Main.ThinkingNoticeNamesModel | src/main.ts:47-48 | the status text is "Modai: ", the model id as JavaScript prints it, then " thinking..." |
| Main.Compose | src/main.ts:168-170 | the message is the instructions, the fixed INPUT TEXT header, then the text verbatim |
| Main.ComposeRoundTrip | src/main.ts:168-170 | the text can be read back from the message exactly |
| Main.FirstMatchIsFirst | src/main.ts:174-187 | the prefix table picks its earliest matching entry, and nothing only when no prefix matches |
| Main.PrefixesExclusive | src/main.ts:174-187 | no model id starts with two of "gpt", "gemini", "llama" |
| Main.Resolve | src/main.ts:172-187 | an id fails exactly when no prefix matches, and the error names it; otherwise the provider is the table's family, built with the settings' credentials |
| Main.QueryProvider | src/main.ts:167-194 | no model id gives the TypeError and an unroutable one the unknown-model error, both before any request; otherwise one request to the routed provider carrying the composed message; any answer is non-empty and trimmed |
| Main.UnknownModelMakesNoCall | src/main.ts:183-187 | an unroutable id fails the same way whatever the network would answer, and sends nothing |
| Main.CaptureText | src/main.ts:39-45 | a selection counts when it is not blank; the text is the selection, else the whole note; it is blank exactly when both are |
| Main.RoleRegistrations | src/main.ts:27-80 | one command per role entry, in order, carrying that role's load-time instructions |
| Main.RoleRegistrationsCover | src/main.ts:27-33 | every role in the table gets a command carrying its own instructions |
| Main.RegistrationsAsWritten | src/main.ts:27-91 | as written: three registrations per role, with the ribbon icon and custom command inside the loop |
| Main.CustomCommandPerRole | src/main.ts:82-90 | as written, the custom command and its icon are registered once per role |
| Main.NoCustomCommandWithoutRoles | src/main.ts:27-91 | as written, an empty role table leaves no custom-instructions command; registered after the loop it is there |
| Main.CustomCommandOnce | src/main.ts:82-90 | registered after the loop, the custom command and icon appear exactly once for any role table |
| Main.Modai.constructor | src/main.ts:18-19 | the instance starts over its persisted data with the settings loaded from it and nothing shown or sent |
| Main.Modai.LoadSettings | src/main.ts:198-204 | the settings become the defaults merged with the persisted data |
| Main.Modai.SaveSettings | src/main.ts:206-209 | the persisted data becomes the settings and the status bar shows the model id |
| Main.Modai.Onload | src/main.ts:18-91 | settings loaded, model shown, one command per role with its instructions and every role covered, then the custom command once |
| Main.Modai.RegisterRoles | src/main.ts:27-33 | the loop over the role entries appends one command per entry, in order, each carrying its entry's instructions |
| Main.Modai.Dispatch | src/main.ts:114-124 | the status notice is shown and stays; exactly the query's request, if any, is sent |
| Main.Modai.Review | src/main.ts:58-72 | acceptance replaces the range (or the note) with the proposed text and shows the given notice; the Cancel button edits nothing and shows "Changes discarded"; closing the dialog without a button edits nothing and shows nothing |
| Main.Modai.RoleCommand | src/main.ts:33-79 | a blank capture does nothing; an error leaves the note and shows the error notice; acceptance replaces the selection as it stands at acceptance (or the note) with the answer; the status is gone on every path; the settings, stored data, status bar and registrations are never touched |
| Main.Modai.ProcessRole | src/main.ts:47-79 | for a non-blank capture: one request; an error leaves the note and shows the error notice; acceptance replaces the selection as it stands at acceptance (or the note); Cancel shows "Changes discarded", closing without a button shows nothing more; the status is gone on every path |
| Main.Modai.ProcessContent | src/main.ts:113-156 | the range is read before the request; an error leaves the note; a replace is edited in only on acceptance; an ask shows the answer under the model id and edits nothing; the status is gone on every path |
| Main.Modai.CustomInstructions | src/main.ts:94-165 | a blank capture shows "Document is empty." and sends nothing; a cancelled or blank submission does nothing; otherwise as ProcessContent; the settings, stored data, status bar and registrations are never touched |
| Main.ExampleAnswer | src/main.ts:174-193 | with a "gpt" model and a backend answering "new", the query's answer is "new", whatever the other settings |
| Main.ReplaceSelectionExample | src/main.ts:38-72 | selection "old" at [0,3] of "old rest", answer "new": accepting gives "new rest", cancelling or closing the review leaves "old rest" |
| Main.RunRoleOnExample | src/main.ts:38-72 | the role command on that plugin and note: accepting gives "new rest", cancelling or closing the review leaves "old rest" |
| ChipModal.KeyIntent | src/modals/customInstructionsModal.ts:76-89 | only a key pressed with Ctrl or Cmd can submit; Ctrl/Cmd+Enter means replace; an ask key is a single character |
| ChipModal.KeyIntentTable | src/modals/customInstructionsModal.ts:76-89 | with Ctrl or Cmd held, Enter, r and R mean replace and a and A mean ask; nothing else, and nothing without a modifier, submits |
| ChipModal.Submission | src/modals/customInstructionsModal.ts:92-99 | a submission is refused exactly when the text is all white space, and otherwise carries the untrimmed text and the intent |
| ChipModal.CustomInstructionsModal.constructor | src/modals/customInstructionsModal.ts:9-21 | the field starts empty, and the chips are the role table |
| ChipModal.CustomInstructionsModal.ClickChip | src/modals/customInstructionsModal.ts:37-44 | a chip overwrites the field with its role's text and the dialog stays open |
| ChipModal.CustomInstructionsModal.Change | src/modals/customInstructionsModal.ts:50-54 | every change sets the field |
| ChipModal.CustomInstructionsModal.HandleSubmit | src/modals/customInstructionsModal.ts:92-99 | a blank text calls nothing and stays open; otherwise `onSubmit` is called once with the text and intent, then the dialog closes |
| ChipModal.CustomInstructionsModal.ClickAsk | src/modals/customInstructionsModal.ts:62-66 | the Ask button submits with the ask intent |
| ChipModal.CustomInstructionsModal.ClickReplace | src/modals/customInstructionsModal.ts:68-74 | the Replace button submits with the replace intent |
| ChipModal.CustomInstructionsModal.KeyDown | src/modals/customInstructionsModal.ts:76-89 | a shortcut prevents the default and submits with its intent; any other key changes nothing |
| LegacyChipModal.SubmitDecision | src/customInstructionsModal.ts:75-79 | an undefined field faults, a blank one is refused, and any other is submitted untrimmed |
| LegacyChipModal.CustomInstructionsModal.constructor | src/customInstructionsModal.ts:4-16 | the field starts undefined |
| LegacyChipModal.CustomInstructionsModal.ClickChip | src/customInstructionsModal.ts:34-41 | a chip sets the field to its role's text |
| LegacyChipModal.CustomInstructionsModal.Change | src/customInstructionsModal.ts:47-51 | every change sets the field |
| LegacyChipModal.CustomInstructionsModal.Cancel | src/customInstructionsModal.ts:58-60 | Cancel closes without submitting |
| LegacyChipModal.CustomInstructionsModal.HandleSubmit | src/customInstructionsModal.ts:75-79 | only a defined, non-blank text is handed on, once, and closes the dialog |
| LegacyChipModal.CustomInstructionsModal.KeyDown | src/customInstructionsModal.ts:67-72 | only Ctrl/Cmd+Enter prevents the default and submits |
| LegacyChipModal.SubmitBeforeInput | src/customInstructionsModal.ts:4-79 | a submit before any input faults: nothing is handed on and the dialog stays open |
| PlainModal.CustomInstructionsModal.constructor | src/modal.ts:4-10 | the field starts "", the dialog is closed and nothing has been submitted |
| PlainModal.CustomInstructionsModal.Change | src/modal.ts:21-23 | every change sets the field |
| PlainModal.CustomInstructionsModal.Submit | src/modal.ts:34-37 | Submit closes and hands on the text, whatever it is |
| PlainModal.CustomInstructionsModal.KeyDown | src/modal.ts:41-47 | only Ctrl/Cmd+Enter submits; plain Enter does nothing |
| PlainModal.SubmitUntouched | src/modal.ts:4-37 | an untouched dialog hands on the empty string |
| DiffReview.Classify | src/diffmodal.ts:27-35 | added takes precedence over removed, and a part flagged neither way is unchanged |
| DiffReview.Rendered | src/diffmodal.ts:24-36 | one span per part, in order, with the part's text and class |
| DiffReview.RenderParts | src/diffmodal.ts:24-36 | the rendering loop produces exactly the specified spans |
| DiffReview.RenderedSides | src/diffmodal.ts:24-36 | the unchanged and removed spans spell the original; the unchanged and added spans spell the proposal |
| DiffReview.DiffModal.constructor | src/diffmodal.ts:8-12 | the result to hand back is the proposed text |
| DiffReview.DiffModal.Open | src/diffmodal.ts:22-36 | the spans are the rendering of the diff of old against new, in that order |
| DiffReview.DiffModal.Accept | src/diffmodal.ts:40-46 | `onAccept` receives exactly the proposed text, once, and the dialog closes |
| DiffReview.DiffModal.Cancel | src/diffmodal.ts:48-53 | "Changes discarded" is shown, `onAccept` is not called, and the dialog closes |
| DiffReview.DiffModal.Dismiss | src/diffmodal.ts:56-58 | closed by the host without a button: only `onClose` runs, so no notice is shown and `onAccept` is not called |

## Left out

- Networking: `requestUrl` is the `Network` parameter, a function from request to outcome. Timeouts, retries and transport details are not modelled. An error status is a rejected outcome, as `requestUrl` throws on one.
- JSON text: request bodies are `Json` values, not serialised strings. Replies arrive already parsed (`Parsed`), and only the members some provider reads are kept.
- The word diff (`diffWords` from the `diff` library) is a parameter. Its own properties are not proved: minimality, coalescing, a single unchanged part for equal texts, and the round trip from its parts to both texts. `DiffReview.RenderedSides` proves only that the rendering preserves whatever sides the parts describe.
- Temperature is a `real` that every layer forwards unchanged. Floating point, and the slider's 0.1 to 1.0 range and step, are not modelled.
- Concurrency: each command runs to completion within one call. The only thing that can happen during the request is the user moving the selection (`moved`). Overlapping commands and edits to the note while a request is pending are not modelled.
- Editor positions are character offsets, not line/column pairs.
- The UI: DOM elements, CSS classes, focus, `setTimeout` and placeholders are not modelled, and neither are `display()` re-rendering or the model dropdown's list of options. Notices are recorded only as their texts. The status notice is a count of those on screen.
- Logging (`console.error`) is not modelled.
- `processContent().catch(...)` in `src/main.ts:158-161` is not modelled. The try/catch inside `processContent` already catches everything it can throw.
- The read-only answer dialog (`src/modals/responsemodal.ts`) is not modelled. An ask appends the model id and answer to `answers`.
- The role prompt texts in `src/defaults.ts` are opaque constants.
- `Object.entries` order is not modelled: the order of the role entries is a parameter of `Onload`.
- JsString.ToLowerAscii: lowers only ASCII letters. The key comparisons only test against ASCII letters.
- Host.Editor.ReplaceRange: does not say where the cursor ends up after the edit. The host decides that, and no command reads the cursor after an edit.
- Host.Editor.SetValue: does not say where the cursor ends up either, for the same reason.
- Reply members of the wrong JSON type cannot be represented: `Parsed` gives each member the type the source expects. For example, an OpenAI reply with `content: 42` makes the source throw a TypeError from `.trim`, and the model cannot express that reply.
- Host.Editor.Select: stands for the user moving the selection and has no counterpart in the source.
- Main.Modai.Onload: models the custom command registered once, after the loop (see Findings). The command callbacks themselves are the methods `RoleCommand` and `CustomInstructions`.
- Settings.AddRole: models the duplicate check on the table's own keys (see Findings). `SettingsTab.ModaiSettingsTab.AddRole` uses it.

## Findings

| source | as written | input that shows it | evidently intended | confidence | as-written member | corrected member |
|---|---|---|---|---|---|---|
| src/settings.ts:107 | `newRole in this.plugin.settings.roles` also finds names inherited from Object.prototype | adding the role "constructor" (or "toString", "valueOf", …) to any table: it is silently refused | refuse only names already in the table (an own-key check) | high (not executed) | Settings.AddRoleAsWritten, shown by Settings.AddRoleAsWrittenRefusesConstructor | Settings.AddRole |
| src/main.ts:82-90 | the ribbon icon and the `modai-custom` command are registered inside the loop over the roles | the default three roles register three ribbon icons and the command three times; an empty role table registers no custom-instructions command at all | register them once, after the loop | high (not executed) | Main.RegistrationsAsWritten, shown by Main.CustomCommandPerRole and Main.NoCustomCommandWithoutRoles | Main.Modai.Onload, with Main.CustomCommandOnce |
