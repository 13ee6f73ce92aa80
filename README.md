# Aurion conversation core in Dafny

A model of the conversation core of Aurion, a chat assistant: the JSON-file
conversation memory (`aurion/memory.py`), the role-dependent prompt
composition (`aurion/prompt_controller.py`) and the `respond` orchestration
(`aurion/assistant.py`), with proofs of what each promises.

- `basics.dfy`, module `Basics`: `Option`, `Result`, and the Python
  exceptions the code raises (`NameError`, `AttributeError`, an engine failure).
- `memory.dfy`, module `MemoryStore`: the memory file is abstract state,
  `File = Missing | Corrupt | Valid(entries)`. A stored `Entry` has exactly
  the keys `role` and `message` (no timestamp); a key missing from a
  hand-edited file is `None`. `Memory` is a class whose `file` field the
  methods `Add` and `Clear` rewrite, as the Python object rewrites its file.
  The functions `HistoryOf`, `AfterAdd` and `AfterClear` give the meaning of
  reading, adding and clearing; the lemmas are stated over them.
- `prompt_controller.dfy`, module `Prompts`: the four prompt classes become
  the datatype `Strategy`; their instructions are the exact literals of the
  source, including the indentation that the triple-quoted strings carry and
  the stray leading `"` of the mentor text. Role selection, `capitalize`,
  `lower`, `"\n".join`, `str.split("\n")` and `str.strip()` are written out.
  `build_prompt` is modelled byte for byte: `Template` is the f-string
  before stripping, and `TemplateStrips` proves that stripping it leaves
  exactly `PromptText`, the sections in order from the instruction to
  `Assistant Response:`. `PromptController` is a class whose `strategy` is a
  `const`: it is chosen once at construction and `BuildPrompt` is a function
  of it, so building a prompt is deterministic and changes nothing.
- `assistant.dfy`, module `AssistantCore`: `RespondSpec` is what one
  `respond` call does (the file afterwards, the prompt the engine saw, the
  outcome); `Assistant.Respond` performs the two memory updates around the
  engine call and is proved to agree with it. The engine is a parameter
  `generate: string -> Result<string, Error>`.

Four things in the source are mistakes. The first three are modelled twice,
as written (see "## Findings") and as evidently intended, and the rest of the
model uses the intended version; the fourth is avoided by abstraction:

- `aurion/prompt_controller.py:22` formats `{message}`, a name that is not
  defined; the line's own variable is `text` (line 21).
- `BasePrompt` defines `system_instruction` (`aurion/prompt_controller.py:5`)
  but `build_prompt` calls `get_system_instruction` (line 75); the intended
  base instruction is the one `system_instruction` returns.
- `aurion/assistant.py:14` passes `user_inpt`; the parameter is `user_input`.
- `aurion/assistant.py:7` constructs `GeminiEngine()` without its required
  `api_key`; the model takes the engine as a parameter instead (see Left out).

## Model

| member | source | states |
|---|---|---|
| MemoryStore.EnsureExists | aurion/memory.py:12-17 | a missing file is created holding `[]`; an existing file, valid JSON or not, is left as it is; either way the history read afterwards is the one read before |
| MemoryStore.Memory.constructor | aurion/memory.py:8-10 | a new `Memory` keeps its path and the file is what `_ensure_file_exists` leaves |
| MemoryStore.AfterAdd | aurion/memory.py:19-24 | after `add`, the history is the previous history plus exactly one entry `{role, message}` at the end; a missing file or one that is not valid JSON is discarded, leaving a one-entry history |
| MemoryStore.Memory.Add | aurion/memory.py:19-24 | reads the history, appends one entry and rewrites the file, ending in the state `AfterAdd` describes |
| MemoryStore.Memory.GetHistory | aurion/memory.py:26-31 | returns the stored list, or `[]` instead of raising when the file is missing or not valid JSON; changes nothing (no `modifies`) |
| MemoryStore.AfterClear | aurion/memory.py:33-35 | after `clear` the file holds `[]` and the history is empty, whatever it held |
| MemoryStore.Memory.Clear | aurion/memory.py:33-35 | overwrites the file with `[]` |
| MemoryStore.ClearIdempotent | aurion/memory.py:33-35 | clearing twice leaves the same file as clearing once |
| MemoryStore.AddAllAppends | aurion/memory.py:19-24 | any sequence of `add` calls appends exactly its entries, in call order, after the unchanged earlier history |
| MemoryStore.NoSizeCap | aurion/memory.py:19-24 | starting from an empty or missing file, or one that is not valid JSON, n calls to `add` give a history of exactly those n entries |
| Prompts.SystemInstruction | aurion/prompt_controller.py:5-9 | each role's instruction is its fixed text; every one introduces Aurion, the mentor's with a leading `"`, and none starts with whitespace |
| Prompts.SystemInstructionAsWritten | aurion/prompt_controller.py:26-45 | `get_system_instruction` exists for tutor, coder and mentor and returns their text; on the base prompt it raises `AttributeError` |
| Prompts.Lower | aurion/prompt_controller.py:56 | `lower` keeps the length and lower-cases each character |
| Prompts.Capitalize | aurion/prompt_controller.py:20 | `capitalize` keeps the length, upper-cases the first character and lower-cases the rest |
| Prompts.CapitalizeIgnoresCase | aurion/prompt_controller.py:20 | two roles equal up to case get the same label |
| Prompts.LowerMatchesWord | aurion/prompt_controller.py:56-63 | a role lower-cases to a lower-case word exactly when it spells that word in some mix of cases |
| Prompts.SelectPrompt | aurion/prompt_controller.py:55-65 | any casing of "tutor", "coder" or "mentor" selects that prompt, and only such a casing does; every other role gets the base prompt |
| Prompts.DefaultRoleIsBase | aurion/prompt_controller.py:52-65 | the default role "assistant", and "general", select the base prompt |
| Prompts.MixedCaseRoles | aurion/prompt_controller.py:55-63 | "TuToR", "CODER" and "Mentor" select the tutor, coder and mentor prompts |
| Prompts.PromptController.constructor | aurion/prompt_controller.py:52-53 | the strategy is chosen from the role once, at construction, the default role being "assistant" |
| Prompts.Label | aurion/prompt_controller.py:20 | a line's label is the capitalized role, "User" when the entry has no role |
| Prompts.DefaultLabel | aurion/prompt_controller.py:20 | the role "user", which is also the default for an entry without a role, is labelled "User" |
| Prompts.FormatLine | aurion/prompt_controller.py:20-22 | a line is the label, then ": ", then the message, "" when the entry has none |
| Prompts.Lines | aurion/prompt_controller.py:17-22 | the loop makes one line per entry, the i-th line formatting the i-th entry |
| Prompts.FormatMemory | aurion/prompt_controller.py:10-24 | the empty history renders as exactly "No previous conversation."; otherwise the text starts with the first entry's line and ends with the last entry's line |
| Prompts.FormatMemoryLoop | aurion/prompt_controller.py:14-24 | the accumulating loop followed by the join yields `FormatMemory` of the history |
| Prompts.OneLinePerEntry | aurion/prompt_controller.py:17-24 | when no role or message holds a newline, splitting the rendering on "\n" gives exactly one line per entry, in order, and nothing after the last |
| Prompts.SplitJoin | aurion/prompt_controller.py:24 | joining newline-free lines with "\n" and splitting on "\n" gives the lines back |
| Prompts.FormatMemoryAsWritten | aurion/prompt_controller.py:14-22 | as written, only the empty history renders; any entry raises `NameError` for `message` |
| Prompts.FormatMemoryDefect | aurion/prompt_controller.py:22 | on every non-empty history the code as written raises where the intended rendering begins with the first entry's line |
| Prompts.StripLeft | aurion/prompt_controller.py:88 | removes exactly the leading whitespace: what is left is a suffix not starting with whitespace and everything removed is whitespace |
| Prompts.StripRight | aurion/prompt_controller.py:88 | removes exactly the trailing whitespace, symmetrically |
| Prompts.TemplateStrips | aurion/prompt_controller.py:77-88 | stripping the template removes only the blank lead-in and the indentation after the cue, whatever the history and the question contain |
| Prompts.PromptTextFrame | aurion/prompt_controller.py:77-88 | the prompt starts with the instruction and ends with "Assistant Response:" |
| Prompts.PromptTextEndsWith | aurion/prompt_controller.py:81-87 | the history is followed directly by the "User Question:" section with the input and then the cue, which end the prompt |
| Prompts.PromptController.BuildPrompt | aurion/prompt_controller.py:67-88 | the prompt is the instruction, "Conversation History:", the rendered history, "User Question:", the input and "Assistant Response:", in that order, starting with the instruction and ending with the cue |
| Prompts.BuildPromptAsWritten | aurion/prompt_controller.py:75-88 | as written, a prompt is built only for tutor, coder or mentor with an empty history; the base prompt raises `AttributeError`, a non-empty history `NameError` |
| Prompts.BasePromptDefect | aurion/prompt_controller.py:75 | for the default role the code as written raises on every call, while the intended prompt opens with the base instruction |
| AssistantCore.RespondSpec | aurion/assistant.py:11-20 | the engine gets the prompt built from the old history plus the new user turn; its outcome is returned unchanged; on success the history gains exactly the user turn and an assistant turn holding the returned text, on failure only the user turn |
| AssistantCore.Record | aurion/assistant.py:18-19 | a reply is stored as one assistant turn; a failure stores nothing |
| AssistantCore.Assistant.constructor | aurion/assistant.py:6-9 | a new assistant has its own memory on the default file and a controller for its role |
| AssistantCore.Assistant.Respond | aurion/assistant.py:11-20 | adds the user turn, reads the history, builds the prompt, calls the engine, adds the assistant turn on success, ending in the state and result `RespondSpec` gives |
| AssistantCore.InputAppearsTwice | aurion/assistant.py:12-16 | the prompt ends with the input's history line "User: <input>" followed by the question section repeating the input |
| AssistantCore.RespondAsWritten | aurion/assistant.py:12-14 | as written, `respond` stores the user turn and then raises `NameError` for `user_inpt` |
| AssistantCore.RespondDefect | aurion/assistant.py:14 | with an engine that always answers, the intended `respond` returns the answer and stores two turns while the code as written fails with one turn stored |
| AssistantCore.EngineFailureStoresOneTurn | aurion/assistant.py:18-20 | when the engine raises, the error reaches the caller unchanged and only the user turn is stored |
| AssistantCore.AsWrittenPromptAlwaysFails | aurion/assistant.py:12-16 | even with line 14 mended, `build_prompt` as written raises for every role on the history `respond` passes |
| AssistantCore.Assistant.ClearMemory | aurion/assistant.py:22-23 | after `clear_memory` the history is empty |

## Left out

- JSON encoding, the `indent=2` layout, UTF-8 file encoding and directory creation in `aurion/memory.py`: the file is the abstract `File`.
- A memory file that exists but cannot be opened or decoded (no read permission, a directory at the path, bytes that are not UTF-8): `get_history` catches only `JSONDecodeError` and `FileNotFoundError` (`aurion/memory.py:30`), so it raises, and `add` and `respond` with it, leaving the file untouched; this is not modelled, and the model's `Corrupt` means only readable text that is not valid JSON.
- Keys other than `role` and `message` in stored objects (such as a `timestamp` that `app.py` reads): `get_history` returns them and `add` rewrites them unchanged, but `Entry` cannot hold them, so the model does not capture that they survive.
- A memory file that holds valid JSON other than a list (`{}`, a number, a string): `add` then raises when it appends to it (`aurion/memory.py:21`); such files are not modelled.
- A stored entry whose `role` is not a string (a number, `null`): `format_memory` raises when it capitalizes it (`aurion/prompt_controller.py:20`); not modelled.
- A stored entry whose `message` is present but not a string (`5`, `null`): `get_history` and `add` keep it, and the intended `format_memory` renders it with Python's `str()` ("User: 5", "User: None"); the model's `Entry` holds only string messages, and its `None` means the key is absent, which renders as "".
- MemoryStore.Memory.constructor: a path with no directory part (`Memory("memory.json")`) makes `os.makedirs("")` at `aurion/memory.py:13` raise `FileNotFoundError` before the file is checked; the constructor accepts every path and does not capture that failure. Every caller uses the default path `data/memory.json` (`aurion/assistant.py:8`), which has one.
- Two `Memory` objects on the same path share one file in the source; in the model each object holds its own copy of the file state.
- Prompts.Lower: lower-cases ASCII letters only; Python's `str.lower` also maps non-ASCII capitals. Role selection is unaffected for the three role names, which are plain ASCII.
- Prompts.Capitalize: ASCII letters only, like `Lower`; Python's `str.capitalize` also title-cases and lower-cases non-ASCII letters.
- The text-generation engine (`aurion/gemini_engine.py`): network calls to the provider SDK. It is a pure function parameter of `respond`, so two calls on the same prompt give the same answer in the model.
- The engine construction on `aurion/assistant.py:7` (`GeminiEngine()` without its `api_key`, which raises `TypeError`): the assistant takes the engine as a parameter instead.
- `app.py`: the Streamlit UI. It calls operations that nothing in the code defines (conversation creation, listing, switching and deletion, per-conversation history, greetings, role switching, streaming responses, API-key loading) and builds `Assistant` with three arguments its constructor does not take; none of that behaviour is modelled, and neither are timestamps, context-window limits or apology turns on engine failure, which the code does not have.
- `aurion/voice_handler.py` (microphone and speech-recognition service), `config/settings.py` (environment lookup) and `aurion/__init__.py` (re-exports): I/O and wiring.

## Findings

| source | as written | input that shows it | evidently intended | confidence | as-written member | corrected member |
|---|---|---|---|---|---|---|
| aurion/prompt_controller.py:22 | the line formats `{message}`, an undefined name, so `format_memory` raises `NameError` on any non-empty history | `format_memory([{"role": "user", "message": "hi"}])` | format the entry's own `text`, giving "User: hi" | high, not executed | Prompts.FormatMemoryAsWritten | Prompts.FormatMemory |
| aurion/prompt_controller.py:75 | `build_prompt` calls `get_system_instruction`, which `BasePrompt` lacks (it defines `system_instruction`, line 5), so the default role raises `AttributeError` | `PromptController().build_prompt("hi", [])` | the base prompt answers with its `system_instruction` text | high, not executed | Prompts.BuildPromptAsWritten | Prompts.PromptController.BuildPrompt |
| aurion/assistant.py:14 | `respond` passes the undefined `user_inpt`, so every call raises `NameError` after storing the user turn | `respond("hi")` on any assistant | pass `user_input` | high, not executed | AssistantCore.RespondAsWritten | AssistantCore.RespondSpec |
