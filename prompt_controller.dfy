/** Role-dependent prompt composition of aurion/prompt_controller.py: a
    strategy per role supplies the system instruction and renders the
    history; the controller fills a fixed template and strips it. */
module Prompts {
  import opened Basics
  import opened MemoryStore

  /** The four prompt classes: BasePrompt, TutorPrompt, CoderPrompt, MentorPrompt. */
  datatype Strategy = Base | Tutor | Coder | Mentor

  // ---------------------------------------------------------------------
  // Instructions

  /** The opening every instruction shares. */
  const Introduction: string := "You are Aurion, "

  const BaseInstruction: string :=
    Introduction + "a helpful and intelligent AI assistant.\n            Answer questions clearly and concisely."
  const TutorInstruction: string :=
    Introduction + "a friendly and patient tutor.\n                Explain concepts step-by-step with simple examples."
  const CoderInstruction: string :=
    Introduction + "an expert software developer.\n                Provide clean, effiecient, and well-commented code."
  // The mentor literal opens with four quote characters, so its text starts with '"'.
  const MentorInstruction: string :=
    "\"" + Introduction + "a professional career mentor.\n                Give practical advice, roadmaps, and motivation."

  /** The system instruction of each strategy, with the evident intent for
      BasePrompt: its `system_instruction` method is the one `build_prompt`
      asks for under the name `get_system_instruction`. Every instruction
      introduces Aurion and starts with a non-blank character. */
  function SystemInstruction(s: Strategy): (text: string)
    ensures s != Mentor ==> Introduction <= text
    ensures s == Mentor ==> "\"" + Introduction <= text
    ensures |text| > 0 && !IsSpace(text[0])
  {
    match s
    case Base => BaseInstruction
    case Tutor => TutorInstruction
    case Coder => CoderInstruction
    case Mentor => MentorInstruction
  }

  /** `get_system_instruction()` as written: BasePrompt has no method of that
      name (its method is `system_instruction`), so the call raises. */
  function SystemInstructionAsWritten(s: Strategy): (r: Result<string, Error>)
    ensures r.Failure? <==> s == Base
    ensures r.Failure? ==> r.error == AttributeError("get_system_instruction")
    ensures r.Success? ==> r.value == SystemInstruction(s)
  {
    if s == Base then Failure(AttributeError("get_system_instruction"))
    else Success(SystemInstruction(s))
  }

  // ---------------------------------------------------------------------
  // Case mapping (ASCII letters)

  function LowerChar(c: char): char {
    if 'A' <= c <= 'Z' then (c as int + 32) as char else c
  }

  function UpperChar(c: char): char {
    if 'a' <= c <= 'z' then (c as int - 32) as char else c
  }

  /** `str.lower()`. */
  function Lower(s: string): (r: string)
    ensures |r| == |s|
    ensures forall i :: 0 <= i < |s| ==> r[i] == LowerChar(s[i])
  {
    if s == [] then [] else [LowerChar(s[0])] + Lower(s[1..])
  }

  /** `str.capitalize()`: first character upper case, the rest lower case. */
  function Capitalize(s: string): (r: string)
    ensures |r| == |s|
    ensures |s| > 0 ==> r[0] == UpperChar(s[0])
    ensures forall i :: 1 <= i < |s| ==> r[i] == LowerChar(s[i])
  {
    if s == [] then [] else [UpperChar(s[0])] + Lower(s[1..])
  }

  /** Capitalizing ignores the casing it is given: two strings equal up to
      case get the same label. */
  lemma CapitalizeIgnoresCase(a: string, b: string)
    requires Lower(a) == Lower(b)
    ensures Capitalize(a) == Capitalize(b)
  {
    var ca, cb := Capitalize(a), Capitalize(b);
    forall i | 0 <= i < |a|
      ensures ca[i] == cb[i]
    {
      assert LowerChar(a[i]) == Lower(a)[i] == Lower(b)[i] == LowerChar(b[i]);
      if i == 0 {
        UpperOfLower(a[0]);
        UpperOfLower(b[0]);
      }
    }
  }

  lemma UpperOfLower(c: char)
    ensures UpperChar(LowerChar(c)) == UpperChar(c)
  {
  }

  /** `role` spells the lower-case word `word` in any mix of cases. */
  predicate SpellsIgnoringCase(role: string, word: string) {
    |role| == |word| &&
    forall i :: 0 <= i < |role| ==> role[i] == word[i] || role[i] == UpperChar(word[i])
  }

  predicate IsLowerWord(word: string) {
    forall i :: 0 <= i < |word| ==> 'a' <= word[i] <= 'z'
  }

  /** Lower-casing yields a lower-case word exactly when the input spells it
      in some mix of cases. */
  lemma LowerMatchesWord(role: string, word: string)
    requires IsLowerWord(word)
    ensures Lower(role) == word <==> SpellsIgnoringCase(role, word)
  {
    if Lower(role) == word {
      forall i | 0 <= i < |role|
        ensures role[i] == word[i] || role[i] == UpperChar(word[i])
      {
        assert LowerChar(role[i]) == word[i];
      }
    }
    if SpellsIgnoringCase(role, word) {
      forall i | 0 <= i < |role|
        ensures Lower(role)[i] == word[i]
      {
      }
    }
  }

  // ---------------------------------------------------------------------
  // Role selection

  /** `_select_prompt(role)`: the role is lower-cased, then compared with
      "tutor", "coder" and "mentor"; anything else gets the base prompt. */
  function SelectPrompt(role: string): (s: Strategy)
    ensures s == Tutor <==> SpellsIgnoringCase(role, "tutor")
    ensures s == Coder <==> SpellsIgnoringCase(role, "coder")
    ensures s == Mentor <==> SpellsIgnoringCase(role, "mentor")
    ensures s == Base <==>
      !SpellsIgnoringCase(role, "tutor") && !SpellsIgnoringCase(role, "coder") &&
      !SpellsIgnoringCase(role, "mentor")
  {
    LowerMatchesWord(role, "tutor");
    LowerMatchesWord(role, "coder");
    LowerMatchesWord(role, "mentor");
    var r := Lower(role);
    if r == "tutor" then Tutor
    else if r == "coder" then Coder
    else if r == "mentor" then Mentor
    else Base
  }

  /** The default role "assistant" selects the base prompt, as does the
      "general" role the UI uses. */
  lemma DefaultRoleIsBase()
    ensures SelectPrompt("assistant") == Base
    ensures SelectPrompt("general") == Base
  {
  }

  /** Case does not matter for the named roles. */
  lemma MixedCaseRoles()
    ensures SelectPrompt("TuToR") == Tutor
    ensures SelectPrompt("CODER") == Coder
    ensures SelectPrompt("Mentor") == Mentor
  {
    assert SpellsIgnoringCase("TuToR", "tutor");
    assert SpellsIgnoringCase("CODER", "coder");
    assert SpellsIgnoringCase("Mentor", "mentor");
  }

  // ---------------------------------------------------------------------
  // Rendering the history

  const NoHistory: string := "No previous conversation."

  /** The label of a line: the role capitalized, "user" when absent. */
  function Label(role: Option<string>): (caption: string)
    ensures role.None? ==> caption == "User"
    ensures |caption| == |role.GetOr("user")|
  {
    Capitalize(role.GetOr("user"))
  }

  /** One line `"<Label>: <message>"`, the message "" when absent. */
  function FormatLine(e: Entry): (line: string)
    ensures Label(e.role) + ": " <= line
    ensures line[|Label(e.role)| + 2..] == e.message.GetOr("")
  {
    Label(e.role) + ": " + e.message.GetOr("")
  }

  /** The lines of a history, one per entry, in order (the list the loop
      of `format_memory` builds). */
  function Lines(memory: seq<Entry>): (lines: seq<string>)
    ensures |lines| == |memory|
    ensures forall i :: 0 <= i < |memory| ==> lines[i] == FormatLine(memory[i])
  {
    if memory == [] then []
    else Lines(memory[..|memory| - 1]) + [FormatLine(memory[|memory| - 1])]
  }

  /** `s` ends with `suffix`. */
  predicate EndsWith(s: string, suffix: string) {
    |suffix| <= |s| && s[|s| - |suffix|..] == suffix
  }

  /** `sep.join(parts)`: starts with the first part and ends with the last. */
  function Join(sep: string, parts: seq<string>): (r: string)
    ensures |parts| > 0 ==> parts[0] <= r
    ensures |parts| > 0 ==> EndsWith(r, parts[|parts| - 1])
  {
    if |parts| == 0 then ""
    else if |parts| == 1 then parts[0]
    else Join(sep, parts[..|parts| - 1]) + sep + parts[|parts| - 1]
  }

  /** `format_memory`, as evidently intended: each line shows the entry's own
      message (`text`). Empty history gives the fixed sentinel. */
  function FormatMemory(memory: seq<Entry>): (text: string)
    ensures memory == [] ==> text == NoHistory
    ensures memory != [] ==> FormatLine(memory[0]) <= text
    ensures memory != [] ==> EndsWith(text, FormatLine(memory[|memory| - 1]))
  {
    if memory == [] then NoHistory else Join("\n", Lines(memory))
  }

  /** The loop of `format_memory`: accumulate one line per entry, then join. */
  method FormatMemoryLoop(memory: seq<Entry>) returns (text: string)
    ensures text == FormatMemory(memory)
  {
    if |memory| == 0 {
      return NoHistory;
    }
    var formatted: seq<string> := [];
    for i := 0 to |memory|
      invariant formatted == Lines(memory[..i])
    {
      assert memory[..i + 1][..i] == memory[..i];
      formatted := formatted + [FormatLine(memory[i])];
    }
    assert memory[..|memory|] == memory;
    text := Join("\n", formatted);
  }

  /** `format_memory` as written: the f-string names `message`, which is not
      defined, so the first entry raises; only the empty history renders. */
  function FormatMemoryAsWritten(memory: seq<Entry>): (r: Result<string, Error>)
    ensures r.Success? <==> memory == []
    ensures r.Success? ==> r.value == NoHistory
    ensures r.Failure? ==> r.error == NameError("message")
  {
    if memory == [] then Success(NoHistory) else Failure(NameError("message"))
  }

  /** The defect: on any non-empty history the code as written raises, while
      the intended rendering starts with the first entry's line. */
  lemma FormatMemoryDefect(memory: seq<Entry>)
    requires memory != []
    ensures FormatMemoryAsWritten(memory) == Failure(NameError("message"))
    ensures FormatLine(memory[0]) <= FormatMemory(memory)
  {
  }

  // ---------------------------------------------------------------------
  // One line per entry: splitting the rendering on newlines gives the lines back

  /** `s.split("\n")`. */
  function SplitLines(s: string): (pieces: seq<string>)
    ensures |pieces| >= 1
  {
    if s == [] then [""]
    else
      var rest := SplitLines(s[1..]);
      if s[0] == '\n' then [""] + rest else [[s[0]] + rest[0]] + rest[1..]
  }

  predicate NoNewline(s: string) {
    forall i :: 0 <= i < |s| ==> s[i] != '\n'
  }

  lemma {:induction false} SplitWithoutNewline(s: string)
    requires NoNewline(s)
    ensures SplitLines(s) == [s]
  {
    if s != [] {
      SplitWithoutNewline(s[1..]);
      assert [s[0]] + s[1..] == s;
    }
  }

  lemma {:induction false} SplitAppend(a: string, b: string)
    requires NoNewline(b)
    ensures SplitLines(a + "\n" + b) == SplitLines(a) + [b]
  {
    if a == [] {
      assert a + "\n" + b == "\n" + b;
      assert ("\n" + b)[1..] == b;
      SplitWithoutNewline(b);
    } else {
      SplitAppend(a[1..], b);
      assert (a + "\n" + b)[1..] == a[1..] + "\n" + b;
    }
  }

  /** Joining newline-free parts with "\n" and splitting again is the identity. */
  lemma {:induction false} SplitJoin(parts: seq<string>)
    requires |parts| > 0
    requires forall i :: 0 <= i < |parts| ==> NoNewline(parts[i])
    ensures SplitLines(Join("\n", parts)) == parts
  {
    if |parts| == 1 {
      SplitWithoutNewline(parts[0]);
    } else {
      var init := parts[..|parts| - 1];
      SplitJoin(init);
      SplitAppend(Join("\n", init), parts[|parts| - 1]);
    }
  }

  lemma LineWithoutNewline(e: Entry)
    requires NoNewline(e.role.GetOr("user")) && NoNewline(e.message.GetOr(""))
    ensures NoNewline(FormatLine(e))
  {
    var line := FormatLine(e);
    var caption := Label(e.role);
    forall i | 0 <= i < |line| ensures line[i] != '\n' {
      if i < |caption| {
        assert caption[i] == UpperChar(e.role.GetOr("user")[i]) ||
               caption[i] == LowerChar(e.role.GetOr("user")[i]);
      } else if i >= |caption| + 2 {
        assert line[i] == e.message.GetOr("")[i - |caption| - 2];
      } else {
        assert line[i] == (caption + ": ")[i];
      }
    }
  }

  /** When no role or message holds a newline, the rendering of a non-empty
      history has exactly one line per entry, in order, with nothing after
      the last one. */
  lemma OneLinePerEntry(memory: seq<Entry>)
    requires memory != []
    requires forall i :: 0 <= i < |memory| ==>
      NoNewline(memory[i].role.GetOr("user")) && NoNewline(memory[i].message.GetOr(""))
    ensures |SplitLines(FormatMemory(memory))| == |memory|
    ensures forall i :: 0 <= i < |memory| ==> SplitLines(FormatMemory(memory))[i] == FormatLine(memory[i])
  {
    var lines := Lines(memory);
    forall i | 0 <= i < |lines| ensures NoNewline(lines[i]) {
      LineWithoutNewline(memory[i]);
    }
    SplitJoin(lines);
  }

  // ---------------------------------------------------------------------
  // The template and str.strip()

  /** `str.isspace()` for one character. */
  predicate IsSpace(c: char) {
    c == ' ' || '\t' <= c <= '\r' || '\U{1c}' <= c <= '\U{1f}' ||
    c == '\U{85}' || c == '\U{a0}' || c == '\U{1680}' || '\U{2000}' <= c <= '\U{200a}' ||
    c == '\U{2028}' || c == '\U{2029}' || c == '\U{202f}' || c == '\U{205f}' || c == '\U{3000}'
  }

  /** Leading whitespace removed. */
  function StripLeft(s: string): (r: string)
    ensures |r| <= |s| && r == s[|s| - |r|..]
    ensures forall i :: 0 <= i < |s| - |r| ==> IsSpace(s[i])
    ensures r == [] || !IsSpace(r[0])
  {
    if |s| > 0 && IsSpace(s[0]) then StripLeft(s[1..]) else s
  }

  /** Trailing whitespace removed. */
  function StripRight(s: string): (r: string)
    ensures |r| <= |s| && r == s[..|r|]
    ensures forall i :: |r| <= i < |s| ==> IsSpace(s[i])
    ensures r == [] || !IsSpace(r[|r| - 1])
  {
    if |s| > 0 && IsSpace(s[|s| - 1]) then StripRight(s[..|s| - 1]) else s
  }

  /** `str.strip()`. */
  function Strip(s: string): string {
    StripRight(StripLeft(s))
  }

  const Indent: string := "        "

  /** The cue that closes every prompt. */
  const Cue: string := "Assistant Response:"

  /** The instruction is followed by a blank line and the history section. */
  function HistorySection(conversation: string): string {
    "\n\n" + Indent + "Conversation History:\n" + Indent + conversation
  }

  /** Then a blank line, the question section, a blank line and the cue. */
  function QuestionSection(userInput: string): string {
    "\n\n" + Indent + "User Question:\n" + Indent + userInput + "\n\n" + Indent + Cue
  }

  /** The f-string of `build_prompt`, byte for byte before stripping: a space,
      a newline and the indentation, the sections, then a newline and the
      indentation of the closing quotes. */
  function Template(instruction: string, conversation: string, userInput: string): string {
    " \n" + Indent + instruction + HistorySection(conversation) + QuestionSection(userInput) + "\n" + Indent
  }

  /** The stripped prompt: the sections in order, from the instruction to the
      closing "Assistant Response:" cue. */
  function PromptText(instruction: string, conversation: string, userInput: string): string {
    instruction + HistorySection(conversation) + QuestionSection(userInput)
  }

  /** The stripped prompt opens with the instruction and closes with the cue. */
  lemma PromptTextFrame(instruction: string, conversation: string, userInput: string)
    ensures instruction <= PromptText(instruction, conversation, userInput)
    ensures EndsWith(PromptText(instruction, conversation, userInput), Cue)
  {
    var question := "\n\n" + Indent + "User Question:\n" + Indent + userInput + "\n\n" + Indent;
    assert QuestionSection(userInput) == question + Cue;
    var head := instruction + HistorySection(conversation);
    assert PromptText(instruction, conversation, userInput) == instruction + (HistorySection(conversation) + QuestionSection(userInput));
    assert PromptText(instruction, conversation, userInput) == (head + question) + Cue;
  }

  /** Whatever ends the history is followed directly by the question section,
      which ends the prompt. */
  lemma PromptTextEndsWith(instruction: string, conversation: string, last: string, userInput: string)
    requires EndsWith(conversation, last)
    ensures EndsWith(PromptText(instruction, conversation, userInput), last + QuestionSection(userInput))
  {
    var before := conversation[..|conversation| - |last|];
    assert conversation == before + last;
    var head := instruction + "\n\n" + Indent + "Conversation History:\n" + Indent;
    assert HistorySection(conversation) == "\n\n" + Indent + "Conversation History:\n" + Indent + before + last;
    assert PromptText(instruction, conversation, userInput)
        == (head + before) + (last + QuestionSection(userInput));
  }

  /** A history ending with a user turn renders with "User: <input>" last. */
  lemma EndsWithUserLine(memory: seq<Entry>, userInput: string)
    ensures EndsWith(FormatMemory(memory + [NewEntry("user", userInput)]), "User: " + userInput)
  {
    var m := memory + [NewEntry("user", userInput)];
    assert m[|m| - 1] == NewEntry("user", userInput);
    DefaultLabel();
    assert FormatLine(NewEntry("user", userInput)) == "User: " + userInput;
  }

  /** The label of a "user" entry, and of an entry with no role, is "User". */
  lemma DefaultLabel()
    ensures Capitalize("user") == "User"
  {
    var c := Capitalize("user");
    assert c[0] == UpperChar('u') == 'U';
    assert c[1] == LowerChar('s') == 's';
    assert c[2] == LowerChar('e') == 'e';
    assert c[3] == LowerChar('r') == 'r';
  }

  lemma {:induction false} StripLeftSkips(ws: string, t: string)
    requires forall i :: 0 <= i < |ws| ==> IsSpace(ws[i])
    requires |t| > 0 && !IsSpace(t[0])
    ensures StripLeft(ws + t) == t
  {
    if ws != [] {
      assert (ws + t)[1..] == ws[1..] + t;
      StripLeftSkips(ws[1..], t);
    } else {
      assert ws + t == t;
    }
  }

  lemma {:induction false} StripRightSkips(t: string, ws: string)
    requires forall i :: 0 <= i < |ws| ==> IsSpace(ws[i])
    requires |t| > 0 && !IsSpace(t[|t| - 1])
    ensures StripRight(t + ws) == t
  {
    if ws != [] {
      assert (t + ws)[..|t + ws| - 1] == t + ws[..|ws| - 1];
      StripRightSkips(t, ws[..|ws| - 1]);
    } else {
      assert t + ws == t;
    }
  }

  lemma SeqAssoc5(a: string, b: string, c: string, d: string, e: string, f: string)
    ensures a + b + c + d + e + f == a + ((b + c + d) + (e + f))
  {
  }

  /** Stripping the template removes exactly the blank lead-in before the
      instruction and the newline and indentation after the cue, whatever
      the history and the question hold. */
  lemma TemplateStrips(instruction: string, conversation: string, userInput: string)
    requires |instruction| > 0 && !IsSpace(instruction[0])
    ensures Strip(Template(instruction, conversation, userInput))
         == PromptText(instruction, conversation, userInput)
  {
    var body := PromptText(instruction, conversation, userInput);
    var lead := " \n" + Indent;
    var trail := "\n" + Indent;
    var h, q := HistorySection(conversation), QuestionSection(userInput);
    assert Template(instruction, conversation, userInput) == (lead + instruction + h + q + "\n") + Indent;
    SeqAssoc5(lead, instruction, h, q, "\n", Indent);
    assert body == instruction + h + q;
    PromptTextFrame(instruction, conversation, userInput);
    assert (body + trail)[0] == body[0] == instruction[0];
    StripLeftSkips(lead, body + trail);
    assert body[|body| - 1] == Cue[|Cue| - 1] == ':';
    StripRightSkips(body, trail);
  }

  // ---------------------------------------------------------------------
  // The controller

  /** `PromptController`: the strategy is chosen once, from the role given
      at construction, and never changes. */
  class PromptController {
    const strategy: Strategy

    constructor (role: string := "assistant")
      ensures strategy == SelectPrompt(role)
    {
      strategy := SelectPrompt(role);
    }

    /** `build_prompt`: the stripped template, which opens with the role's
        instruction, then the history section, then the question, and ends
        with the "Assistant Response:" cue. */
    function BuildPrompt(userInput: string, memory: seq<Entry>): (prompt: string)
      ensures prompt == PromptText(SystemInstruction(strategy), FormatMemory(memory), userInput)
      ensures SystemInstruction(strategy) <= prompt
      ensures EndsWith(prompt, Cue)
    {
      TemplateStrips(SystemInstruction(strategy), FormatMemory(memory), userInput);
      PromptTextFrame(SystemInstruction(strategy), FormatMemory(memory), userInput);
      Strip(Template(SystemInstruction(strategy), FormatMemory(memory), userInput))
    }
  }

  /** `build_prompt` as written, for a controller holding strategy `s`: the
      base prompt lacks `get_system_instruction`, and `format_memory` raises
      on any entry, so only a named role with an empty history gets a prompt. */
  function BuildPromptAsWritten(s: Strategy, userInput: string, memory: seq<Entry>): (r: Result<string, Error>)
    ensures r.Success? <==> s != Base && memory == []
    ensures s == Base ==> r == Failure(AttributeError("get_system_instruction"))
    ensures s != Base && memory != [] ==> r == Failure(NameError("message"))
    ensures r.Success? ==> r.value == PromptText(SystemInstruction(s), NoHistory, userInput)
  {
    match SystemInstructionAsWritten(s)
    case Failure(e) => Failure(e)
    case Success(instruction) =>
      match FormatMemoryAsWritten(memory)
      case Failure(e) => Failure(e)
      case Success(conversation) =>
        TemplateStrips(instruction, conversation, userInput);
        Success(Strip(Template(instruction, conversation, userInput)))
  }

  /** The defect for the default role: "assistant" selects the base prompt,
      for which the code as written raises on every call, while the intended
      prompt opens with the base instruction. */
  lemma BasePromptDefect(userInput: string, memory: seq<Entry>)
    ensures BuildPromptAsWritten(SelectPrompt("assistant"), userInput, memory)
         == Failure(AttributeError("get_system_instruction"))
    ensures BaseInstruction <= PromptText(SystemInstruction(SelectPrompt("assistant")), FormatMemory(memory), userInput)
  {
    DefaultRoleIsBase();
    PromptTextFrame(BaseInstruction, FormatMemory(memory), userInput);
  }
}
