/** The orchestration of aurion/assistant.py: record the user's turn, build
    the prompt from the history that now holds it, ask the engine, record
    the reply. The text-generation engine is a parameter. */
module AssistantCore {
  import opened Basics
  import opened MemoryStore
  import opened Prompts

  /** The engine's `generate`: a prompt in, the generated text or a failure out. */
  type Engine = string -> Result<string, Error>

  /** The user turn `respond` records first. */
  function UserTurn(userInput: string): Entry {
    NewEntry("user", userInput)
  }

  /** The assistant turn `respond` records last. */
  function AssistantTurn(response: string): Entry {
    NewEntry("assistant", response)
  }

  /** What one call of `respond` does: the file afterwards, the prompt the
      engine was given, and the outcome the caller sees. */
  datatype Exchange = Exchange(after: File, prompt: string, reply: Result<string, Error>)

  /** `respond(user_input)`, with the evident intent of line 14 (the argument
      is `user_input`). The engine is called on a prompt whose history
      already ends with the new user turn; its reply is returned unchanged
      and, on success, stored as the assistant turn. A failure propagates:
      the user turn stays and no assistant turn is added. */
  function RespondSpec(pc: PromptController, f: File, userInput: string, generate: Engine): (x: Exchange)
    ensures x.prompt == pc.BuildPrompt(userInput, HistoryOf(f) + [UserTurn(userInput)])
    ensures x.reply == generate(x.prompt)
    ensures x.reply.Success? ==>
      HistoryOf(x.after) == HistoryOf(f) + [UserTurn(userInput)] + [AssistantTurn(x.reply.value)]
    ensures x.reply.Failure? ==> HistoryOf(x.after) == HistoryOf(f) + [UserTurn(userInput)]
  {
    var afterUser := AfterAdd(f, "user", userInput);
    var prompt := pc.BuildPrompt(userInput, HistoryOf(afterUser));
    var reply := generate(prompt);
    Exchange(Record(afterUser, reply), prompt, reply)
  }

  /** The file once the engine's outcome is known: a reply is stored as the
      assistant turn, a failure stores nothing. */
  function Record(afterUser: File, reply: Result<string, Error>): (after: File)
    ensures reply.Success? ==> HistoryOf(after) == HistoryOf(afterUser) + [AssistantTurn(reply.value)]
    ensures reply.Failure? ==> after == afterUser
  {
    if reply.Success? then AfterAdd(afterUser, "assistant", reply.value) else afterUser
  }

  /** `respond` as written: line 14 reads the undefined name `user_inpt`, so
      after the user turn is stored the call raises, before the history is
      read again and before the engine is asked. */
  function RespondAsWritten(f: File, userInput: string): (r: (File, Result<string, Error>))
    ensures HistoryOf(r.0) == HistoryOf(f) + [UserTurn(userInput)]
    ensures r.1 == Failure(NameError("user_inpt"))
  {
    (AfterAdd(f, "user", userInput), Failure(NameError("user_inpt")))
  }

  /** The defect: with an engine that always answers, the intended `respond`
      returns the answer and stores two turns, while the code as written
      fails with one turn stored. */
  lemma RespondDefect(pc: PromptController, f: File, userInput: string, answer: string)
    ensures var x := RespondSpec(pc, f, userInput, _ => Success(answer));
      x.reply == Success(answer) && |HistoryOf(x.after)| == |HistoryOf(f)| + 2
    ensures RespondAsWritten(f, userInput).1.Failure?
    ensures |HistoryOf(RespondAsWritten(f, userInput).0)| == |HistoryOf(f)| + 1
  {
    var engine: Engine := _ => Success(answer);
    var x := RespondSpec(pc, f, userInput, engine);
    assert x.reply == engine(x.prompt) == Success(answer);
    assert |HistoryOf(x.after)| == |HistoryOf(f) + [UserTurn(userInput)]| + 1;
  }

  /** An engine failure propagates to the caller: the user turn is stored
      and no assistant turn is. */
  lemma EngineFailureStoresOneTurn(pc: PromptController, f: File, userInput: string, description: string)
    ensures var x := RespondSpec(pc, f, userInput, _ => Failure(EngineError(description)));
      x.reply == Failure(EngineError(description)) &&
      HistoryOf(x.after) == HistoryOf(f) + [UserTurn(userInput)]
  {
    var engine: Engine := _ => Failure(EngineError(description));
    var x := RespondSpec(pc, f, userInput, engine);
    assert x.reply == engine(x.prompt) == Failure(EngineError(description));
  }

  /** Even with line 14 mended, the code as written could not reach the
      engine: the history `respond` passes always holds the new user turn,
      so `build_prompt` as written raises for every role. */
  lemma AsWrittenPromptAlwaysFails(s: Strategy, f: File, userInput: string)
    ensures BuildPromptAsWritten(s, userInput, HistoryOf(AfterAdd(f, "user", userInput))).Failure?
  {
  }

  /** The new input reaches the engine twice: as the last history line
      ("User: <input>") and again as the user question. */
  lemma InputAppearsTwice(pc: PromptController, f: File, userInput: string, generate: Engine)
    ensures EndsWith(RespondSpec(pc, f, userInput, generate).prompt,
      "User: " + userInput + QuestionSection(userInput))
  {
    var history := HistoryOf(f) + [UserTurn(userInput)];
    EndsWithUserLine(HistoryOf(f), userInput);
    PromptTextEndsWith(SystemInstruction(pc.strategy), FormatMemory(history), "User: " + userInput, userInput);
  }

  /** An `Assistant`: its memory and its prompt controller, both fixed at
      construction. */
  class Assistant {
    const memory: Memory
    const promptController: PromptController

    /** `Assistant(role)`: a memory on the default file (`onDisk` is what
        that file holds) and a controller for `role`. As written, line 7
        calls `GeminiEngine()` without its required `api_key`, which raises
        `TypeError`, so no assistant is ever built; here the engine is a
        parameter of `Respond` instead. */
    constructor (onDisk: File, role: string := "assistant")
      ensures fresh(memory) && memory.filePath == DefaultPath
      ensures memory.file == EnsureExists(onDisk)
      ensures promptController.strategy == SelectPrompt(role)
    {
      memory := new Memory(onDisk);
      promptController := new PromptController(role);
    }

    /** `respond`: two updates of the memory around one engine call. */
    method Respond(userInput: string, generate: Engine) returns (response: Result<string, Error>)
      modifies memory`file
      ensures var x := RespondSpec(promptController, old(memory.file), userInput, generate);
        response == x.reply && memory.file == x.after
    {
      memory.Add("user", userInput);
      var history := memory.GetHistory();
      var prompt := promptController.BuildPrompt(userInput, history);
      response := generate(prompt);
      if response.Success? {
        memory.Add("assistant", response.value);
      }
    }

    /** `clear_memory`: the history is empty afterwards. */
    method ClearMemory()
      modifies memory`file
      ensures memory.file == AfterClear(old(memory.file))
      ensures HistoryOf(memory.file) == []
    {
      memory.Clear();
    }
  }
}
