/** The post-processor that turns loosely typed event records into flat log
    entries, and the completion-metadata extractor defined beside it. */
module OrganizeAndWrite {

  import opened PyValues

  type Entry = map<string, Value>

  const EntryKeys: set<string> := {"Timestamp", "Model", "Prompt", "Completion", "CompletionTokens", "TotalTokens"}

  /** The token counts of a completion: from its `usage` dict when the
      completion is a dict, "N/A" otherwise. A `usage` that is present but
      not a dict has no `get` and raises. */
  function UsageTokens(completion: Value): (r: Result<(Value, Value), PyError>)
    ensures !completion.Dict? ==> r == Success((Str("N/A"), Str("N/A")))
    ensures completion.Dict? && "usage" !in completion.entries ==> r == Success((Str("N/A"), Str("N/A")))
    ensures completion.Dict? && "usage" in completion.entries ==>
      var usage := completion.entries["usage"];
      if usage.Dict? then
        r == Success((Get(usage.entries, "completion_tokens", Str("N/A")), Get(usage.entries, "total_tokens", Str("N/A"))))
      else r == Failure(AttributeError(TypeName(usage), "get"))
  {
    if completion.Dict? then
      var usage := Get(completion.entries, "usage", Dict(map[]));
      match GetOn(usage, "completion_tokens", Str("N/A"))
      case Failure(e) => Failure(e)
      case Success(completionTokens) =>
        match GetOn(usage, "total_tokens", Str("N/A"))
        case Failure(e) => Failure(e)
        case Success(totalTokens) => Success((completionTokens, totalTokens))
    else Success((Str("N/A"), Str("N/A")))
  }

  /** The body of the `try` in `process_event`: the event's fields with
      their defaults. The entry's Completion is always "N/A", because the
      text it is taken from is never set from the event. It fails exactly
      when the event is not a dict, or its Completion is a dict whose
      `usage` is not a dict. */
  function ParseEvent(event: Value): (r: Result<Entry, PyError>)
    ensures r.Failure? <==>
      || !event.Dict?
      || (&& "Completion" in event.entries && event.entries["Completion"].Dict?
          && "usage" in event.entries["Completion"].entries
          && !event.entries["Completion"].entries["usage"].Dict?)
    ensures !event.Dict? ==> r == Failure(AttributeError(TypeName(event), "get"))
    ensures r.Success? ==>
      && r.value.Keys == EntryKeys
      && r.value["Timestamp"] == Get(event.entries, "Timestamp", Str("N/A"))
      && r.value["Model"] == Get(event.entries, "Model", Str("unknown"))
      && r.value["Prompt"] == Get(event.entries, "Prompt", Str("N/A"))
      && r.value["Completion"] == Str("N/A")
      && (r.value["CompletionTokens"], r.value["TotalTokens"])
           == UsageTokens(Get(event.entries, "Completion", Str("N/A"))).value
  {
    match GetOn(event, "Timestamp", Str("N/A"))
    case Failure(e) => Failure(e)
    case Success(timestamp) =>
      var fields := event.entries;
      var model := Get(fields, "Model", Str("unknown"));
      var prompt := Get(fields, "Prompt", Str("N/A"));
      var completion := Get(fields, "Completion", Str("N/A"));
      var completionText := "N/A";  // `.strip()` leaves it as it is
      match UsageTokens(completion)
      case Failure(e) => Failure(e)
      case Success(tokens) =>
        Success(map[
          "Timestamp" := timestamp,
          "Model" := model,
          "Prompt" := prompt,
          "Completion" := Str(completionText),
          "CompletionTokens" := tokens.0,
          "TotalTokens" := tokens.1])
  }

  /** The entry `process_event` records when the `try` raises. */
  function ErrorEntry(e: PyError): (entry: Entry)
    ensures entry.Keys == {"Error"}
  {
    map["Error" := Str("Failed to process event: " + ErrorText(e))]
  }

  class LogProcessor {
    var outputFile: string
    var logEntries: seq<Entry>

    constructor (outputFile: string)
      ensures this.outputFile == outputFile && logEntries == []
    {
      this.outputFile := outputFile;
      logEntries := [];
    }

    /** Appends exactly one entry: the processed event, or an error entry
        when processing raised. Earlier entries are kept as they were. */
    method ProcessEvent(event: Value)
      modifies this`logEntries
      ensures |logEntries| == |old(logEntries)| + 1
      ensures logEntries[..|old(logEntries)|] == old(logEntries)
      ensures var r := ParseEvent(event);
              logEntries[|logEntries| - 1] == if r.Success? then r.value else ErrorEntry(r.error)
    {
      var r := ParseEvent(event);
      match r
      case Success(entry) =>
        logEntries := logEntries + [entry];
      case Failure(e) =>
        logEntries := logEntries + [ErrorEntry(e)];
    }
  }

  /** One element of the `choices` list of `parse_completion`'s output. */
  datatype ChoiceSummary = ChoiceSummary(index: Value, finishReason: Value, messageContent: Value)

  /** What `parse_completion` returns, without its `timestamps` part. */
  datatype CompletionMetadata = CompletionMetadata(
    chatPrompt: Value,
    chatResponse: Value,
    model: Value,
    id: Value,
    systemFingerprint: Value,
    completionTokens: Value,
    promptTokens: Value,
    totalTokens: Value,
    choices: seq<ChoiceSummary>)

  /** `v[0]` for the value stored under "choices". */
  function First(v: Value): (r: Result<Value, PyError>)
    ensures v.List? && v.items != [] ==> r == Success(v.items[0])
    ensures r.Success? ==> v.List? || v.Str?
  {
    match v
    case List(items) => if items == [] then Failure(IndexError("list")) else Success(items[0])
    case Str(s) => if s == [] then Failure(IndexError("string")) else Success(Str([s[0]]))
    case Dict(_) => Failure(KeyError("0"))
    case _ => Failure(TypeError(TypeName(v)))
  }

  /** `choice.get("message", {}).get("content", "N/A")`. */
  function MessageContent(choice: Value): (r: Result<Value, PyError>)
    ensures r.Success? <==> SummarisableChoice(choice)
    ensures r.Success? ==>
      var message := Get(choice.entries, "message", Dict(map[]));
      r.value == Get(message.entries, "content", Str("N/A"))
    ensures choice.Dict? && "message" !in choice.entries ==> r == Success(Str("N/A"))
    ensures !choice.Dict? ==> r == Failure(AttributeError(TypeName(choice), "get"))
  {
    match GetOn(choice, "message", Dict(map[]))
    case Failure(e) => Failure(e)
    case Success(message) => GetOn(message, "content", Str("N/A"))
  }

  /** The content of the first choice's message, as the chat part reads it;
      a missing `choices` stands for a list holding one empty dict. */
  function FirstContent(completion: map<string, Value>): (r: Result<Value, PyError>)
    ensures r.Success? ==> "choices" !in completion || completion["choices"].List?
    ensures "choices" !in completion ==> r == Success(Str("N/A"))
    ensures "choices" in completion && completion["choices"].List? && completion["choices"].items != [] ==>
      r == MessageContent(completion["choices"].items[0])
    ensures "choices" in completion && completion["choices"] == List([]) ==> r == Failure(IndexError("list"))
  {
    match First(Get(completion, "choices", List([Dict(map[])])))
    case Failure(e) => Failure(e)
    case Success(choice) => MessageContent(choice)
  }

  /** A choice whose summary can be built: a dict whose message, if present,
      is a dict too. */
  predicate SummarisableChoice(choice: Value)
  {
    choice.Dict? && ("message" in choice.entries ==> choice.entries["message"].Dict?)
  }

  function SummariseChoice(choice: Value): (r: Result<ChoiceSummary, PyError>)
    ensures r.Success? <==> SummarisableChoice(choice)
    ensures r.Success? ==>
      && r.value.index == Get(choice.entries, "index", Int(-1))
      && r.value.finishReason == Get(choice.entries, "finish_reason", Str("N/A"))
      && Success(r.value.messageContent) == MessageContent(choice)
  {
    match GetOn(choice, "index", Int(-1))
    case Failure(e) => Failure(e)
    case Success(index) =>
      match GetOn(choice, "finish_reason", Str("N/A"))
      case Failure(e) => Failure(e)
      case Success(finishReason) =>
        match MessageContent(choice)
        case Failure(e) => Failure(e)
        case Success(content) => Success(ChoiceSummary(index, finishReason, content))
  }

  /** The list comprehension over the choices: it succeeds exactly when every
      choice can be summarised, and then keeps their number and order. */
  function SummariseChoices(choices: seq<Value>): (r: Result<seq<ChoiceSummary>, PyError>)
    ensures r.Success? <==> forall i :: 0 <= i < |choices| ==> SummarisableChoice(choices[i])
    ensures r.Success? ==>
      && |r.value| == |choices|
      && forall i :: 0 <= i < |choices| ==> Success(r.value[i]) == SummariseChoice(choices[i])
  {
    if choices == [] then Success([])
    else
      match SummariseChoice(choices[0])
      case Failure(e) => Failure(e)
      case Success(first) =>
        match SummariseChoices(choices[1..])
        case Failure(e) => Failure(e)
        case Success(rest) => Success([first] + rest)
  }

  /** `usage.get(key, 0)` for the `usage` of a completion. */
  function UsageCount(completion: map<string, Value>, key: string): (r: Result<Value, PyError>)
    ensures r.Success? <==> "usage" !in completion || completion["usage"].Dict?
    ensures "usage" !in completion ==> r == Success(Int(0))
    ensures "usage" in completion && completion["usage"].Dict? ==>
      r.value == Get(completion["usage"].entries, key, Int(0))
  {
    GetOn(Get(completion, "usage", Dict(map[])), key, Int(0))
  }

  /** `parse_completion`, evaluated in the order its dict display is
      written; its first failure is the exception it raises. */
  function ParseCompletion(completion: map<string, Value>): (r: Result<CompletionMetadata, PyError>)
    ensures r.Success? ==>
      && Success(r.value.chatPrompt) == FirstContent(completion)
      && r.value.chatResponse == r.value.chatPrompt
      && r.value.model == Get(completion, "model", Str("Unknown"))
      && r.value.id == Get(completion, "id", Str("N/A"))
      && r.value.systemFingerprint == Get(completion, "system_fingerprint", Str("N/A"))
    ensures r.Success? ==>
      var choices := if "choices" in completion then completion["choices"].items else [];
      && |r.value.choices| == |choices|
      && forall i :: 0 <= i < |choices| ==> Success(r.value.choices[i]) == SummariseChoice(choices[i])
    ensures r.Success? ==>
      var usage := Get(completion, "usage", Dict(map[]));
      && usage.Dict?
      && r.value.completionTokens == Get(usage.entries, "completion_tokens", Int(0))
      && r.value.promptTokens == Get(usage.entries, "prompt_tokens", Int(0))
      && r.value.totalTokens == Get(usage.entries, "total_tokens", Int(0))
    ensures r.Success? && "usage" !in completion ==>
      r.value.completionTokens == Int(0) && r.value.promptTokens == Int(0) && r.value.totalTokens == Int(0)
  {
    match FirstContent(completion)
    case Failure(e) => Failure(e)
    case Success(prompt) =>
      match FirstContent(completion)
      case Failure(e) => Failure(e)
      case Success(response) =>
        var model := Get(completion, "model", Str("Unknown"));
        var id := Get(completion, "id", Str("N/A"));
        var fingerprint := Get(completion, "system_fingerprint", Str("N/A"));
        match UsageCount(completion, "completion_tokens")
        case Failure(e) => Failure(e)
        case Success(completionTokens) =>
          match UsageCount(completion, "prompt_tokens")
          case Failure(e) => Failure(e)
          case Success(promptTokens) =>
            match UsageCount(completion, "total_tokens")
            case Failure(e) => Failure(e)
            case Success(totalTokens) =>
              // The chat part succeeded, so "choices" is absent or a list.
              var choices := Get(completion, "choices", List([]));
              match SummariseChoices(if choices.List? then choices.items else [])
              case Failure(e) => Failure(e)
              case Success(summaries) =>
                Success(CompletionMetadata(prompt, response, model, id, fingerprint,
                                           completionTokens, promptTokens, totalTokens, summaries))
  }

  /** Whether `parse_completion` succeeds: it fails exactly when the first
      choice or its message is not a dict (or there is no first choice),
      when `usage` is present and not a dict, or when some choice cannot be
      summarised. */
  lemma {:induction false} ParseCompletionSucceeds(completion: map<string, Value>)
    ensures ParseCompletion(completion).Success? <==>
      && FirstContent(completion).Success?
      && ("usage" in completion ==> completion["usage"].Dict?)
      && ("choices" in completion ==>
            forall i :: 0 <= i < |completion["choices"].items| ==> SummarisableChoice(completion["choices"].items[i]))
  {
    if FirstContent(completion).Success? && "choices" in completion {
      assert completion["choices"].List?;
    }
  }

  /** The example completion from the source: one choice, finished with
      "stop", whose text is both the chat prompt and the chat response. */
  lemma ParseCompletionExample()
    ensures ParseCompletion(ExampleCompletion()) == Success(CompletionMetadata(
              Str("I now can give a great answer"), Str("I now can give a great answer"),
              Str("gpt-4o-mini-2024-07-18"), Str("chatcmpl-AihHMMlqFSMYhEY0SpE7jo9yHg6oR"), Str("fp_04751d0b65"),
              Int(533), Int(303), Int(836),
              [ChoiceSummary(Int(0), Str("stop"), Str("I now can give a great answer"))]))
  {
    var c := ExampleCompletion();
    var choice := ExampleChoice();
    var content := Str("I now can give a great answer");
    ExampleFirstContent();
    ExampleSummaries();
    assert c["choices"] == List([choice]);
    var usage := c["usage"];
    assert usage.Dict?;
    ParseCompletionSucceeds(c);
    var r := ParseCompletion(c);
    assert r.Success?;
    assert usage.entries["completion_tokens"] == Int(533);
    assert usage.entries["prompt_tokens"] == Int(303);
    assert usage.entries["total_tokens"] == Int(836);
    var summary := ChoiceSummary(Int(0), Str("stop"), content);
    assert |r.value.choices| == 1 && Success(r.value.choices[0]) == SummariseChoice(choice);
    assert r.value.choices == [summary];
  }

  lemma ExampleFirstContent()
    ensures FirstContent(ExampleCompletion()) == Success(Str("I now can give a great answer"))
  {
    var c := ExampleCompletion();
    var choice := ExampleChoice();
    assert c["choices"] == List([choice]);
    assert choice.entries["message"] == Dict(map["content" := Str("I now can give a great answer"), "role" := Str("assistant")]);
  }

  lemma ExampleSummaries()
    ensures SummariseChoices([ExampleChoice()])
         == Success([ChoiceSummary(Int(0), Str("stop"), Str("I now can give a great answer"))])
  {
    var choice := ExampleChoice();
    var content := Str("I now can give a great answer");
    assert choice.entries["message"] == Dict(map["content" := content, "role" := Str("assistant")]);
    assert MessageContent(choice) == Success(content);
    assert SummariseChoice(choice) == Success(ChoiceSummary(Int(0), Str("stop"), content));
    var summaries := SummariseChoices([choice]);
    assert SummarisableChoice([choice][0]);
    assert summaries.Success? && |summaries.value| == 1;
    assert Success(summaries.value[0]) == SummariseChoice(choice);
    assert summaries.value == [summaries.value[0]];
  }

  function ExampleChoice(): Value
  {
    Dict(map[
      "finish_reason" := Str("stop"), "index" := Int(0),
      "message" := Dict(map["content" := Str("I now can give a great answer"), "role" := Str("assistant")])])
  }

  /** `example_completion_data`. */
  function ExampleCompletion(): map<string, Value>
  {
    map[
      "id" := Str("chatcmpl-AihHMMlqFSMYhEY0SpE7jo9yHg6oR"),
      "created" := Int(1735216160),
      "model" := Str("gpt-4o-mini-2024-07-18"),
      "system_fingerprint" := Str("fp_04751d0b65"),
      "choices" := List([ExampleChoice()]),
      "usage" := Dict(map["completion_tokens" := Int(533), "prompt_tokens" := Int(303), "total_tokens" := Int(836)])]
  }
}
