# observability_ops core, modelled in Dafny

This project models the core of observability_ops, a layer that intercepts the
completion calls an application makes through the LiteLLM client library,
records each interaction, and offers the recorded conversation back. Four
Python files make up that core:

- `litellm.py`: the interception provider. `LiteLLMProvider` captures the two
  entry points `litellm.completion` and `litellm.acompletion` and rebinds them
  to wrappers. Each wrapper forwards a call to the captured original, records
  the interaction as an `LLMEvent`, and returns the response unchanged.
  - `litellm.dfy`, module `LiteLLM`.
  - The module and the provider are classes whose fields the methods update.
  - Normalisation, event rendering and the history view are pure functions.
- `organize_and_write.py`: the event post-processor. `LogProcessor.process_event`
  flattens a loosely typed event into a six-key entry, or into an error entry
  when reading the event raises. `parse_completion` is a pure metadata extractor.
  - `organize_and_write.dfy`, module `OrganizeAndWrite`.
- `llm.py`: the capability gate. `LlmTracker.override_api` installs a provider
  only for LiteLLM 1.3.1 or later.
  - `llm.dfy`, module `Llm`.
  - The release comparison is in `versions.dfy`, module `Versions`. It follows
    the "Final releases" part of PEP 440: numeric segments, with zero padding.
- `log_config.py`: the level-to-format table, the ANSI colour stripper, and the
  file-logging switch.
  - `log_config.dfy`, module `LogConfig`.

`py_values.dfy`, module `PyValues`, holds the Python values these files handle
(`str`, `int`, `bool`, `None`, `list`, `dict`, and objects that have no
`get`, are truthy and cannot be indexed). It also
holds the few Python operations the core relies on: `dict.get`, looking up
`get` on a non-dict (which raises AttributeError), truthiness, and the text of
an exception.

### How a wrapper is modelled

`patched_sync` and `patched_async` look up `self.original_create` (or
`self.original_create_async`) each time they are called, not when they are
made. So a binding is modelled as `Callable = Original(id) | PatchedSync(owner)
| PatchedAsync(owner)`, where the owner is a provider object, and the ghost
function `LiteLLM.Run` follows the owner's fields at call time.

- A method `Invoke`/`Forward` performs the call as the code does. It is proved
  to return `Run`'s outcome and to append to every provider's history exactly
  the events `Run` says it records.
- A `fuel` bound stands for Python's recursion limit.

This matters for a second `override`:

- When a *different* provider overrides, it wraps the first wrapper, so every
  returned call is recorded by both providers (`StackedOverride`).
- When the *same* provider overrides again, it captures its own wrapper. Every
  call then recurses until the recursion limit and nothing is recorded
  (`OverrideTwiceRecurses`, `OverrideTwiceThenCall`).
- So a repeated `override` does not keep a single layer of wrapping.

## Model

| member | source | states |
|---|---|---|
| PyValues.Get | organize_and_write.py:12-15 | `dict.get`: the stored value when the key is present, the default otherwise |
| PyValues.GetOn | organize_and_write.py:12-15 | `.get` succeeds exactly on a dict, and otherwise raises AttributeError naming the value's type and `get` |
| LiteLLM.RenderEvent | litellm.py:18-25 | `log_event` writes a header, the prompt, completion, model and timestamp fields in that order, and a blank line; a falsy prompt or completion shows "N/A", a falsy model "unknown", and what is shown is always truthy |
| LiteLLM.LiteLLMProvider.constructor | litellm.py:31-35 | a fresh provider keeps its log file name, has captured neither original, and has an empty history |
| LiteLLM.Normalise | litellm.py:69-71 | the prompt is `kwargs["prompt"]` or "N/A"; a dict response gives its model (else "unknown") and completion (else "N/A"); any other response gives model "unknown" and its own text as the completion |
| LiteLLM.EventFor | litellm.py:73-78 | the event has type "llms", the call time as its timestamp, and the normalised prompt, model and completion |
| LiteLLM.LiteLLMProvider.Override | litellm.py:41-63 | both captured originals are the module's bindings just before the call, and the module's bindings become this provider's sync and async wrappers |
| LiteLLM.LiteLLMProvider.LogInteraction | litellm.py:65-83 | the response comes back unchanged, and the history gains exactly one event at its end, the one `EventFor` gives |
| LiteLLM.LiteLLMProvider.UndoOverride | litellm.py:85-93 | the module gets the captured originals back when both were captured, and keeps its bindings otherwise |
| LiteLLM.EventView | litellm.py:98-102 | the dict made of one event has exactly the keys prompt, completion and timestamp, holding the event's values; there is no model |
| LiteLLM.HistoryView | litellm.py:97-104 | one dict per stored event, in the same order |
| LiteLLM.LiteLLMProvider.GetConversationHistory | litellm.py:95-104 | returns the view of the current history |
| LiteLLM.HistoryViewAppend | litellm.py:82-104 | the view of a history with one more event is the old view with one more entry at its end |
| LiteLLM.RunTrace | litellm.py:52-59 | what the ghost call semantics `Run` gives for any binding: a call to the library's own function has upstream's outcome and is recorded by nobody; a call that raises is recorded by nobody; a returned call through a wrapper is recorded last by that wrapper's provider; only providers of the closed set record it, and no more of them than the frame bound `fuel` |
| LiteLLM.Invoke | litellm.py:52-59 | calling any binding returns `Run`'s outcome, and every provider's history gains exactly the events `Run` says it records |
| LiteLLM.Forward | litellm.py:52-59 | a wrapper calls its provider's captured original once, with the same arguments; it records only a call that returns, and then returns the response unchanged; a missing original or the recursion limit raises before anything is recorded |
| LiteLLM.SingleOverride | litellm.py:48-59 | after one override over the library's function, a call has upstream's outcome and is recorded once by that provider when it returns, and not at all when it raises |
| LiteLLM.StackedOverride | litellm.py:48-59 | with two providers overriding in turn, a call has upstream's outcome and, when it returns, is recorded by the inner provider and then by the outer one |
| LiteLLM.OverrideTwiceRecurses | litellm.py:48-53 | a provider that has captured its own wrapper recurses on every call until the recursion limit, and records nothing |
| LiteLLM.OverrideThenUndo | litellm.py:41-93 | a fresh provider that overrides and then undoes leaves both module bindings as they were |
| LiteLLM.OverrideTwiceThenCall | litellm.py:41-63 | a fresh provider that overrides twice leaves a sync entry point whose every call raises at the recursion limit |
| OrganizeAndWrite.UsageTokens | organize_and_write.py:92-94 | the token counts come from the completion's `usage` dict, defaulting to "N/A"; a completion that is not a dict, or has no `usage`, gives "N/A" twice; a `usage` that is not a dict raises AttributeError |
| OrganizeAndWrite.ParseEvent | organize_and_write.py:10-104 | processing fails exactly when the event is not a dict or its Completion is a dict whose `usage` is not a dict; on success the entry has exactly the six keys, the defaults "N/A", "unknown" and "N/A", a Completion that is always "N/A", and the token counts |
| OrganizeAndWrite.ErrorEntry | organize_and_write.py:106-107 | the error entry has the single key Error |
| OrganizeAndWrite.LogProcessor.constructor | organize_and_write.py:5-7 | a new processor keeps its output file and has no entries |
| OrganizeAndWrite.LogProcessor.ProcessEvent | organize_and_write.py:9-107 | exactly one entry is appended, the processed event or the error entry, and the earlier entries are kept |
| OrganizeAndWrite.MessageContent | organize_and_write.py:48 | `choice.get("message", {}).get("content", "N/A")` succeeds exactly on a dict whose message, if present, is a dict; it gives the message's content, "N/A" when the message or its content is absent, and AttributeError on a choice that is not a dict |
| OrganizeAndWrite.First | organize_and_write.py:31 | `[0]` gives the head of a non-empty list, and succeeds only on a list or a string |
| OrganizeAndWrite.FirstContent | organize_and_write.py:31-32 | the first choice's message content, read as `MessageContent` reads it, when `choices` is a non-empty list; "N/A" when `choices` is absent; IndexError on an empty list; success only when `choices` is absent or a list |
| OrganizeAndWrite.SummariseChoice | organize_and_write.py:45-49 | a choice is summarised exactly when it is a dict whose message, if present, is a dict; index defaults to -1, finish_reason to "N/A", and the content is the message's content |
| OrganizeAndWrite.SummariseChoices | organize_and_write.py:44-51 | the list comprehension succeeds exactly when every choice can be summarised, and then keeps their number and order, one summary per choice |
| OrganizeAndWrite.UsageCount | organize_and_write.py:40-42 | a token count succeeds exactly when `usage` is absent or a dict; it is 0 when `usage` is absent, and otherwise the dict's entry, defaulting to 0 |
| OrganizeAndWrite.ParseCompletion | organize_and_write.py:25-51 | chat prompt and chat response are the same value, the first choice's content; the model defaults to "Unknown", id and fingerprint to "N/A", and the token counts to 0; the choices map one to one |
| OrganizeAndWrite.ParseCompletionSucceeds | organize_and_write.py:29-51 | `parse_completion` succeeds exactly when the first choice's content can be read, `usage` is absent or a dict, and every choice can be summarised |
| OrganizeAndWrite.ParseCompletionExample | organize_and_write.py:76-89 | the example completion gives its text as both chat prompt and response, its model, id and fingerprint, the counts 533, 303 and 836, and one choice finished with "stop" |
| Llm.RegistryContents | llm.py:25-34 | the registry lists litellm (1.3.1, one call site) and then openai (1.0.0 with one call site, 0.0.0 with two) |
| Llm.GateDecision | llm.py:45-61 | a provider is installed exactly when litellm is loaded and its version is at least 1.3.1; "module not found" happens exactly when litellm is not loaded, whatever else is loaded |
| Llm.GateWarnings | llm.py:50-61 | there is a warning exactly when nothing is installed |
| Llm.Dotted | llm.py:57 | the version text is empty exactly for an empty release, and holds only digits and dots |
| Llm.NatText | llm.py:57 | a segment is written as a non-empty run of digits |
| Llm.VersionWarningExample | llm.py:57 | the warning for release 1.2.9 reads "Only LiteLLM>=1.3.1 supported. v1.2.9 found." |
| Llm.LlmTracker.constructor | llm.py:36-37 | the tracker keeps its client name |
| Llm.LlmTracker.OverrideApi | llm.py:40-61 | the loop ends at litellm when it is loaded and installs a fresh provider over the module's bindings exactly when the gate allows it; otherwise the module is unchanged, and the warnings are "vX found" for an old version and "Module not found" when the loop runs to its end |
| Llm.LlmTracker.StopInstrumenting | llm.py:63-64 | undoing through a fresh provider leaves the module's bindings unchanged |
| Versions.Compare | llm.py:53 | comparing releases gives -1, 0 or 1 |
| Versions.CompareZeroIff | llm.py:53 | two releases compare equal exactly when they agree on every segment once padded with zeros |
| Versions.CompareTrailingZero | llm.py:53 | a trailing zero segment does not change the comparison |
| Versions.CompareAntisymmetric | llm.py:53 | swapping the arguments negates the comparison |
| Versions.CompareTransitive | llm.py:53 | the order is transitive |
| Versions.GateExamples | llm.py:53-57 | 1.3.1, 1.3.1.0 and 1.10 pass the 1.3.1 gate, and 1.2.9 does not |
| LogConfig.FormatFor | log_config.py:12-23 | DEBUG gets "(DEBUG) " + prefix + message, INFO and WARNING get prefix + message, ERROR and CRITICAL get it in bold red with a reset, and every other level falls back to the INFO template |
| LogConfig.ParamRun | log_config.py:45 | the longest run of digits and semicolons at the front |
| LogConfig.MatchAt | log_config.py:45 | a match at the front is ESC, "[", a run of digits and semicolons, and "m", lying within the text |
| LogConfig.StripAnsi | log_config.py:41-45 | the stripped text is never longer than the input |
| LogConfig.MatchAtSequence | log_config.py:45 | every `ESC [ [0-9;]* m` at the front of a text is matched whole, so a text on which nothing matches does not start with one |
| LogConfig.MatchAtNoneNoSequence | log_config.py:45 | when nothing matches at the front, the text is not a colour sequence followed by anything |
| LogConfig.StripAnsiPlain | log_config.py:41-45 | a first character at which no colour sequence matches is kept, an ESC included |
| LogConfig.StripAnsiStrayEsc | log_config.py:41-45 | an unterminated sequence such as ESC "[31x" is kept as it is |
| LogConfig.StripAnsiNoEsc | log_config.py:41-45 | text without an escape character is left unchanged |
| LogConfig.StripAnsiNoEscPrefix | log_config.py:41-45 | a prefix without escapes is kept, and the rest is stripped on its own |
| LogConfig.StripAnsiSequencePrefix | log_config.py:41-45 | a colour sequence at the front is removed whole |
| LogConfig.StripAnsiBoldRed | log_config.py:8-9 | bold red + s + reset strips to s when s has no escape character |
| LogConfig.StripAnsiErrorFormat | log_config.py:16-17 | stripping the ERROR and CRITICAL templates gives the INFO template |
| LogConfig.StripAnsiNotIdempotent | log_config.py:45 | one pass is not idempotent: removing an inner colour sequence can join its neighbours into a new one |
| LogConfig.StripRecordMessage | log_config.py:39-42 | the record's message is replaced, on the record itself, by its stripped text |
| LogConfig.Lower | log_config.py:46 | lower-casing keeps the length and lowers each ASCII letter |
| LogConfig.LogToFile | log_config.py:46 | file logging is on when the variable is unset, and otherwise exactly when its value lower-cases to "true" |
| LogConfig.LogToFileCases | log_config.py:46 | file logging is on when the variable is unset, and otherwise exactly when its value is "true" in any mix of case |

## Left out

- File I/O is left out. This covers the writes of `LLMEvent.log_event`, which are modelled only as the lines `RenderEvent` gives, and the log-file truncation and header in `LiteLLMProvider.__init__`. It also covers `LogProcessor.write_to_file`, `write_metadata_to_file` and the `json.dumps` layout.
- Clocks are parameters. `datetime.now()` is the string `now`, and `datetime.utcfromtimestamp`/`utcnow` in `parse_completion` are dropped. So the `timestamps` part of `parse_completion`, and the error a bad `created` value would raise, are not modelled.
- LiteLLM.Invoke: every wrapper in one nested call records the same `now`. The code reads the clock once in each wrapper.
- Python reflection is modelled as inputs. `sys.modules` is the set `loaded`, `import_module` is not modelled, and `importlib.metadata.version` gives `litellmVersion`.
- The `module_version is None` path in `override_api` is left out. It falls into `Version(None)`, which raises.
- Versions.Compare: it compares plain numeric release segments only. Pre-, post-, dev- and local-version parts of PEP 440 are not modelled.
- Llm.VersionWarning: the found version is printed as its dotted segments. The code prints the version string as reported.
- The library's own completion functions are outside the model. The function `upstream` stands for them, which also covers their errors.
- Asynchrony and concurrency are left out. `patched_async` is `patched_sync` without the await, and concurrent appends are not modelled.
- LiteLLM.Forward: Python's recursion limit is a `fuel` bound on nested wrapper frames.
- Logging plumbing is left out. This includes the handlers and their levels, and `%(message)s` interpolation. The logger's level is CRITICAL, so the warnings `override_api` logs are dropped at run time; the model returns them instead.
- LogConfig.Lower: it lower-cases ASCII letters only, with no Unicode case mapping.
- The `str()` of values is not modelled. `Other(text)` holds the text of a non-dict response, and the error entry's `str(e)` uses `ErrorText`. A rendered `LogLine` holds the value, not its text.
- Dict key order is not modelled, because a Dafny map has no order.
- Dead or illustrative code is left out. This covers `main`, the `print` calls, and the `__main__` block of `litellm.py`. `example_completion_data` is used only as the input of `ParseCompletionExample`.
- An argument's "truthiness" in `undo_override` is modelled as being captured (`Some`). The only values ever captured are callables, which are always truthy.
- PyValues.Value: floats, tuples, sets, bytes and other values that can be falsy or indexed are not modelled. `Truthy` treats every `Obj` as truthy, and `First` raises TypeError on every `Obj`, which holds only for the objects `Obj` stands for.
