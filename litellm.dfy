/** The LiteLLM interception provider: it replaces the library's two
    completion entry points with wrappers that forward each call to the
    captured original, record the interaction, and hand the response back. */
module LiteLLM {

  import opened PyValues

  /** What the original completion call returns: a dict, or any other value,
      known here by its `str()` text. */
  datatype Response = DictResponse(fields: map<string, Value>) | Other(text: string)

  /** Why a call raised. */
  datatype CallError =
    | UpstreamError(message: string)  // raised by the library's own completion code
    | NotCallable                     // the wrapper's captured original is None
    | RecursionLimit                  // Python's recursion limit was reached

  datatype Outcome = Returned(response: Response) | Raised(error: CallError)

  /** A value bound to `litellm.completion` or `litellm.acompletion`: one of
      the library's own functions, or the sync or async wrapper that
      `override` created for a provider. A wrapper looks up its provider's
      captured original each time it is called, not when it is installed. */
  datatype Callable =
    | Original(id: nat)
    | PatchedSync(owner: LiteLLMProvider)
    | PatchedAsync(owner: LiteLLMProvider)

  /** The library's own completion functions, which lie outside this model:
      given the function, the positional and the keyword arguments, what the
      call does. */
  type Upstream = (nat, seq<Value>, map<string, Value>) -> Outcome

  /** The two mutable bindings of the `litellm` module. */
  class LiteLLMModule {
    var completion: Callable
    var acompletion: Callable

    constructor (completion: Callable, acompletion: Callable)
      ensures this.completion == completion && this.acompletion == acompletion
    {
      this.completion := completion;
      this.acompletion := acompletion;
    }
  }

  const DefaultEventType: string := "llms"

  /** One recorded interaction; `eventType` defaults to "llms". */
  datatype LLMEvent = LLMEvent(
    eventType: string,
    prompt: Value,
    completion: Value,
    model: Value,
    timestamp: Value)

  /** A line `log_event` writes: fixed text, or a label followed by the
      `str()` of a value. */
  datatype LogLine = Text(text: string) | Field(caption: string, value: Value)

  /** `value or default`. */
  function Or(value: Value, default: Value): Value
  {
    if Truthy(value) then value else default
  }

  /** The block `log_event` appends to the log file: a header, four labelled
      fields in fixed order, and a blank separator line. A falsy prompt or
      completion shows as "N/A", a falsy model as "unknown". */
  function RenderEvent(e: LLMEvent): (lines: seq<LogLine>)
    ensures |lines| == 6
    ensures lines[0] == Text("[LLMEvent] Logged event:") && lines[5] == Text("")
    ensures lines[1].Field? && lines[1].caption == "  Prompt: "
    ensures lines[2].Field? && lines[2].caption == "  Completion: "
    ensures lines[3].Field? && lines[3].caption == "  Model: "
    ensures lines[4] == Field("  Timestamp: ", e.timestamp)
    ensures Truthy(lines[1].value) && Truthy(lines[2].value) && Truthy(lines[3].value)
    ensures Truthy(e.prompt) ==> lines[1].value == e.prompt
    ensures Truthy(e.completion) ==> lines[2].value == e.completion
    ensures Truthy(e.model) ==> lines[3].value == e.model
    ensures !Truthy(e.prompt) ==> lines[1].value == Str("N/A")
    ensures !Truthy(e.completion) ==> lines[2].value == Str("N/A")
    ensures !Truthy(e.model) ==> lines[3].value == Str("unknown")
  {
    [ Text("[LLMEvent] Logged event:"),
      Field("  Prompt: ", Or(e.prompt, Str("N/A"))),
      Field("  Completion: ", Or(e.completion, Str("N/A"))),
      Field("  Model: ", Or(e.model, Str("unknown"))),
      Field("  Timestamp: ", e.timestamp),
      Text("") ]
  }

  /** The (prompt, model, completion) triple `_log_interaction` extracts. */
  datatype Interaction = Interaction(prompt: Value, model: Value, completion: Value)

  /** Normalisation of one call: the prompt comes from the keyword
      arguments; a dict response supplies model and completion, any other
      response is its own text with an unknown model. It never fails. */
  function Normalise(kwargs: map<string, Value>, response: Response): (t: Interaction)
    ensures "prompt" in kwargs ==> t.prompt == kwargs["prompt"]
    ensures "prompt" !in kwargs ==> t.prompt == Str("N/A")
    ensures response.DictResponse? ==>
      && (if "model" in response.fields then t.model == response.fields["model"] else t.model == Str("unknown"))
      && (if "completion" in response.fields then t.completion == response.fields["completion"]
          else t.completion == Str("N/A"))
    ensures response.Other? ==> t.model == Str("unknown") && t.completion == Str(response.text)
  {
    var prompt := Get(kwargs, "prompt", Str("N/A"));
    var model := if response.DictResponse? then Get(response.fields, "model", Str("unknown")) else Str("unknown");
    var completion := if response.DictResponse? then Get(response.fields, "completion", Str("N/A")) else Str(response.text);
    Interaction(prompt, model, completion)
  }

  /** The event `_log_interaction` records for a call made at time `now`. */
  function EventFor(kwargs: map<string, Value>, response: Response, now: string): (e: LLMEvent)
    ensures e.eventType == DefaultEventType && e.timestamp == Str(now)
    ensures var t := Normalise(kwargs, response);
            e.prompt == t.prompt && e.model == t.model && e.completion == t.completion
  {
    var t := Normalise(kwargs, response);
    LLMEvent(DefaultEventType, t.prompt, t.completion, t.model, Str(now))
  }

  /** The dict `get_conversation_history` makes of one stored event: exactly
      the keys prompt, completion and timestamp. */
  function EventView(e: LLMEvent): (d: map<string, Value>)
    ensures d.Keys == {"prompt", "completion", "timestamp"}
    ensures d["prompt"] == e.prompt && d["completion"] == e.completion && d["timestamp"] == e.timestamp
  {
    map["prompt" := e.prompt, "completion" := e.completion, "timestamp" := e.timestamp]
  }

  /** `get_conversation_history`: one dict per stored event, in order. */
  function HistoryView(events: seq<LLMEvent>): (view: seq<map<string, Value>>)
    ensures |view| == |events|
    ensures forall i :: 0 <= i < |events| ==> view[i] == EventView(events[i])
  {
    if events == [] then [] else [EventView(events[0])] + HistoryView(events[1..])
  }

  /** The view of a longer history extends the view of the shorter one:
      logging one more event adds one entry at the end and leaves the
      earlier entries as they were. */
  lemma HistoryViewAppend(events: seq<LLMEvent>, e: LLMEvent)
    ensures HistoryView(events + [e]) == HistoryView(events) + HistoryView([e])
  {
  }

  class LiteLLMProvider {
    var logFile: string
    var originalCreate: Option<Callable>
    var originalCreateAsync: Option<Callable>
    var conversationHistory: seq<LLMEvent>

    /** A fresh provider has captured nothing and recorded nothing. */
    constructor (logFile: string)
      ensures this.logFile == logFile
      ensures originalCreate == None && originalCreateAsync == None
      ensures conversationHistory == []
    {
      this.logFile := logFile;
      originalCreate := None;
      originalCreateAsync := None;
      conversationHistory := [];
    }

    /** Captures both current bindings of the module, whatever they are, and
        binds this provider's wrappers in their place. */
    method Override(m: LiteLLMModule)
      modifies this`originalCreate, this`originalCreateAsync, m
      ensures originalCreate == Some(old(m.completion))
      ensures originalCreateAsync == Some(old(m.acompletion))
      ensures m.completion == PatchedSync(this) && m.acompletion == PatchedAsync(this)
    {
      originalCreate := Some(m.completion);
      originalCreateAsync := Some(m.acompletion);
      m.completion := PatchedSync(this);
      m.acompletion := PatchedAsync(this);
    }

    /** Records one interaction at the end of the history and returns the
        response unchanged. */
    method LogInteraction(kwargs: map<string, Value>, response: Response, now: string) returns (r: Response)
      modifies this`conversationHistory
      ensures r == response
      ensures conversationHistory == old(conversationHistory) + [EventFor(kwargs, response, now)]
    {
      var event := EventFor(kwargs, response, now);
      conversationHistory := conversationHistory + [event];
      r := response;
    }

    /** Puts the captured originals back, but only when both were captured. */
    method UndoOverride(m: LiteLLMModule)
      modifies m
      ensures originalCreate.Some? && originalCreateAsync.Some? ==>
        m.completion == originalCreate.value && m.acompletion == originalCreateAsync.value
      ensures !(originalCreate.Some? && originalCreateAsync.Some?) ==>
        m.completion == old(m.completion) && m.acompletion == old(m.acompletion)
    {
      if originalCreate.Some? && originalCreateAsync.Some? {
        m.completion := originalCreate.value;
        m.acompletion := originalCreateAsync.value;
      }
    }

    function GetConversationHistory(): (view: seq<map<string, Value>>)
      reads this
      ensures view == HistoryView(conversationHistory)
    {
      HistoryView(conversationHistory)
    }
  }

  /** The original a wrapper forwards to, read from its provider now. */
  function Captured(c: Callable): Option<Callable>
    requires !c.Original?
    reads c.owner`originalCreate, c.owner`originalCreateAsync
  {
    if c.PatchedSync? then c.owner.originalCreate else c.owner.originalCreateAsync
  }

  /** Every wrapper reachable from `c` belongs to a provider in `ps`. */
  predicate OwnedBy(c: Callable, ps: set<LiteLLMProvider>)
  {
    c.Original? || c.owner in ps
  }

  predicate CapturedOwnedBy(c: Option<Callable>, ps: set<LiteLLMProvider>)
  {
    c.None? || OwnedBy(c.value, ps)
  }

  /** The providers `ps` only ever forward to wrappers of providers in `ps`. */
  ghost predicate Closed(ps: set<LiteLLMProvider>)
    reads ps`originalCreate, ps`originalCreateAsync
  {
    forall p :: p in ps ==> CapturedOwnedBy(p.originalCreate, ps) && CapturedOwnedBy(p.originalCreateAsync, ps)
  }

  /** What a call does: its outcome, and the providers that record it, the
      innermost first. */
  datatype Trace = Trace(outcome: Outcome, loggers: seq<LiteLLMProvider>)

  /** The meaning of calling `c` with at most `fuel` nested wrapper frames.
      A wrapper calls its provider's current captured original; only a call
      that returns is recorded, once by every wrapper it passes through on
      the way out. */
  ghost function Run(c: Callable, args: seq<Value>, kwargs: map<string, Value>, upstream: Upstream,
                     fuel: nat, ps: set<LiteLLMProvider>): Trace
    requires Closed(ps) && OwnedBy(c, ps)
    reads ps`originalCreate, ps`originalCreateAsync
    decreases fuel
  {
    if c.Original? then Trace(upstream(c.id, args, kwargs), [])
    else if fuel == 0 then Trace(Raised(RecursionLimit), [])
    else match Captured(c)
      case None => Trace(Raised(NotCallable), [])
      case Some(inner) =>
        var t := Run(inner, args, kwargs, upstream, fuel - 1, ps);
        if t.outcome.Returned? then Trace(t.outcome, t.loggers + [c.owner]) else t
  }

  /** What every call does: the library's own function gives upstream's
      outcome, recorded by nobody; a call that raises is recorded by nobody;
      a wrapper call that returns is recorded last by the wrapper's
      provider; and only providers of `ps` record it, no more of them than
      the frame bound. */
  lemma {:induction false} RunTrace(c: Callable, args: seq<Value>, kwargs: map<string, Value>, upstream: Upstream,
                                    fuel: nat, ps: set<LiteLLMProvider>)
    requires Closed(ps) && OwnedBy(c, ps)
    ensures var t := Run(c, args, kwargs, upstream, fuel, ps);
            && (c.Original? ==> t == Trace(upstream(c.id, args, kwargs), []))
            && (!t.outcome.Returned? ==> t.loggers == [])
            && |t.loggers| <= fuel
            && (forall i :: 0 <= i < |t.loggers| ==> t.loggers[i] in ps)
            && (t.outcome.Returned? && !c.Original? ==> t.loggers != [] && t.loggers[|t.loggers| - 1] == c.owner)
    decreases fuel
  {
    if !c.Original? && fuel > 0 && Captured(c).Some? {
      RunTrace(Captured(c).value, args, kwargs, upstream, fuel - 1, ps);
    }
  }

  /** Number of times `p` occurs in `s`. */
  function Count(s: seq<LiteLLMProvider>, p: LiteLLMProvider): nat
  {
    if s == [] then 0 else (if s[|s| - 1] == p then 1 else 0) + Count(s[..|s| - 1], p)
  }

  function Repeat(e: LLMEvent, n: nat): (r: seq<LLMEvent>)
    ensures |r| == n && forall i :: 0 <= i < n ==> r[i] == e
  {
    if n == 0 then [] else Repeat(e, n - 1) + [e]
  }

  /** The events a call adds to the history of `p`. */
  function Logged(t: Trace, kwargs: map<string, Value>, now: string, p: LiteLLMProvider): seq<LLMEvent>
  {
    if t.outcome.Returned? then Repeat(EventFor(kwargs, t.outcome.response, now), Count(t.loggers, p)) else []
  }

  /** Between the two states every provider in `ps` recorded exactly the
      events trace `t` gives it, after the ones it already had. */
  twostate predicate RecordedAsIn(t: Trace, kwargs: map<string, Value>, now: string, ps: set<LiteLLMProvider>)
    reads ps
  {
    forall p :: p in ps ==> p.conversationHistory == old(p.conversationHistory) + Logged(t, kwargs, now, p)
  }

  /** Calling whatever is bound to an entry point: the library's own code,
      or a provider's wrapper. */
  method Invoke(c: Callable, args: seq<Value>, kwargs: map<string, Value>, upstream: Upstream,
                now: string, fuel: nat, ghost ps: set<LiteLLMProvider>) returns (r: Outcome)
    requires Closed(ps) && OwnedBy(c, ps)
    modifies ps`conversationHistory
    ensures r == old(Run(c, args, kwargs, upstream, fuel, ps)).outcome
    ensures RecordedAsIn(old(Run(c, args, kwargs, upstream, fuel, ps)), kwargs, now, ps)
    decreases fuel, 1
  {
    if c.Original? {
      r := upstream(c.id, args, kwargs);
    } else {
      r := Forward(c, args, kwargs, upstream, now, fuel, ps);
    }
  }

  /** `patched_sync` and `patched_async`: call the provider's captured
      original with the same arguments; only if that returns, record the
      interaction and return the response. Reaching the recursion limit
      raises before anything is called. */
  method Forward(c: Callable, args: seq<Value>, kwargs: map<string, Value>, upstream: Upstream,
                 now: string, fuel: nat, ghost ps: set<LiteLLMProvider>) returns (r: Outcome)
    requires !c.Original? && Closed(ps) && OwnedBy(c, ps)
    modifies ps`conversationHistory
    ensures r == old(Run(c, args, kwargs, upstream, fuel, ps)).outcome
    ensures RecordedAsIn(old(Run(c, args, kwargs, upstream, fuel, ps)), kwargs, now, ps)
    decreases fuel, 0
  {
    if fuel == 0 {
      r := Raised(RecursionLimit);
      return;
    }
    var owner := c.owner;
    var inner := if c.PatchedSync? then owner.originalCreate else owner.originalCreateAsync;
    if inner.None? {
      r := Raised(NotCallable);
      return;
    }
    ghost var t := Run(inner.value, args, kwargs, upstream, fuel - 1, ps);
    ghost var whole := Run(c, args, kwargs, upstream, fuel, ps);
    assert whole == if t.outcome.Returned? then Trace(t.outcome, t.loggers + [owner]) else t;
    r := Invoke(inner.value, args, kwargs, upstream, now, fuel - 1, ps);
    label called:
    if r.Returned? {
      var response := owner.LogInteraction(kwargs, r.response, now);
      r := Returned(response);
      forall p | p in ps
        ensures p.conversationHistory == old(p.conversationHistory) + Logged(whole, kwargs, now, p)
      {
        RecordedStep(old(p.conversationHistory), old@called(p.conversationHistory), p.conversationHistory,
                     t, owner, kwargs, now, p);
      }
    }
  }

  /** A history that had the events of `t` added, and then the one event a
      returning wrapper of `owner` records, has the events of the longer
      trace added. */
  lemma RecordedStep(before: seq<LLMEvent>, mid: seq<LLMEvent>, after: seq<LLMEvent>, t: Trace,
                     owner: LiteLLMProvider, kwargs: map<string, Value>, now: string, p: LiteLLMProvider)
    requires t.outcome.Returned?
    requires mid == before + Logged(t, kwargs, now, p)
    requires after == mid + (if p == owner then [EventFor(kwargs, t.outcome.response, now)] else [])
    ensures after == before + Logged(Trace(t.outcome, t.loggers + [owner]), kwargs, now, p)
  {
    LoggedSnoc(t, owner, kwargs, now, p);
  }

  /** Passing one more wrapper on the way out adds one event to the history
      of that wrapper's provider and none to any other. */
  lemma LoggedSnoc(t: Trace, owner: LiteLLMProvider, kwargs: map<string, Value>, now: string, p: LiteLLMProvider)
    requires t.outcome.Returned?
    ensures Logged(Trace(t.outcome, t.loggers + [owner]), kwargs, now, p)
         == Logged(t, kwargs, now, p) + (if p == owner then [EventFor(kwargs, t.outcome.response, now)] else [])
  {
    CountSnoc(t.loggers, owner, p);
  }

  lemma CountSnoc(s: seq<LiteLLMProvider>, x: LiteLLMProvider, p: LiteLLMProvider)
    ensures Count(s + [x], p) == Count(s, p) + (if x == p then 1 else 0)
  {
    assert (s + [x])[..|s + [x]| - 1] == s;
  }

  /** One provider overriding the library's own functions: a call is
      forwarded once and recorded once by that provider when it returns,
      and not recorded at all when it raises. */
  lemma SingleOverride(p: LiteLLMProvider, id: nat, args: seq<Value>, kwargs: map<string, Value>,
                       upstream: Upstream, fuel: nat)
    requires p.originalCreate == Some(Original(id)) && CapturedOwnedBy(p.originalCreateAsync, {p})
    requires fuel >= 1
    ensures var t := Run(PatchedSync(p), args, kwargs, upstream, fuel, {p});
            && t.outcome == upstream(id, args, kwargs)
            && t.loggers == (if t.outcome.Returned? then [p] else [])
  {
  }

  /** Overriding twice with the same provider: the second override
      captures the provider's own wrapper, which then forwards to itself, so
      every call recurses until the recursion limit and nothing is recorded. */
  lemma {:induction false} OverrideTwiceRecurses(p: LiteLLMProvider, args: seq<Value>,
                                                 kwargs: map<string, Value>, upstream: Upstream, fuel: nat)
    requires p.originalCreate == Some(PatchedSync(p)) && CapturedOwnedBy(p.originalCreateAsync, {p})
    ensures Run(PatchedSync(p), args, kwargs, upstream, fuel, {p}) == Trace(Raised(RecursionLimit), [])
    decreases fuel
  {
    if fuel > 0 {
      OverrideTwiceRecurses(p, args, kwargs, upstream, fuel - 1);
    }
  }

  /** Two providers overriding in turn: the second wraps the first wrapper,
      so a call that returns is recorded by both, the inner one first, and
      the response reaches the caller unchanged. */
  lemma StackedOverride(p: LiteLLMProvider, q: LiteLLMProvider, id: nat, args: seq<Value>,
                        kwargs: map<string, Value>, upstream: Upstream, fuel: nat)
    requires p != q
    requires p.originalCreate == Some(Original(id)) && q.originalCreate == Some(PatchedSync(p))
    requires Closed({p, q})
    requires fuel >= 2
    ensures var t := Run(PatchedSync(q), args, kwargs, upstream, fuel, {p, q});
            && t.outcome == upstream(id, args, kwargs)
            && t.loggers == (if t.outcome.Returned? then [p, q] else [])
  {
    var ps := {p, q};
    var bottom := Run(Original(id), args, kwargs, upstream, fuel - 2, ps);
    assert bottom == Trace(upstream(id, args, kwargs), []);
    assert Captured(PatchedSync(p)) == Some(Original(id));
    var inner := Run(PatchedSync(p), args, kwargs, upstream, fuel - 1, ps);
    assert inner == if bottom.outcome.Returned? then Trace(bottom.outcome, [p]) else bottom;
    assert Captured(PatchedSync(q)) == Some(PatchedSync(p));
  }

  /** A fresh provider that overrides and then undoes leaves both bindings
      of the module as they were before. */
  method OverrideThenUndo(m: LiteLLMModule)
    modifies m
    ensures m.completion == old(m.completion) && m.acompletion == old(m.acompletion)
  {
    var p := new LiteLLMProvider("demo.txt");
    p.Override(m);
    p.UndoOverride(m);
  }

  /** A provider that overrides twice makes the module's sync entry point
      unusable: every call ends at the recursion limit, unrecorded. */
  method OverrideTwiceThenCall(m: LiteLLMModule, args: seq<Value>, kwargs: map<string, Value>,
                               upstream: Upstream, now: string, fuel: nat) returns (r: Outcome)
    modifies m
    ensures r == Raised(RecursionLimit)
  {
    var p := new LiteLLMProvider("demo.txt");
    p.Override(m);
    p.Override(m);
    OverrideTwiceRecurses(p, args, kwargs, upstream, fuel);
    r := Invoke(m.completion, args, kwargs, upstream, now, fuel, {p});
    assert p.conversationHistory == [];
  }
}
