/** The tracker that decides whether to instrument the LLM client library
    that is loaded, and installs the LiteLLM provider when it may. */
module Llm {

  import opened PyValues
  import opened Versions
  import opened LiteLLM

  /** One row of the registry: a minimum version and the call sites
      eligible for interception from that version on. */
  datatype VersionEntry = VersionEntry(minimum: string, paths: seq<string>)

  datatype ApiEntry = ApiEntry(api: string, versions: seq<VersionEntry>)

  /** `LlmTracker.SUPPORTED_APIS`, in the order a loop over it visits it. */
  const SupportedApis: seq<ApiEntry> := [
    ApiEntry("litellm", [VersionEntry("1.3.1", ["openai_chat_completions.completion"])]),
    ApiEntry("openai", [
      VersionEntry("1.0.0", ["chat.completions.create"]),
      VersionEntry("0.0.0", ["ChatCompletion.create", "ChatCompletion.acreate"])
    ])
  ]

  /** The lowest LiteLLM release the tracker instruments. */
  const LiteLLMMinimum: seq<nat> := [1, 3, 1]

  /** The registry names litellm first and openai second, with the minimum
      versions and call sites listed for each. */
  lemma RegistryContents()
    ensures |SupportedApis| == 2
    ensures SupportedApis[0].api == "litellm" && SupportedApis[1].api == "openai"
    ensures SupportedApis[0].versions == [VersionEntry("1.3.1", ["openai_chat_completions.completion"])]
    ensures |SupportedApis[1].versions| == 2
    ensures SupportedApis[1].versions[0] == VersionEntry("1.0.0", ["chat.completions.create"])
    ensures SupportedApis[1].versions[1] == VersionEntry("0.0.0", ["ChatCompletion.create", "ChatCompletion.acreate"])
  {
  }

  /** What `override_api` ends up doing. */
  datatype GateOutcome = Installed | VersionTooOld | ModuleNotFound

  /** The decision stated directly: only LiteLLM is ever instrumented, and
      only from version 1.3.1 on; whether openai is loaded does not matter. */
  function GateDecision(loaded: set<string>, litellmVersion: seq<nat>): (g: GateOutcome)
    ensures g == Installed <==> "litellm" in loaded && AtLeast(litellmVersion, LiteLLMMinimum)
    ensures g == ModuleNotFound <==> "litellm" !in loaded
  {
    if "litellm" !in loaded then ModuleNotFound
    else if AtLeast(litellmVersion, LiteLLMMinimum) then Installed
    else VersionTooOld
  }

  /** The release segments written with dots, as the version is printed. */
  function Dotted(v: seq<nat>): (r: string)
    ensures v == [] <==> r == []
    ensures forall i :: 0 <= i < |r| ==> r[i] == '.' || '0' <= r[i] <= '9'
  {
    if v == [] then "" else if |v| == 1 then NatText(v[0]) else NatText(v[0]) + "." + Dotted(v[1..])
  }

  function NatText(n: nat): (r: string)
    ensures r != []
    ensures forall i :: 0 <= i < |r| ==> '0' <= r[i] <= '9'
    decreases n
  {
    if n < 10 then [DigitChar(n)] else NatText(n / 10) + [DigitChar(n % 10)]
  }

  function DigitChar(d: nat): char
    requires d < 10
  {
    "0123456789"[d]
  }

  const ModuleNotFoundWarning: string := "Only LiteLLM>=1.3.1 supported. Module not found."

  function VersionWarning(litellmVersion: seq<nat>): string
  {
    "Only LiteLLM>=1.3.1 supported. v" + Dotted(litellmVersion) + " found."
  }

  /** The warning for an old release names it with its segments. */
  lemma VersionWarningExample()
    ensures VersionWarning([1, 2, 9]) == "Only LiteLLM>=1.3.1 supported. v1.2.9 found."
  {
    DottedExample();
  }

  lemma DottedExample()
    ensures Dotted([1, 2, 9]) == "1.2.9"
  {
    assert NatText(9) == "9" && NatText(2) == "2" && NatText(1) == "1";
    assert [1, 2, 9][1..] == [2, 9] && [2, 9][1..] == [9];
    assert Dotted([9]) == "9";
    assert Dotted([2, 9]) == "2" + "." + "9";
  }

  /** The warnings `override_api` logs for each outcome. */
  function GateWarnings(g: GateOutcome, litellmVersion: seq<nat>): (w: seq<string>)
    ensures g == Installed <==> w == []
  {
    match g
    case Installed => []
    case VersionTooOld => [VersionWarning(litellmVersion)]
    case ModuleNotFound => [ModuleNotFoundWarning]
  }

  class LlmTracker {
    var client: string

    constructor (client: string)
      ensures this.client == client
    {
      this.client := client;
    }

    /** `override_api`: visits the registry in order; the first supported
        API that is loaded and is LiteLLM ends the loop, installing a new
        provider on `m` when the version is high enough and warning
        otherwise; a loop that runs to its end warns that no module was
        found. `loaded` stands for the names in `sys.modules`,
        `litellmVersion` for the release LiteLLM reports. The warnings are
        returned in the order they are logged. */
    method OverrideApi(m: LiteLLMModule, loaded: set<string>, litellmVersion: seq<nat>)
      returns (warnings: seq<string>)
      modifies m
      ensures var g := GateDecision(loaded, litellmVersion);
              && warnings == GateWarnings(g, litellmVersion)
              && (g == Installed ==>
                    && m.completion.PatchedSync? && fresh(m.completion.owner)
                    && m.acompletion == PatchedAsync(m.completion.owner)
                    && m.completion.owner.originalCreate == Some(old(m.completion))
                    && m.completion.owner.originalCreateAsync == Some(old(m.acompletion))
                    && m.completion.owner.conversationHistory == [])
              && (g != Installed ==> m.completion == old(m.completion) && m.acompletion == old(m.acompletion))
    {
      var i := 0;
      while i < |SupportedApis|
        invariant 0 <= i <= |SupportedApis|
        invariant forall j :: 0 <= j < i ==> SupportedApis[j].api != "litellm" || SupportedApis[j].api !in loaded
        invariant m.completion == old(m.completion) && m.acompletion == old(m.acompletion)
      {
        var api := SupportedApis[i].api;
        if api in loaded {
          if api == "litellm" {
            if AtLeast(litellmVersion, LiteLLMMinimum) {
              var provider := new LiteLLMProvider("demo.txt");
              provider.Override(m);
              warnings := [];
            } else {
              warnings := [VersionWarning(litellmVersion)];
            }
            return;
          }
        }
        i := i + 1;
      }
      // The for-else branch: the loop ran to its end, so LiteLLM is not loaded.
      assert SupportedApis[0].api == "litellm";
      warnings := [ModuleNotFoundWarning];
    }

    /** `stop_instrumenting`: undoes through a provider made on the spot,
        which has captured nothing, so the module keeps its bindings. */
    method StopInstrumenting(m: LiteLLMModule)
      modifies m
      ensures m.completion == old(m.completion) && m.acompletion == old(m.acompletion)
    {
      var provider := new LiteLLMProvider("demo.txt");
      provider.UndoOverride(m);
    }
  }
}
