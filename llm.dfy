/**
 * The generation endpoint as the tools see it, and the provider choice that
 * decides which environment variable holds the API key.
 */
module Llm {
  import opened Text

  /** What a chat-completion call gives back: its text, or the exception it raised. */
  datatype Reply = Answer(text: string) | Raised(message: string)

  const XaiKey: string := "XAI_API_KEY"
  const OpenAiKey: string := "OPENAI_API_KEY"

  /** The variable the tools read: "xai" (any case) reads the xAI key, anything else the OpenAI key. */
  function KeyVariable(provider: string): string {
    if Lower(provider) == "xai" then XaiKey else OpenAiKey
  }

  /** `if not api_key`: the variable is unset or empty. */
  predicate HasApiKey(env: map<string, string>, provider: string) {
    KeyVariable(provider) in env && env[KeyVariable(provider)] != ""
  }

  /** The name the error messages quote: `{provider.upper()}_API_KEY` of the lower-cased provider. */
  function QuotedKeyVariable(provider: string): string {
    Upper(Lower(provider)) + "_API_KEY"
  }

  /** A text after `.strip()` of a successful call, or the fallback when the call raised. */
  function TextOr(reply: Reply, fallback: string): string {
    match reply
    case Answer(t) => Strip(t)
    case Raised(_) => fallback
  }

  predicate NoUpperAscii(s: string) {
    forall i :: 0 <= i < |s| ==> !('A' <= s[i] <= 'Z')
  }

  lemma LowerHasNoUpper(s: string)
    ensures NoUpperAscii(Lower(s))
  {
  }

  /** On text without upper-case letters, upper-casing is injective. */
  lemma {:induction false} UpperInjective(x: string, y: string)
    requires NoUpperAscii(x) && NoUpperAscii(y)
    requires Upper(x) == Upper(y)
    ensures x == y
  {
    assert |x| == |y|;
    forall i | 0 <= i < |x| ensures x[i] == y[i] {
      assert UpperChar(x[i]) == UpperChar(y[i]);
    }
  }

  lemma SuffixCancel(a: string, b: string, suffix: string)
    requires a + suffix == b + suffix
    ensures a == b
  {
    assert a == (a + suffix)[..|a|];
  }

  /** A provider quoted as the OpenAI variable is "openai" in some case. */
  lemma QuotedOpenAiMeansOpenAi(provider: string)
    requires QuotedKeyVariable(provider) == OpenAiKey
    ensures Lower(provider) == "openai"
  {
    var l := Lower(provider);
    LowerHasNoUpper(provider);
    assert OpenAiKey == "OPENAI" + "_API_KEY";
    SuffixCancel(Upper(l), "OPENAI", "_API_KEY");
    assert Upper("openai") == "OPENAI";
    UpperInjective(l, "openai");
  }

  /**
   * The error message names the variable that was actually read exactly when
   * the provider is "xai" or "openai" (in any case); for any other provider
   * the OpenAI key is read but a different name is quoted.
   */
  lemma QuotedNameIsReadName(provider: string)
    ensures QuotedKeyVariable(provider) == KeyVariable(provider) <==>
            Lower(provider) == "xai" || Lower(provider) == "openai"
  {
    var l := Lower(provider);
    if l == "xai" {
      assert Upper("xai") == "XAI";
    } else if l == "openai" {
      assert Upper("openai") == "OPENAI";
    } else if QuotedKeyVariable(provider) == KeyVariable(provider) {
      QuotedOpenAiMeansOpenAi(provider);
    }
  }
}
