/** The title endpoint: builds a prompt from the first three messages of a conversation, asks
    the chosen adapter for a title with an empty history, and strips one pair of surrounding
    double quotes from the answer. */
module TitleRoute {
  import opened Text
  import opened Common
  import OpenAIService
  import TogetherService

  /** One message of the excerpt as the request body holds it. */
  datatype Excerpt = Excerpt(sender: Field, text: Field)

  /** The `messages` property of the body: an array of message objects, or any other value. */
  datatype MessagesField = MessageList(items: seq<Excerpt>) | NotAList(value: Field)

  datatype Body = Body(messages: MessagesField, model: Option<string>, provider: Field)

  datatype Response = Title(title: string) | JsonError(status: int, error: string)

  /** The body passes the check: `messages` is a non-empty array. */
  predicate HasMessages(body: Body) {
    body.messages.MessageList? && |body.messages.items| > 0
  }

  /** One line of the context: the speaker, then the text as a template literal renders it. */
  function Line(m: Excerpt): (s: string)
    ensures m.sender == Str("user") ==> s == "User: " + TogetherService.JsString(m.text)
    ensures m.sender != Str("user") ==> s == "Bot: " + TogetherService.JsString(m.text)
  {
    (if m.sender == Str("user") then "User" else "Bot") + ": " + TogetherService.JsString(m.text)
  }

  function Lines(items: seq<Excerpt>): (r: seq<string>)
    ensures |r| == |items|
    ensures forall k :: 0 <= k < |r| ==> r[k] == Line(items[k])
  {
    if items == [] then [] else [Line(items[0])] + Lines(items[1..])
  }

  /** The first three messages, or all of them when there are fewer (`slice(0, 3)`). */
  function FirstThree(items: seq<Excerpt>): (r: seq<Excerpt>)
    ensures |r| == if |items| < 3 then |items| else 3
    ensures r == items[..|r|]
  {
    if |items| < 3 then items else items[..3]
  }

  /** The context: one line per message of the excerpt, separated by line feeds. */
  function Context(items: seq<Excerpt>): string {
    Join("\n", Lines(FirstThree(items)))
  }

  const PromptHead: string :=
    "Given the following chat excerpt, " + "generate a short, descriptive title " + "(max 7 words) for this conversation.\n\n"
  const PromptTail: string := "\n\nTitle:"

  /** The prompt: the instruction, the context, then "Title:". */
  function Prompt(items: seq<Excerpt>): (p: string)
    ensures |p| == |PromptHead| + |Context(items)| + |PromptTail|
    ensures p[..|PromptHead|] == PromptHead
    ensures p[|PromptHead|..|p| - |PromptTail|] == Context(items)
    ensures p[|p| - |PromptTail|..] == PromptTail
  {
    PromptHead + Context(items) + PromptTail
  }

  /** Messages after the third do not reach the prompt. */
  lemma PromptIgnoresLaterMessages(items: seq<Excerpt>, more: seq<Excerpt>)
    requires |items| >= 3
    ensures Prompt(items + more) == Prompt(items)
  {
    assert (items + more)[..3] == items[..3];
  }

  /** Every line of the excerpt appears in the prompt. */
  lemma PromptHoldsEachLine(items: seq<Excerpt>, k: nat)
    requires k < |items| && k < 3
    ensures Contains(Prompt(items), Line(items[k]))
  {
    var ls := Lines(FirstThree(items));
    JoinContainsPart("\n", ls, k);
    ContainsExtend(PromptHead, Context(items), PromptTail, Line(items[k]));
  }

  /** `replace(/^"|"$/g, "")`: one double quote is removed at the start and one at the end;
      a lone `"` is removed once. */
  function StripQuotes(s: string): (r: string)
    ensures |s| >= 2 && s[0] == '"' && s[|s| - 1] == '"' ==> r == s[1..|s| - 1]
    ensures |s| >= 1 && s[0] == '"' && s[|s| - 1] != '"' ==> r == s[1..]
    ensures |s| >= 1 && s[0] != '"' && s[|s| - 1] == '"' ==> r == s[..|s| - 1]
    ensures (s == [] || (s[0] != '"' && s[|s| - 1] != '"')) ==> r == s
    ensures s == "\"" ==> r == ""
  {
    var a := if |s| > 0 && s[0] == '"' then 1 else 0;
    var b := if |s| > a && s[|s| - 1] == '"' then |s| - 1 else |s|;
    s[a..b]
  }

  /** A title wrapped in one pair of quotes comes back without them. */
  lemma StripQuotesUnwraps(t: string)
    ensures StripQuotes("\"" + t + "\"") == t
  {
    var s := "\"" + t + "\"";
    assert s[1..|s| - 1] == t;
  }

  /** Only one quote is removed at each end: a doubly quoted title keeps its inner quotes. */
  lemma StripQuotesOnce(t: string)
    ensures StripQuotes("\"\"" + t + "\"\"") == "\"" + t + "\""
  {
    var s := "\"\"" + t + "\"\"";
    assert s[1..|s| - 1] == "\"" + t + "\"";
  }

  /** The title sent back: the answer without its surrounding quotes, trimmed. */
  function TitleOf(reply: string): (t: string)
    ensures IsTrimmed(t)
  {
    TrimIsSlice(StripQuotes(reply));
    Trim(StripQuotes(reply))
  }

  /** Together is chosen only for the provider "together". */
  predicate UsesTogether(body: Body) {
    body.provider == Str("together")
  }

  /** `POST /api/chat/generate-title`. `body` is `None` when the body is not JSON. The adapters'
      outcomes are given; `prompt` is the prompt sent, always with an empty history. */
  method Post(body: Option<Body>, openAIEnv: OpenAIService.Env, togetherEnvModel: Option<string>,
              openAIOutcome: OpenAIService.Outcome, togetherOutcome: TogetherService.Outcome)
    returns (resp: Response, prompt: Option<string>)
    ensures body.None? ==> resp == JsonError(500, "Failed to generate title") && prompt.None?
    ensures body.Some? && !HasMessages(body.value)
            ==> resp == JsonError(400, "Messages are required") && prompt.None?
    ensures body.Some? && HasMessages(body.value) ==> prompt == Some(Prompt(body.value.messages.items))
    ensures body.Some? && HasMessages(body.value) && UsesTogether(body.value)
            ==> resp == Title(TitleOf(TogetherService.ReplyFor(togetherOutcome)))
    ensures body.Some? && HasMessages(body.value) && !UsesTogether(body.value)
            ==> resp == Title(TitleOf(OpenAIService.ReplyFor(openAIEnv, openAIOutcome)))
  {
    if body.None? {
      return JsonError(500, "Failed to generate title"), None;
    }
    var b := body.value;
    if !HasMessages(b) {
      return JsonError(400, "Messages are required"), None;
    }
    var p := Prompt(b.messages.items);
    var response;
    if UsesTogether(b) {
      var invoked, r := TogetherService.GetTogetherResponse(p, [], b.model, togetherEnvModel, togetherOutcome);
      response := r;
    } else {
      var invoked, r := OpenAIService.GetOpenAIResponse(p, [], b.model, openAIEnv, openAIOutcome);
      response := r;
    }
    resp := Title(TitleOf(response));
    prompt := Some(p);
  }
}
