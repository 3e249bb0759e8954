/** The Together adapter: the same request as the OpenAI adapter, a normalisation of
    whatever the chat model returns into a string, and a two-way error classification.
    The model call is a parameter: its outcome is given. */
module TogetherService {
  import opened Text
  import opened Common

  const DefaultModel: string := "meta-llama/Meta-Llama-3.1-8B-Instruct-Turbo"

  /** `modelOverride || (process.env.TOGETHER_MODEL || "meta-llama/Meta-Llama-3.1-8B-Instruct-Turbo")`. */
  function ModelName(modelOverride: Option<string>, envModel: Option<string>): (r: string)
    ensures r != ""
    ensures modelOverride.Some? && modelOverride.value != "" ==> r == modelOverride.value
    ensures (modelOverride.None? || modelOverride.value == "") && envModel.Some? && envModel.value != ""
            ==> r == envModel.value
    ensures (modelOverride.None? || modelOverride.value == "") && (envModel.None? || envModel.value == "")
            ==> r == DefaultModel
  {
    OrElse(modelOverride, OrElse(envModel, DefaultModel))
  }

  /** The request handed to the chat model. */
  datatype Invocation = Invocation(modelName: string, messages: seq<LcMessage>)

  /** What the chat model's `invoke` returned: a string, an object whose `content` is the
      given value (`Absent` when the object has no `content`), or anything else (null, a
      number, ...). */
  datatype RawReply = StringReply(s: string) | ObjectReply(content: Field) | OtherReply

  datatype Outcome = Replied(reply: RawReply) | Failed(thrown: Thrown)

  /** The decimal rendering of an integer, as `String(n)` gives it. */
  function IntToString(n: int): (r: string)
    ensures n >= 0 ==> r == NatToString(n)
    ensures n < 0 ==> r == "-" + NatToString(-n)
  {
    if n >= 0 then NatToString(n) else "-" + NatToString(-n)
  }

  /** JavaScript's `String(v)` for a JSON-like value. An array is the comma-joined renderings
      of its elements, with `null` and `undefined` elements rendered empty. */
  function JsString(f: Field): string
    decreases f, 1
  {
    match f
    case Absent => "undefined"
    case Null => "null"
    case Bool(b) => if b then "true" else "false"
    case Num(n) => IntToString(n)
    case Str(s) => s
    case Arr(items) => Join(",", ElementStrings(items))
    case Obj => "[object Object]"
  }

  function ElementStrings(items: seq<Field>): (r: seq<string>)
    ensures |r| == |items|
    decreases items, 0
  {
    if items == [] then []
    else
      [if items[0].Absent? || items[0].Null? then "" else JsString(items[0])] + ElementStrings(items[1..])
  }

  /** The reply text: a string as it is, an object's `content` through `String`, anything
      else the empty string. */
  function Normalise(r: RawReply): (s: string)
    ensures r.StringReply? ==> s == r.s
    ensures r.ObjectReply? && r.content.Absent? ==> s == ""
    ensures r.ObjectReply? && r.content.Str? ==> s == r.content.s
    ensures r.OtherReply? ==> s == ""
  {
    match r
    case StringReply(t) => t
    case ObjectReply(c) => if c.Absent? then "" else JsString(c)
    case OtherReply => ""
  }

  /** A single-element array renders as its element, as `String([x])` does. */
  lemma JsStringSingleton(f: Field)
    requires !f.Absent? && !f.Null?
    ensures JsString(Arr([f])) == JsString(f)
  {
    assert ElementStrings([f]) == [JsString(f)] + ElementStrings([]);
  }

  const ConfigurationReply: string :=
    FailureMark + "Configuration Error**" + ": Please set your TogetherAI API key in the `.env.local` file. You can get one from https://platform.together.xyz/"

  /** The reply for a failure: the configuration reply for an `Error` mentioning "API key",
      the generic reply for everything else. */
  function FailureReply(e: Thrown): (r: string)
    ensures r == ConfigurationReply <==> e.ErrorObject? && Contains(e.message, "API key")
    ensures r == GenericFailureReply <==> !(e.ErrorObject? && Contains(e.message, "API key"))
  {
    ConfigurationAndGenericDiffer();
    if e.ErrorObject? && Contains(e.message, "API key") then ConfigurationReply else GenericFailureReply
  }

  lemma ConfigurationAndGenericDiffer()
    ensures ConfigurationReply != GenericFailureReply
  {
    assert ConfigurationReply[|FailureMark|] == 'C';
    assert GenericFailureReply[|FailureMark|] == 'E';
  }

  /** The reply `getTogetherResponse` gives. */
  function ReplyFor(outcome: Outcome): string {
    match outcome
    case Replied(r) => Normalise(r)
    case Failed(e) => FailureReply(e)
  }

  /** `getTogetherResponse`: the request is the converted history plus the prompt; the reply
      is the normalised response or the reply for the failure. It never throws. */
  method GetTogetherResponse(userMessage: string, history: seq<ChatMessage>, modelOverride: Option<string>,
                             envModel: Option<string>, outcome: Outcome)
    returns (invoked: Invocation, reply: string)
    ensures invoked == Invocation(ModelName(modelOverride, envModel), ToLangChain(history) + [Human(userMessage)])
    ensures outcome.Replied? ==> reply == Normalise(outcome.reply)
    ensures outcome.Failed? ==> reply == FailureReply(outcome.thrown)
    ensures reply == ReplyFor(outcome)
  {
    var messages := ToLangChain(history);
    messages := messages + [Human(userMessage)];
    invoked := Invocation(ModelName(modelOverride, envModel), messages);
    match outcome
    case Replied(r) =>
      reply := Normalise(r);
    case Failed(e) =>
      reply := FailureReply(e);
  }
}
