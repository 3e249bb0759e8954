/** The OpenAI adapter: builds the LangChain request from the history and the prompt,
    and turns a failure into one of four fixed replies, so that neither the plain call
    nor the streaming call ever throws. The model call itself is a parameter: its
    outcome is given. */
module OpenAIService {
  import opened Text
  import opened Common

  const DefaultModel: string := "gpt-4o-mini"

  /** The message of the error thrown when no API key is configured. */
  const MissingKeyMessage: string := "OPENAI_API_KEY" + " is not set" + " in environ" + "ment variables"

  /** The environment variables the adapter reads. */
  datatype Env = Env(apiKey: Option<string>, model: Option<string>)

  /** A key is configured when the variable is set to a non-empty string. */
  predicate HasKey(env: Env) {
    env.apiKey.Some? && env.apiKey.value != ""
  }

  /** `modelOverride || process.env.OPENAI_MODEL || "gpt-4o-mini"`. */
  function ModelName(modelOverride: Option<string>, env: Env): (r: string)
    ensures r != ""
    ensures modelOverride.Some? && modelOverride.value != "" ==> r == modelOverride.value
    ensures (modelOverride.None? || modelOverride.value == "") && env.model.Some? && env.model.value != ""
            ==> r == env.model.value
    ensures (modelOverride.None? || modelOverride.value == "") && (env.model.None? || env.model.value == "")
            ==> r == DefaultModel
  {
    OrElse(modelOverride, OrElse(env.model, DefaultModel))
  }

  /** The request handed to the chat model. */
  datatype Invocation = Invocation(modelName: string, messages: seq<LcMessage>, streaming: bool)

  /** The converted history with the prompt appended as the last human turn
      (`langChainMessages.push(new HumanMessage(userMessage))`). */
  method BuildMessages(userMessage: string, history: seq<ChatMessage>) returns (messages: seq<LcMessage>)
    ensures |messages| == |history| + 1
    ensures messages[..|history|] == ToLangChain(history)
    ensures messages[|history|] == Human(userMessage)
  {
    messages := ToLangChain(history);
    messages := messages + [Human(userMessage)];
  }

  /** The four kinds of reply a failure is turned into. */
  datatype Category = Configuration | QuotaExceeded | NetworkFailure | Generic

  /** The classification of a thrown value: the substrings are looked for in the order
      "API key", "quota", "network"; a value that is not an `Error` is generic. */
  function Classify(e: Thrown): (c: Category)
    ensures c == Configuration <==> e.ErrorObject? && Contains(e.message, "API key")
    ensures c == QuotaExceeded <==> e.ErrorObject? && !Contains(e.message, "API key") && Contains(e.message, "quota")
    ensures c == NetworkFailure <==> e.ErrorObject? && !Contains(e.message, "API key") && !Contains(e.message, "quota")
                                     && Contains(e.message, "network")
    ensures e.NonError? ==> c == Generic
  {
    match e
    case NonError => Generic
    case ErrorObject(m) =>
      if Contains(m, "API key") then Configuration
      else if Contains(m, "quota") then QuotaExceeded
      else if Contains(m, "network") then NetworkFailure
      else Generic
  }

  const ConfigurationReply: string :=
    FailureMark + "Configuration Error**" + ": Please set your OpenAI API key in the `.env.local` file. You can get one from [OpenAI's website](https://platform.openai.com/api-keys)."
  const QuotaReply: string :=
    FailureMark + "API Quota Exceeded**" + ": You've reached your OpenAI API usage limit. Please check your OpenAI account or upgrade your plan."
  const NetworkReply: string :=
    FailureMark + "Network Error**" + ": Unable to connect to OpenAI. Please check your internet connection and try again."

  /** The reply for each category. */
  function CategoryReply(c: Category): (r: string)
    ensures r != ""
  {
    match c
    case Configuration => ConfigurationReply
    case QuotaExceeded => QuotaReply
    case NetworkFailure => NetworkReply
    case Generic => GenericFailureReply
  }

  /** The first letter of each reply's label. */
  function LabelInitial(c: Category): char {
    match c
    case Configuration => 'C'
    case QuotaExceeded => 'A'
    case NetworkFailure => 'N'
    case Generic => 'E'
  }

  /** The replies are pairwise distinct (their labels start with different letters), so the
      category of a failure can be read back from the reply. */
  lemma CategoryReplyInjective(c: Category, d: Category)
    requires CategoryReply(c) == CategoryReply(d)
    ensures c == d
  {
    assert CategoryReply(c)[|FailureMark|] == LabelInitial(c);
    assert CategoryReply(d)[|FailureMark|] == LabelInitial(d);
  }

  /** The error thrown for a missing API key names the variable, not "API key", and so
      gets the generic reply rather than the configuration reply. */
  lemma MissingKeyIsGeneric()
    ensures Classify(ErrorObject(MissingKeyMessage)) == Generic
  {
    MissingKeyLacks();
    NotContainsMissingChar(MissingKeyMessage, "API key", 'k');
    NotContainsMissingChar(MissingKeyMessage, "quota", 'q');
    NotContainsMissingChar(MissingKeyMessage, "network", 'w');
  }

  /** The missing-key message has no 'k', no 'q' and no 'w'. */
  lemma MissingKeyLacks()
    ensures 'k' !in MissingKeyMessage && 'q' !in MissingKeyMessage && 'w' !in MissingKeyMessage
    ensures 'k' in "API key" && 'q' in "quota" && 'w' in "network"
  {
    assert "API key"[4] == 'k' && "quota"[0] == 'q' && "network"[3] == 'w';
    LacksChar('k');
    LacksChar('q');
    LacksChar('w');
  }

  lemma LacksChar(c: char)
    requires 'a' <= c <= 'z' && c != 'a' && c != 'b' && c != 'e' && c != 'i' && c != 'l' && c != 'm'
             && c != 'n' && c != 'o' && c != 'r' && c != 's' && c != 't' && c != 'v'
    ensures c !in MissingKeyMessage
  {
  }

  /** What the chat model's `invoke` did: returned content, or threw. */
  datatype Outcome = Replied(content: string) | Failed(thrown: Thrown)

  /** The reply `getOpenAIResponse` gives. */
  function ReplyFor(env: Env, outcome: Outcome): string {
    if !HasKey(env) then GenericFailureReply
    else match outcome
      case Replied(content) => content
      case Failed(e) => CategoryReply(Classify(e))
  }

  /** `getOpenAIResponse`. Without a key nothing is invoked and the reply is generic;
      otherwise the request is the converted history plus the prompt, and the reply is
      the model's content or the reply for the category of its failure. */
  method GetOpenAIResponse(userMessage: string, history: seq<ChatMessage>, modelOverride: Option<string>,
                           env: Env, outcome: Outcome)
    returns (invoked: Option<Invocation>, reply: string)
    ensures !HasKey(env) ==> invoked.None? && reply == GenericFailureReply
    ensures HasKey(env) ==> invoked == Some(Invocation(ModelName(modelOverride, env),
                                                       ToLangChain(history) + [Human(userMessage)], false))
    ensures HasKey(env) && outcome.Replied? ==> reply == outcome.content
    ensures HasKey(env) && outcome.Failed? ==> reply == CategoryReply(Classify(outcome.thrown))
    ensures reply == ReplyFor(env, outcome)
  {
    if !HasKey(env) {
      MissingKeyIsGeneric();
      return None, CategoryReply(Classify(ErrorObject(MissingKeyMessage)));
    }
    var messages := BuildMessages(userMessage, history);
    assert messages == ToLangChain(history) + [Human(userMessage)];
    invoked := Some(Invocation(ModelName(modelOverride, env), messages, false));
    match outcome
    case Replied(content) =>
      reply := content;
    case Failed(e) =>
      reply := CategoryReply(Classify(e));
  }

  /** What the chat model's `stream` did: the fragments it delivered, and the value it
      threw afterwards, if any (a failure before the first fragment has no fragments). */
  datatype Fragmented = Fragmented(fragments: seq<string>, failure: Option<Thrown>)

  /** The fragments with empty content, which are falsy, dropped. */
  function NonEmpty(fs: seq<string>): (r: seq<string>)
    ensures |r| <= |fs|
    ensures forall k :: 0 <= k < |r| ==> r[k] != ""
  {
    if fs == [] then [] else (if fs[0] != "" then [fs[0]] else []) + NonEmpty(fs[1..])
  }

  /** Dropping empty fragments commutes with concatenation, so fragments keep their order. */
  lemma {:induction false} NonEmptyAppend(a: seq<string>, b: seq<string>)
    ensures NonEmpty(a + b) == NonEmpty(a) + NonEmpty(b)
  {
    if a == [] {
      assert a + b == b;
    } else {
      assert (a + b)[1..] == a[1..] + b;
      NonEmptyAppend(a[1..], b);
    }
  }

  /** Every non-empty fragment is yielded, and nothing else. */
  lemma {:induction false} NonEmptyKeeps(fs: seq<string>, x: string)
    ensures x in NonEmpty(fs) <==> x in fs && x != ""
  {
    if fs != [] {
      NonEmptyKeeps(fs[1..], x);
      assert fs == [fs[0]] + fs[1..];
    }
  }

  /** The values the generator yields once a key is configured: the non-empty fragments
      in order, then exactly one classified reply if the stream failed. */
  function StreamYields(o: Fragmented): (r: seq<string>)
    ensures |r| == |NonEmpty(o.fragments)| + (if o.failure.Some? then 1 else 0)
    ensures r[..|NonEmpty(o.fragments)|] == NonEmpty(o.fragments)
    ensures o.failure.Some? ==> r[|r| - 1] == CategoryReply(Classify(o.failure.value))
  {
    NonEmpty(o.fragments) + (if o.failure.Some? then [CategoryReply(Classify(o.failure.value))] else [])
  }

  /** Nothing the generator yields is empty. */
  lemma StreamYieldsNonEmpty(o: Fragmented)
    ensures forall k :: 0 <= k < |StreamYields(o)| ==> StreamYields(o)[k] != ""
  {
    var r := StreamYields(o);
    var n := |NonEmpty(o.fragments)|;
    forall k | 0 <= k < |r| ensures r[k] != "" {
      if k < n {
        assert r[k] == r[..n][k];
      } else {
        assert r[k] == CategoryReply(Classify(o.failure.value));
      }
    }
  }

  /** The values `getOpenAIStreamResponse` yields. */
  function StreamFor(env: Env, outcome: Fragmented): seq<string> {
    if !HasKey(env) then [GenericFailureReply] else StreamYields(outcome)
  }

  /** `getOpenAIStreamResponse`: forwards each non-empty fragment as it arrives, and on
      failure yields one classified reply and ends. */
  method GetOpenAIStreamResponse(userMessage: string, history: seq<ChatMessage>, modelOverride: Option<string>,
                                 env: Env, outcome: Fragmented)
    returns (invoked: Option<Invocation>, yielded: seq<string>)
    ensures !HasKey(env) ==> invoked.None? && yielded == [GenericFailureReply]
    ensures HasKey(env) ==> invoked == Some(Invocation(ModelName(modelOverride, env),
                                                       ToLangChain(history) + [Human(userMessage)], true))
    ensures HasKey(env) ==> yielded == StreamYields(outcome)
    ensures yielded == StreamFor(env, outcome)
  {
    if !HasKey(env) {
      MissingKeyIsGeneric();
      return None, [CategoryReply(Classify(ErrorObject(MissingKeyMessage)))];
    }
    var messages := BuildMessages(userMessage, history);
    assert messages == ToLangChain(history) + [Human(userMessage)];
    invoked := Some(Invocation(ModelName(modelOverride, env), messages, true));
    yielded := [];
    var fs := outcome.fragments;
    var i := 0;
    while i < |fs|
      invariant 0 <= i <= |fs|
      invariant yielded == NonEmpty(fs[..i])
    {
      var chunk := fs[i];
      NonEmptyAppend(fs[..i], [chunk]);
      assert fs[..i + 1] == fs[..i] + [chunk];
      if chunk != "" {
        yielded := yielded + [chunk];
      }
      i := i + 1;
    }
    assert fs[..i] == fs;
    if outcome.failure.Some? {
      yielded := yielded + [CategoryReply(Classify(outcome.failure.value))];
    }
  }
}
