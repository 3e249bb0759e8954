/** The streaming chat endpoint: validates the request body, picks Together for the models
    of its own hard-coded list and OpenAI's streaming adapter for every other model, and
    emits the answer as a sequence of events: `start`, the chunks, then exactly one `done`
    or `error`. The bytes of the event stream are not modelled, only the events. */
module StreamRoute {
  import opened Common
  import opened Models
  import OpenAIService
  import TogetherService
  import ChatRoute

  /** `TOGETHER_MODELS`: the models this route sends to Together. */
  const TogetherModels: seq<string> := [
    "meta-llama/Meta-Llama-3.1-8B-Instruct-Turbo",
    "togethercomputer/llama-2-70b-chat"
  ]

  /** `model && TOGETHER_MODELS.includes(model)`. */
  predicate StreamsViaTogether(model: Option<string>) {
    model.Some? && model.value != "" && model.value in TogetherModels
  }

  datatype Event = Start | Chunk(content: string) | Done | Error(error: string)

  predicate IsTerminal(e: Event) {
    e.Done? || e.Error?
  }

  datatype Response = EventStream(events: seq<Event>) | JsonError(status: int, error: string)

  /** What the code inside the stream's `try` produced: the values it enqueued as chunks,
      and the value it threw afterwards, if any. */
  datatype Source = Source(values: seq<string>, failure: Option<Thrown>)

  /** `error instanceof Error ? error.message : "Unknown error"`. */
  function ErrorMessage(e: Thrown): string {
    match e
    case ErrorObject(m) => m
    case NonError => "Unknown error"
  }

  function ChunkEvents(values: seq<string>): (r: seq<Event>)
    ensures |r| == |values|
    ensures forall k :: 0 <= k < |r| ==> r[k] == Chunk(values[k])
  {
    if values == [] then [] else [Chunk(values[0])] + ChunkEvents(values[1..])
  }

  /** The terminal event: `done` when nothing was thrown, otherwise `error` with the message. */
  function Terminal(failure: Option<Thrown>): (e: Event)
    ensures IsTerminal(e)
  {
    if failure.None? then Done else Error(ErrorMessage(failure.value))
  }

  /** The events of a stream fed by `src`. */
  function Events(src: Source): seq<Event> {
    [Start] + ChunkEvents(src.values) + [Terminal(src.failure)]
  }

  /** The shape of every stream: `start` first, the chunks in order, and one terminal
      event, which is the last; `error` exactly when something was thrown. */
  lemma EventsShape(src: Source)
    ensures var es := Events(src);
      && |es| == |src.values| + 2
      && es[0] == Start
      && (forall k :: 0 <= k < |src.values| ==> es[k + 1] == Chunk(src.values[k]))
      && (forall k :: 0 <= k < |es| - 1 ==> !IsTerminal(es[k]))
      && IsTerminal(es[|es| - 1])
      && (es[|es| - 1].Error? <==> src.failure.Some?)
  {
    var es := Events(src);
    forall k | 0 <= k < |es| - 1 ensures !IsTerminal(es[k]) {
      if k > 0 {
        assert es[k] == ChunkEvents(src.values)[k - 1];
      }
    }
  }

  /** One more value adds one more chunk event at the end. */
  lemma ChunkEventsSnoc(values: seq<string>, i: nat)
    requires i < |values|
    ensures ChunkEvents(values[..i + 1]) == ChunkEvents(values[..i]) + [Chunk(values[i])]
  {
    var a, b := ChunkEvents(values[..i + 1]), ChunkEvents(values[..i]) + [Chunk(values[i])];
    assert forall k :: 0 <= k < |a| ==> a[k] == b[k];
  }

  /** The body of the stream's `start`: enqueue `start`, one chunk per value, then the
      terminal event; the stream is closed afterwards in every case. */
  method Sequence(src: Source) returns (events: seq<Event>)
    ensures events == Events(src)
  {
    events := [Start];
    var i := 0;
    while i < |src.values|
      invariant 0 <= i <= |src.values|
      invariant events == [Start] + ChunkEvents(src.values[..i])
    {
      ChunkEventsSnoc(src.values, i);
      events := events + [Chunk(src.values[i])];
      i := i + 1;
    }
    assert src.values[..i] == src.values;
    if src.failure.None? {
      events := events + [Done];
    } else {
      events := events + [Error(ErrorMessage(src.failure.value))];
    }
  }

  /** `POST /api/chat/stream`. `body` is `None` when the body is not JSON. The models'
      outcomes are given. Neither adapter throws, so the `error` event is never sent. */
  method Post(body: Option<ChatRoute.Body>, openAIEnv: OpenAIService.Env, togetherEnvModel: Option<string>,
              openAIOutcome: OpenAIService.Fragmented, togetherOutcome: TogetherService.Outcome)
    returns (resp: Response)
    ensures body.None? ==> resp == JsonError(500, "Internal server error")
    ensures body.Some? && !ChatRoute.ValidMessage(body.value.message)
            ==> resp == JsonError(400, "Message is required and must be a string")
    ensures body.Some? && ChatRoute.ValidMessage(body.value.message) && StreamsViaTogether(body.value.model)
            ==> resp == EventStream(Events(Source([TogetherService.ReplyFor(togetherOutcome)], None)))
    ensures body.Some? && ChatRoute.ValidMessage(body.value.message) && !StreamsViaTogether(body.value.model)
            ==> resp == EventStream(Events(Source(OpenAIService.StreamFor(openAIEnv, openAIOutcome), None)))
    ensures resp.EventStream? ==> forall k :: 0 <= k < |resp.events| ==> !resp.events[k].Error?
  {
    if body.None? {
      return JsonError(500, "Internal server error");
    }
    var b := body.value;
    if !ChatRoute.ValidMessage(b.message) {
      return JsonError(400, "Message is required and must be a string");
    }
    var src;
    if StreamsViaTogether(b.model) {
      var _, response := TogetherService.GetTogetherResponse(b.message.s, b.history, b.model, togetherEnvModel, togetherOutcome);
      src := Source([response], None);
    } else {
      var _, yielded := OpenAIService.GetOpenAIStreamResponse(b.message.s, b.history, b.model, openAIEnv, openAIOutcome);
      src := Source(yielded, None);
    }
    var events := Sequence(src);
    EventsShape(src);
    resp := EventStream(events);
  }

  /** On the Together path the stream is `start`, one chunk with the whole reply, `done`. */
  lemma TogetherStreamIsOneChunk(reply: string)
    ensures Events(Source([reply], None)) == [Start, Chunk(reply), Done]
  {
    assert ChunkEvents([reply]) == [Chunk(reply)] + ChunkEvents([]);
  }

  /** Of the Together models in the model table only Llama 3.1 8B Instruct Turbo is in this
      route's list; the others are streamed through the OpenAI adapter. */
  lemma OnlyOneTableModelStreamsViaTogether()
    ensures forall j :: 0 <= j < |ModelOptions| && ModelOptions[j].provider == TogetherProvider
              ==> (StreamsViaTogether(Some(ModelOptions[j].value))
                   <==> ModelOptions[j].value == "meta-llama/Meta-Llama-3.1-8B-Instruct-Turbo")
  {
  }

  /** "togethercomputer/llama-2-70b-chat" streams via Together here, but the non-streaming
      route does not find it in the table and sends it to OpenAI. */
  lemma RoutesDisagreeOnLlama2()
    ensures StreamsViaTogether(Some("togethercomputer/llama-2-70b-chat"))
    ensures !ChatRoute.UsesTogether(Some("togethercomputer/llama-2-70b-chat"))
  {
    var v := "togethercomputer/llama-2-70b-chat";
    assert TogetherModels[1] == v;
    LlamaTwoNotInTable();
    ChatRoute.UnknownModelUsesOpenAI(Some(v));
  }

  lemma LlamaTwoNotInTable()
    ensures forall j :: 0 <= j < |ModelOptions| ==> Some("togethercomputer/llama-2-70b-chat") != Some(ModelOptions[j].value)
  {
  }
}
