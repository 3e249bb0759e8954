/** The retrieval endpoint: checks the method and the body, searches the session's chunks, and
    joins the texts of the hits into one context string. The vector search is a parameter:
    its result is given. */
module RagQuery {
  import opened Text
  import opened Common
  import TogetherService

  /** The destructured request body; a property that is not there is `Absent`. */
  datatype Body = Body(message: Field, sessionId: Field, topK: Field)

  /** The search request: how many hits, the metadata filter and the query text. */
  datatype Query = Query(topK: Field, filterSessionId: Field, text: Field)

  /** The `fields` of a hit, as far as the context reads them. */
  datatype HitFields = HitFields(text: Field, chunkText: Field)

  datatype Hit = Hit(fields: Option<HitFields>)

  /** What the search did: returned a result, with or without `hits`, or threw. */
  datatype Search = Found(hits: Option<seq<Hit>>) | SearchFailed(thrown: Thrown)

  datatype Response =
    | Retrieved(context: string, hits: seq<Hit>)
    | JsonError(status: int, error: string, details: Option<string>)

  /** The response and the search that was run, if any. */
  datatype Handled = Handled(response: Response, query: Option<Query>)

  const DefaultTopK: int := 5
  const Separator: string := "\n---\n"

  /** The destructuring default: only a missing `topK` becomes 5. */
  function TopK(body: Body): (k: Field)
    ensures body.topK.Absent? ==> k == Num(DefaultTopK)
    ensures !body.topK.Absent? ==> k == body.topK
  {
    if body.topK.Absent? then Num(DefaultTopK) else body.topK
  }

  /** `hit.fields?.text || hit.fields?.chunk_text || ""`. */
  function PickText(h: Hit): (v: Field)
    ensures h.fields.Some? && Truthy(h.fields.value.text) ==> v == h.fields.value.text
    ensures h.fields.Some? && !Truthy(h.fields.value.text) && Truthy(h.fields.value.chunkText)
            ==> v == h.fields.value.chunkText
    ensures !(h.fields.Some? && (Truthy(h.fields.value.text) || Truthy(h.fields.value.chunkText))) ==> v == Str("")
  {
    if h.fields.Some? && Truthy(h.fields.value.text) then h.fields.value.text
    else if h.fields.Some? && Truthy(h.fields.value.chunkText) then h.fields.value.chunkText
    else Str("")
  }

  /** What one hit contributes: its picked value as `join` renders it, or nothing when the
      value is falsy. */
  function Part(h: Hit): (r: seq<string>)
    ensures |r| <= 1
  {
    var v := PickText(h);
    if Truthy(v) then [TogetherService.JsString(v)] else []
  }

  /** The picked values with the falsy ones dropped, in hit order. */
  function ContextParts(hits: seq<Hit>): (r: seq<string>)
    ensures |r| <= |hits|
  {
    if hits == [] then [] else Part(hits[0]) + ContextParts(hits[1..])
  }

  /** The parts keep the order of the hits. */
  lemma {:induction false} ContextPartsAppend(a: seq<Hit>, b: seq<Hit>)
    ensures ContextParts(a + b) == ContextParts(a) + ContextParts(b)
  {
    if a == [] {
      assert a + b == b;
    } else {
      assert (a + b)[1..] == a[1..] + b;
      ContextPartsAppend(a[1..], b);
    }
  }

  /** The parts of a single hit are that hit's part. */
  lemma ContextPartsSingle(h: Hit)
    ensures ContextParts([h]) == Part(h)
  {
    assert ContextParts([h]) == Part([h][0]) + ContextParts([h][1..]);
    assert [h][1..] == [];
  }

  /** The parts around one hit: those before it, its own, those after it. */
  lemma ContextPartsAround(prefix: seq<Hit>, h: Hit, suffix: seq<Hit>)
    ensures ContextParts(prefix + [h] + suffix) == ContextParts(prefix) + Part(h) + ContextParts(suffix)
  {
    ContextPartsAppend(prefix + [h], suffix);
    ContextPartsAppend(prefix, [h]);
    ContextPartsSingle(h);
  }

  /** A hit whose `text` is a non-empty string contributes exactly that string. */
  lemma HitTextIsPart(prefix: seq<Hit>, h: Hit, suffix: seq<Hit>)
    requires h.fields.Some? && h.fields.value.text.Str? && h.fields.value.text.s != ""
    ensures ContextParts(prefix + [h] + suffix)
            == ContextParts(prefix) + [h.fields.value.text.s] + ContextParts(suffix)
  {
    ContextPartsAround(prefix, h, suffix);
    assert PickText(h) == h.fields.value.text;
    assert Part(h) == [h.fields.value.text.s];
  }

  /** A hit with neither a truthy `text` nor a truthy `chunk_text` contributes nothing. */
  lemma EmptyHitIsDropped(prefix: seq<Hit>, h: Hit, suffix: seq<Hit>)
    requires !(h.fields.Some? && (Truthy(h.fields.value.text) || Truthy(h.fields.value.chunkText)))
    ensures ContextParts(prefix + [h] + suffix) == ContextParts(prefix) + ContextParts(suffix)
  {
    ContextPartsAround(prefix, h, suffix);
    assert PickText(h) == Str("");
    assert Part(h) == [];
    assert ContextParts(prefix) + Part(h) == ContextParts(prefix);
  }

  /** The context for a search result: no hits give the empty context. */
  function ContextOf(hits: seq<Hit>): (c: string)
    ensures hits == [] ==> c == ""
    ensures forall k :: 0 <= k < |ContextParts(hits)| ==> Contains(c, ContextParts(hits)[k])
  {
    var parts := ContextParts(hits);
    forall k | 0 <= k < |parts| ensures Contains(Join(Separator, parts), parts[k]) {
      JoinContainsPart(Separator, parts, k);
    }
    Join(Separator, parts)
  }

  /** The handler. A non-POST request is refused before the body is read; a missing message or
      session id is refused before any search; the search is filtered to the session. */
  function Handle(httpMethod: string, body: Option<Body>, search: Search): (h: Handled)
    ensures httpMethod != "POST" ==> h == Handled(JsonError(405, "Method not allowed", None), None)
    ensures httpMethod == "POST" && body.None? ==> h.response == JsonError(500, "RAG retrieval failed", None)
                                                   && h.query.None?
    ensures httpMethod == "POST" && body.Some? && !(Truthy(body.value.message) && Truthy(body.value.sessionId))
            ==> h == Handled(JsonError(400, "Missing message or sessionId", None), None)
    ensures httpMethod == "POST" && body.Some? && Truthy(body.value.message) && Truthy(body.value.sessionId)
            ==> h.query == Some(Query(TopK(body.value), body.value.sessionId, body.value.message))
    ensures h.query.Some? && search.SearchFailed?
            ==> h.response == JsonError(500, "RAG retrieval failed", ErrorDetails(search.thrown))
    ensures h.query.Some? && search.Found?
            ==> var hits := if search.hits.Some? then search.hits.value else [];
                h.response == Retrieved(ContextOf(hits), hits)
  {
    if httpMethod != "POST" then Handled(JsonError(405, "Method not allowed", None), None)
    else if body.None? then Handled(JsonError(500, "RAG retrieval failed", None), None)
    else
      var b := body.value;
      if !Truthy(b.message) || !Truthy(b.sessionId) then
        Handled(JsonError(400, "Missing message or sessionId", None), None)
      else
        var q := Query(TopK(b), b.sessionId, b.message);
        match search
        case SearchFailed(e) => Handled(JsonError(500, "RAG retrieval failed", ErrorDetails(e)), Some(q))
        case Found(hits) =>
          var hs := if hits.Some? then hits.value else [];
          Handled(Retrieved(ContextOf(hs), hs), Some(q))
  }
}
