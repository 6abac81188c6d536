/** How the two clients relate when the raw client's events carry, as JSON, exactly the chunks the
    SDK hands to the managed client, and the raw body carries the completion the SDK returns. */
module Agreement {
  import opened Outcomes
  import opened Json
  import opened Text
  import opened Chat
  import RawClient
  import opened ManagedClient

  // ---------------------------------------------------------------- the wire form of the SDK objects

  /** An absent optional field is a missing key; a present one is the key with its value. */
  function OptionalField(key: string, value: Option<Json>): (fields: map<string, Json>)
    ensures key in fields <==> value.Some?
    ensures fields.Keys <= {key}
    ensures value.Some? ==> fields[key] == value.value
  {
    match value
    case None => map[]
    case Some(v) => map[key := v]
  }

  function DeltaJson(delta: Delta): (j: Json) {
    JObj(OptionalField("content", match delta.content case None => None case Some(s) => Some(JStr(s))))
  }

  function ChunkChoiceJson(choice: ChunkChoice): (j: Json) {
    JObj(OptionalField("delta", match choice.delta case None => None case Some(d) => Some(DeltaJson(d))))
  }

  /** A streamed chunk as the JSON object of one event. */
  function ChunkJson(chunk: Chunk): (j: Json) {
    JObj(OptionalField("choices",
      match chunk.choices
      case None => None
      case Some(cs) => Some(JArr(seq(|cs|, k requires 0 <= k < |cs| => ChunkChoiceJson(cs[k]))))))
  }

  function ReplyJson(reply: AssistantReply): (j: Json) {
    JObj(OptionalField("content", match reply.content case None => None case Some(s) => Some(JStr(s))))
  }

  function CompletionChoiceJson(choice: CompletionChoice): (j: Json) {
    JObj(OptionalField("message", match choice.message case None => None case Some(m) => Some(ReplyJson(m))))
  }

  /** A whole completion as the JSON body of a 200 response. */
  function CompletionJson(completion: Completion): (j: Json) {
    JObj(OptionalField("choices",
      match completion.choices
      case None => None
      case Some(cs) => Some(JArr(seq(|cs|, k requires 0 <= k < |cs| => CompletionChoiceJson(cs[k]))))))
  }

  // ---------------------------------------------------------------- what a JSON value carries

  /** `j` is an event object that carries the delta `delta`: its `content` is missing exactly when
      the SDK has none, and is the same str otherwise. Other keys (`role`, ...) are free. */
  predicate DeltaCarries(j: Json, delta: Delta) {
    j.JObj? &&
    match delta.content
    case None => "content" !in j.fields
    case Some(s) => "content" in j.fields && j.fields["content"] == JStr(s)
  }

  /** A choice object carrying `choice`: `delta` is missing exactly when the SDK has none. Other keys
      (`index`, `finish_reason`, ...) are free. */
  predicate ChoiceCarries(j: Json, choice: ChunkChoice) {
    j.JObj? &&
    match choice.delta
    case None => "delta" !in j.fields
    case Some(d) => "delta" in j.fields && DeltaCarries(j.fields["delta"], d)
  }

  /** An event object carrying `chunk`: `choices` is missing or null exactly when the SDK has none,
      and otherwise a list carrying the chunk's choices one by one. Other keys (`id`, `model`, ...)
      are free. */
  predicate ChunkCarries(j: Json, chunk: Chunk) {
    j.JObj? &&
    match chunk.choices
    case None => "choices" !in j.fields || j.fields["choices"] == JNull
    case Some(cs) =>
      && "choices" in j.fields && j.fields["choices"].JArr?
      && |j.fields["choices"].items| == |cs|
      && forall k :: 0 <= k < |cs| ==> ChoiceCarries(j.fields["choices"].items[k], cs[k])
  }

  /** A message object carrying `reply`: `content` missing or null exactly when the SDK has none. */
  predicate ReplyCarries(j: Json, reply: AssistantReply) {
    j.JObj? &&
    match reply.content
    case None => "content" !in j.fields || j.fields["content"] == JNull
    case Some(s) => "content" in j.fields && j.fields["content"] == JStr(s)
  }

  /** A choice object of a whole completion carrying `choice`: `message` is missing or null exactly
      when the SDK has none. */
  predicate CompletionChoiceCarries(j: Json, choice: CompletionChoice) {
    j.JObj? &&
    match choice.message
    case None => "message" !in j.fields || j.fields["message"] == JNull
    case Some(m) => "message" in j.fields && ReplyCarries(j.fields["message"], m)
  }

  /** A response body carrying `completion`, with any further keys (`id`, `usage`, ...). */
  predicate CompletionCarries(j: Json, completion: Completion) {
    j.JObj? &&
    match completion.choices
    case None => "choices" !in j.fields || j.fields["choices"] == JNull
    case Some(cs) =>
      && "choices" in j.fields && j.fields["choices"].JArr?
      && |j.fields["choices"].items| == |cs|
      && forall k :: 0 <= k < |cs| ==> CompletionChoiceCarries(j.fields["choices"].items[k], cs[k])
  }

  /** The plain wire form of a chunk carries it. */
  lemma ChunkJsonCarries(chunk: Chunk)
    ensures ChunkCarries(ChunkJson(chunk), chunk)
  {
    if chunk.choices.Some? {
      var cs := chunk.choices.value;
      var items := ChunkJson(chunk).fields["choices"].items;
      forall k | 0 <= k < |cs|
        ensures ChoiceCarries(items[k], cs[k])
      {
        assert items[k] == ChunkChoiceJson(cs[k]);
      }
    }
  }

  /** The plain wire form of a completion carries it. */
  lemma CompletionJsonCarries(completion: Completion)
    ensures CompletionCarries(CompletionJson(completion), completion)
  {
    if completion.choices.Some? {
      var cs := completion.choices.value;
      var items := CompletionJson(completion).fields["choices"].items;
      forall k | 0 <= k < |cs|
        ensures CompletionChoiceCarries(items[k], cs[k])
      {
        assert items[k] == CompletionChoiceJson(cs[k]);
      }
    }
  }

  /** The role-only opening event `{"choices": [{"index": 0, "delta": {"role": "assistant"}}]}`
      carries the SDK chunk whose only choice has a delta without content. */
  lemma RolePreambleCarries()
    ensures ChunkCarries(
              JObj(map["choices" := JArr([JObj(map["index" := JNum(0.0),
                                                   "delta" := JObj(map["role" := JStr("assistant")])])])]),
              Chunk(Some([ChunkChoice(Some(Delta(None)))])))
  {
  }

  // ---------------------------------------------------------------- streaming

  /** The text the raw decoder takes from a chunk's event: the managed client's piece, or `''`
      where the managed client takes nothing. */
  function SnippetText(chunk: Chunk): (s: string)
    ensures Piece(chunk).None? <==> s == ""
  {
    match Piece(chunk)
    case Some(p) => p
    case None => ""
  }

  /** The raw decoder's snippet of any event that carries a chunk is that chunk's text, whatever
      other keys the event has. */
  lemma SnippetOfCarried(j: Json, chunk: Chunk)
    requires ChunkCarries(j, chunk)
    ensures RawClient.Snippet(j) == Ok(JStr(SnippetText(chunk)))
  {
    if chunk.choices.Some? && chunk.choices.value != [] {
      var choice := chunk.choices.value[0];
      assert ChoiceCarries(j.fields["choices"].items[0], choice);
    }
  }

  function SnippetTexts(chunks: seq<Chunk>): (ts: seq<string>)
    ensures |ts| == |chunks|
    ensures forall k :: 0 <= k < |chunks| ==> ts[k] == SnippetText(chunks[k])
  {
    seq(|chunks|, k requires 0 <= k < |chunks| => SnippetText(chunks[k]))
  }

  /** Dropping the empty snippets leaves exactly the managed client's pieces. */
  lemma {:induction false} NonEmptySnippetTexts(chunks: seq<Chunk>)
    ensures NonEmpty(SnippetTexts(chunks)) == Pieces(chunks)
  {
    if chunks != [] {
      var ts := SnippetTexts(chunks);
      assert ts[1..] == SnippetTexts(chunks[1..]);
      NonEmptySnippetTexts(chunks[1..]);
      assert (if ts[0] == "" then [] else [ts[0]]) == PieceSeq(chunks[0]);
    }
  }

  /** The raw body's events carry the managed client's chunks, one per event, in order; other lines
      (blank keep-alives, comments, `[DONE]`) may come anywhere. */
  predicate Corresponds(lines: seq<string>, chunks: seq<Chunk>, parse: string -> Option<Json>) {
    var ps := RawClient.Payloads(lines);
    && |ps| == |chunks|
    && forall k :: 0 <= k < |ps| ==> parse(ps[k]).Some? && ChunkCarries(parse(ps[k]).value, chunks[k])
  }

  /** Streaming agreement: for equivalent inputs, the raw decoder's reply is the managed client's
      reply, because the empty snippets the raw decoder collects add nothing to the join. */
  lemma StreamAgreement(lines: seq<string>, chunks: seq<Chunk>, parse: string -> Option<Json>, text: string)
    requires Corresponds(lines, chunks, parse)
    ensures RawClient.StreamOutcome(RawClient.StreamResponse(200, text, lines), parse)
         == Ok(Message(AI, JStr(Concat(Pieces(chunks)))))
  {
    var response := RawClient.StreamResponse(200, text, lines);
    var ps := RawClient.Payloads(lines);
    var texts := SnippetTexts(chunks);
    forall k | 0 <= k < |texts|
      ensures RawClient.ContentSnippet(ps[k], parse) == Ok(JStr(texts[k]))
    {
      SnippetOfCarried(parse(ps[k]).value, chunks[k]);
    }
    RawClient.StreamOutcomeConcatenates(response, parse, texts);
    ConcatNonEmpty(texts);
    NonEmptySnippetTexts(chunks);
  }

  /** What the raw client prints while decoding agrees too: it shows one snippet per chunk, the
      managed client's piece or `''`, and once the empty ones are dropped those are what the managed
      client writes before its final newline. */
  lemma StreamEchoAgreement(lines: seq<string>, chunks: seq<Chunk>, parse: string -> Option<Json>, text: string)
    requires Corresponds(lines, chunks, parse)
    ensures var shown := RawClient.ShownValues(RawClient.StreamEcho(RawClient.StreamResponse(200, text, lines), parse));
            |shown| == |chunks| && forall k :: 0 <= k < |chunks| ==> shown[k] == JStr(SnippetText(chunks[k]))
    ensures NonEmpty(SnippetTexts(chunks)) == Pieces(chunks)
  {
    var ps := RawClient.Payloads(lines);
    forall k | 0 <= k < |chunks|
      ensures RawClient.ContentSnippet(ps[k], parse) == Ok(JStr(SnippetText(chunks[k])))
    {
      SnippetOfCarried(parse(ps[k]).value, chunks[k]);
    }
    RawClient.EchoShowsSnippets(lines, parse);
    assert RawClient.StreamEcho(RawClient.StreamResponse(200, text, lines), parse) == RawClient.LinesEcho(lines, parse);
    NonEmptySnippetTexts(chunks);
  }

  // ---------------------------------------------------------------- non-streaming

  /** Non-streaming agreement and divergence, for any body carrying the completion. Where the
      managed client returns a message, the raw client returns the same one. Where `choices` is
      missing, null or empty both raise, with different exceptions. Where the first choice has no
      message, the managed client raises, while the raw client returns an assistant message whose
      content is `None` when the key is missing, and raises AttributeError when it is null. */
  lemma CompletionAgreement(body: Json, completion: Completion)
    requires CompletionCarries(body, completion)
    ensures Choose(completion).Ok? ==> RawClient.ReplyFromBody(body) == Choose(completion)
    ensures completion.choices.None? || completion.choices == Some([]) ==>
              RawClient.ReplyFromBody(body) == Err(ValueError(RawClient.NoChoiceMessage))
              && Choose(completion) == Err(RaisedException(NoChoicesMessage))
    ensures completion.choices.Some? && completion.choices.value != []
            && completion.choices.value[0].message.None? ==>
              var first := body.fields["choices"].items[0];
              && RawClient.ReplyFromBody(body) == (if "message" in first.fields then Err(AttributeError)
                                                   else Ok(Message(AI, JNull)))
              && Choose(completion) == Err(RaisedException(NoChoicesMessage))
  {
    if completion.choices.Some? && completion.choices.value != [] {
      var choice := completion.choices.value[0];
      assert CompletionChoiceCarries(body.fields["choices"].items[0], choice);
    }
  }

  /** Both clients send the same history, in the same dictionary form. */
  lemma RequestAgreement(raw: RawClient.DialClient, managed: ManagedClient.DialClient, messages: seq<Message>)
    ensures raw.CompletionRequest(messages).body.fields["messages"] == JArr(managed.CompletionArgs(messages).messages)
    ensures raw.StreamRequest(messages).body.fields["messages"] == JArr(managed.StreamArgs(messages).messages)
    ensures !managed.CompletionArgs(messages).stream && managed.StreamArgs(messages).stream
    ensures "stream" !in raw.CompletionRequest(messages).body.fields
    ensures raw.StreamRequest(messages).body.fields["stream"] == JBool(true)
  {
  }
}
