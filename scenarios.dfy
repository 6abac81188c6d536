/** Concrete exchanges, decoded by the model. `parse` stands for `json.loads`: each lemma names
    what it returns on the payloads involved. Event payloads are the text of JSON objects, so they
    start with `{` and end with `}`. */
module Scenarios {
  import opened Outcomes
  import opened Json
  import opened Text
  import opened Chat
  import opened RawClient
  import ManagedClient

  /** The parsed event `{"choices": [{"delta": {...}}]}`, with or without a "content" key. */
  function DeltaEvent(content: Option<string>): (j: Json) {
    var delta := match content case None => map[] case Some(s) => map["content" := JStr(s)];
    JObj(map["choices" := JArr([JObj(map["delta" := JObj(delta)])])])
  }

  lemma DeltaSnippet(content: Option<string>)
    ensures Snippet(DeltaEvent(content)) == Ok(JStr(match content case None => "" case Some(s) => s))
  {
  }

  // ---------------------------------------------------------------- event bodies

  /** Every payload is non-empty text with no whitespace at either end. */
  predicate AllEventPayloads(ps: seq<string>) {
    ps == [] || (ps[0] != [] && Trimmed(ps[0]) && AllEventPayloads(ps[1..]))
  }

  /** The text of a JSON object. */
  predicate ObjectText(p: string) {
    |p| >= 2 && p[0] == '{' && p[|p| - 1] == '}'
  }

  lemma ObjectTextEvent(p: string)
    requires ObjectText(p)
    ensures p != [] && Trimmed(p) && p != DoneSentinel
  {
    assert DoneSentinel[0] == '[';
  }

  lemma DoneEvent()
    ensures DoneSentinel != [] && Trimmed(DoneSentinel)
  {
    assert DoneSentinel[0] == '[' && DoneSentinel[|DoneSentinel| - 1] == ']';
  }

  /** The body lines `data: p` for each payload `p`. */
  function EventLines(ps: seq<string>): (lines: seq<string>)
    ensures |lines| == |ps|
  {
    if ps == [] then [] else [DataPrefix + ps[0]] + EventLines(ps[1..])
  }

  /** The payloads other than `[DONE]`. */
  function NotDone(ps: seq<string>): (r: seq<string>) {
    if ps == [] then [] else (if ps[0] == DoneSentinel then [] else [ps[0]]) + NotDone(ps[1..])
  }

  lemma EventLine(payload: string)
    requires payload != [] && Trimmed(payload)
    ensures Classify(DataPrefix + payload) == if payload == DoneSentinel then Done else Data(payload)
  {
    ClassifyEvent("", "", payload, "");
    AppendAssoc(DataPrefix, [], []);
    AppendAssoc(DataPrefix + payload, [], []);
  }

  /** Every `data: p` line is decoded to `p`, except the `[DONE]` ones. */
  lemma {:induction false} EventPayloads(ps: seq<string>)
    requires AllEventPayloads(ps)
    ensures Payloads(EventLines(ps)) == NotDone(ps)
  {
    if ps != [] {
      var lines := EventLines(ps);
      assert lines[0] == DataPrefix + ps[0];
      assert lines[1..] == EventLines(ps[1..]);
      EventLine(ps[0]);
      var head := LinePayload(lines[0]);
      assert head == (if ps[0] == DoneSentinel then [] else [ps[0]]);
      EventPayloads(ps[1..]);
      assert Payloads(lines) == head + Payloads(lines[1..]);
    }
  }

  lemma NotDoneTwoThenDone(x: string, y: string)
    requires x != DoneSentinel && y != DoneSentinel
    ensures NotDone([x, y, DoneSentinel]) == [x, y]
  {
    var ps := [x, y, DoneSentinel];
    assert ps[1..] == [y, DoneSentinel] && ps[1..][1..] == [DoneSentinel] && ps[1..][1..][1..] == [];
    assert NotDone(ps[1..][1..]) == [];
    assert NotDone(ps[1..]) == [y];
  }

  /** Two events, then `[DONE]`. */
  lemma TwoThenDone(x: string, y: string)
    requires x != [] && Trimmed(x) && y != [] && Trimmed(y) && x != DoneSentinel && y != DoneSentinel
    ensures Payloads(EventLines([x, y, DoneSentinel])) == [x, y]
  {
    var ps := [x, y, DoneSentinel];
    DoneEvent();
    assert ps[1..] == [y, DoneSentinel] && ps[1..][1..] == [DoneSentinel] && ps[1..][1..][1..] == [];
    assert AllEventPayloads(ps[1..][1..]);
    assert AllEventPayloads(ps[1..]);
    EventPayloads(ps);
    NotDoneTwoThenDone(x, y);
  }

  lemma NotDoneAround(x: string, y: string)
    requires x != DoneSentinel && y != DoneSentinel
    ensures NotDone([x, DoneSentinel, y]) == [x, y]
  {
    var ps := [x, DoneSentinel, y];
    assert ps[1..] == [DoneSentinel, y] && ps[1..][1..] == [y] && ps[1..][1..][1..] == [];
    assert NotDone(ps[1..][1..]) == [y];
    assert NotDone(ps[1..]) == [y];
  }

  /** An event, `[DONE]`, and another event. */
  lemma DoneBetween(x: string, y: string)
    requires x != [] && Trimmed(x) && y != [] && Trimmed(y) && x != DoneSentinel && y != DoneSentinel
    ensures Payloads(EventLines([x, DoneSentinel, y])) == [x, y]
  {
    var ps := [x, DoneSentinel, y];
    DoneEvent();
    assert ps[1..] == [DoneSentinel, y] && ps[1..][1..] == [y] && ps[1..][1..][1..] == [];
    assert AllEventPayloads(ps[1..][1..]);
    assert AllEventPayloads(ps[1..]);
    EventPayloads(ps);
    NotDoneAround(x, y);
  }

  lemma NotDoneThreeThenDone(w: string, x: string, y: string)
    requires w != DoneSentinel && x != DoneSentinel && y != DoneSentinel
    ensures NotDone([w, x, y, DoneSentinel]) == [w, x, y]
  {
    var ps := [w, x, y, DoneSentinel];
    assert ps[1..] == [x, y, DoneSentinel] && ps[1..][1..] == [y, DoneSentinel];
    assert ps[1..][1..][1..] == [DoneSentinel] && ps[1..][1..][1..][1..] == [];
    assert NotDone(ps[1..][1..][1..]) == [];
    assert NotDone(ps[1..][1..]) == [y];
    assert NotDone(ps[1..]) == [x, y];
  }

  /** Three events, then `[DONE]`. */
  lemma ThreeThenDone(w: string, x: string, y: string)
    requires w != [] && Trimmed(w) && x != [] && Trimmed(x) && y != [] && Trimmed(y)
    requires w != DoneSentinel && x != DoneSentinel && y != DoneSentinel
    ensures Payloads(EventLines([w, x, y, DoneSentinel])) == [w, x, y]
  {
    var ps := [w, x, y, DoneSentinel];
    DoneEvent();
    assert ps[1..] == [x, y, DoneSentinel] && ps[1..][1..] == [y, DoneSentinel];
    assert ps[1..][1..][1..] == [DoneSentinel] && ps[1..][1..][1..][1..] == [];
    assert AllEventPayloads(ps[1..][1..][1..]);
    assert AllEventPayloads(ps[1..][1..]);
    assert AllEventPayloads(ps[1..]);
    EventPayloads(ps);
    NotDoneThreeThenDone(w, x, y);
  }

  /** A single event and nothing after it. */
  lemma OneEvent(x: string)
    requires x != [] && Trimmed(x) && x != DoneSentinel
    ensures Payloads(EventLines([x])) == [x]
  {
    assert [x][1..] == [];
    assert AllEventPayloads([x]);
    EventPayloads([x]);
    assert NotDone([x]) == [x] + NotDone([]);
  }

  lemma ConcatSmall(s: string, t: string, u: string)
    ensures Concat([s]) == s
    ensures Concat([s, t]) == s + t
    ensures Concat([s, t, u]) == s + t + u
  {
    assert [s, t][1..] == [t] && [s, t, u][1..] == [t, u];
    assert Concat([u]) == u + Concat([]);
    assert Concat([t]) == t + Concat([]);
    assert Concat([t, u]) == t + Concat([u]);
    AppendAssoc(s, t, u);
  }

  /** A 200 stream whose payloads are one, two or three events with string snippets gives those
      snippets joined. */
  lemma CollectOne(response: StreamResponse, parse: string -> Option<Json>, p: string, s: string)
    requires response.status == 200 && Payloads(response.lines) == [p]
    requires ContentSnippet(p, parse) == Ok(JStr(s))
    ensures StreamOutcome(response, parse) == Ok(Message(AI, JStr(Concat([s]))))
  {
    StreamOutcomeConcatenates(response, parse, [s]);
  }

  lemma CollectTwo(response: StreamResponse, parse: string -> Option<Json>, p: string, q: string, s: string, t: string)
    requires response.status == 200 && Payloads(response.lines) == [p, q]
    requires ContentSnippet(p, parse) == Ok(JStr(s)) && ContentSnippet(q, parse) == Ok(JStr(t))
    ensures StreamOutcome(response, parse) == Ok(Message(AI, JStr(Concat([s, t]))))
  {
    var ps := Payloads(response.lines);
    var texts := [s, t];
    forall k | 0 <= k < |texts|
      ensures ContentSnippet(ps[k], parse) == Ok(JStr(texts[k]))
    {
      if k == 0 { assert ps[k] == p; } else { assert ps[k] == q; }
    }
    StreamOutcomeConcatenates(response, parse, texts);
  }

  lemma CollectThree(response: StreamResponse, parse: string -> Option<Json>, p: string, q: string, o: string,
                     s: string, t: string, u: string)
    requires response.status == 200 && Payloads(response.lines) == [p, q, o]
    requires ContentSnippet(p, parse) == Ok(JStr(s)) && ContentSnippet(q, parse) == Ok(JStr(t))
    requires ContentSnippet(o, parse) == Ok(JStr(u))
    ensures StreamOutcome(response, parse) == Ok(Message(AI, JStr(Concat([s, t, u]))))
  {
    var ps := Payloads(response.lines);
    var texts := [s, t, u];
    forall k | 0 <= k < |texts|
      ensures ContentSnippet(ps[k], parse) == Ok(JStr(texts[k]))
    {
      if k == 0 { assert ps[k] == p; } else if k == 1 { assert ps[k] == q; } else { assert ps[k] == o; }
    }
    StreamOutcomeConcatenates(response, parse, texts);
  }

  lemma HelloConcat()
    ensures Concat(["Hel", "lo"]) == "Hello"
    ensures Concat(["Hel", "", "lo"]) == "Hello"
    ensures Concat(["Hi"]) == "Hi"
  {
    ConcatSmall("Hel", "lo", "");
    ConcatSmall("Hel", "", "lo");
    ConcatSmall("Hi", "", "");
    assert "Hel" + "" == "Hel" && "Hel" + "lo" == "Hello";
  }

  // ---------------------------------------------------------------- streaming scenarios

  /** `data: {...Hel...}`, `data: {...lo...}`, `data: [DONE]` give "Hello". */
  lemma SimpleStream(a: string, b: string, parse: string -> Option<Json>, text: string)
    requires ObjectText(a) && ObjectText(b)
    requires parse(a) == Some(DeltaEvent(Some("Hel"))) && parse(b) == Some(DeltaEvent(Some("lo")))
    ensures StreamOutcome(StreamResponse(200, text, EventLines([a, b, DoneSentinel])), parse)
         == Ok(Message(AI, JStr("Hello")))
  {
    ObjectTextEvent(a);
    ObjectTextEvent(b);
    TwoThenDone(a, b);
    DeltaSnippet(Some("Hel"));
    DeltaSnippet(Some("lo"));
    CollectTwo(StreamResponse(200, text, EventLines([a, b, DoneSentinel])), parse, a, b, "Hel", "lo");
    HelloConcat();
  }

  /** An event whose delta has no content contributes `''` and keeps the order. */
  lemma NoOpChunk(a: string, e: string, b: string, parse: string -> Option<Json>, text: string)
    requires ObjectText(a) && ObjectText(e) && ObjectText(b)
    requires parse(a) == Some(DeltaEvent(Some("Hel"))) && parse(e) == Some(DeltaEvent(None))
    requires parse(b) == Some(DeltaEvent(Some("lo")))
    ensures StreamOutcome(StreamResponse(200, text, EventLines([a, e, b, DoneSentinel])), parse)
         == Ok(Message(AI, JStr("Hello")))
  {
    ObjectTextEvent(a);
    ObjectTextEvent(e);
    ObjectTextEvent(b);
    ThreeThenDone(a, e, b);
    DeltaSnippet(Some("Hel"));
    DeltaSnippet(None);
    DeltaSnippet(Some("lo"));
    CollectThree(StreamResponse(200, text, EventLines([a, e, b, DoneSentinel])), parse, a, e, b, "Hel", "", "lo");
    HelloConcat();
  }

  /** `[DONE]` does not end the decoding: an event after it is still collected. */
  lemma EventAfterDone(a: string, b: string, parse: string -> Option<Json>, text: string)
    requires ObjectText(a) && ObjectText(b)
    requires parse(a) == Some(DeltaEvent(Some("Hel"))) && parse(b) == Some(DeltaEvent(Some("lo")))
    ensures StreamOutcome(StreamResponse(200, text, EventLines([a, DoneSentinel, b])), parse)
         == Ok(Message(AI, JStr("Hello")))
  {
    ObjectTextEvent(a);
    ObjectTextEvent(b);
    DoneBetween(a, b);
    DeltaSnippet(Some("Hel"));
    DeltaSnippet(Some("lo"));
    CollectTwo(StreamResponse(200, text, EventLines([a, DoneSentinel, b])), parse, a, b, "Hel", "lo");
    HelloConcat();
  }

  /** A stream that ends without `[DONE]` still gives what it carried. */
  lemma AbruptClose(h: string, parse: string -> Option<Json>, text: string)
    requires ObjectText(h) && parse(h) == Some(DeltaEvent(Some("Hi")))
    ensures StreamOutcome(StreamResponse(200, text, EventLines([h])), parse) == Ok(Message(AI, JStr("Hi")))
  {
    ObjectTextEvent(h);
    OneEvent(h);
    DeltaSnippet(Some("Hi"));
    CollectOne(StreamResponse(200, text, EventLines([h])), parse, h, "Hi");
    HelloConcat();
  }

  lemma NotJsonEvent()
    ensures "not-json" != [] && Trimmed("not-json") && "not-json" != DoneSentinel
  {
    var bad := "not-json";
    assert bad[0] == 'n' && bad[|bad| - 1] == 'n' && bad[0] != DoneSentinel[0];
  }

  /** A 200 stream whose second payload is not JSON raises that payload's decode error. */
  lemma RaiseSecond(response: StreamResponse, parse: string -> Option<Json>, p: string, q: string)
    requires response.status == 200 && Payloads(response.lines) == [p, q]
    requires ContentSnippet(p, parse).Ok? && parse(q).None?
    ensures StreamOutcome(response, parse) == Err(JsonDecodeError(q))
  {
    var ps := Payloads(response.lines);
    assert ps[0] == p && ps[1..] == [q] && [q][1..] == [];
    assert ContentSnippet(q, parse) == Err(JsonDecodeError(q));
    assert Snippets([q], parse) == Err(JsonDecodeError(q));
    assert Snippets(ps, parse) == Err(JsonDecodeError(q));
  }

  /** `data: not-json` before `[DONE]` makes the call raise; no message is returned. */
  lemma MalformedPayload(a: string, parse: string -> Option<Json>, text: string)
    requires ObjectText(a) && parse(a) == Some(DeltaEvent(Some("Hel"))) && parse("not-json").None?
    ensures StreamOutcome(StreamResponse(200, text, EventLines([a, "not-json", DoneSentinel])), parse)
         == Err(JsonDecodeError("not-json"))
  {
    ObjectTextEvent(a);
    NotJsonEvent();
    TwoThenDone(a, "not-json");
    DeltaSnippet(Some("Hel"));
    RaiseSecond(StreamResponse(200, text, EventLines([a, "not-json", DoneSentinel])), parse, a, "not-json");
  }

  // ---------------------------------------------------------------- non-streaming scenarios

  /** A 200 body `{"choices": []}` raises in both clients. */
  lemma EmptyChoices(body: string, parse: string -> Option<Json>)
    requires parse(body) == Some(JObj(map["choices" := JArr([])]))
    ensures CompletionOutcome(HttpResponse(200, body), parse) == Err(ValueError(NoChoiceMessage))
    ensures ManagedClient.Choose(ManagedClient.Completion(Some([]))) == Err(RaisedException(ManagedClient.NoChoicesMessage))
  {
  }

  /** Status 500 with body "server error" raises with both in its message. */
  lemma HttpFailure(parse: string -> Option<Json>)
    ensures CompletionOutcome(HttpResponse(500, "server error"), parse) == Err(RaisedException("HTTP 500: server error"))
  {
    assert DigitChar(5) == '5' && DigitChar(0) == '0';
    assert NatToDecimal(5) == "5";
    assert NatToDecimal(50) == NatToDecimal(5) + [DigitChar(0)] == "50";
    assert NatToDecimal(500) == NatToDecimal(50) + [DigitChar(0)] == "500";
    assert IntToDecimal(500) == "500";
    assert "HTTP " + "500" + ": " + "server error" == "HTTP 500: server error";
  }

  // ---------------------------------------------------------------- the managed client

  /** The same exchange through the SDK: a role-only chunk, "Hel", "lo" give "Hello". */
  lemma ManagedSimpleStream()
    ensures var role := ManagedClient.Chunk(Some([ManagedClient.ChunkChoice(Some(ManagedClient.Delta(None)))]));
            var hel := ManagedClient.Chunk(Some([ManagedClient.ChunkChoice(Some(ManagedClient.Delta(Some("Hel"))))]));
            var lo := ManagedClient.Chunk(Some([ManagedClient.ChunkChoice(Some(ManagedClient.Delta(Some("lo"))))]));
            Concat(ManagedClient.Pieces([role, hel, lo])) == "Hello"
  {
    var role := ManagedClient.Chunk(Some([ManagedClient.ChunkChoice(Some(ManagedClient.Delta(None)))]));
    var hel := ManagedClient.Chunk(Some([ManagedClient.ChunkChoice(Some(ManagedClient.Delta(Some("Hel"))))]));
    var lo := ManagedClient.Chunk(Some([ManagedClient.ChunkChoice(Some(ManagedClient.Delta(Some("lo"))))]));
    var chunks := [role, hel, lo];
    assert chunks[1..] == [hel, lo] && chunks[1..][1..] == [lo] && chunks[1..][1..][1..] == [];
    assert ManagedClient.Pieces(chunks[1..][1..]) == ["lo"];
    assert ManagedClient.Pieces(chunks[1..]) == ["Hel", "lo"];
    assert ManagedClient.Pieces(chunks) == ["Hel", "lo"];
    HelloConcat();
  }
}
