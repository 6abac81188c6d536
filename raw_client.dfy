/** The raw-HTTP chat-completion client (task/clients/custom_client.py): it builds the HTTP request
    itself and, when streaming, decodes the server-sent-event body line by line. */
module RawClient {
  import opened Outcomes
  import opened Json
  import opened Text
  import opened Chat

  const DataPrefix := "data: "
  const DoneSentinel := "[DONE]"
  const DeploymentsPath := "/openai/deployments/"
  const CompletionsPath := "/chat/completions"
  const NoChoiceMessage := "No Choice has been present in the response"

  // ---------------------------------------------------------------- requests

  /** The chat-completions URL of a deployment under the service's base URL. */
  function Endpoint(baseUrl: string, deploymentName: string): (url: string)
    ensures DeploymentOf(baseUrl, url) == Some(deploymentName)
  {
    var url := baseUrl + DeploymentsPath + deploymentName + CompletionsPath;
    assert url[..|baseUrl + DeploymentsPath|] == baseUrl + DeploymentsPath;
    assert url[|url| - |CompletionsPath|..] == CompletionsPath;
    assert url[|baseUrl + DeploymentsPath|..|url| - |CompletionsPath|] == deploymentName;
    url
  }

  /** The deployment an endpoint URL names, if it has the chat-completions shape under `baseUrl`. */
  function DeploymentOf(baseUrl: string, url: string): (r: Option<string>) {
    var head := baseUrl + DeploymentsPath;
    if |head| + |CompletionsPath| <= |url| && url[..|head|] == head
       && url[|url| - |CompletionsPath|..] == CompletionsPath
    then Some(url[|head|..|url| - |CompletionsPath|])
    else None
  }

  datatype HttpRequest = HttpRequest(url: string, headers: map<string, string>, body: Json)

  datatype HttpResponse = HttpResponse(status: int, text: string)

  /** A streamed response: its status, its body read whole as text, and its body read line by line. */
  datatype StreamResponse = StreamResponse(status: int, text: string, lines: seq<string>)

  /** The conversation a request body carries under "messages". */
  function BodyMessages(body: Json): (r: Option<seq<Message>>) {
    if body.JObj? && "messages" in body.fields && body.fields["messages"].JArr?
    then FromDicts(body.fields["messages"].items)
    else None
  }

  // ---------------------------------------------------------------- non-streaming reply

  /** What `get_completion` makes of a 200 response's parsed body. */
  function ReplyFromBody(data: Json): (r: Result<Message>)
    ensures !data.JObj? ==> r == Err(AttributeError)
    ensures data.JObj? && !Truthy(FieldOr(data.fields, "choices", JArr([]))) ==>
              r == Err(ValueError(NoChoiceMessage))
    ensures data.JObj? ==>
              var choices := FieldOr(data.fields, "choices", JArr([]));
              choices.JArr? && choices.items != [] && choices.items[0].JObj? ==>
                var message := FieldOr(choices.items[0].fields, "message", JObj(map[]));
                r == if message.JObj? then Ok(Message(AI, FieldOr(message.fields, "content", JNull)))
                     else Err(AttributeError)
    ensures data.JObj? ==>
              var choices := FieldOr(data.fields, "choices", JArr([]));
              Truthy(choices) && !(choices.JArr? && choices.items[0].JObj?) ==> r.Err?
    ensures r.Ok? ==> r.value.role == AI
  {
    var choices :- Get(data, "choices", JArr([]));
    if Truthy(choices) then
      var first :- First(choices);
      var message :- Get(first, "message", JObj(map[]));
      var content :- Get(message, "content", JNull);
      Ok(Message(AI, content))
    else
      Err(ValueError(NoChoiceMessage))
  }

  /** What `get_completion` makes of the response to its request. */
  function CompletionOutcome(response: HttpResponse, parse: string -> Option<Json>): (r: Result<Message>)
    ensures response.status != 200 ==>
              r == Err(RaisedException("HTTP " + IntToDecimal(response.status) + ": " + response.text))
    ensures response.status == 200 && parse(response.text).None? ==>
              r == Err(JsonDecodeError(response.text))
    ensures response.status == 200 && parse(response.text).Some? ==>
              r == ReplyFromBody(parse(response.text).value)
  {
    if response.status == 200 then
      match parse(response.text)
      case None => Err(JsonDecodeError(response.text))
      case Some(data) => ReplyFromBody(data)
    else
      Err(RaisedException("HTTP " + IntToDecimal(response.status) + ": " + response.text))
  }

  // ---------------------------------------------------------------- the event-line decoder

  datatype LineKind = Skipped | Done | Data(payload: string)

  /** One body line: not a `data: ` event, the `[DONE]` sentinel, or an event payload. */
  function Classify(line: string): (k: LineKind)
    ensures k.Skipped? <==> !StartsWith(Strip(line), DataPrefix)
    ensures k.Data? ==> Trimmed(k.payload) && k.payload != DoneSentinel
  {
    var s := Strip(line);
    if !StartsWith(s, DataPrefix) then Skipped
    else
      var payload := Strip(s[|DataPrefix|..]);
      if payload == DoneSentinel then Done else Data(payload)
  }

  /** A `data: ` event surrounded by any whitespace decodes to its trimmed payload. */
  lemma ClassifyEvent(w1: string, pad: string, payload: string, w2: string)
    requires AllSpace(w1) && AllSpace(pad) && AllSpace(w2)
    requires Trimmed(payload) && payload != ""
    ensures Classify(w1 + DataPrefix + pad + payload + w2) ==
              if payload == DoneSentinel then Done else Data(payload)
  {
    var rest := pad + payload;
    var event := DataPrefix + rest;
    assert w1 + DataPrefix + pad + payload + w2 == w1 + event + w2;
    assert event[0] == 'd' && event[|event| - 1] == payload[|payload| - 1];
    StripPadded(w1, event, w2);
    assert event[..|DataPrefix|] == DataPrefix;
    assert event[|DataPrefix|..] == rest;
    StripLeading(pad, payload);
  }

  /** Blank (keep-alive) lines are skipped. */
  lemma ClassifyBlank(w: string)
    requires AllSpace(w)
    ensures Classify(w) == Skipped
  {
    assert w == w + [] + [];
    StripPadded(w, [], []);
  }

  /** A bare `data:` line, however padded, is skipped: stripping removes the space the prefix needs. */
  lemma ClassifyBareData(w1: string, w2: string)
    requires AllSpace(w1) && AllSpace(w2)
    ensures Classify(w1 + "data:" + w2) == Skipped
  {
    StripPadded(w1, "data:", w2);
  }

  /** An event written `data:{...}`, without the space, is skipped too. */
  lemma ClassifyUnspaced(rest: string)
    requires rest != [] && !IsSpace(rest[0])
    ensures Classify("data:" + rest) == Skipped
  {
    var line := "data:" + rest;
    assert line[0] == 'd' && line[5] == rest[0];
    assert TrimStart(line) == line;
    TrimEndKeeps(line, 5);
    TrimEndSplits(line);
    var s := TrimEnd(line);
    assert s[..|DataPrefix|][5] == rest[0];
  }

  /** The snippet `_get_content_snippet` takes from one parsed payload. */
  function Snippet(data: Json): (r: Result<Json>)
    ensures !data.JObj? ==> r == Err(AttributeError)
    ensures r.Err? ==> r.error == AttributeError || r.error == TypeError || r.error == KeyError
                       || r.error == IndexError
  {
    var choices :- Get(data, "choices", JNull);
    if Truthy(choices) then
      var first :- First(choices);
      var delta :- Get(first, "delta", JObj(map[]));
      Get(delta, "content", JStr(""))
    else
      Ok(JStr(""))
  }

  /** How `Snippet` reads an event object: no or falsy `choices` gives `''`; a first choice that is
      an object gives its `delta`'s `content` (default `''`, `{}` for a missing delta), and
      raises when the delta is not an object; a truthy `choices` whose first member is not an
      object raises. */
  lemma SnippetCases(data: Json)
    ensures data.JObj? && !Truthy(FieldOr(data.fields, "choices", JNull)) ==> Snippet(data) == Ok(JStr(""))
    ensures data.JObj? ==>
              var choices := FieldOr(data.fields, "choices", JNull);
              choices.JArr? && choices.items != [] && choices.items[0].JObj? ==>
                var delta := FieldOr(choices.items[0].fields, "delta", JObj(map[]));
                Snippet(data) == if delta.JObj? then Ok(FieldOr(delta.fields, "content", JStr("")))
                                 else Err(AttributeError)
    ensures data.JObj? ==>
              var choices := FieldOr(data.fields, "choices", JNull);
              Truthy(choices) && !(choices.JArr? && choices.items[0].JObj?) ==> Snippet(data).Err?
  {
  }

  /** Only the first choice of an event is consulted. */
  lemma SnippetFirstChoiceOnly(fields: map<string, Json>, choice: Json, more: seq<Json>)
    ensures Snippet(JObj(fields["choices" := JArr([choice] + more)]))
         == Snippet(JObj(fields["choices" := JArr([choice])]))
  {
  }

  /** `_get_content_snippet(data)`: `json.loads`, whose failure propagates, then `Snippet`. */
  function ContentSnippet(data: string, parse: string -> Option<Json>): (r: Result<Json>)
    ensures parse(data).None? ==> r == Err(JsonDecodeError(data))
    ensures parse(data).Some? ==> r == Snippet(parse(data).value)
  {
    match parse(data)
    case None => Err(JsonDecodeError(data))
    case Some(value) => Snippet(value)
  }

  /** The payloads of the `data: ` lines other than `[DONE]`, in arrival order. */
  function Payloads(lines: seq<string>): (ps: seq<string>)
    ensures |ps| <= |lines|
  {
    if lines == [] then [] else LinePayload(lines[0]) + Payloads(lines[1..])
  }

  /** The payload one line contributes: none, or one. */
  function LinePayload(line: string): (ps: seq<string>)
    ensures |ps| <= 1
  {
    KindPayload(Classify(line))
  }

  function KindPayload(kind: LineKind): (ps: seq<string>)
    ensures |ps| <= 1
  {
    match kind
    case Data(p) => [p]
    case _ => []
  }

  /** Every payload is the trimmed text of a `data: ` event other than `[DONE]`. */
  lemma {:induction false} PayloadsAreEventText(lines: seq<string>)
    ensures forall k :: 0 <= k < |Payloads(lines)| ==>
              Trimmed(Payloads(lines)[k]) && Payloads(lines)[k] != DoneSentinel
  {
    if lines != [] {
      PayloadsAreEventText(lines[1..]);
      var head := LinePayload(lines[0]);
      assert forall k :: 0 <= k < |head| ==> Trimmed(head[k]) && head[k] != DoneSentinel;
      assert Payloads(lines) == head + Payloads(lines[1..]);
    }
  }

  lemma {:induction false} PayloadsAppend(a: seq<string>, b: seq<string>)
    ensures Payloads(a + b) == Payloads(a) + Payloads(b)
  {
    if a == [] {
      AppendAssoc(b, [], []);
    } else {
      TailAppend(a, b);
      assert (a + b)[0] == a[0];
      PayloadsAppend(a[1..], b);
      AppendAssoc(LinePayload(a[0]), Payloads(a[1..]), Payloads(b));
    }
  }

  /** A skipped line or a `[DONE]` line contributes no payload, and the lines after it are still
      decoded: removing it changes nothing. */
  lemma PayloadsIgnore(before: seq<string>, line: string, after: seq<string>)
    requires !Classify(line).Data?
    ensures Payloads(before + [line] + after) == Payloads(before + after)
  {
    assert LinePayload(line) == [];
    assert Payloads([line]) == [];
    PayloadsAppend(before, [line]);
    assert Payloads(before + [line]) == Payloads(before);
    var joined := before + [line];
    PayloadsAppend(joined, after);
    PayloadsAppend(before, after);
    assert Payloads(joined + after) == Payloads(before + after);
  }

  /** The snippets of the payloads, stopping at the first one that raises. */
  function Snippets(payloads: seq<string>, parse: string -> Option<Json>): (r: Result<seq<Json>>)
    ensures r.Ok? ==> |r.value| == |payloads|
                      && forall k :: 0 <= k < |payloads| ==> ContentSnippet(payloads[k], parse) == Ok(r.value[k])
    ensures r.Err? ==> exists k :: 0 <= k < |payloads| && ContentSnippet(payloads[k], parse) == Err(r.error)
                                   && forall j :: 0 <= j < k ==> ContentSnippet(payloads[j], parse).Ok?
  {
    if payloads == [] then Ok([])
    else
      match ContentSnippet(payloads[0], parse)
      case Err(e) => Err(e)
      case Ok(snippet) =>
        match Snippets(payloads[1..], parse)
        case Err(e) =>
          ghost var k :| 0 <= k < |payloads[1..]| && ContentSnippet(payloads[1..][k], parse) == Err(e)
                         && forall j :: 0 <= j < k ==> ContentSnippet(payloads[1..][j], parse).Ok?;
          assert ContentSnippet(payloads[k + 1], parse) == Err(e);
          Err(e)
        case Ok(rest) => Ok([snippet] + rest)
  }

  /** `''.join(contents)`: every snippet must be a str, or `join` raises TypeError. */
  function JoinSnippets(contents: seq<Json>): (r: Result<string>)
    ensures r.Ok? <==> forall k :: 0 <= k < |contents| ==> contents[k].JStr?
    ensures r.Err? ==> r.error == TypeError
  {
    if contents == [] then Ok("")
    else if !contents[0].JStr? then Err(TypeError)
    else match JoinSnippets(contents[1..])
      case Ok(s) => Ok(contents[0].s + s)
      case Err(e) => Err(e)
  }

  /** Snippets that are all strings join to their in-order concatenation. */
  lemma {:induction false} JoinStrings(contents: seq<Json>, texts: seq<string>)
    requires |contents| == |texts| && forall k :: 0 <= k < |texts| ==> contents[k] == JStr(texts[k])
    ensures JoinSnippets(contents) == Ok(Concat(texts))
  {
    if contents != [] {
      JoinStrings(contents[1..], texts[1..]);
    }
  }

  /** Everything `stream_completion` writes to the console. */
  datatype Echo = Shown(value: Json) | Newline | StatusLine(text: string)

  /** What printing one line shows, or the exception its snippet raises before anything is shown. */
  function LineEcho(line: string, parse: string -> Option<Json>): (r: Result<seq<Echo>>) {
    KindEcho(Classify(line), parse)
  }

  function KindEcho(kind: LineKind, parse: string -> Option<Json>): (r: Result<seq<Echo>>) {
    match kind
    case Skipped => Ok([])
    case Done => Ok([Newline])
    case Data(p) => ShownSnippet(p, parse)
  }

  /** Printing the snippet of one payload, or the exception taking it raises. */
  function ShownSnippet(p: string, parse: string -> Option<Json>): (r: Result<seq<Echo>>) {
    match ContentSnippet(p, parse)
    case Err(e) => Err(e)
    case Ok(snippet) => Ok([Shown(snippet)])
  }

  /** The console output of decoding `lines`: each snippet as it is decoded, a newline per `[DONE]`,
      nothing more once a snippet raises. */
  function LinesEcho(lines: seq<string>, parse: string -> Option<Json>): (echo: seq<Echo>) {
    if lines == [] then []
    else
      match LineEcho(lines[0], parse)
      case Err(_) => []
      case Ok(shown) => shown + LinesEcho(lines[1..], parse)
  }

  /** The snippets shown, in order, ignoring the newlines. */
  function ShownValues(echo: seq<Echo>): (shown: seq<Json>) {
    if echo == [] then [] else ShownOf(echo[0]) + ShownValues(echo[1..])
  }

  function ShownOf(e: Echo): (shown: seq<Json>) {
    match e
    case Shown(v) => [v]
    case _ => []
  }

  /** Decoding the lines prints snippets and newlines only: the status line is printed only for a
      failed request. */
  lemma {:induction false} LinesEchoNoStatus(lines: seq<string>, parse: string -> Option<Json>)
    ensures forall k :: 0 <= k < |LinesEcho(lines, parse)| ==> !LinesEcho(lines, parse)[k].StatusLine?
  {
    if lines != [] {
      match LineEcho(lines[0], parse)
      case Err(_) =>
      case Ok(shown) =>
        assert forall k :: 0 <= k < |shown| ==> !shown[k].StatusLine?;
        LinesEchoNoStatus(lines[1..], parse);
        assert LinesEcho(lines, parse) == shown + LinesEcho(lines[1..], parse);
    }
  }

  lemma {:induction false} ShownValuesAppend(a: seq<Echo>, b: seq<Echo>)
    ensures ShownValues(a + b) == ShownValues(a) + ShownValues(b)
  {
    if a == [] {
      AppendAssoc(b, [], []);
    } else {
      TailAppend(a, b);
      assert (a + b)[0] == a[0];
      ShownValuesAppend(a[1..], b);
      AppendAssoc(ShownOf(a[0]), ShownValues(a[1..]), ShownValues(b));
    }
  }

  /** One line shows nothing but a newline when it carries no payload, and shows its snippet when
      it carries one. */
  lemma LineEchoMatchesPayload(line: string, parse: string -> Option<Json>)
    ensures LinePayload(line) == [] ==>
              LineEcho(line, parse).Ok? && ShownValues(LineEcho(line, parse).value) == []
    ensures LinePayload(line) != [] ==>
              |LinePayload(line)| == 1 && LineEcho(line, parse) == ShownSnippet(LinePayload(line)[0], parse)
  {
    KindEchoMatchesPayload(Classify(line), parse);
  }

  lemma KindEchoMatchesPayload(kind: LineKind, parse: string -> Option<Json>)
    ensures KindPayload(kind) == [] ==>
              KindEcho(kind, parse).Ok? && ShownValues(KindEcho(kind, parse).value) == []
    ensures KindPayload(kind) != [] ==>
              |KindPayload(kind)| == 1 && KindEcho(kind, parse) == ShownSnippet(KindPayload(kind)[0], parse)
  {
    if kind.Done? {
      assert ShownValues([Newline]) == ShownOf(Newline) + ShownValues([]);
    }
  }

  /** What is shown is exactly what is collected: print-then-append never diverges. */
  lemma {:induction false} EchoShowsSnippets(lines: seq<string>, parse: string -> Option<Json>)
    requires Snippets(Payloads(lines), parse).Ok?
    ensures ShownValues(LinesEcho(lines, parse)) == Snippets(Payloads(lines), parse).value
  {
    if lines != [] {
      var rest := lines[1..];
      assert Payloads(lines) == LinePayload(lines[0]) + Payloads(rest);
      LineEchoMatchesPayload(lines[0], parse);
      if LinePayload(lines[0]) == [] {
        assert Payloads(lines) == Payloads(rest);
        EchoShowsSnippets(rest, parse);
        ShownValuesAppend(LineEcho(lines[0], parse).value, LinesEcho(rest, parse));
      } else {
        var p := LinePayload(lines[0])[0];
        var ps := Payloads(lines);
        assert ps == [p] + Payloads(rest);
        assert ps[0] == p && ps[1..] == Payloads(rest);
        var v := ContentSnippet(p, parse).value;
        assert Snippets(ps, parse) == Ok([v] + Snippets(Payloads(rest), parse).value);
        assert LineEcho(lines[0], parse) == Ok([Shown(v)]);
        EchoShowsSnippets(rest, parse);
        ShownValuesAppend([Shown(v)], LinesEcho(rest, parse));
        assert ShownValues([Shown(v)]) == ShownOf(Shown(v)) + ShownValues([]);
      }
    }
  }

  /** The console output of `stream_completion` for a response. */
  function StreamEcho(response: StreamResponse, parse: string -> Option<Json>): (echo: seq<Echo>)
    ensures response.status != 200 ==> echo == [StatusLine(IntToDecimal(response.status) + " " + response.text)]
    ensures response.status == 200 ==> forall k :: 0 <= k < |echo| ==> !echo[k].StatusLine?
  {
    if response.status == 200 then
      LinesEchoNoStatus(response.lines, parse);
      LinesEcho(response.lines, parse)
    else [StatusLine(IntToDecimal(response.status) + " " + response.text)]
  }

  /** What `stream_completion` returns for a response. */
  function StreamOutcome(response: StreamResponse, parse: string -> Option<Json>): (r: Result<Message>)
    ensures response.status != 200 ==> r == Ok(Message(AI, JStr("")))
    ensures r.Ok? ==> r.value.role == AI && r.value.content.JStr?
    ensures response.status == 200 ==>
              (r.Ok? <==> Snippets(Payloads(response.lines), parse).Ok?
                          && JoinSnippets(Snippets(Payloads(response.lines), parse).value).Ok?)
  {
    if response.status != 200 then Ok(Message(AI, JStr("")))
    else
      var contents :- Snippets(Payloads(response.lines), parse);
      var text :- JoinSnippets(contents);
      Ok(Message(AI, JStr(text)))
  }

  /** With status 200, when the i-th event's snippet is the string texts[i], the reply is those
      strings concatenated in arrival order, nothing dropped, reordered or repeated. */
  lemma StreamOutcomeConcatenates(response: StreamResponse, parse: string -> Option<Json>, texts: seq<string>)
    requires response.status == 200
    requires |texts| == |Payloads(response.lines)|
    requires forall k :: 0 <= k < |texts| ==> ContentSnippet(Payloads(response.lines)[k], parse) == Ok(JStr(texts[k]))
    ensures StreamOutcome(response, parse) == Ok(Message(AI, JStr(Concat(texts))))
  {
    var ps := Payloads(response.lines);
    var r := Snippets(ps, parse);
    JoinStrings(r.value, texts);
  }

  /** The first payload that is not JSON makes the whole call raise its decode error; the snippets
      collected before it are discarded. */
  lemma StreamOutcomeMalformed(response: StreamResponse, parse: string -> Option<Json>, k: nat)
    requires response.status == 200
    requires k < |Payloads(response.lines)| && parse(Payloads(response.lines)[k]).None?
    requires forall j :: 0 <= j < k ==> ContentSnippet(Payloads(response.lines)[j], parse).Ok?
    ensures StreamOutcome(response, parse) == Err(JsonDecodeError(Payloads(response.lines)[k]))
  {
    var ps := Payloads(response.lines);
    assert ContentSnippet(ps[k], parse) == Err(JsonDecodeError(ps[k]));
    var r := Snippets(ps, parse);
    assert r.Err?;
    var first :| 0 <= first < |ps| && ContentSnippet(ps[first], parse) == Err(r.error)
                 && forall j :: 0 <= j < first ==> ContentSnippet(ps[j], parse).Ok?;
    assert first == k;
  }

  /** A snippet that is not a str (a JSON `null` content, say) makes the final join raise TypeError,
      even though every payload decoded. */
  lemma StreamOutcomeNonString(response: StreamResponse, parse: string -> Option<Json>, k: nat)
    requires response.status == 200 && Snippets(Payloads(response.lines), parse).Ok?
    requires k < |Payloads(response.lines)|
    requires ContentSnippet(Payloads(response.lines)[k], parse).Ok?
    requires !ContentSnippet(Payloads(response.lines)[k], parse).value.JStr?
    ensures StreamOutcome(response, parse) == Err(TypeError)
  {
    var contents := Snippets(Payloads(response.lines), parse).value;
    assert !contents[k].JStr?;
  }

  /** Decoding `lines` from index `i` on is decoding line `i`, then the lines after it. */
  lemma DecodeStep(lines: seq<string>, i: nat, parse: string -> Option<Json>)
    requires i < |lines|
    ensures Payloads(lines[i..]) == LinePayload(lines[i]) + Payloads(lines[i + 1..])
    ensures LinesEcho(lines[i..], parse) ==
              match LineEcho(lines[i], parse)
              case Err(_) => []
              case Ok(shown) => shown + LinesEcho(lines[i + 1..], parse)
  {
    assert lines[i..][0] == lines[i];
    assert lines[i..][1..] == lines[i + 1..];
  }

  /** `Snippets` of a payload followed by more. */
  lemma SnippetsCons(payload: string, more: seq<string>, parse: string -> Option<Json>)
    ensures Snippets([payload] + more, parse) ==
              match ContentSnippet(payload, parse)
              case Err(e) => Err(e)
              case Ok(v) =>
                match Snippets(more, parse)
                case Err(e) => Err(e)
                case Ok(rest) => Ok([v] + rest)
  {
    assert ([payload] + more)[1..] == more;
  }

  // ---------------------------------------------------------------- loop bookkeeping

  /** `contents` decoded so far, in front of what the remaining payloads decode to. */
  function Prepend(contents: seq<Json>, rest: Result<seq<Json>>): (r: Result<seq<Json>>) {
    match rest
    case Ok(more) => Ok(contents + more)
    case Err(e) => Err(e)
  }

  /** The stream loop's invariant after `i` lines: the snippets collected and the echo printed so far,
      followed by what the remaining lines give, are what the whole body gives. */
  predicate DecodedUpTo(lines: seq<string>, i: nat, parse: string -> Option<Json>,
                        contents: seq<Json>, echo: seq<Echo>)
    requires i <= |lines|
  {
    && Snippets(Payloads(lines), parse) == Prepend(contents, Snippets(Payloads(lines[i..]), parse))
    && LinesEcho(lines, parse) == echo + LinesEcho(lines[i..], parse)
  }

  /** One `data: ` line: a snippet that raises ends the decoding with its exception; otherwise the
      snippet is appended and shown. */
  lemma DataStep(lines: seq<string>, i: nat, parse: string -> Option<Json>,
                 contents: seq<Json>, echo: seq<Echo>)
    requires i < |lines| && DecodedUpTo(lines, i, parse, contents, echo)
    requires Classify(lines[i]).Data?
    ensures var snippet := ContentSnippet(Classify(lines[i]).payload, parse);
            && (snippet.Err? ==> Snippets(Payloads(lines), parse) == Err(snippet.error)
                                 && LinesEcho(lines, parse) == echo)
            && (snippet.Ok? ==> DecodedUpTo(lines, i + 1, parse, contents + [snippet.value],
                                            echo + [Shown(snippet.value)]))
  {
    DecodeStep(lines, i, parse);
    var p := Classify(lines[i]).payload;
    assert LinePayload(lines[i]) == [p];
    SnippetsCons(p, Payloads(lines[i + 1..]), parse);
    var snippet := ContentSnippet(p, parse);
    if snippet.Ok? {
      assert LineEcho(lines[i], parse) == Ok([Shown(snippet.value)]);
      var rest := Snippets(Payloads(lines[i + 1..]), parse);
      if rest.Ok? {
        AppendAssoc(contents, [snippet.value], rest.value);
      }
      AppendAssoc(echo, [Shown(snippet.value)], LinesEcho(lines[i + 1..], parse));
    } else {
      assert LineEcho(lines[i], parse) == Err(snippet.error);
      AppendAssoc(echo, [], []);
    }
  }

  /** One skipped or `[DONE]` line: nothing is collected; `[DONE]` prints a newline. */
  lemma OtherStep(lines: seq<string>, i: nat, parse: string -> Option<Json>,
                  contents: seq<Json>, echo: seq<Echo>)
    requires i < |lines| && DecodedUpTo(lines, i, parse, contents, echo)
    requires !Classify(lines[i]).Data?
    ensures DecodedUpTo(lines, i + 1, parse, contents,
                        if Classify(lines[i]).Done? then echo + [Newline] else echo)
  {
    DecodeStep(lines, i, parse);
    assert LinePayload(lines[i]) == [];
    AppendAssoc(Payloads(lines[i + 1..]), [], []);
    if Classify(lines[i]).Done? {
      assert LineEcho(lines[i], parse) == Ok([Newline]);
      AppendAssoc(echo, [Newline], LinesEcho(lines[i + 1..], parse));
    } else {
      assert LineEcho(lines[i], parse) == Ok([]);
      AppendAssoc(echo, [], LinesEcho(lines[i + 1..], parse));
    }
  }

  /** After the last line. */
  lemma DecodeEnd(lines: seq<string>, parse: string -> Option<Json>, contents: seq<Json>, echo: seq<Echo>)
    requires DecodedUpTo(lines, |lines|, parse, contents, echo)
    ensures Snippets(Payloads(lines), parse) == Ok(contents)
    ensures LinesEcho(lines, parse) == echo
  {
    assert lines[|lines|..] == [];
    AppendAssoc(contents, [], []);
    AppendAssoc(echo, [], []);
  }

  /** Before any line is decoded. */
  lemma DecodeStart(lines: seq<string>, parse: string -> Option<Json>)
    ensures DecodedUpTo(lines, 0, parse, [], [])
  {
    assert lines[0..] == lines;
    var rest := Snippets(Payloads(lines), parse);
    if rest.Ok? {
      AppendAssoc(rest.value, [], []);
    }
    AppendAssoc(LinesEcho(lines, parse), [], []);
  }

  // ---------------------------------------------------------------- the client

  class DialClient {
    const endpoint: string
    const apiKey: string

    /** The API key is taken as given; the source never assigns it (see README). */
    constructor (baseUrl: string, deploymentName: string, apiKey: string)
      ensures endpoint == Endpoint(baseUrl, deploymentName)
      ensures this.apiKey == apiKey
    {
      endpoint := Endpoint(baseUrl, deploymentName);
      this.apiKey := apiKey;
    }

    /** The headers both calls send. */
    function Headers(): (headers: map<string, string>)
      ensures headers.Keys == {"api-key", "Content-Type"}
      ensures headers["api-key"] == apiKey && headers["Content-Type"] == "application/json"
    {
      map["api-key" := apiKey, "Content-Type" := "application/json"]
    }

    /** The request of `get_completion`: the history and nothing else; no "stream" field. */
    function CompletionRequest(messages: seq<Message>): (request: HttpRequest)
      ensures request.url == endpoint && request.headers == Headers()
      ensures request.body.JObj? && request.body.fields.Keys == {"messages"}
      ensures BodyMessages(request.body) == Some(messages)
    {
      HttpRequest(endpoint, Headers(), JObj(map["messages" := JArr(ToDicts(messages))]))
    }

    /** The request of `stream_completion`: the history with "stream" set to true. */
    function StreamRequest(messages: seq<Message>): (request: HttpRequest)
      ensures request.url == endpoint && request.headers == Headers()
      ensures request.body.JObj? && request.body.fields.Keys == {"stream", "messages"}
      ensures request.body.fields["stream"] == JBool(true)
      ensures BodyMessages(request.body) == Some(messages)
    {
      HttpRequest(endpoint, Headers(), JObj(map["stream" := JBool(true), "messages" := JArr(ToDicts(messages))]))
    }

    /** `get_completion`: posts the history (through `post`) and decodes the whole response: a
        status other than 200 raises with the status and the body, a body that is not JSON raises
        its decode error, and a reply is always the assistant's. */
    function GetCompletion(messages: seq<Message>, post: HttpRequest -> HttpResponse,
                           parse: string -> Option<Json>): (r: Result<Message>)
      ensures var response := post(CompletionRequest(messages));
              && (response.status != 200 ==>
                    r == Err(RaisedException("HTTP " + IntToDecimal(response.status) + ": " + response.text)))
              && (response.status == 200 && parse(response.text).None? ==> r == Err(JsonDecodeError(response.text)))
              && (response.status == 200 && parse(response.text).Some? ==> r == ReplyFromBody(parse(response.text).value))
              && (r.Ok? ==> r.value.role == AI)
    {
      CompletionOutcome(post(CompletionRequest(messages)), parse)
    }

    /** `stream_completion`: opens the streamed response (through `open`) and decodes it line by line,
        echoing each snippet before collecting it. */
    method StreamCompletion(messages: seq<Message>, open: HttpRequest -> StreamResponse,
                            parse: string -> Option<Json>) returns (r: Result<Message>, echo: seq<Echo>)
      ensures var response := open(StreamRequest(messages));
              r == StreamOutcome(response, parse) && echo == StreamEcho(response, parse)
    {
      var response := open(StreamRequest(messages));
      var contents: seq<Json> := [];
      echo := [];
      if response.status == 200 {
        var lines := response.lines;
        var i := 0;
        DecodeStart(lines, parse);
        while i < |lines|
          invariant 0 <= i <= |lines|
          invariant DecodedUpTo(lines, i, parse, contents, echo)
        {
          var kind := Classify(lines[i]);
          if kind.Data? {
            DataStep(lines, i, parse, contents, echo);
            var snippet := ContentSnippet(kind.payload, parse);
            if snippet.Err? {
              r := Err(snippet.error);
              return;
            }
            echo := echo + [Shown(snippet.value)];
            contents := contents + [snippet.value];
          } else {
            OtherStep(lines, i, parse, contents, echo);
            if kind.Done? {
              echo := echo + [Newline];
            }
          }
          i := i + 1;
        }
        DecodeEnd(lines, parse, contents, echo);
      } else {
        echo := echo + [StatusLine(IntToDecimal(response.status) + " " + response.text)];
      }
      var text := JoinSnippets(contents);
      if text.Err? {
        r := Err(text.error);
        return;
      }
      r := Ok(Message(AI, JStr(text.value)));
    }
  }
}
