/** The SDK-based chat-completion client (task/clients/client.py): the SDK sends the request and
    hands back typed response objects whose optional fields are `None` when absent. */
module ManagedClient {
  import opened Outcomes
  import opened Json
  import opened Text
  import opened Chat

  const NoChoicesMessage := "No choices in response found"

  // ---------------------------------------------------------------- the SDK's response objects

  /** A streamed chunk: `chunk.choices[k].delta.content`, each level possibly absent. */
  datatype Delta = Delta(content: Option<string>)
  datatype ChunkChoice = ChunkChoice(delta: Option<Delta>)
  datatype Chunk = Chunk(choices: Option<seq<ChunkChoice>>)

  /** A whole completion: `response.choices[k].message.content`, each level possibly absent. */
  datatype AssistantReply = AssistantReply(content: Option<string>)
  datatype CompletionChoice = CompletionChoice(message: Option<AssistantReply>)
  datatype Completion = Completion(choices: Option<seq<CompletionChoice>>)

  /** The keyword arguments of `chat.completions.create`. */
  datatype CreateArgs = CreateArgs(deploymentName: string, stream: bool, messages: seq<Json>)

  // ---------------------------------------------------------------- streaming

  /** The text a chunk contributes: the first choice's delta content, when `choices` is a non-empty
      list, the delta is present and the content is a non-empty string. */
  function Piece(chunk: Chunk): (r: Option<string>)
    ensures r.Some? ==> r.value != "" && chunk.choices.Some? && chunk.choices.value != []
                        && chunk.choices.value[0].delta == Some(Delta(Some(r.value)))
  {
    if chunk.choices.Some? && |chunk.choices.value| > 0 then
      var delta := chunk.choices.value[0].delta;
      if delta.Some? && delta.value.content.Some? && delta.value.content.value != "" then
        Some(delta.value.content.value)
      else None
    else None
  }

  function PieceSeq(chunk: Chunk): (ps: seq<string>)
    ensures |ps| <= 1
  {
    match Piece(chunk)
    case Some(p) => [p]
    case None => []
  }

  /** The pieces of a chunk stream, in arrival order. */
  function Pieces(chunks: seq<Chunk>): (ps: seq<string>)
    ensures |ps| <= |chunks|
    ensures forall k :: 0 <= k < |ps| ==> ps[k] != ""
  {
    if chunks == [] then [] else PieceSeq(chunks[0]) + Pieces(chunks[1..])
  }

  lemma PiecesStep(chunks: seq<Chunk>, i: nat)
    requires i < |chunks|
    ensures Pieces(chunks[i..]) == PieceSeq(chunks[i]) + Pieces(chunks[i + 1..])
  {
    assert chunks[i..][0] == chunks[i];
    assert chunks[i..][1..] == chunks[i + 1..];
  }

  lemma {:induction false} PiecesAppend(a: seq<Chunk>, b: seq<Chunk>)
    ensures Pieces(a + b) == Pieces(a) + Pieces(b)
  {
    if a == [] {
      AppendAssoc(b, [], []);
    } else {
      TailAppend(a, b);
      assert (a + b)[0] == a[0];
      PiecesAppend(a[1..], b);
      AppendAssoc(PieceSeq(a[0]), Pieces(a[1..]), Pieces(b));
    }
  }

  /** The positions, from `i` on, of the chunks that contribute a piece. */
  function KeptFrom(chunks: seq<Chunk>, i: nat): (idx: seq<nat>)
    requires i <= |chunks|
    decreases |chunks| - i
    ensures forall k :: 0 <= k < |idx| ==> i <= idx[k] < |chunks|
  {
    if i == |chunks| then []
    else if Piece(chunks[i]).Some? then [i] + KeptFrom(chunks, i + 1)
    else KeptFrom(chunks, i + 1)
  }

  predicate Increasing(idx: seq<nat>) {
    forall k, l :: 0 <= k < l < |idx| ==> idx[k] < idx[l]
  }

  /** From `i` on, the contributing positions are listed in increasing order, so each once. */
  lemma {:induction false} KeptFromIncreasing(chunks: seq<Chunk>, i: nat)
    requires i <= |chunks|
    decreases |chunks| - i
    ensures Increasing(KeptFrom(chunks, i))
  {
    if i < |chunks| {
      KeptFromIncreasing(chunks, i + 1);
      var rest := KeptFrom(chunks, i + 1);
      var idx := KeptFrom(chunks, i);
      if Piece(chunks[i]).Some? {
        assert idx == [i] + rest;
        forall k, l | 0 <= k < l < |idx|
          ensures idx[k] < idx[l]
        {
          var l' := l - 1;
          assert idx[l] == rest[l'] && i + 1 <= rest[l'];
          if k > 0 {
            var k' := k - 1;
            assert 0 <= k' < l' < |rest|;
            assert idx[k] == rest[k'] && rest[k'] < rest[l'];
          }
        }
      } else {
        assert idx == rest;
      }
    }
  }

  /** From `i` on, every contributing position is listed. */
  lemma {:induction false} KeptFromComplete(chunks: seq<Chunk>, i: nat)
    requires i <= |chunks|
    decreases |chunks| - i
    ensures forall j :: i <= j < |chunks| && Piece(chunks[j]).Some? ==> j in KeptFrom(chunks, i)
  {
    if i < |chunks| {
      KeptFromComplete(chunks, i + 1);
      var rest := KeptFrom(chunks, i + 1);
      if Piece(chunks[i]).Some? {
        assert KeptFrom(chunks, i) == [i] + rest;
      } else {
        assert KeptFrom(chunks, i) == rest;
      }
    }
  }

  /** From `i` on, the pieces are the contributing chunks' pieces, position by position. */
  lemma {:induction false} KeptFromPieces(chunks: seq<Chunk>, i: nat)
    requires i <= |chunks|
    decreases |chunks| - i
    ensures var idx := KeptFrom(chunks, i);
            && |idx| == |Pieces(chunks[i..])|
            && (forall k :: 0 <= k < |idx| ==> Piece(chunks[idx[k]]) == Some(Pieces(chunks[i..])[k]))
  {
    if i == |chunks| {
      assert chunks[i..] == [];
    } else {
      PiecesStep(chunks, i);
      KeptFromPieces(chunks, i + 1);
      var rest := KeptFrom(chunks, i + 1);
      var idx := KeptFrom(chunks, i);
      var later := Pieces(chunks[i + 1..]);
      if Piece(chunks[i]).Some? {
        assert idx == [i] + rest;
        assert Pieces(chunks[i..]) == [Piece(chunks[i]).value] + later;
        forall k | 0 < k < |idx|
          ensures Piece(chunks[idx[k]]) == Some(Pieces(chunks[i..])[k])
        {
          assert idx[k] == rest[k - 1];
          assert Pieces(chunks[i..])[k] == later[k - 1];
        }
      } else {
        assert PieceSeq(chunks[i]) == [];
        assert Pieces(chunks[i..]) == later;
      }
    }
  }

  /** The pieces are exactly the contributing chunks' pieces: none dropped, none repeated, in the
      order the chunks arrived. */
  lemma PiecesAreKeptChunks(chunks: seq<Chunk>)
    ensures var idx := KeptFrom(chunks, 0);
            && |idx| == |Pieces(chunks)|
            && (forall k :: 0 <= k < |idx| ==> idx[k] < |chunks| && Piece(chunks[idx[k]]) == Some(Pieces(chunks)[k]))
            && Increasing(idx)
            && (forall j :: 0 <= j < |chunks| && Piece(chunks[j]).Some? ==> j in idx)
  {
    KeptFromIncreasing(chunks, 0);
    KeptFromComplete(chunks, 0);
    KeptFromPieces(chunks, 0);
    assert chunks[0..] == chunks;
  }

  /** A chunk that contributes no piece can be removed without changing the result. */
  lemma PiecesIgnore(before: seq<Chunk>, chunk: Chunk, after: seq<Chunk>)
    requires Piece(chunk).None?
    ensures Pieces(before + [chunk] + after) == Pieces(before + after)
  {
    assert Pieces([chunk]) == [] + Pieces([]);
    PiecesAppend(before, [chunk]);
    var joined := before + [chunk];
    PiecesAppend(joined, after);
    PiecesAppend(before, after);
    assert Pieces(joined) == Pieces(before);
  }

  /** Only the first choice of a chunk is consulted. */
  lemma PieceFirstChoiceOnly(choice: ChunkChoice, more: seq<ChunkChoice>)
    ensures Piece(Chunk(Some([choice] + more))) == Piece(Chunk(Some([choice])))
  {
  }

  /** Chunks without choices, with an empty choice list, without a delta, or whose content is
      absent or empty contribute nothing. */
  lemma PieceAbsent(choices: Option<seq<ChunkChoice>>)
    requires choices.None? || choices == Some([]) || choices.value[0].delta.None?
             || choices.value[0].delta.value.content.None? || choices.value[0].delta.value.content == Some("")
    ensures Piece(Chunk(choices)).None?
  {
  }

  // ---------------------------------------------------------------- non-streaming

  /** How `message.content` becomes a `Message` content: a string, or `None`. */
  function ContentValue(content: Option<string>): (j: Json)
    ensures j == JNull <==> content.None?
    ensures content.Some? ==> j == JStr(content.value)
  {
    match content
    case None => JNull
    case Some(s) => JStr(s)
  }

  /** The first choice's message, when `choices` is a non-empty list and that message is present;
      otherwise the exception `get_completion` raises. */
  function Choose(completion: Completion): (r: Result<Message>)
    ensures r.Ok? <==> completion.choices.Some? && completion.choices.value != []
                       && completion.choices.value[0].message.Some?
    ensures r.Ok? ==> r.value == Message(AI, ContentValue(completion.choices.value[0].message.value.content))
    ensures r.Err? ==> r.error == RaisedException(NoChoicesMessage)
  {
    if completion.choices.Some? && completion.choices.value != [] then
      match completion.choices.value[0].message
      case Some(message) => Ok(Message(AI, ContentValue(message.content)))
      case None => Err(RaisedException(NoChoicesMessage))
    else
      Err(RaisedException(NoChoicesMessage))
  }

  /** Only the first choice of a completion is consulted. */
  lemma ChooseFirstChoiceOnly(choice: CompletionChoice, more: seq<CompletionChoice>)
    ensures Choose(Completion(Some([choice] + more))) == Choose(Completion(Some([choice])))
  {
  }

  // ---------------------------------------------------------------- the client

  class DialClient {
    const deploymentName: string

    constructor(deploymentName: string)
      ensures this.deploymentName == deploymentName
    {
      this.deploymentName := deploymentName;
    }

    /** The arguments of the non-streaming call: this deployment, `stream=False`, the history as
        dictionaries in order. */
    function CompletionArgs(messages: seq<Message>): (args: CreateArgs)
      ensures args.deploymentName == deploymentName && !args.stream
      ensures |args.messages| == |messages| && FromDicts(args.messages) == Some(messages)
    {
      CreateArgs(deploymentName, false, ToDicts(messages))
    }

    /** The arguments of the streaming call: the same, with `stream=True`. */
    function StreamArgs(messages: seq<Message>): (args: CreateArgs)
      ensures args.deploymentName == deploymentName && args.stream
      ensures |args.messages| == |messages| && FromDicts(args.messages) == Some(messages)
      ensures args.messages == CompletionArgs(messages).messages
    {
      CreateArgs(deploymentName, true, ToDicts(messages))
    }

    /** `get_completion`: one call through `create`, then the first choice's message or an exception. */
    function GetCompletion(messages: seq<Message>, create: CreateArgs -> Completion): (r: Result<Message>)
      ensures var completion := create(CompletionArgs(messages));
              (r.Ok? <==> completion.choices.Some? && completion.choices.value != []
                          && completion.choices.value[0].message.Some?)
              && (r.Ok? ==> r.value.role == AI
                            && r.value.content == ContentValue(completion.choices.value[0].message.value.content))
              && (r.Err? ==> r.error == RaisedException(NoChoicesMessage))
    {
      Choose(create(CompletionArgs(messages)))
    }

    /** `stream_completion`: drains the chunks `createStream` returns, writing and collecting each
        piece, then writes a newline and returns the pieces joined. */
    method StreamCompletion(messages: seq<Message>, createStream: CreateArgs -> seq<Chunk>)
      returns (reply: Message, written: seq<string>)
      ensures var chunks := createStream(StreamArgs(messages));
              reply == Message(AI, JStr(Concat(Pieces(chunks)))) && written == Pieces(chunks) + ["\n"]
      ensures createStream(StreamArgs(messages)) == [] ==> reply == Message(AI, JStr(""))
    {
      var chunks := createStream(StreamArgs(messages));
      var contents: seq<string> := [];
      written := [];
      var i := 0;
      AppendAssoc(Pieces(chunks), [], []);
      assert chunks[i..] == chunks;
      while i < |chunks|
        invariant 0 <= i <= |chunks|
        invariant Pieces(chunks) == contents + Pieces(chunks[i..])
        invariant written == contents
      {
        PiecesStep(chunks, i);
        AppendAssoc(contents, PieceSeq(chunks[i]), Pieces(chunks[i + 1..]));
        var chunk := chunks[i];
        if chunk.choices.Some? && |chunk.choices.value| > 0 {
          var delta := chunk.choices.value[0].delta;
          if delta.Some? && delta.value.content.Some? && delta.value.content.value != "" {
            written := written + [delta.value.content.value];
            contents := contents + [delta.value.content.value];
          }
        }
        i := i + 1;
      }
      assert chunks[i..] == [];
      AppendAssoc(contents, [], []);
      written := written + ["\n"];
      reply := Message(AI, JStr(Concat(contents)));
    }
  }
}
