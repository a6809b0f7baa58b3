/**
 * The chat endpoint's `POST` handler: take the latest message as the query,
 * embed it, retrieve at most ten stored documents as context (and carry on
 * with an empty context if retrieval throws), build the system prompt and
 * the message list for the language model, and stream the model's non-empty
 * deltas to the caller before closing the stream. Every provider call is
 * replaced by what it returned: the embedding response, the store's answer,
 * and the sequence of streamed completion chunks.
 */
module ChatRoute {
  import opened Results
  import opened Seqs
  import opened Embedding
  import Json

  /** The `limit` of the similarity search. */
  const RetrievalLimit: nat := 10

  datatype Message = Message(role: string, content: string)

  /** What `openai.embeddings.create` gave: a thrown error, or the `data` array of its response. */
  datatype EmbeddingResponse = EmbeddingFailed | EmbeddingData(data: seq<JsValue>)

  datatype Document = Document(text: string)

  /**
   * What the store's search gave: a thrown error (the store unreachable,
   * the query vector refused), or every document in descending similarity to
   * the query vector, before the limit is applied.
   */
  datatype Retrieval = StoreFailed | Ranked(documents: seq<Document>)

  /** One streamed completion chunk: `chunk.choices[i].delta.content`, each level possibly absent. */
  datatype Delta = Delta(content: Option<string>)
  datatype Choice = Choice(delta: Option<Delta>)
  datatype StreamChunk = StreamChunk(choices: seq<Choice>)

  /** What `openai.chat.completions.create` gave: a thrown error, or the chunks of the stream. */
  datatype Completion = CompletionFailed | Streaming(chunks: seq<StreamChunk>)

  datatype PostError = EmbeddingError | CompletionError

  /** The handler's outcome: the context it built, the messages it sent, and what the response stream received. */
  datatype Reply = Reply(docContext: string, sent: seq<Message>, body: seq<string>, closed: bool)

  // ----- the query text -----

  /** `messages[messages.length - 1]?.content` */
  function LatestMessage(messages: seq<Message>): (r: Option<string>)
    ensures r.None? <==> messages == []
  {
    if messages == [] then None else Some(messages[|messages| - 1].content)
  }

  /** The query is the content of the last message, whatever came before it. */
  lemma LatestMessageIsLast(earlier: seq<Message>, last: Message)
    ensures LatestMessage(earlier + [last]) == Some(last.content)
  {
  }

  /** An empty conversation has no query. */
  lemma LatestMessageOfEmpty()
    ensures LatestMessage([]) == None
  {
  }

  /** How a possibly undefined string is rendered inside a template literal. */
  function Interpolate(v: Option<string>): string {
    if v.None? then "undefined" else v.value
  }

  // ----- retrieval -----

  /** The store's side of `find(null, { sort, limit })`: the `limit` most similar documents, in order. */
  function Find(ranking: seq<Document>, limit: nat): (r: seq<Document>)
    ensures r <= ranking
    ensures |r| == if |ranking| < limit then |ranking| else limit
  {
    if |ranking| <= limit then ranking else ranking[..limit]
  }

  /** `documents.map(doc => doc.text)` */
  function Texts(documents: seq<Document>): (r: seq<string>)
    ensures |r| == |documents|
    ensures forall i :: 0 <= i < |r| ==> r[i] == documents[i].text
  {
    if documents == [] then []
    else
      var r := [documents[0].text] + Texts(documents[1..]);
      assert forall i :: 1 <= i < |documents| ==> documents[i] == documents[1..][i - 1];
      r
  }

  /**
   * The context decodes to the texts of the first `RetrievalLimit` documents
   * of the ranking (all of them if there are fewer), in ranking order.
   */
  predicate ListsTopDocuments(docContext: string, ranking: seq<Document>) {
    var texts := Json.ParseStringArray(docContext);
    && texts.Some?
    && |texts.value| == (if |ranking| < RetrievalLimit then |ranking| else RetrievalLimit)
    && forall i :: 0 <= i < |texts.value| ==> texts.value[i] == ranking[i].text
  }

  /**
   * `embedding.data[0].embedding` can be read: `data[0]` exists and is
   * neither `null` nor `undefined` (reading a property of those throws).
   */
  predicate HasFirstItem(data: seq<JsValue>) {
    data != [] && !data[0].Null? && !data[0].Undefined?
  }

  /**
   * The inner `try` of the handler: `docContext` starts as the empty string
   * and is replaced by the serialised document texts only if reading
   * `data[0].embedding`, the search and `toArray` all succeed.
   */
  method RetrieveContext(data: seq<JsValue>, retrieval: Retrieval) returns (docContext: string)
    ensures !HasFirstItem(data) || retrieval.StoreFailed? ==> docContext == ""
    ensures HasFirstItem(data) && retrieval.Ranked? ==> ListsTopDocuments(docContext, retrieval.documents)
    ensures HasFirstItem(data) && retrieval == Ranked([]) ==> docContext == "[]"
    ensures '\n' !in docContext
  {
    docContext := "";
    if HasFirstItem(data) && retrieval.Ranked? {
      var documents := Find(retrieval.documents, RetrievalLimit);
      var docMap := Texts(documents);
      docContext := Json.StringifyArray(docMap);
      Json.StringifyRoundTrip(docMap);
      Json.StringifyHasNoControl(docMap);
    }
  }

  // ----- the system prompt -----

  /** The template up to and including the line break and indentation before the context. */
  const PromptHead: string :=
    "You are an AI assistant who knows everything about Formula One.\n"
    + "            Use the below context to augment what you know about Formula One racing.\n"
    + "            The context will provide with the most recent page data from wikipidea,\n"
    + "            the official F1 website and others.\n"
    + "            If the context does not include the information you need to answer based on your existing knowlegde and don't mention the source of your information or what the context does or does not incude.\n"
    + "            Format responses using markdown where applicable and don't return images.\n"
    + "            ------------\n"
    + "            START CONTEXT\n"
    + "            "

  /** The template between the context and the question. */
  const PromptMiddle: string :=
    "\n            END CONTEXT\n"
    + "            ------------\n"
    + "            Question: "

  /** The template after the question. */
  const PromptTail: string :=
    "\n            ------------\n"
    + "            "

  /**
   * The content of the system message. A single-line context sits exactly
   * between the `START CONTEXT` and `END CONTEXT` lines, and the question
   * exactly between `Question: ` and the closing rule: both can be read back.
   */
  function SystemPrompt(docContext: string, latestMessage: Option<string>): (r: string)
    ensures '\n' !in docContext ==> SplitPrompt(r) == Some((docContext, Interpolate(latestMessage)))
  {
    var r := PromptHead + docContext + PromptMiddle + Interpolate(latestMessage) + PromptTail;
    assert PromptMiddle[0] == '\n';
    if '\n' !in docContext then
      SplitTemplateRoundTrip(PromptHead, docContext, PromptMiddle, Interpolate(latestMessage), PromptTail);
      r
    else r
  }

  /** The text before the first line break. */
  function FirstLine(s: string): (r: string)
    ensures r <= s
  {
    if s == [] || s[0] == '\n' then [] else [s[0]] + FirstLine(s[1..])
  }

  /**
   * Reads the two interpolated parts back out of `head + first + middle +
   * second + tail`, where `first` is taken to end at the first line break.
   */
  function SplitTemplate(prompt: string, head: string, middle: string, tail: string): Option<(string, string)> {
    if head <= prompt then SplitAfterHead(prompt[|head|..], middle, tail) else None
  }

  /** Reads `first + middle + second + tail` back, `first` ending at the first line break. */
  function SplitAfterHead(rest: string, middle: string, tail: string): Option<(string, string)> {
    var first := FirstLine(rest);
    var after := rest[|first|..];
    if middle <= after && |middle| + |tail| <= |after| && after[|after| - |tail|..] == tail
    then Some((first, after[|middle|..|after| - |tail|]))
    else None
  }

  /** Reads the context block and the question back out of a system prompt. */
  function SplitPrompt(prompt: string): Option<(string, string)> {
    SplitTemplate(prompt, PromptHead, PromptMiddle, PromptTail)
  }

  lemma {:induction false} FirstLineOf(line: string, rest: string)
    requires '\n' !in line && rest != [] && rest[0] == '\n'
    ensures FirstLine(line + rest) == line
    decreases |line|
  {
    if line == [] {
      assert line + rest == rest;
    } else {
      assert (line + rest)[1..] == line[1..] + rest;
      FirstLineOf(line[1..], rest);
    }
  }

  /** Any template whose middle part starts a new line gives back a single-line first part and the second part. */
  lemma SplitTemplateRoundTrip(head: string, first: string, middle: string, second: string, tail: string)
    requires '\n' !in first && middle != [] && middle[0] == '\n'
    ensures SplitTemplate(head + first + middle + second + tail, head, middle, tail) == Some((first, second))
  {
    var prompt := head + first + middle + second + tail;
    var rest := first + (middle + second + tail);
    assert prompt == head + rest;
    assert head <= prompt && prompt[|head|..] == rest;
    SplitAfterHeadRoundTrip(first, middle, second, tail);
  }

  lemma SplitAfterHeadRoundTrip(first: string, middle: string, second: string, tail: string)
    requires '\n' !in first && middle != [] && middle[0] == '\n'
    ensures SplitAfterHead(first + (middle + second + tail), middle, tail) == Some((first, second))
  {
    var after := middle + second + tail;
    FirstLineOf(first, after);
    assert (first + after)[|first|..] == after;
    MiddleAndTail(middle, second, tail);
  }

  /** The framing of `middle + second + tail` is recognised and `second` is cut out of it. */
  lemma MiddleAndTail(middle: string, second: string, tail: string)
    ensures var after := middle + second + tail;
            && middle <= after && |middle| + |tail| <= |after|
            && after[|after| - |tail|..] == tail && after[|middle|..|after| - |tail|] == second
  {
    var after := middle + second + tail;
    assert after == middle + (second + tail);
    assert after[|after| - |tail|..] == tail;
    assert after[|middle|..|after| - |tail|] == second;
  }

  // ----- the response stream -----

  /** `chunk.choices[0]?.delta?.content` */
  function ContentOf(chunk: StreamChunk): Option<string> {
    if chunk.choices == [] || chunk.choices[0].delta.None? then None
    else chunk.choices[0].delta.value.content
  }

  /** `if (content)`: the content is present and not the empty string. */
  predicate IsForwarded(chunk: StreamChunk) {
    ContentOf(chunk).Some? && ContentOf(chunk).value != ""
  }

  /** The content of a chunk, a missing one read as empty. */
  function ContentOrEmpty(chunk: StreamChunk): string {
    if ContentOf(chunk).Some? then ContentOf(chunk).value else ""
  }

  /** The optional chain yields a content exactly when the first choice, its delta and the content are all present. */
  lemma ContentOfIsOptionalChain(chunk: StreamChunk)
    ensures ContentOf(chunk).Some? <==>
      chunk.choices != [] && chunk.choices[0].delta.Some? && chunk.choices[0].delta.value.content.Some?
  {
  }

  /** A chunk is forwarded exactly when its content, a missing one read as empty, is non-empty. */
  lemma ForwardedIffNonEmpty(chunk: StreamChunk)
    ensures IsForwarded(chunk) <==> ContentOrEmpty(chunk) != ""
  {
  }

  /** The fragments the stream receives for the chunks, in arrival order. */
  function Fragments(chunks: seq<StreamChunk>): seq<string> {
    if chunks == [] then []
    else
      var last := chunks[|chunks| - 1];
      Fragments(chunks[..|chunks| - 1]) + (if IsForwarded(last) then [ContentOf(last).value] else [])
  }

  /** Every chunk's content, a missing one read as empty, in arrival order. */
  function Contents(chunks: seq<StreamChunk>): seq<string> {
    if chunks == [] then [] else Contents(chunks[..|chunks| - 1]) + [ContentOrEmpty(chunks[|chunks| - 1])]
  }

  function Concat(parts: seq<string>): string {
    if parts == [] then "" else Concat(parts[..|parts| - 1]) + parts[|parts| - 1]
  }

  /** The `ReadableStream` controller: what has been enqueued, and whether it is closed. */
  class StreamController {
    var enqueued: seq<string>
    var closed: bool

    constructor ()
      ensures enqueued == [] && !closed
    {
      enqueued := [];
      closed := false;
    }

    method Enqueue(fragment: string)
      requires !closed
      modifies this
      ensures enqueued == old(enqueued) + [fragment] && !closed
    {
      enqueued := enqueued + [fragment];
    }

    method Close()
      requires !closed
      modifies this
      ensures closed && enqueued == old(enqueued)
    {
      closed := true;
    }
  }

  /**
   * The stream's `start`: enqueue each chunk's content when it is non-empty,
   * then close once. The controller's own precondition (closed streams take
   * nothing) makes "nothing after close" and "closed once" part of the proof.
   */
  method StartStream(controller: StreamController, chunks: seq<StreamChunk>)
    requires controller.enqueued == [] && !controller.closed
    modifies controller
    ensures controller.enqueued == Fragments(chunks) && controller.closed
  {
    for k := 0 to |chunks|
      invariant controller.enqueued == Fragments(chunks[..k]) && !controller.closed
    {
      assert chunks[..k + 1][..k] == chunks[..k];
      var content := ContentOf(chunks[k]);
      if content.Some? && content.value != "" {
        controller.Enqueue(content.value);
      }
    }
    assert chunks[..|chunks|] == chunks;
    controller.Close();
  }

  /** No empty fragment is ever enqueued. */
  lemma {:induction false} FragmentsAreNonEmpty(chunks: seq<StreamChunk>)
    ensures forall i :: 0 <= i < |Fragments(chunks)| ==> Fragments(chunks)[i] != ""
    decreases |chunks|
  {
    if chunks != [] {
      FragmentsAreNonEmpty(chunks[..|chunks| - 1]);
    }
  }

  /** The fragments are the chunk contents with the empty and missing ones left out, in arrival order. */
  lemma {:induction false} FragmentsAreSubsequence(chunks: seq<StreamChunk>)
    ensures IsSubsequence(Fragments(chunks), Contents(chunks))
    decreases |chunks|
  {
    if chunks != [] {
      var init := chunks[..|chunks| - 1];
      var last := chunks[|chunks| - 1];
      FragmentsAreSubsequence(init);
      assert Contents(chunks) == Contents(init) + [ContentOrEmpty(last)];
      if IsForwarded(last) {
        assert Fragments(chunks) == Fragments(init) + [ContentOrEmpty(last)];
        SubsequenceAppendBoth(Fragments(init), Contents(init), ContentOrEmpty(last));
      } else {
        assert Fragments(chunks) == Fragments(init);
        SubsequenceAppendRight(Fragments(init), Contents(init), ContentOrEmpty(last));
      }
    }
  }

  /** Dropping the empty fragments loses no text: the stream carries the whole answer. */
  lemma {:induction false} FragmentsCarryFullText(chunks: seq<StreamChunk>)
    ensures Concat(Fragments(chunks)) == Concat(Contents(chunks))
    decreases |chunks|
  {
    if chunks != [] {
      var init := chunks[..|chunks| - 1];
      var last := chunks[|chunks| - 1];
      FragmentsCarryFullText(init);
      var f := Fragments(chunks);
      if IsForwarded(last) {
        assert f[..|f| - 1] == Fragments(init);
      } else {
        assert f == Fragments(init);
        assert Concat(Fragments(init)) + "" == Concat(Fragments(init));
      }
    }
  }

  /** The stream of two runs of chunks is the stream of the first followed by that of the second. */
  lemma {:induction false} FragmentsAppend(a: seq<StreamChunk>, b: seq<StreamChunk>)
    ensures Fragments(a + b) == Fragments(a) + Fragments(b)
    decreases |b|
  {
    if b == [] {
      assert a + b == a;
    } else {
      var b' := b[..|b| - 1];
      assert (a + b)[..|a + b| - 1] == a + b';
      assert (a + b)[|a + b| - 1] == b[|b| - 1];
      FragmentsAppend(a, b');
    }
  }

  /** Two non-empty deltas around a chunk with no content give exactly those two fragments. */
  lemma MissingDeltaIsSkipped(f0: string, f2: string)
    requires f0 != "" && f2 != ""
    ensures var chunks := [StreamChunk([Choice(Some(Delta(Some(f0))))]),
                           StreamChunk([Choice(Some(Delta(None)))]),
                           StreamChunk([Choice(Some(Delta(Some(f2))))])];
            Fragments(chunks) == [f0, f2] && Concat(Fragments(chunks)) == f0 + f2
  {
    var c0 := StreamChunk([Choice(Some(Delta(Some(f0))))]);
    var c1 := StreamChunk([Choice(Some(Delta(None)))]);
    var c2 := StreamChunk([Choice(Some(Delta(Some(f2))))]);
    SingleChunk(c0);
    SingleChunk(c1);
    SingleChunk(c2);
    FragmentsAppend([c0], [c1]);
    assert [c0] + [c1] == [c0, c1];
    FragmentsAppend([c0, c1], [c2]);
    assert [c0, c1] + [c2] == [c0, c1, c2];
    ConcatPair(f0, f2);
  }

  lemma SingleChunk(c: StreamChunk)
    ensures Fragments([c]) == if IsForwarded(c) then [ContentOf(c).value] else []
  {
    assert [c][..0] == [];
  }

  lemma ConcatPair(a: string, b: string)
    ensures Concat([a, b]) == a + b
  {
    assert [a, b][..1] == [a] && [a][..0] == [];
    assert Concat([a]) == "" + a;
    assert "" + a == a;
  }

  /** A model that streams "Lewis" and " Hamilton" delivers exactly those two fragments. */
  lemma StreamExample()
    ensures var chunks := [StreamChunk([Choice(Some(Delta(Some("Lewis"))))]),
                           StreamChunk([Choice(Some(Delta(None)))]),
                           StreamChunk([Choice(Some(Delta(Some(" Hamilton"))))])];
            Fragments(chunks) == ["Lewis", " Hamilton"] && Concat(Fragments(chunks)) == "Lewis Hamilton"
  {
    MissingDeltaIsSkipped("Lewis", " Hamilton");
  }

  // ----- the handler -----

  /**
   * `POST`: a failure of the query embedding or of the completion call
   * propagates; a failure of retrieval leaves the context empty; otherwise
   * the model receives the system prompt followed by the conversation, and
   * the response stream receives the non-empty deltas and is closed.
   */
  method Post(messages: seq<Message>, embedding: EmbeddingResponse, retrieval: Retrieval, completion: Completion)
    returns (r: Result<Reply, PostError>)
    ensures embedding.EmbeddingFailed? ==> r == Failure(EmbeddingError)
    ensures embedding.EmbeddingData? && completion.CompletionFailed? ==> r == Failure(CompletionError)
    ensures embedding.EmbeddingData? && completion.Streaming? ==>
      && r.Success?
      && (!HasFirstItem(embedding.data) || retrieval.StoreFailed? ==> r.value.docContext == "")
      && (HasFirstItem(embedding.data) && retrieval.Ranked? ==> ListsTopDocuments(r.value.docContext, retrieval.documents))
      && |r.value.sent| == |messages| + 1
      && r.value.sent[0].role == "system"
      && r.value.sent[1..] == messages
      && SplitPrompt(r.value.sent[0].content) == Some((r.value.docContext, Interpolate(LatestMessage(messages))))
      && r.value.body == Fragments(completion.chunks)
      && r.value.closed
  {
    var latestMessage := LatestMessage(messages);
    if embedding.EmbeddingFailed? {
      return Failure(EmbeddingError);
    }
    var docContext := RetrieveContext(embedding.data, retrieval);
    var template := Message("system", SystemPrompt(docContext, latestMessage));
    var sent := [template] + messages;
    if completion.CompletionFailed? {
      return Failure(CompletionError);
    }
    var controller := new StreamController();
    StartStream(controller, completion.chunks);
    return Success(Reply(docContext, sent, controller.enqueued, controller.closed));
  }
}
