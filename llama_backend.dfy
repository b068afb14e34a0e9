/** The local backend (src/LlamaBackend.cpp): the role-tagged prompt it builds from a
    request, and its chat and stream operations. Text generation by the model is an
    abstract function of the calls made before and of the prompt; the stream operation
    hands the generated text to the sink in fixed-size content chunks. */
module Llama {
  import opened Outcomes
  import opened Chat

  /** The most tokens one generation produces. */
  const MaxNewTokens := 256
  /** The size of the content chunks the stream operation emits. */
  const ChunkSize := 16

  /** Generation: the text the model produces for a prompt and a token budget, after the
      given calls have been made on the same context. */
  type Generator = (seq<Call>, string, nat) -> string

  /** The tag a message is rendered with: "user" and "assistant" have their own, every
      other role is a plain message. */
  function Tag(role: string): string
  {
    if role == "user" then "User: " else if role == "assistant" then "Assistant: " else "Message: "
  }

  /** One message of the history as a prompt line. */
  function Line(m: Message): string
  {
    Tag(m.role) + m.content + "\n"
  }

  /** The history, one line per message, in order. */
  function Lines(ms: seq<Message>): string
  {
    if ms == [] then "" else Lines(ms[..|ms| - 1]) + Line(ms[|ms| - 1])
  }

  /** The whole prompt: the system line, the history, and the open assistant tag. */
  function Prompt(messages: seq<Message>, systemPrompt: string): string
  {
    "System: " + systemPrompt + "\n" + Lines(messages) + "Assistant:"
  }

  /** BuildPrompt: the prompt assembled by appending to a buffer message by message. */
  method BuildPrompt(messages: seq<Message>, systemPrompt: string) returns (prompt: string)
    ensures prompt == Prompt(messages, systemPrompt)
  {
    ghost var head := "System: " + systemPrompt + "\n";
    prompt := "System: " + systemPrompt + "\n";
    for i := 0 to |messages|
      invariant prompt == head + Lines(messages[..i])
    {
      var msg := messages[i];
      var line;
      if msg.role == "user" {
        line := "User: " + msg.content + "\n";
      } else if msg.role == "assistant" {
        line := "Assistant: " + msg.content + "\n";
      } else {
        line := "Message: " + msg.content + "\n";
      }
      assert messages[..i + 1][..i] == messages[..i];
      assert Lines(messages[..i + 1]) == Lines(messages[..i]) + line;
      Assoc(head, Lines(messages[..i]), line);
      prompt := prompt + line;
    }
    assert messages[..|messages|] == messages;
    prompt := prompt + "Assistant:";
  }

  /** The history renders message by message: a longer history extends the prompt lines. */
  lemma {:induction false} LinesAppend(a: seq<Message>, b: seq<Message>)
    ensures Lines(a + b) == Lines(a) + Lines(b)
    decreases |b|
  {
    if b == [] {
      assert a + b == a;
    } else {
      var c := a + b;
      var front := b[..|b| - 1];
      var last := Line(b[|b| - 1]);
      assert c[..|c| - 1] == a + front;
      assert c[|c| - 1] == b[|b| - 1];
      assert Lines(c) == Lines(a + front) + last;
      LinesAppend(a, front);
      assert Lines(b) == Lines(front) + last;
      Assoc(Lines(a), Lines(front), last);
    }
  }

  /** Only roles and contents reach the prompt: reasoning never does. */
  lemma {:induction false} LinesIgnoreReasoning(a: seq<Message>, b: seq<Message>)
    requires |a| == |b|
    requires forall i :: 0 <= i < |a| ==> a[i].role == b[i].role && a[i].content == b[i].content
    ensures Lines(a) == Lines(b)
    decreases |a|
  {
    if a != [] {
      LinesIgnoreReasoning(a[..|a| - 1], b[..|b| - 1]);
    }
  }

  /** Two requests that differ only in the reasoning of their messages get the same prompt. */
  lemma PromptIgnoresReasoning(a: seq<Message>, b: seq<Message>, systemPrompt: string)
    requires |a| == |b|
    requires forall i :: 0 <= i < |a| ==> a[i].role == b[i].role && a[i].content == b[i].content
    ensures Prompt(a, systemPrompt) == Prompt(b, systemPrompt)
  {
    LinesIgnoreReasoning(a, b);
  }

  /** A "system" message in the history is rendered like any role other than user and
      assistant. */
  lemma SystemMessagesArePlain(content: string, reasoning: string)
    ensures Line(Message("system", content, reasoning)) == "Message: " + content + "\n"
  {
  }

  /** The content chunks of the stream operation: ChunkSize characters at a time, the last
      chunk holding what is left; the empty text gives no chunk at all. */
  function Chunked(text: string): seq<Delta>
    decreases |text|
  {
    if text == [] then []
    else if |text| <= ChunkSize then [Delta("", text)]
    else [Delta("", text[..ChunkSize])] + Chunked(text[ChunkSize..])
  }

  /** There are as many chunks as ChunkSize-sized pieces of the text, rounding up; each
      holds content and no reasoning, and every chunk but the last is full. */
  lemma {:induction false} ChunkedShape(text: string)
    ensures var ds := Chunked(text);
      && |ds| == (|text| + ChunkSize - 1) / ChunkSize
      && (forall k :: 0 <= k < |ds| ==> ds[k].reasoning == "" && 0 < |ds[k].content| <= ChunkSize)
      && (forall k :: 0 <= k < |ds| - 1 ==> |ds[k].content| == ChunkSize)
    decreases |text|
  {
    if |text| > ChunkSize {
      ChunkedShape(text[ChunkSize..]);
    }
  }

  /** The chunks put back together are the generated text, with no reasoning. */
  lemma {:induction false} ChunkedReassembles(text: string)
    ensures ContentOf(Chunked(text)) == text
    ensures ReasoningOf(Chunked(text)) == ""
    decreases |text|
  {
    if text != [] {
      var first := Delta("", if |text| <= ChunkSize then text else text[..ChunkSize]);
      var rest := if |text| <= ChunkSize then [] else Chunked(text[ChunkSize..]);
      assert Chunked(text) == [first] + rest;
      OfAppend([first], rest);
      assert ContentOf([first]) == first.content by {
        assert [first][..0] == [];
      }
      if |text| > ChunkSize {
        ChunkedReassembles(text[ChunkSize..]);
        assert text == text[..ChunkSize] + text[ChunkSize..];
      }
    }
  }

  /** The chunks from position i on, nothing once i has passed the end. */
  function ChunksFrom(text: string, i: nat): seq<Delta>
  {
    if i < |text| then Chunked(text[i..]) else []
  }

  /** The characters of the chunk that starts at i: ChunkSize of them, or what is left. */
  function ChunkAt(text: string, i: nat): string
    requires i < |text|
  {
    if ChunkSize < |text| - i then text[i..i + ChunkSize] else text[i..]
  }

  /** Streaming from position i emits the chunk at i, then streams from the next chunk. */
  lemma ChunksFromStep(text: string, i: nat)
    requires i < |text|
    ensures ChunksFrom(text, i) == [Delta("", ChunkAt(text, i))] + ChunksFrom(text, i + ChunkSize)
  {
    var rest := text[i..];
    if ChunkSize < |text| - i {
      assert rest[..ChunkSize] == text[i..i + ChunkSize];
      assert rest[ChunkSize..] == text[i + ChunkSize..];
    }
  }

  /** One turn of the stream loop keeps the emitted chunks a prefix of the whole stream. */
  lemma StreamStep(text: string, deltas: seq<Delta>, i: nat)
    requires i < |text| && deltas + ChunksFrom(text, i) == Chunked(text)
    ensures (deltas + [Delta("", ChunkAt(text, i))]) + ChunksFrom(text, i + ChunkSize) == Chunked(text)
  {
    ChunksFromStep(text, i);
    var chunk := [Delta("", ChunkAt(text, i))];
    var tail := ChunksFrom(text, i + ChunkSize);
    assert (deltas + chunk) + tail == deltas + (chunk + tail);
  }

  /** The stream loop: one delta per chunk, taken from position 0 in steps of ChunkSize. */
  method StreamChunks(text: string) returns (deltas: seq<Delta>)
    ensures deltas == Chunked(text)
  {
    deltas := [];
    var i := 0;
    assert text[0..] == text;
    while i < |text|
      invariant deltas + ChunksFrom(text, i) == Chunked(text)
      decreases |text| - i
    {
      var n := if ChunkSize < |text| - i then ChunkSize else |text| - i;
      assert text[i..i + n] == ChunkAt(text, i);
      StreamStep(text, deltas, i);
      deltas := deltas + [Delta("", text[i..i + n])];
      i := i + ChunkSize;
    }
    assert deltas + ChunksFrom(text, i) == deltas + [];
  }

  /** The chat operation of the local backend: unless Generate throws, it succeeds, with the
      generated text as content and no reasoning. */
  function LocalChat(generate: Generator): (seq<Call>, Request) -> ChatReply
  {
    (h: seq<Call>, q: Request) =>
      ChatOk(ChatResponse(generate(h, Prompt(q.messages, q.systemPrompt), MaxNewTokens), ""))
  }

  /** The stream operation of the local backend: the generated text in chunks, then success. */
  function LocalStream(generate: Generator): (seq<Call>, Request) -> StreamReply
  {
    (h: seq<Call>, q: Request) =>
      StreamReply(Chunked(generate(h, Prompt(q.messages, q.systemPrompt), MaxNewTokens)), true, "")
  }

  /** The chat lambda: build the prompt, generate, answer. */
  method ChatLambda(generate: Generator, h: seq<Call>, messages: seq<Message>, systemPrompt: string)
    returns (reply: ChatReply)
    ensures reply == LocalChat(generate)(h, Request(messages, systemPrompt))
    ensures reply.ChatOk? && reply.response.reasoning == ""
  {
    var prompt := BuildPrompt(messages, systemPrompt);
    var text := generate(h, prompt, MaxNewTokens);
    return ChatOk(ChatResponse(text, ""));
  }

  /** The stream lambda: build the prompt, generate, emit the text chunk by chunk. */
  method StreamLambda(generate: Generator, h: seq<Call>, messages: seq<Message>, systemPrompt: string)
    returns (reply: StreamReply)
    ensures reply == LocalStream(generate)(h, Request(messages, systemPrompt))
    ensures reply.ok && ContentOf(reply.deltas) == generate(h, Prompt(messages, systemPrompt), MaxNewTokens)
  {
    var prompt := BuildPrompt(messages, systemPrompt);
    var text := generate(h, prompt, MaxNewTokens);
    var deltas := StreamChunks(text);
    ChunkedReassembles(text);
    return StreamReply(deltas, true, "");
  }

  /** LlamaBackend::Backend: a fresh backend whose two operations are the local ones. */
  method Backend(generate: Generator) returns (backend: ChatBackend)
    ensures fresh(backend) && backend.log == []
    ensures backend.chatOracle == LocalChat(generate) && backend.streamOracle == LocalStream(generate)
  {
    backend := new ChatBackend(LocalChat(generate), LocalStream(generate));
  }

  /** Generate's exceptions aside, a caller of the local backend never sees a failure, and
      streaming and blocking calls made after the same history give the same response: the
      generated text, no reasoning. */
  lemma LocalAnswer(generate: Generator, backend: ChatBackend, h: seq<Call>, q: Request, streaming: bool)
    requires backend.chatOracle == LocalChat(generate) && backend.streamOracle == LocalStream(generate)
    ensures backend.Answer(h, q, streaming)
         == Ok(ChatResponse(generate(h, Prompt(q.messages, q.systemPrompt), MaxNewTokens), ""))
  {
    ChunkedReassembles(generate(h, Prompt(q.messages, q.systemPrompt), MaxNewTokens));
  }
}
