/** The value types exchanged with a chat backend and the backend capability itself.
    A backend is an oracle: the model does not know how it answers, only that each call
    is recorded and answered by a fixed function of the calls made before it and of the
    request, which covers a stateful local context as well as a remote service. */
module Chat {
  import opened Outcomes

  /** One chat turn; the role is "user", "assistant", "system" or any other text. */
  datatype Message = Message(role: string, content: string, reasoning: string)

  datatype ChatResponse = ChatResponse(content: string, reasoning: string)

  /** One invocation of a stream sink: a reasoning fragment and a content fragment. */
  datatype Delta = Delta(reasoning: string, content: string)

  datatype Request = Request(messages: seq<Message>, systemPrompt: string)

  /** A call as the backend saw it: the request and whether it went through stream. */
  datatype Call = Call(request: Request, streaming: bool)

  /** What chat gives back: a response, or failure with the reason it wrote to error_out. */
  datatype ChatReply = ChatOk(response: ChatResponse) | ChatFailed(error: string)

  /** What stream does: the deltas it pushes into the sink, in order, and its return value
      (with the reason written to error_out when it returns false). */
  datatype StreamReply = StreamReply(deltas: seq<Delta>, ok: bool, error: string)

  /** In-order concatenation of the content fragments. */
  function ContentOf(ds: seq<Delta>): string
  {
    if ds == [] then "" else ContentOf(ds[..|ds| - 1]) + ds[|ds| - 1].content
  }

  /** In-order concatenation of the reasoning fragments. */
  function ReasoningOf(ds: seq<Delta>): string
  {
    if ds == [] then "" else ReasoningOf(ds[..|ds| - 1]) + ds[|ds| - 1].reasoning
  }

  /** Concatenation distributes over splitting the delta stream anywhere. */
  lemma {:induction false} OfAppend(a: seq<Delta>, b: seq<Delta>)
    ensures ContentOf(a + b) == ContentOf(a) + ContentOf(b)
    ensures ReasoningOf(a + b) == ReasoningOf(a) + ReasoningOf(b)
  {
    if b != [] {
      assert (a + b)[..|a + b| - 1] == a + b[..|b| - 1];
      OfAppend(a, b[..|b| - 1]);
    } else {
      assert a + b == a;
    }
  }

  /** The delta sink of LogicGate::Evaluate and RunAgent: it appends each reasoning and
      content fragment to its own accumulator, in the order the deltas arrive. */
  method Collect(deltas: seq<Delta>) returns (reasoning: string, content: string)
    ensures reasoning == ReasoningOf(deltas) && content == ContentOf(deltas)
  {
    reasoning, content := "", "";
    for i := 0 to |deltas|
      invariant reasoning == ReasoningOf(deltas[..i])
      invariant content == ContentOf(deltas[..i])
    {
      assert deltas[..i + 1][..i] == deltas[..i];
      reasoning := reasoning + deltas[i].reasoning;
      content := content + deltas[i].content;
    }
    assert deltas[..|deltas|] == deltas;
  }

  /** ChatBackend: the blocking chat and the push-based stream operations. */
  class ChatBackend {
    const chatOracle: (seq<Call>, Request) -> ChatReply
    const streamOracle: (seq<Call>, Request) -> StreamReply
    /** Every call made on this backend so far, oldest first. */
    var log: seq<Call>

    constructor (chatOracle: (seq<Call>, Request) -> ChatReply,
                 streamOracle: (seq<Call>, Request) -> StreamReply)
      ensures this.chatOracle == chatOracle && this.streamOracle == streamOracle
      ensures log == []
    {
      this.chatOracle := chatOracle;
      this.streamOracle := streamOracle;
      log := [];
    }

    method Chat(messages: seq<Message>, systemPrompt: string) returns (reply: ChatReply)
      modifies this
      ensures log == old(log) + [Call(Request(messages, systemPrompt), false)]
      ensures reply == chatOracle(old(log), Request(messages, systemPrompt))
    {
      reply := chatOracle(log, Request(messages, systemPrompt));
      log := log + [Call(Request(messages, systemPrompt), false)];
    }

    method Stream(messages: seq<Message>, systemPrompt: string) returns (reply: StreamReply)
      modifies this
      ensures log == old(log) + [Call(Request(messages, systemPrompt), true)]
      ensures reply == streamOracle(old(log), Request(messages, systemPrompt))
    {
      reply := streamOracle(log, Request(messages, systemPrompt));
      log := log + [Call(Request(messages, systemPrompt), true)];
    }

    /** The response a caller that accumulates every delta obtains from a call made after
        history h: on success the concatenated content and reasoning (streaming) or the
        returned response (blocking); on failure the backend's reason. */
    function Answer(h: seq<Call>, q: Request, streaming: bool): Result<ChatResponse>
    {
      if streaming then
        var s := streamOracle(h, q);
        if s.ok then Ok(ChatResponse(ContentOf(s.deltas), ReasoningOf(s.deltas))) else Err(s.error)
      else
        match chatOracle(h, q)
        case ChatOk(response) => Ok(response)
        case ChatFailed(e) => Err(e)
    }
  }

  /** Concatenation of text regroups freely; prompts are built piece by piece. */
  lemma Assoc(a: string, b: string, c: string)
    ensures a + b + c == a + (b + c)
  {
  }
}
