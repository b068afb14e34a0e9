/** Agents and the debate driver of src/AgentRuntime.cpp: building an agent's outgoing
    messages, one agent call against a backend, and rounds of calls in which each agent
    answers the previous agent's output. */
module AgentRuntime {
  import opened Outcomes
  import opened Chat

  datatype AgentResult = AgentResult(name: string, response: ChatResponse)

  /** The value an agent holds: its name, its system prompt and its memory. */
  datatype AgentState = AgentState(name: string, systemPrompt: string, memory: seq<Message>)

  /** A named persona whose memory grows with every successful call. */
  class Agent {
    const name: string
    const systemPrompt: string
    var memory: seq<Message>

    constructor (name: string, systemPrompt: string, memory: seq<Message>)
      ensures State() == AgentState(name, systemPrompt, memory)
    {
      this.name := name;
      this.systemPrompt := systemPrompt;
      this.memory := memory;
    }

    function State(): AgentState
      reads this
    {
      AgentState(name, systemPrompt, memory)
    }
  }

  /** The agents' memories, in order. */
  ghost function Memories(agents: seq<Agent>): (ms: seq<seq<Message>>)
    reads agents
    ensures |ms| == |agents| && forall i :: 0 <= i < |agents| ==> ms[i] == agents[i].memory
  {
    if agents == [] then [] else Memories(agents[..|agents| - 1]) + [agents[|agents| - 1].memory]
  }

  /** No agent occurs twice: the elements of a std::vector<Agent> are distinct objects. */
  ghost predicate Distinct(agents: seq<Agent>)
  {
    forall i, j :: 0 <= i < j < |agents| ==> agents[i] != agents[j]
  }

  /** The assistant turn a successful call appends to memory. */
  function AssistantTurn(response: ChatResponse): Message
  {
    Message("assistant", response.content, response.reasoning)
  }

  /** The messages sent for one call: the whole memory, then the input as one user turn
      with empty reasoning. Reading the agent only, it leaves the agent as it was. */
  function BuildPrompt(agent: Agent, input: string): (ms: seq<Message>)
    reads agent
    ensures |ms| == |agent.memory| + 1
    ensures ms[..|agent.memory|] == agent.memory
    ensures ms[|agent.memory|] == Message("user", input, "")
  {
    agent.memory + [Message("user", input, "")]
  }

  /** The runtime_error text of a failed call. */
  function RunError(stream: bool, name: string, reason: string): string
  {
    (if stream then "Stream error (" else "Request error (") + name + "): " + reason
  }

  /** RunAgent: one call with the agent's memory plus the input. On success the agent's
      memory gains exactly the assistant turn that was returned; on failure it is untouched
      and the error names the agent. */
  method RunAgent(backend: ChatBackend, agent: Agent, input: string, stream: bool)
    returns (r: Result<AgentResult>)
    modifies backend, agent
    ensures var q := Request(old(BuildPrompt(agent, input)), agent.systemPrompt);
      && backend.log == old(backend.log) + [Call(q, stream)]
      && var a := backend.Answer(old(backend.log), q, stream);
      && (a.Ok? ==> r == Ok(AgentResult(agent.name, a.value))
                    && agent.memory == old(agent.memory) + [AssistantTurn(a.value)])
      && (a.Err? ==> r == Err(RunError(stream, agent.name, a.error))
                     && agent.memory == old(agent.memory))
  {
    var messages := BuildPrompt(agent, input);
    var response: ChatResponse;
    if stream {
      var reply := backend.Stream(messages, agent.systemPrompt);
      var reasoning, content := Collect(reply.deltas);
      if !reply.ok {
        return Err(RunError(stream, agent.name, reply.error));
      }
      response := ChatResponse(content, reasoning);
    } else {
      var reply := backend.Chat(messages, agent.systemPrompt);
      if reply.ChatFailed? {
        return Err(RunError(stream, agent.name, reply.error));
      }
      response := reply.response;
    }
    agent.memory := agent.memory + [AssistantTurn(response)];
    return Ok(AgentResult(agent.name, response));
  }

  /** The agent whose turn call k is, among n agents taking turns in order: k modulo n,
      counted out round by round. */
  function Slot(k: nat, n: nat): (i: nat)
    requires n > 0
    ensures i < n
  {
    if k < n then k else Slot(k - n, n)
  }

  /** Counting out k by rounds of n leaves Slot(k, n) over after q full rounds. */
  lemma {:induction false} SlotRounds(k: nat, n: nat) returns (q: nat)
    requires n > 0
    ensures k == q * n + Slot(k, n)
  {
    if k < n {
      q := 0;
    } else {
      q := SlotRounds(k - n, n);
      q := q + 1;
      assert q * n == (q - 1) * n + n;
    }
  }

  lemma {:induction false} MulMono(a: nat, b: nat, n: nat)
    ensures a <= b ==> a * n <= b * n
  {
    if a < b {
      MulMono(a, b - 1, n);
      assert b * n == (b - 1) * n + n;
    }
  }

  /** A call made before the end of round `round` of `rounds` is within the first
      rounds * n calls. */
  lemma WithinRounds(round: nat, rounds: nat, n: nat, k: nat)
    requires round < rounds && k < round * n + n
    ensures k < rounds * n
  {
    MulMono(round + 1, rounds, n);
    assert (round + 1) * n == round * n + n;
  }

  /** One more round of n calls. */
  lemma NextRound(round: nat, n: nat)
    ensures (round + 1) * n == round * n + n
  {
  }

  /** Euclidean division is unique: a remainder below n with a matching quotient is a % n. */
  lemma ModUnique(a: nat, n: nat, q: nat, r: nat)
    requires n > 0 && r < n && a == q * n + r
    ensures a % n == r
  {
    var q', r' := a / n, a % n;
    assert a == q' * n + r';
    MulMono(q + 1, q', n);
    MulMono(q' + 1, q, n);
    assert (q + 1) * n == q * n + n;
    assert (q' + 1) * n == q' * n + n;
  }

  /** Slot is the remainder of k by n. */
  lemma SlotIsMod(k: nat, n: nat)
    requires n > 0
    ensures Slot(k, n) == k % n
  {
    var q := SlotRounds(k, n);
    ModUnique(k, n, q, Slot(k, n));
  }

  /** Call j of round r goes to agent j. */
  lemma {:induction false} BlockIndex(r: nat, n: nat, j: nat)
    requires j < n
    ensures Slot(r * n + j, n) == j
  {
    if r > 0 {
      assert r * n + j - n == (r - 1) * n + j;
      BlockIndex(r - 1, n, j);
    }
  }

  /** The assistant turns that the results at positions k with Slot(k, n) == i left in agent
      i's memory, in order. */
  function Turns(rs: seq<AgentResult>, n: nat, i: nat): seq<Message>
    requires n > 0
  {
    if rs == [] then []
    else Turns(rs[..|rs| - 1], n, i)
         + (if Slot(|rs| - 1, n) == i then [AssistantTurn(rs[|rs| - 1].response)] else [])
  }

  /** After r full rounds and j more calls over n agents, agent i has received r turns,
      plus one if it is among the first j. */
  lemma {:induction false} TurnsCount(rs: seq<AgentResult>, n: nat, r: nat, j: nat, i: nat)
    requires j < n && i < n && |rs| == r * n + j
    ensures |Turns(rs, n, i)| == r + (if i < j then 1 else 0)
  {
    if j > 0 {
      TurnsCount(rs[..|rs| - 1], n, r, j - 1, i);
      BlockIndex(r, n, j - 1);
    } else if r > 0 {
      assert |rs| - 1 == (r - 1) * n + (n - 1);
      TurnsCount(rs[..|rs| - 1], n, r - 1, n - 1, i);
      BlockIndex(r - 1, n, n - 1);
    }
  }

  /** After `rounds` full rounds every agent has received `rounds` turns. */
  lemma RoundsCount(rs: seq<AgentResult>, n: nat, rounds: nat)
    requires n > 0 && |rs| == rounds * n
    ensures forall i :: 0 <= i < n ==> |Turns(rs, n, i)| == rounds
  {
    forall i | 0 <= i < n
      ensures |Turns(rs, n, i)| == rounds
    {
      TurnsCount(rs, n, rounds, 0, i);
    }
  }

  /** Every turn an agent gains from a debate is an assistant turn. */
  lemma {:induction false} TurnsAreAssistant(rs: seq<AgentResult>, n: nat, i: nat)
    requires n > 0
    ensures forall m :: m in Turns(rs, n, i) ==> m.role == "assistant"
  {
    if rs != [] {
      TurnsAreAssistant(rs[..|rs| - 1], n, i);
    }
  }

  /** The user turn of the next call of a debate after the results rs: the topic first, then
      the content the previous call returned. */
  function DebateInput(topic: string, rs: seq<AgentResult>): string
  {
    if rs == [] then topic else rs[|rs| - 1].response.content
  }

  /** The request of the next call of a debate over n agents after the results rs, made by
      agent Slot(|rs|, n), whose memory at the start of the debate was memory0: that memory,
      the turns the agent gained from rs, and the user turn of the call. */
  function DebateRequest(agent: Agent, memory0: seq<Message>, topic: string,
                         rs: seq<AgentResult>, n: nat): Request
    requires n > 0
  {
    Request(memory0 + Turns(rs, n, Slot(|rs|, n)) + [Message("user", DebateInput(topic, rs), "")],
            agent.systemPrompt)
  }

  /** Turns grows by the new result exactly in the memory of the agent whose call it was. */
  lemma TurnsAppend(rs: seq<AgentResult>, x: AgentResult, n: nat, i: nat)
    requires n > 0
    ensures Turns(rs + [x], n, i)
         == Turns(rs, n, i) + (if Slot(|rs|, n) == i then [AssistantTurn(x.response)] else [])
  {
    assert (rs + [x])[..|rs|] == rs;
  }

  /** What a debate has done after some calls: the results obtained, in order, the calls
      made on the backend, every agent's memory, and the error that stopped it, if one did. */
  datatype Progress = Progress(results: seq<AgentResult>, calls: seq<Call>,
                               memories: seq<seq<Message>>, failure: Option<string>)

  /** What the calls of a debate depend on besides its progress: the backend, the agents
      taking turns, the topic, the call mode and the backend's log before the debate. */
  datatype Setup = Setup(backend: ChatBackend, agents: seq<Agent>, topic: string, stream: bool,
                         log0: seq<Call>)
  {
    /** The call after p: the agent whose turn it is sends its memory and the prompt. */
    function NextCall(p: Progress): Call
      requires |agents| > 0 && |p.memories| == |agents|
    {
      var i := Slot(|p.results|, |agents|);
      Call(Request(p.memories[i] + [Message("user", DebateInput(topic, p.results), "")],
                   agents[i].systemPrompt), stream)
    }

    /** The next call of a debate after p: on success the result is appended and the agent
        whose turn it was remembers the answer; on failure the debate stops with the error
        of that call. Without agents there is no call to make. */
    function Step(p: Progress): Progress
    {
      if |agents| == 0 || |p.memories| != |agents| then p
      else
        var i := Slot(|p.results|, |agents|);
        var c := NextCall(p);
        match backend.Answer(log0 + p.calls, c.request, stream)
        case Ok(response) =>
          Progress(p.results + [AgentResult(agents[i].name, response)], p.calls + [c],
                   p.memories[i := p.memories[i] + [AssistantTurn(response)]], None)
        case Err(e) => Progress(p.results, p.calls + [c], p.memories, Some(RunError(stream, agents[i].name, e)))
    }
  }

  /** The step of the debate a setup describes, as a value of its own. */
  ghost function StepOf(s: Setup): Progress -> Progress
  {
    p => s.Step(p)
  }

  /** The reference debate: the progress after `count` steps from the memories memory0,
      where a failed call ends it. */
  ghost function Debate(step: Progress -> Progress, memory0: seq<seq<Message>>, count: nat): Progress
  {
    if count == 0 then Progress([], [], memory0, None)
    else
      var p := Debate(step, memory0, count - 1);
      if p.failure.Some? then p else step(p)
  }

  /** One more step of a debate that has not failed is the step applied to it. */
  lemma DebateNext(step: Progress -> Progress, memory0: seq<seq<Message>>, k: nat, k': nat, p: Progress)
    requires Debate(step, memory0, k) == p && p.failure.None? && k' == k + 1
    ensures Debate(step, memory0, k') == step(p)
  {
  }

  /** q is p after one more call: one call more, as many memories, and either one result
      more or a failure. */
  ghost predicate Advances(p: Progress, q: Progress)
  {
    && |q.calls| == |p.calls| + 1 && q.calls[..|p.calls|] == p.calls
    && |q.memories| == |p.memories|
    && (q.failure.None? ==> |q.results| == |p.results| + 1 && q.results[..|p.results|] == p.results)
    && (q.failure.Some? ==> q.results == p.results)
  }

  /** A step advances every progress with memories shaped like memory0. */
  ghost predicate Advancing(step: Progress -> Progress, memory0: seq<seq<Message>>)
  {
    forall p: Progress {:trigger step(p)} :: |p.memories| == |memory0| ==> Advances(p, step(p))
  }

  /** A debate that has not failed made exactly `count` calls, each with a result; one that
      failed made one call more than it has results, and at most `count`. */
  lemma {:induction false} DebateCounts(step: Progress -> Progress, memory0: seq<seq<Message>>, count: nat)
    requires Advancing(step, memory0)
    ensures var p := Debate(step, memory0, count);
      && |p.memories| == |memory0|
      && (p.failure.None? ==> |p.results| == |p.calls| == count)
      && (p.failure.Some? ==> |p.calls| == |p.results| + 1 <= count)
  {
    if count > 0 {
      DebateCounts(step, memory0, count - 1);
      var p := Debate(step, memory0, count - 1);
      assert Advances(p, step(p));
    }
  }

  /** After a failure the debate makes no more calls. */
  lemma {:induction false} DebateStops(step: Progress -> Progress, memory0: seq<seq<Message>>, k: nat, m: nat)
    requires k <= m
    requires Debate(step, memory0, k).failure.Some?
    ensures Debate(step, memory0, m) == Debate(step, memory0, k)
  {
    if k < m {
      DebateStops(step, memory0, k, m - 1);
    }
  }

  /** A longer debate extends a shorter one: its results and calls start with theirs. */
  lemma {:induction false} DebateExtends(step: Progress -> Progress, memory0: seq<seq<Message>>, k: nat, m: nat)
    requires Advancing(step, memory0)
    requires k <= m
    ensures var p, q := Debate(step, memory0, k), Debate(step, memory0, m);
      && |p.results| <= |q.results| && q.results[..|p.results|] == p.results
      && |p.calls| <= |q.calls| && q.calls[..|p.calls|] == p.calls
  {
    if k < m {
      DebateExtends(step, memory0, k, m - 1);
      DebateCounts(step, memory0, m - 1);
      var p, r := Debate(step, memory0, k), Debate(step, memory0, m - 1);
      if r.failure.None? {
        assert Advances(r, step(r));
        assert step(r).results[..|p.results|] == r.results[..|p.results|];
        assert step(r).calls[..|p.calls|] == r.calls[..|p.calls|];
      }
    }
  }

  /** The debate after k calls, for k up to the number of results a longer debate gained,
      has that debate's first k results and calls and has not failed. */
  lemma DebatePrefix(step: Progress -> Progress, memory0: seq<seq<Message>>, count: nat, k: nat)
    requires Advancing(step, memory0)
    requires k <= |Debate(step, memory0, count).results|
    ensures var p, d := Debate(step, memory0, count), Debate(step, memory0, k);
      && k <= |p.calls|
      && d.results == p.results[..k] && d.calls == p.calls[..k] && d.failure.None?
  {
    var p, d := Debate(step, memory0, count), Debate(step, memory0, k);
    DebateCounts(step, memory0, count);
    DebateCounts(step, memory0, k);
    if d.failure.Some? {
      DebateStops(step, memory0, k, count);
      assert false;
    }
    DebateExtends(step, memory0, k, count);
  }

  /** Every step of a debate with agents, from memories for each agent, advances. */
  lemma StepAdvances(s: Setup, p: Progress)
    requires |s.agents| > 0 && |p.memories| == |s.agents|
    ensures Advances(p, s.Step(p))
  {
    var q := s.Step(p);
    assert q.calls[..|p.calls|] == p.calls;
    assert q.failure.None? ==> q.results[..|p.results|] == p.results;
  }

  /** A debate that failed at call k + 1, within round `round` of `rounds` rounds of n
      calls, is the same after all of them. */
  lemma StopsInRound(step: Progress -> Progress, memory0: seq<seq<Message>>,
                     round: nat, rounds: nat, n: nat, k: nat)
    requires round < rounds && k < round * n + n
    requires Debate(step, memory0, k + 1).failure.Some?
    ensures Debate(step, memory0, rounds * n) == Debate(step, memory0, k + 1)
  {
    WithinRounds(round, rounds, n, k);
    DebateStops(step, memory0, k + 1, rounds * n);
  }

  /** The debate a setup with agents describes advances at every step. */
  lemma AllAdvance(s: Setup, memory0: seq<seq<Message>>)
    requires |s.agents| > 0 && |memory0| == |s.agents|
    ensures Advancing(StepOf(s), memory0)
  {
    forall p: Progress | |p.memories| == |memory0|
      ensures Advances(p, StepOf(s)(p))
    {
      StepAdvances(s, p);
    }
  }

  /** Each agent's memory is its starting memory and the turns it gained from the results. */
  ghost predicate Follows(memories: seq<seq<Message>>, memory0: seq<seq<Message>>, results: seq<AgentResult>)
    requires |memory0| > 0
  {
    && |memories| == |memory0|
    && forall i :: 0 <= i < |memory0| ==> memories[i] == memory0[i] + Turns(results, |memory0|, i)
  }

  /** A step keeps the memories following the results. */
  lemma StepFollows(s: Setup, memory0: seq<seq<Message>>, q: Progress)
    requires |s.agents| > 0 && |memory0| == |s.agents|
    requires Follows(q.memories, memory0, q.results)
    ensures Follows(s.Step(q).memories, memory0, s.Step(q).results)
  {
    var p, n := s.Step(q), |s.agents|;
    if p.failure.None? {
      var x := p.results[|q.results|];
      assert p.results == q.results + [x];
      forall i | 0 <= i < n
        ensures p.memories[i] == memory0[i] + Turns(p.results, n, i)
      {
        TurnsAppend(q.results, x, n, i);
      }
    }
  }

  /** Throughout a debate every agent's memory is its starting memory and the turns it
      gained from the results so far. */
  lemma {:induction false} DebateMemories(s: Setup, memory0: seq<seq<Message>>, count: nat)
    requires |s.agents| > 0 && |memory0| == |s.agents|
    ensures var p := Debate(StepOf(s), memory0, count); Follows(p.memories, memory0, p.results)
  {
    if count == 0 {
      assert forall i :: 0 <= i < |memory0| ==> memory0[i] + Turns([], |memory0|, i) == memory0[i];
    } else {
      DebateMemories(s, memory0, count - 1);
      var q := Debate(StepOf(s), memory0, count - 1);
      if q.failure.None? {
        DebateNext(StepOf(s), memory0, count - 1, count, q);
        StepFollows(s, memory0, q);
      }
    }
  }

  /** A successful step gains the result of the call it makes: the agent whose turn it is
      sent its request after the calls before, and the backend answered it. */
  lemma StepCall(s: Setup, q: Progress)
    requires |s.agents| > 0 && |q.memories| == |s.agents|
    requires s.Step(q).failure.None?
    ensures var p, k := s.Step(q), |q.results|;
      && |p.results| == k + 1 && p.results[..k] == q.results
      && p.results[k].name == s.agents[Slot(k, |s.agents|)].name
      && p.calls == q.calls + [s.NextCall(q)]
      && s.backend.Answer(s.log0 + q.calls, s.NextCall(q).request, s.stream) == Ok(p.results[k].response)
  {
    assert s.Step(q).results[..|q.results|] == q.results;
  }

  /** A failed step made the call of the agent whose turn it was and reports the backend's
      error with that agent's name. */
  lemma StepFails(s: Setup, q: Progress)
    requires |s.agents| > 0 && |q.memories| == |s.agents|
    requires s.Step(q).failure.Some?
    ensures var p, c := s.Step(q), s.NextCall(q);
      var a := s.backend.Answer(s.log0 + q.calls, c.request, s.stream);
      && p.results == q.results && p.calls == q.calls + [c] && a.Err?
      && p.failure.value == RunError(s.stream, s.agents[Slot(|q.results|, |s.agents|)].name, a.error)
  {
  }

  /** The call a debate makes after the results rs is the request of the agent whose turn it
      is, made of its starting memory, the turns it gained and the prompt. */
  lemma NextCallIs(s: Setup, memory0: seq<seq<Message>>, q: Progress)
    requires |s.agents| > 0 && |memory0| == |s.agents|
    requires Follows(q.memories, memory0, q.results)
    ensures var i := Slot(|q.results|, |s.agents|);
      s.NextCall(q) == Call(DebateRequest(s.agents[i], memory0[i], s.topic, q.results, |s.agents|), s.stream)
  {
  }

  /** Result k of a debate came from agent Slot(k, n): call k was that agent's request after
      the results before k, sent after the calls before k, and the backend answered it with
      the result's response. */
  lemma DebateCall(s: Setup, memory0: seq<seq<Message>>, count: nat, k: nat)
    requires |s.agents| > 0 && |memory0| == |s.agents|
    requires k < |Debate(StepOf(s), memory0, count).results|
    ensures var p, n := Debate(StepOf(s), memory0, count), |s.agents|;
      var i := Slot(k, n);
      && k < |p.calls|
      && p.results[k].name == s.agents[i].name
      && p.calls[k] == Call(DebateRequest(s.agents[i], memory0[i], s.topic, p.results[..k], n), s.stream)
      && s.backend.Answer(s.log0 + p.calls[..k], p.calls[k].request, s.stream) == Ok(p.results[k].response)
  {
    var step, p := StepOf(s), Debate(StepOf(s), memory0, count);
    AllAdvance(s, memory0);
    DebatePrefix(step, memory0, count, k);
    DebatePrefix(step, memory0, count, k + 1);
    var q := Debate(step, memory0, k);
    DebateCounts(step, memory0, k);
    DebateMemories(s, memory0, k);
    NextCallIs(s, memory0, q);
    DebateNext(step, memory0, k, k + 1, q);
    StepCall(s, q);
    assert p.results[..k + 1][k] == p.results[k];
    assert p.calls[..k + 1][k] == p.calls[k];
  }

  /** A debate that failed stopped at the call after its last result: that call was the
      request of the agent whose turn it was, and the backend's answer to it was an error,
      reported with the agent's name. */
  lemma DebateFailure(s: Setup, memory0: seq<seq<Message>>, count: nat)
    requires |s.agents| > 0 && |memory0| == |s.agents|
    requires Debate(StepOf(s), memory0, count).failure.Some?
    ensures var p, n := Debate(StepOf(s), memory0, count), |s.agents|;
      var k := |p.results|;
      var i := Slot(k, n);
      && |p.calls| == k + 1
      && p.calls[k] == Call(DebateRequest(s.agents[i], memory0[i], s.topic, p.results, n), s.stream)
      && var a := s.backend.Answer(s.log0 + p.calls[..k], p.calls[k].request, s.stream);
      && a.Err? && p.failure.value == RunError(s.stream, s.agents[i].name, a.error)
  {
    var step, p := StepOf(s), Debate(StepOf(s), memory0, count);
    var k := |p.results|;
    AllAdvance(s, memory0);
    DebateCounts(step, memory0, count);
    DebatePrefix(step, memory0, count, k);
    assert p.results[..k] == p.results;
    var q := Debate(step, memory0, k);
    DebateCounts(step, memory0, k);
    DebateMemories(s, memory0, k);
    NextCallIs(s, memory0, q);
    DebateNext(step, memory0, k, k + 1, q);
    if Debate(step, memory0, k + 1).failure.None? {
      DebateCounts(step, memory0, k + 1);
      DebateExtends(step, memory0, k + 1, count);
      assert false;
    }
    DebateStops(step, memory0, k + 1, count);
    StepFails(s, q);
  }

  /** The first call of a debate is the first agent's memory followed by the topic. */
  lemma DebateOpens(s: Setup, memory0: seq<seq<Message>>)
    requires |s.agents| > 0 && |memory0| == |s.agents|
    ensures Debate(StepOf(s), memory0, 1).calls
         == [Call(Request(memory0[0] + [Message("user", s.topic, "")], s.agents[0].systemPrompt), s.stream)]
  {
    assert Debate(StepOf(s), memory0, 1) == s.Step(Progress([], [], memory0, None));
  }

  /** A call of a debate that the backend answers gains its result: the agent whose turn it
      was remembers the answer. */
  lemma TurnOk(s: Setup, memory0: seq<seq<Message>>, k: nat, before: Progress, x: AgentResult)
    requires |s.agents| > 0 && |before.memories| == |s.agents|
    requires Debate(StepOf(s), memory0, k) == before && before.failure.None?
    requires var c := s.NextCall(before);
      s.backend.Answer(s.log0 + before.calls, c.request, s.stream) == Ok(x.response)
    requires x.name == s.agents[Slot(|before.results|, |s.agents|)].name
    ensures var j := Slot(|before.results|, |s.agents|);
      Debate(StepOf(s), memory0, k + 1)
      == Progress(before.results + [x], before.calls + [s.NextCall(before)],
                  before.memories[j := before.memories[j] + [AssistantTurn(x.response)]], None)
  {
    DebateNext(StepOf(s), memory0, k, k + 1, before);
  }

  /** A call of a debate that fails stops it with the error naming the agent. */
  lemma TurnErr(s: Setup, memory0: seq<seq<Message>>, k: nat, before: Progress, e: string)
    requires |s.agents| > 0 && |before.memories| == |s.agents|
    requires Debate(StepOf(s), memory0, k) == before && before.failure.None?
    requires exists reason ::
      && s.backend.Answer(s.log0 + before.calls, s.NextCall(before).request, s.stream) == Err(reason)
      && e == RunError(s.stream, s.agents[Slot(|before.results|, |s.agents|)].name, reason)
    ensures Debate(StepOf(s), memory0, k + 1)
         == Progress(before.results, before.calls + [s.NextCall(before)], before.memories, Some(e))
  {
    DebateNext(StepOf(s), memory0, k, k + 1, before);
  }

  /** The agents hold the memories ms. */
  ghost predicate Holds(agents: seq<Agent>, ms: seq<seq<Message>>)
    reads agents
  {
    |ms| == |agents| && forall i :: 0 <= i < |agents| ==> agents[i].memory == ms[i]
  }

  /** One call of a debate: the agent whose turn it is answers the current prompt. This is
      one step of the reference debate: on success the result is appended, its content
      becomes the prompt and the agent remembers it; on failure the debate stops. */
  method DebateTurn(backend: ChatBackend, agents: seq<Agent>, stream: bool, ghost s: Setup,
                    ghost memory0: seq<seq<Message>>, results0: seq<AgentResult>,
                    ghost calls0: seq<Call>, ghost mems0: seq<seq<Message>>, prompt0: string, j: nat)
    returns (failure: Option<string>, results: seq<AgentResult>, prompt: string,
             ghost calls: seq<Call>, ghost mems: seq<seq<Message>>)
    requires s.backend == backend && s.agents == agents && s.stream == stream
    requires |agents| > 0 && Distinct(agents)
    requires j == Slot(|results0|, |agents|)
    requires prompt0 == DebateInput(s.topic, results0)
    requires backend.log == s.log0 + calls0
    requires Debate(StepOf(s), memory0, |results0|) == Progress(results0, calls0, mems0, None)
    requires Holds(agents, mems0)
    modifies backend, agents[j]
    ensures backend.log == s.log0 + calls
    ensures Holds(agents, mems)
    ensures failure.None? ==>
      && |results| == |results0| + 1
      && prompt == DebateInput(s.topic, results)
      && Debate(StepOf(s), memory0, |results|) == Progress(results, calls, mems, None)
    ensures failure.Some? ==>
      && results == results0
      && Debate(StepOf(s), memory0, |results| + 1) == Progress(results, calls, mems, failure)
  {
    ghost var before := Progress(results0, calls0, mems0, None);
    ghost var c := s.NextCall(before);
    assert c.request == Request(BuildPrompt(agents[j], prompt0), agents[j].systemPrompt);
    var result := RunAgent(backend, agents[j], prompt0, stream);
    calls := calls0 + [c];
    if result.Err? {
      TurnErr(s, memory0, |results0|, before, result.error);
      return Some(result.error), results0, prompt0, calls, mems0;
    }
    TurnOk(s, memory0, |results0|, before, result.value);
    mems := mems0[j := mems0[j] + [AssistantTurn(result.value.response)]];
    forall i | 0 <= i < |agents| && i != j
      ensures agents[i].memory == mems[i]
    {
      assert agents[i] != agents[j];
    }
    results := results0 + [result.value];
    prompt := result.value.response.content;
    failure := None;
  }

  /** One round of a debate: each agent in order answers the prompt, which then becomes the
      content it returned. The round ends early at the first failed call. */
  method DebateRound(backend: ChatBackend, agents: seq<Agent>, stream: bool, ghost s: Setup,
                     ghost memory0: seq<seq<Message>>, results0: seq<AgentResult>,
                     ghost calls0: seq<Call>, ghost mems0: seq<seq<Message>>, prompt0: string,
                     ghost round: nat)
    returns (failure: Option<string>, results: seq<AgentResult>, prompt: string,
             ghost calls: seq<Call>, ghost mems: seq<seq<Message>>)
    requires s.backend == backend && s.agents == agents && s.stream == stream
    requires |agents| > 0 && Distinct(agents)
    requires |results0| == round * |agents|
    requires prompt0 == DebateInput(s.topic, results0)
    requires backend.log == s.log0 + calls0
    requires Debate(StepOf(s), memory0, |results0|) == Progress(results0, calls0, mems0, None)
    requires Holds(agents, mems0)
    modifies backend, agents
    ensures backend.log == s.log0 + calls
    ensures Holds(agents, mems)
    ensures failure.None? ==>
      && |results| == |results0| + |agents|
      && prompt == DebateInput(s.topic, results)
      && Debate(StepOf(s), memory0, |results|) == Progress(results, calls, mems, None)
    ensures failure.Some? ==>
      && |results| < |results0| + |agents|
      && Debate(StepOf(s), memory0, |results| + 1) == Progress(results, calls, mems, failure)
  {
    var n := |agents|;
    results, prompt, calls, mems := results0, prompt0, calls0, mems0;
    for j := 0 to n
      invariant |results| == |results0| + j
      invariant prompt == DebateInput(s.topic, results)
      invariant backend.log == s.log0 + calls
      invariant Debate(StepOf(s), memory0, |results|) == Progress(results, calls, mems, None)
      invariant Holds(agents, mems)
    {
      BlockIndex(round, n, j);
      failure, results, prompt, calls, mems :=
        DebateTurn(backend, agents, stream, s, memory0, results, calls, mems, prompt, j);
      if failure.Some? {
        return;
      }
    }
    failure := None;
  }

  /** The rounds of a debate with agents: `rounds` rounds over the topic, ending early at
      the first failed call, are the reference debate over rounds * n calls. */
  method DebateRounds(backend: ChatBackend, agents: seq<Agent>, topic: string, rounds: nat,
                      stream: bool, ghost s: Setup, ghost memory0: seq<seq<Message>>)
    returns (failure: Option<string>, results: seq<AgentResult>,
             ghost calls: seq<Call>, ghost mems: seq<seq<Message>>)
    requires s.backend == backend && s.agents == agents && s.topic == topic && s.stream == stream
    requires |agents| > 0 && Distinct(agents)
    requires backend.log == s.log0
    requires Holds(agents, memory0)
    modifies backend, agents
    ensures Debate(StepOf(s), memory0, rounds * |agents|) == Progress(results, calls, mems, failure)
    ensures failure.None? ==> |results| == rounds * |agents|
    ensures backend.log == s.log0 + calls
    ensures Holds(agents, mems)
  {
    var n := |agents|;
    calls, results, mems := [], [], memory0;
    var prompt := topic;
    for round := 0 to rounds
      invariant |results| == round * n
      invariant prompt == DebateInput(topic, results)
      invariant backend.log == s.log0 + calls
      invariant Debate(StepOf(s), memory0, |results|) == Progress(results, calls, mems, None)
      invariant Holds(agents, mems)
    {
      failure, results, prompt, calls, mems :=
        DebateRound(backend, agents, stream, s, memory0, results, calls, mems, prompt, round);
      if failure.Some? {
        StopsInRound(StepOf(s), memory0, round, rounds, n, |results|);
        return;
      }
      NextRound(round, n);
    }
    failure := None;
  }

  /** RunDebateRounds: for each round, each agent in order answers the current prompt, which
      starts as the topic and then is the content just returned. This is the reference
      debate over rounds * n calls: the results are returned in production order, a failed
      call ends the debate with that call's error, and every agent's memory holds the turns
      it took. The ghost output names the agents' memories before the debate. */
  method RunDebateRounds(backend: ChatBackend, agents: seq<Agent>, topic: string, rounds: int,
                         stream: bool)
    returns (r: Result<seq<AgentResult>>, ghost memory0: seq<seq<Message>>)
    requires Distinct(agents)
    modifies backend, agents
    ensures |memory0| == |agents| && forall i :: 0 <= i < |agents| ==> memory0[i] == old(agents[i].memory)
    ensures rounds <= 0 || agents == [] ==>
      && r == Ok([]) && backend.log == old(backend.log)
      && forall i :: 0 <= i < |agents| ==> agents[i].memory == memory0[i]
    ensures rounds > 0 && agents != [] ==>
      var s := Setup(backend, agents, topic, stream, old(backend.log));
      var p := Debate(StepOf(s), memory0, rounds * |agents|);
      && backend.log == old(backend.log) + p.calls
      && (r.Ok? <==> p.failure.None?)
      && (r.Ok? ==> r.value == p.results)
      && (r.Err? ==> r.error == p.failure.value)
      && forall i :: 0 <= i < |agents| ==> agents[i].memory == memory0[i] + Turns(p.results, |agents|, i)
    ensures r.Ok? && rounds > 0 ==> forall i :: 0 <= i < |agents| ==>
      |agents[i].memory| == |memory0[i]| + rounds
  {
    memory0 := Memories(agents);
    if rounds <= 0 || agents == [] {
      return Ok([]), memory0;
    }
    var n := |agents|;
    ghost var s := Setup(backend, agents, topic, stream, backend.log);
    var failure, results, calls, mems := DebateRounds(backend, agents, topic, rounds, stream, s, memory0);
    DebateMemories(s, memory0, rounds * n);
    if failure.Some? {
      return Err(failure.value), memory0;
    }
    RoundsCount(results, n, rounds);
    return Ok(results), memory0;
  }
}
