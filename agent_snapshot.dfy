/** Saving agents to and loading them from a JSON document (SaveAgents and LoadAgents in
    src/AgentRuntime.cpp). The document is modelled as a JSON value; its text form, the file
    and the parser are outside the model and show up only as the outcome of opening, writing
    or parsing. Objects keep their members in key order, as the library's std::map does. */
module AgentSnapshot {
  import opened Outcomes
  import opened Chat
  import opened AgentRuntime

  /** A JSON value. A number carries no payload: loading only ever asks for its type. */
  datatype Json =
    | Null
    | Boolean(b: bool)
    | Number
    | Str(s: string)
    | Array(items: seq<Json>)
    | Object(members: seq<Member>)

  datatype Member = Member(key: string, value: Json)

  /** The library's name for the type of a value, as its type errors print it. */
  function TypeName(j: Json): string
  {
    match j
    case Null => "null"
    case Boolean(_) => "boolean"
    case Number => "number"
    case Str(_) => "string"
    case Array(_) => "array"
    case Object(_) => "object"
  }

  /** The value stored under key, if any: the value of the first member with that key. */
  function Lookup(members: seq<Member>, key: string): (r: Option<Json>)
    ensures r.Some? <==> exists i :: 0 <= i < |members| && members[i].key == key
    ensures r.Some? ==> exists i :: (0 <= i < |members| && members[i].key == key
                                     && r.value == members[i].value
                                     && forall j :: 0 <= j < i ==> members[j].key != key)
  {
    if members == [] then None
    else if members[0].key == key then Some(members[0].value)
    else
      var r := Lookup(members[1..], key);
      if r.Some? then
        var i :| (0 <= i < |members[1..]| && members[1..][i].key == key
                  && r.value == members[1..][i].value
                  && forall j :: 0 <= j < i ==> members[1..][j].key != key);
        assert members[i + 1] == members[1..][i];
        assert forall j :: 1 <= j < i + 1 ==> members[j] == members[1..][j - 1];
        r
      else r
  }

  /** Why loading stopped: LoadAgents returned false with this message, or a type error
      (the library's error id and message) escaped from it. */
  datatype LoadError = Refused(message: string) | TypeError(id: nat, message: string)

  datatype Loaded<T> = Loaded(value: T) | Failed(error: LoadError)

  /** value(key, "") on j: the string under key, "" when the key is absent; j must be an
      object and a present value must be a string. */
  function StringField(j: Json, key: string): Loaded<string>
  {
    if !j.Object? then Failed(TypeError(306, "cannot use value() with " + TypeName(j)))
    else
      match Lookup(j.members, key)
      case None => Loaded("")
      case Some(Str(s)) => Loaded(s)
      case Some(v) => Failed(TypeError(302, "type must be string, but is " + TypeName(v)))
  }

  /** value("memory", array()) on an object: whatever is stored, or the empty array. */
  function MemoryField(j: Json): Json
    requires j.Object?
  {
    match Lookup(j.members, "memory")
    case None => Array([])
    case Some(v) => v
  }

  /** What a range-for over a value visits: an array's items, an object's values in key
      order, nothing for null, and a primitive value once, itself. */
  function Elements(j: Json): seq<Json>
  {
    match j
    case Null => []
    case Array(items) => items
    case Object(members) => seq(|members|, i requires 0 <= i < |members| => members[i].value)
    case _ => [j]
  }

  /** One message read from a memory element: role, content and reasoning, in that order. */
  function DecodeMessage(j: Json): Loaded<Message>
  {
    match StringField(j, "role")
    case Failed(e) => Failed(e)
    case Loaded(role) =>
      match StringField(j, "content")
      case Failed(e) => Failed(e)
      case Loaded(content) =>
        match StringField(j, "reasoning")
        case Failed(e) => Failed(e)
        case Loaded(reasoning) => Loaded(Message(role, content, reasoning))
  }

  /** Elements read in order with decode; the first element that fails decides the outcome. */
  function DecodeEach<T>(decode: Json -> Loaded<T>, js: seq<Json>): Loaded<seq<T>>
  {
    if js == [] then Loaded([])
    else
      match DecodeEach(decode, js[..|js| - 1])
      case Failed(e) => Failed(e)
      case Loaded(xs) =>
        match decode(js[|js| - 1])
        case Failed(e) => Failed(e)
        case Loaded(x) => Loaded(xs + [x])
  }

  /** One agent read from an element of the root array: name, system prompt, then memory. */
  function DecodeAgent(j: Json): Loaded<AgentState>
  {
    match StringField(j, "name")
    case Failed(e) => Failed(e)
    case Loaded(name) =>
      match StringField(j, "system_prompt")
      case Failed(e) => Failed(e)
      case Loaded(systemPrompt) =>
        match DecodeEach(DecodeMessage, Elements(MemoryField(j)))
        case Failed(e) => Failed(e)
        case Loaded(memory) => Loaded(AgentState(name, systemPrompt, memory))
  }

  /** What a parsed document loads as: its root must be an array. */
  function LoadRoot(root: Json): Loaded<seq<AgentState>>
  {
    if !root.Array? then Failed(Refused("Invalid JSON: root is not an array."))
    else DecodeEach(DecodeAgent, root.items)
  }

  /** The file as the loader finds it: it cannot be opened, it does not parse (with the
      parser's message), or it parses to a value. */
  datatype Source = Unreadable | Malformed(what: string) | Parsed(root: Json)

  /** The outcome of loading from path. */
  function Load(path: string, source: Source): Loaded<seq<AgentState>>
  {
    match source
    case Unreadable => Failed(Refused("Failed to open file for read: " + path))
    case Malformed(what) => Failed(Refused("Invalid JSON: " + what))
    case Parsed(root) => LoadRoot(root)
  }

  function EncodeMessage(m: Message): Json
  {
    Object([Member("content", Str(m.content)), Member("reasoning", Str(m.reasoning)),
            Member("role", Str(m.role))])
  }

  /** Values written in order with encode. */
  function EncodeEach<T>(encode: T -> Json, xs: seq<T>): (js: seq<Json>)
    ensures |js| == |xs|
  {
    if xs == [] then [] else EncodeEach(encode, xs[..|xs| - 1]) + [encode(xs[|xs| - 1])]
  }

  function EncodeAgent(x: AgentState): Json
  {
    Object([Member("memory", Array(EncodeEach(EncodeMessage, x.memory))), Member("name", Str(x.name)),
            Member("system_prompt", Str(x.systemPrompt))])
  }

  /** Lookup in an object of three members. */
  lemma Lookup3(a: Member, b: Member, c: Member, key: string)
    ensures Lookup([a, b, c], key)
         == if a.key == key then Some(a.value)
            else if b.key == key then Some(b.value)
            else if c.key == key then Some(c.value)
            else None
  {
    assert [a, b, c][1..] == [b, c];
    assert [b, c][1..] == [c];
    assert [c][1..] == [];
    assert Lookup([c], key) == if c.key == key then Some(c.value) else None;
    assert Lookup([b, c], key) == if b.key == key then Some(b.value) else Lookup([c], key);
  }

  /** A saved message loads back as itself. */
  lemma MessageRoundTrip(m: Message)
    ensures DecodeMessage(EncodeMessage(m)) == Loaded(m)
  {
    var a, b, c := Member("content", Str(m.content)), Member("reasoning", Str(m.reasoning)),
      Member("role", Str(m.role));
    Lookup3(a, b, c, "role");
    Lookup3(a, b, c, "content");
    Lookup3(a, b, c, "reasoning");
  }

  /** Encoding a sequence element by element and decoding it back gives the sequence, when
      every element does. */
  lemma {:induction false} EachRoundTrip<T>(decode: Json -> Loaded<T>, encode: T -> Json, xs: seq<T>)
    requires forall x :: decode(encode(x)) == Loaded(x)
    ensures DecodeEach(decode, EncodeEach(encode, xs)) == Loaded(xs)
  {
    if xs != [] {
      var js := EncodeEach(encode, xs);
      assert js[..|js| - 1] == EncodeEach(encode, xs[..|xs| - 1]);
      EachRoundTrip(decode, encode, xs[..|xs| - 1]);
      assert xs[..|xs| - 1] + [xs[|xs| - 1]] == xs;
    }
  }

  lemma MessagesRoundTrip(ms: seq<Message>)
    ensures DecodeEach(DecodeMessage, EncodeEach(EncodeMessage, ms)) == Loaded(ms)
  {
    forall m: Message
      ensures DecodeMessage(EncodeMessage(m)) == Loaded(m)
    {
      MessageRoundTrip(m);
    }
    EachRoundTrip(DecodeMessage, EncodeMessage, ms);
  }

  /** A saved agent loads back as itself. */
  lemma AgentRoundTrip(x: AgentState)
    ensures DecodeAgent(EncodeAgent(x)) == Loaded(x)
  {
    var a, b, c := Member("memory", Array(EncodeEach(EncodeMessage, x.memory))), Member("name", Str(x.name)),
      Member("system_prompt", Str(x.systemPrompt));
    Lookup3(a, b, c, "name");
    Lookup3(a, b, c, "system_prompt");
    Lookup3(a, b, c, "memory");
    MessagesRoundTrip(x.memory);
  }

  lemma AgentsRoundTrip(xs: seq<AgentState>)
    ensures DecodeEach(DecodeAgent, EncodeEach(EncodeAgent, xs)) == Loaded(xs)
  {
    forall x: AgentState
      ensures DecodeAgent(EncodeAgent(x)) == Loaded(x)
    {
      AgentRoundTrip(x);
    }
    EachRoundTrip(DecodeAgent, EncodeAgent, xs);
  }

  /** What SaveAgents writes is what LoadAgents reads back. */
  lemma SaveLoadRoundTrip(xs: seq<AgentState>, path: string)
    ensures Load(path, Parsed(Array(EncodeEach(EncodeAgent, xs)))) == Loaded(xs)
  {
    AgentsRoundTrip(xs);
  }

  /** A field missing from an object takes its default, whatever the other fields hold: an
      empty string, and for "memory" an empty memory. So an agent without memory loads with
      the name and system prompt it has, and a message without reasoning with the role and
      content it has. */
  lemma MissingFieldsDefault(ms: seq<Member>, key: string)
    requires forall i :: 0 <= i < |ms| ==> ms[i].key != key
    ensures StringField(Object(ms), key) == Loaded("")
    ensures key == "memory" ==> Elements(MemoryField(Object(ms))) == []
    ensures var name, prompt := StringField(Object(ms), "name"), StringField(Object(ms), "system_prompt");
      key == "memory" && name.Loaded? && prompt.Loaded? ==>
        DecodeAgent(Object(ms)) == Loaded(AgentState(name.value, prompt.value, []))
    ensures var role, content := StringField(Object(ms), "role"), StringField(Object(ms), "content");
      key == "reasoning" && role.Loaded? && content.Loaded? ==>
        DecodeMessage(Object(ms)) == Loaded(Message(role.value, content.value, ""))
    ensures DecodeMessage(Object([])) == Loaded(Message("", "", ""))
    ensures DecodeAgent(Object([])) == Loaded(AgentState("", "", []))
  {
    assert Lookup(ms, key) == None;
    if key == "memory" {
      assert MemoryField(Object(ms)) == Array([]);
      assert DecodeEach(DecodeMessage, []) == Loaded([]);
    }
  }

  /** A null memory is empty. */
  lemma NullMemoryIsEmpty(name: string)
    ensures DecodeAgent(Object([Member("memory", Null), Member("name", Str(name))]))
         == Loaded(AgentState(name, "", []))
  {
    var members := [Member("memory", Null), Member("name", Str(name))];
    assert members[1..] == [members[1]] && members[1..][1..] == [];
    assert Lookup(members, "name") == Some(Str(name));
    assert Lookup(members, "system_prompt") == None;
    assert Lookup(members, "memory") == Some(Null);
    assert DecodeEach(DecodeMessage, []) == Loaded([]);
  }

  /** An object memory contributes its values, in key order. */
  lemma ObjectMemoryValues(m: Message)
    ensures DecodeAgent(Object([Member("memory", Object([Member("first", EncodeMessage(m))]))]))
         == Loaded(AgentState("", "", [m]))
  {
    var memory := Object([Member("first", EncodeMessage(m))]);
    var members := [Member("memory", memory)];
    assert members[1..] == [];
    assert Lookup(members, "name") == None;
    assert Lookup(members, "system_prompt") == None;
    assert MemoryField(Object(members)) == memory;
    assert Elements(memory) == [EncodeMessage(m)];
    assert EncodeEach(EncodeMessage, [m]) == [EncodeMessage(m)] by {
      assert [m][..0] == [];
    }
    MessagesRoundTrip([m]);
  }

  /** Every element of the root array must be an object, and every field that is present
      must be a string: anything else is a type error from the library. */
  lemma TypeErrors(j: Json, v: Json)
    requires !j.Object? && !v.Str?
    ensures DecodeAgent(j) == Failed(TypeError(306, "cannot use value() with " + TypeName(j)))
    ensures DecodeAgent(Object([Member("name", v)]))
         == Failed(TypeError(302, "type must be string, but is " + TypeName(v)))
  {
  }

  /** A memory that is a string is visited once, as itself, and fails as a message. */
  lemma StringMemoryFails(s: string)
    ensures DecodeAgent(Object([Member("memory", Str(s))]))
         == Failed(TypeError(306, "cannot use value() with string"))
  {
    var members := [Member("memory", Str(s))];
    assert members[1..] == [];
    assert Lookup(members, "name") == None;
    assert Lookup(members, "system_prompt") == None;
    assert Lookup(members, "memory") == Some(Str(s));
    assert Elements(Str(s)) == [Str(s)];
    assert [Str(s)][..0] == [];
    var e := TypeError(306, "cannot use value() with string");
    assert "cannot use value() with " + TypeName(Str(s)) == e.message;
    assert DecodeMessage(Str(s)) == Failed(e);
    assert DecodeEach(DecodeMessage, [Str(s)]) == Failed(e);
    assert MemoryField(Object(members)) == Str(s);
  }

  /** The states of a sequence of agents, in order. */
  ghost function States(agents: seq<Agent>): (xs: seq<AgentState>)
    reads agents
    ensures |xs| == |agents| && forall i :: 0 <= i < |agents| ==> xs[i] == agents[i].State()
  {
    if agents == [] then [] else States(agents[..|agents| - 1]) + [agents[|agents| - 1].State()]
  }

  /** How writing goes: the file cannot be opened, the write fails, or it succeeds. */
  datatype Sink = Unwritable | WriteFails | Writable

  /** The outcome of saving values to path: the document written, or the error reported. */
  function Save(xs: seq<AgentState>, path: string, sink: Sink): Result<Json>
  {
    match sink
    case Unwritable => Err("Failed to open file for write: " + path)
    case WriteFails => Err("Failed to write file: " + path)
    case Writable => Ok(Array(EncodeEach(EncodeAgent, xs)))
  }

  /** The object SaveAgents builds for one agent, its memory array filled message by message. */
  method AgentJson(agent: Agent) returns (j: Json)
    ensures j == EncodeAgent(agent.State())
  {
    var memory: seq<Json> := [];
    for i := 0 to |agent.memory|
      invariant memory == EncodeEach(EncodeMessage, agent.memory[..i])
    {
      assert agent.memory[..i + 1][..i] == agent.memory[..i];
      var msg := agent.memory[i];
      memory := memory + [Object([Member("content", Str(msg.content)),
                                  Member("reasoning", Str(msg.reasoning)),
                                  Member("role", Str(msg.role))])];
    }
    assert agent.memory[..|agent.memory|] == agent.memory;
    j := Object([Member("memory", Array(memory)), Member("name", Str(agent.name)),
                 Member("system_prompt", Str(agent.systemPrompt))]);
  }

  /** The loop of SaveAgents: one object per agent, in order. */
  method AgentsJson(agents: seq<Agent>) returns (root: seq<Json>)
    ensures root == EncodeEach(EncodeAgent, States(agents))
  {
    ghost var xs := States(agents);
    root := [];
    for i := 0 to |agents|
      invariant root == EncodeEach(EncodeAgent, xs[..i])
    {
      assert xs[..i + 1][..i] == xs[..i];
      var a := AgentJson(agents[i]);
      root := root + [a];
    }
    assert xs[..|agents|] == xs;
  }

  /** SaveAgents: the root array built agent by agent, then written through sink; Ok
      carries the document that was written. */
  method SaveAgents(agents: seq<Agent>, path: string, sink: Sink) returns (r: Result<Json>)
    ensures r == Save(States(agents), path, sink)
  {
    var root := AgentsJson(agents);
    if sink == Unwritable {
      return Err("Failed to open file for write: " + path);
    }
    if sink == WriteFails {
      return Err("Failed to write file: " + path);
    }
    return Ok(Array(root));
  }

  /** The vector LoadAgents fills. */
  class Roster {
    var agents: seq<Agent>

    constructor (agents: seq<Agent>)
      ensures this.agents == agents
    {
      this.agents := agents;
    }
  }

  /** One element of the root array read into an agent value, its memory message by message. */
  method ReadAgent(a: Json) returns (r: Loaded<AgentState>)
    ensures r == DecodeAgent(a)
  {
    var name := StringField(a, "name");
    if name.Failed? {
      return Failed(name.error);
    }
    var systemPrompt := StringField(a, "system_prompt");
    if systemPrompt.Failed? {
      return Failed(systemPrompt.error);
    }
    var elements := Elements(MemoryField(a));
    var memory: seq<Message> := [];
    for i := 0 to |elements|
      invariant DecodeEach(DecodeMessage, elements[..i]) == Loaded(memory)
    {
      assert elements[..i + 1][..i] == elements[..i];
      var m := DecodeMessage(elements[i]);
      if m.Failed? {
        assert DecodeEach(DecodeMessage, elements[..i + 1]) == Failed(m.error);
        FailurePropagates(DecodeMessage, elements, i + 1, m.error);
        return Failed(m.error);
      }
      memory := memory + [m.value];
    }
    assert elements[..|elements|] == elements;
    return Loaded(AgentState(name.value, systemPrompt.value, memory));
  }

  /** A failure among the first k elements is the failure of the whole sequence. */
  lemma {:induction false} FailurePropagates<T>(decode: Json -> Loaded<T>, js: seq<Json>, k: nat, e: LoadError)
    requires k <= |js| && DecodeEach(decode, js[..k]) == Failed(e)
    ensures DecodeEach(decode, js) == Failed(e)
    decreases |js| - k
  {
    if k < |js| {
      assert js[..k + 1][..k] == js[..k];
      FailurePropagates(decode, js, k + 1, e);
    } else {
      assert js[..k] == js;
    }
  }

  /** The states of agents followed by one more. */
  lemma StatesAppend(agents: seq<Agent>, a: Agent)
    ensures States(agents + [a]) == States(agents) + [a.State()]
  {
    assert (agents + [a])[..|agents|] == agents;
  }

  /** The loop of LoadAgents over the root array: a fresh agent per element, or the first
      failure. */
  method ReadAgents(items: seq<Json>) returns (failure: Option<LoadError>, loaded: seq<Agent>)
    ensures failure.None? <==> DecodeEach(DecodeAgent, items).Loaded?
    ensures failure.Some? ==> DecodeEach(DecodeAgent, items) == Failed(failure.value)
    ensures failure.None? ==> States(loaded) == DecodeEach(DecodeAgent, items).value
    ensures forall k :: 0 <= k < |loaded| ==> fresh(loaded[k])
  {
    loaded := [];
    for i := 0 to |items|
      invariant DecodeEach(DecodeAgent, items[..i]).Loaded?
      invariant States(loaded) == DecodeEach(DecodeAgent, items[..i]).value
      invariant forall k :: 0 <= k < |loaded| ==> fresh(loaded[k])
    {
      assert items[..i + 1][..i] == items[..i];
      var x := ReadAgent(items[i]);
      if x.Failed? {
        FailurePropagates(DecodeAgent, items, i + 1, x.error);
        return Some(x.error), loaded;
      }
      var agent := new Agent(x.value.name, x.value.systemPrompt, x.value.memory);
      StatesAppend(loaded, agent);
      loaded := loaded + [agent];
    }
    assert items[..|items|] == items;
    return None, loaded;
  }

  /** LoadAgents: the loaded agents replace the roster's only when every step succeeds; on
      any failure, a refusal or an escaping type error, the roster keeps its agents. */
  method LoadAgents(roster: Roster?, path: string, source: Source) returns (error: Option<LoadError>)
    modifies roster
    ensures roster == null ==> error == Some(Refused("Agents output pointer is null."))
    ensures roster != null ==>
      var r := Load(path, source);
      && (error.None? <==> r.Loaded?)
      && (r.Failed? ==> error == Some(r.error) && roster.agents == old(roster.agents))
      && (r.Loaded? ==> States(roster.agents) == r.value
                        && forall i :: 0 <= i < |roster.agents| ==> fresh(roster.agents[i]))
  {
    if roster == null {
      return Some(Refused("Agents output pointer is null."));
    }
    if source.Unreadable? {
      return Some(Refused("Failed to open file for read: " + path));
    }
    if source.Malformed? {
      return Some(Refused("Invalid JSON: " + source.what));
    }
    var root := source.root;
    if !root.Array? {
      return Some(Refused("Invalid JSON: root is not an array."));
    }
    var failure, loaded := ReadAgents(root.items);
    if failure.Some? {
      return failure;
    }
    roster.agents := loaded;
    return None;
  }
}
