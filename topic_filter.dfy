/** The topic admission of the command-line program (src/main.cpp): the case-blind keyword
    filter used in local mode, the remote gate used otherwise, and the debate that runs once
    a topic is admitted. */
module TopicFilter {
  import opened Outcomes
  import opened CType
  import opened Chat
  import opened Gate
  import opened AgentRuntime

  /** The rule the program gives its logic gate. */
  const TopicRule := "Allow only software engineering topics."
  const Rejected := "Gate rejected the topic."
  const EvaluationFailed := "Gate evaluation failed: "

  /** token occurs in text at position k, comparing characters after std::tolower. */
  predicate MatchesAt(text: string, token: string, k: nat)
  {
    k + |token| <= |text| && forall j :: 0 <= j < |token| ==> ToLower(text[k + j]) == ToLower(token[j])
  }

  /** std::search with a case-folding comparison, from position i: the first position at
      which token matches, or |text| when there is none. An empty token matches at once. */
  function SearchFrom(text: string, token: string, i: nat): (k: nat)
    requires i <= |text|
    ensures i <= k <= |text|
    ensures k < |text| ==> MatchesAt(text, token, k)
    ensures forall m :: i <= m < k ==> !MatchesAt(text, token, m)
    decreases |text| - i
  {
    if i + |token| > |text| then |text|
    else if MatchesAt(text, token, i) then i
    else SearchFrom(text, token, i + 1)
  }

  /** ContainsToken: whether the search stopped before the end of text. */
  function ContainsToken(text: string, token: string): bool
  {
    SearchFrom(text, token, 0) != |text|
  }

  /** A non-empty token is contained exactly when it occurs somewhere, ignoring ASCII case;
      the empty token is contained in every text except the empty one. */
  lemma ContainsTokenIff(text: string, token: string)
    ensures token != [] ==> (ContainsToken(text, token) <==> exists k: nat :: MatchesAt(text, token, k))
    ensures token == [] ==> (ContainsToken(text, token) <==> text != [])
  {
    var k := SearchFrom(text, token, 0);
    if token == [] && text != [] {
      assert MatchesAt(text, token, 0);
    }
    if token != [] && k == |text| {
      forall m: nat | m >= |text|
        ensures !MatchesAt(text, token, m)
      {
      }
    }
  }

  /** A topic is an engineering topic when it mentions one of four keywords, in any case. */
  function IsEngineeringTopic(text: string): bool
  {
    ContainsToken(text, "c++") || ContainsToken(text, "software")
    || ContainsToken(text, "agent") || ContainsToken(text, "program")
  }

  /** The keywords, spelled out. */
  ghost predicate MentionsKeyword(text: string)
  {
    exists k: nat :: MatchesAt(text, "c++", k) || MatchesAt(text, "software", k)
             || MatchesAt(text, "agent", k) || MatchesAt(text, "program", k)
  }

  /** The filter admits exactly the texts that mention a keyword. */
  lemma EngineeringIff(text: string)
    ensures IsEngineeringTopic(text) <==> MentionsKeyword(text)
  {
    ContainsTokenIff(text, "c++");
    ContainsTokenIff(text, "software");
    ContainsTokenIff(text, "agent");
    ContainsTokenIff(text, "program");
  }

  /** Adding text around an admitted topic keeps it admitted. */
  lemma EngineeringExtends(a: string, text: string, b: string)
    requires IsEngineeringTopic(text)
    ensures IsEngineeringTopic(a + text + b)
  {
    EngineeringIff(text);
    var k: nat :| MatchesAt(text, "c++", k) || MatchesAt(text, "software", k)
           || MatchesAt(text, "agent", k) || MatchesAt(text, "program", k);
    var t := a + text + b;
    forall token: string | MatchesAt(text, token, k)
      ensures MatchesAt(t, token, |a| + k)
    {
      forall j | 0 <= j < |token|
        ensures ToLower(t[|a| + k + j]) == ToLower(token[j])
      {
        assert t[|a| + k + j] == text[k + j];
      }
    }
    EngineeringIff(t);
  }

  /** The filter does not see ASCII case: texts equal up to case are treated alike. */
  lemma ContainsTokenIgnoresCase(a: string, b: string, token: string)
    requires |a| == |b| && forall k :: 0 <= k < |a| ==> ToLower(a[k]) == ToLower(b[k])
    ensures ContainsToken(a, token) == ContainsToken(b, token)
  {
    forall m: nat
      ensures MatchesAt(a, token, m) <==> MatchesAt(b, token, m)
    {
    }
    ContainsTokenIff(a, token);
    ContainsTokenIff(b, token);
  }

  /** The empty topic is rejected. */
  lemma EmptyTopicRejected()
    ensures !IsEngineeringTopic("")
  {
  }

  /** Case does not matter, and a keyword inside a longer word counts. */
  lemma KeywordExamples()
    ensures IsEngineeringTopic("C++ memory models")
    ensures IsEngineeringTopic("Programming")
    ensures IsEngineeringTopic("reagent")
  {
    assert MatchesAt("C++ memory models", "c++", 0);
    assert MatchesAt("Programming", "program", 0);
    assert MatchesAt("reagent", "agent", 2);
    EngineeringIff("C++ memory models");
    EngineeringIff("Programming");
    EngineeringIff("reagent");
  }

  /** A topic without a keyword is rejected. */
  lemma PoetryRejected()
    ensures !IsEngineeringTopic("Poetry")
  {
    var t := "Poetry";
    forall j | 1 <= j < 5
      ensures ToLower(t[j]) != ToLower("c++"[1])
    {
      assert t[j] in "oetr";
    }
    forall k: nat | k + 5 <= |t|
      ensures ToLower(t[k]) != ToLower("agent"[0])
    {
      assert t[k] in "Po";
    }
    EngineeringIff("Poetry");
  }

  /** How a topic run ends: refused with the message printed, or debated. */
  datatype TopicRun = Refused(message: string) | Debated(results: Result<seq<AgentResult>>)

  /** The admission decision for a topic: in local mode the keyword filter, otherwise the
      gate's verdict on one blocking call, or the reason the gate could not decide. */
  function Admission(backend: ChatBackend, h: seq<Call>, topic: string, localOnly: bool): Result<bool>
  {
    if localOnly then Ok(IsEngineeringTopic(topic))
    else
      match backend.Answer(h, GateRequest(TopicRule, topic), false)
      case Err(e) => Err(e)
      case Ok(response) =>
        match Decision(response.content)
        case None => Err(NotYesNo)
        case Some(allow) => Ok(allow)
  }

  /** The calls the admission makes: none in local mode, one blocking gate call otherwise. */
  function AdmissionCalls(topic: string, localOnly: bool): seq<Call>
  {
    if localOnly then [] else [Call(GateRequest(TopicRule, topic), false)]
  }

  /** The number of calls a debate of the given rounds among n agents makes at most. */
  function CallCount(rounds: int, n: nat): nat
  {
    if rounds > 0 then rounds * n else 0
  }

  /** The admission half of run_topic: the keyword filter in local mode, otherwise one
      blocking evaluation by a gate with the program's rule. */
  method Admit(backend: ChatBackend, topic: string, localOnly: bool) returns (admission: Result<bool>)
    modifies backend
    ensures admission == Admission(backend, old(backend.log), topic, localOnly)
    ensures backend.log == old(backend.log) + AdmissionCalls(topic, localOnly)
  {
    if localOnly {
      return Ok(IsEngineeringTopic(topic));
    }
    var gate := new LogicGate(TopicRule);
    var verdict := gate.Evaluate(backend, topic, false);
    if verdict.Err? {
      return Err(verdict.error);
    }
    return Ok(verdict.value.allow);
  }

  /** run_topic up to the summary: admit the topic, then run the debate. A topic refused by
      either gate, or a gate that fails, leaves every agent's memory as it was and makes no
      call beyond the gate's own. */
  method RunTopic(backend: ChatBackend, agents: seq<Agent>, topic: string, localOnly: bool,
                  rounds: int, stream: bool)
    returns (run: TopicRun, ghost memory0: seq<seq<Message>>)
    requires Distinct(agents)
    modifies backend, agents
    ensures |memory0| == |agents| && forall i :: 0 <= i < |agents| ==> memory0[i] == old(agents[i].memory)
    ensures var admission := Admission(backend, old(backend.log), topic, localOnly);
      && (admission.Err? ==> run == Refused(EvaluationFailed + admission.error))
      && (admission == Ok(false) ==> run == Refused(Rejected))
      && (admission == Ok(true) <==> run.Debated?)
    ensures run.Refused? ==>
      && backend.log == old(backend.log) + AdmissionCalls(topic, localOnly)
      && forall i :: 0 <= i < |agents| ==> agents[i].memory == memory0[i]
    ensures run.Debated? && (rounds <= 0 || agents == []) ==>
      && run.results == Ok([])
      && backend.log == old(backend.log) + AdmissionCalls(topic, localOnly)
      && forall i :: 0 <= i < |agents| ==> agents[i].memory == memory0[i]
    ensures run.Debated? && rounds > 0 && agents != [] ==>
      var h := old(backend.log) + AdmissionCalls(topic, localOnly);
      var p := Debate(StepOf(Setup(backend, agents, topic, stream, h)), memory0, CallCount(rounds, |agents|));
      && backend.log == h + p.calls
      && (run.results.Ok? <==> p.failure.None?)
      && (run.results.Ok? ==> run.results.value == p.results)
      && forall i :: 0 <= i < |agents| ==> agents[i].memory == memory0[i] + Turns(p.results, |agents|, i)
  {
    memory0 := Memories(agents);
    var admission := Admit(backend, topic, localOnly);
    if admission.Err? {
      return Refused(EvaluationFailed + admission.error), memory0;
    }
    if !admission.value {
      return Refused(Rejected), memory0;
    }
    var results, memory1 := RunDebateRounds(backend, agents, topic, rounds, stream);
    assert memory1 == memory0;
    return Debated(results), memory0;
  }
}
