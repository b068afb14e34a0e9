# CppDeepSeekAgents core, modelled in Dafny

CppDeepSeekAgents is a command-line harness in which agents debate a topic against one
chat backend. The backend is either a local llama.cpp model or a remote chat API. Before a
debate starts, a "logic gate" decides whether the topic is admissible. This project models
the deterministic core of that program and proves what it promises.

- **Chat** (`chat.dfy`): messages, responses, the deltas a stream pushes, and the backend
  itself.
  - The backend is a class with a blocking `Chat` and a push-based `Stream` operation.
  - Each operation answers through a fixed oracle: a function of the calls made before it
    and of the request.
  - Every call is appended to a `log`.
  - `Collect` is the sink loop that accumulates reasoning and content.
- **Gate** (`gate.dfy`, src/LogicGate.cpp): the gate prompt, the YES/NO parser
  (`ParseDecision`, proved against the reference function `Decision`), and
  `LogicGate.Evaluate`.
- **AgentRuntime** (`agent_runtime.dfy`, src/AgentRuntime.cpp): `Agent` objects with a
  mutable memory, `BuildPrompt`, `RunAgent` and `RunDebateRounds`.
  - The debate loops are proved equal to a reference debate, `Debate`: a sequence of steps
    in which agent `k mod n` makes call `k`.
  - Lemmas about that reference state which request each call sends, what each agent
    remembers, how many turns it takes, and where a failure stops the debate.
- **AgentSnapshot** (`agent_snapshot.dfy`, src/AgentRuntime.cpp): `SaveAgents` and
  `LoadAgents` as a mapping between agents and a JSON value.
  - Missing fields, nulls, objects used as arrays, and the library's type errors are all
    modelled.
  - What is saved loads back as itself.
- **Llama** (`llama_backend.dfy`, src/LlamaBackend.cpp): the role-tagged prompt, and the
  chat and stream operations of the local backend.
  - Generation is an abstract function.
  - The stream emits the generated text in 16-character chunks.
- **Cli** (`cli_options.dfy`, src/CliOptions.cpp, include/CliOptions.hpp): the options
  record and its defaults, a model of `std::stoi` in base 10, the reference scan `Scan`,
  and the loop `ParseCli` proved equal to it.
- **TopicFilter** (`topic_filter.dfy`, src/main.cpp): `ContainsToken` (a case-blind
  `std::search`), `IsEngineeringTopic`, and the admission-then-debate slice of
  `run_topic`.
- **Outcomes** and **CType**: `Option`/`Result`, and the `<cctype>` functions the code uses,
  restricted to ASCII (`isspace`, `isalpha`, `isdigit`, `toupper`, `tolower`).

Some conventions hold across the model:
- Text is `seq<char>`, one character per byte of a `std::string`.
- A failure that the source reports through `error_out`, or through an exception the
  caller catches, is a `Result`/`Option` error carrying the source's message text verbatim.

Some behaviours of the code are easy to misread. The model follows the code:
- `ParseDecision("Maybe not")` gives no decision, not `false`. The "NO" at position 6 is
  followed by the letter "T", so it does not stand alone (`Gate.UndecidedMaybeNot`).
- The fallback of `ParseDecision` looks only at the first occurrence of "YES" and the first
  occurrence of "NO". A later standalone match is never seen: "YESS YES" is undecided
  (`Gate.UndecidedLaterYes`).
- `ContainsToken` with an empty token is true for every non-empty text, because
  `std::search` finds the empty sequence at the start.
- The keyword filter matches substrings, so "reagent" is an engineering topic
  (`TopicFilter.KeywordExamples`).

## Model

| member | source | states |
|---|---|---|
| Chat.OfAppend | src/AgentRuntime.cpp:46-47 | Concatenating content and reasoning fragments distributes over any split of the delta stream. |
| Chat.Collect | src/AgentRuntime.cpp:30-48 | The sink loop leaves exactly the in-order concatenation of all reasoning fragments, and of all content fragments. |
| Gate.GatePrompt | src/LogicGate.cpp:9-16 | The gate's user message: the "Rule: " line, the "Input: " line and the answer instruction. It has no contract of its own; GatePromptIsFramed and GatePromptRoundTrip state its shape and that rule and input can be read back. |
| Gate.GatePromptRoundTrip | src/LogicGate.cpp:9-16 | The gate prompt carries rule and input verbatim: for a rule without line breaks, both are read back exactly, so different (rule, input) pairs give different prompts. |
| Gate.FindFrom | src/LogicGate.cpp:49-52 | `find` gives the first occurrence at or after the start, with none before it, and nothing only when there is no occurrence at all. |
| Gate.ParseDecision | src/LogicGate.cpp:18-55 | For every string, the two scanning loops and the fallback search reach exactly the reference decision. |
| Gate.ScanIsFirstWord | src/LogicGate.cpp:27-34 | The whitespace loop and the letter loop stop exactly around the first word. |
| Gate.LeadingWordDecides | src/LogicGate.cpp:35-39 | A leading YES or NO in any case, after whitespace and before a non-letter or the end, decides regardless of what follows. |
| Gate.DecisionTrueHasYesWord | src/LogicGate.cpp:35-50 | A true decision implies that the upper-cased text holds YES as a standalone word. |
| Gate.DecisionFalseHasNoWord | src/LogicGate.cpp:35-52 | A false decision implies that the upper-cased text holds NO as a standalone word. |
| Gate.FirstWordStandsAlone | src/LogicGate.cpp:27-36 | The upper-cased first word occurs in the upper-cased text with a boundary or a non-letter on each side. |
| Gate.FirstWordYesExample | src/LogicGate.cpp:37 | "yes please" is true. |
| Gate.FirstWordNoExample | src/LogicGate.cpp:38 | "  No." is false. |
| Gate.FirstWordWinsExample | src/LogicGate.cpp:35-39 | In "no, yes" the first word wins: false. |
| Gate.UndecidedYesNo | src/LogicGate.cpp:43-54 | "YESNO" has no decision: neither first occurrence stands alone. |
| Gate.UndecidedNope | src/LogicGate.cpp:51-54 | "Nope" has no decision. |
| Gate.UndecidedMaybeNot | src/LogicGate.cpp:51-54 | "Maybe not" has no decision: its NO is followed by a letter. |
| Gate.UndecidedLaterYes | src/LogicGate.cpp:49-50 | "YESS YES" has no decision: only the first YES is examined. |
| Gate.LogicGate.constructor | src/LogicGate.cpp:59 | The gate keeps the rule it was given. |
| Gate.LogicGate.Evaluate | src/LogicGate.cpp:61-104 | Makes exactly one logged call (stream or chat) with the gate prompt and system prompt. A backend failure gives the backend's error; an answer without YES/NO gives "Gate did not return YES/NO."; otherwise the decision comes with the raw content and reasoning. Allowing implies a standalone YES; denying implies a standalone NO. |
| AgentRuntime.BuildPrompt | src/AgentRuntime.cpp:12-16 | The outgoing messages are the whole memory, in order, followed by the input as a user turn with empty reasoning. |
| AgentRuntime.RunAgent | src/AgentRuntime.cpp:18-66 | Makes one logged call with the memory plus the input. On success it returns the agent's name and the answer (accumulated from the deltas when streaming), and memory gains exactly that assistant turn. On failure memory is untouched and the error is "Stream error (name): reason" or "Request error (name): reason". |
| AgentRuntime.SlotIsMod | src/AgentRuntime.cpp:104-110 | In the debate, call k goes to agent k mod n. |
| AgentRuntime.TurnsCount | src/AgentRuntime.cpp:104-110 | After r full rounds and j more calls, agent i has gained r turns, plus one if i < j. |
| AgentRuntime.RoundsCount | src/AgentRuntime.cpp:104-111 | After `rounds` full rounds every agent has gained exactly `rounds` turns. |
| AgentRuntime.TurnsAreAssistant | src/AgentRuntime.cpp:64 | Every turn an agent gains in a debate is an assistant turn. |
| AgentRuntime.DebateCounts | src/AgentRuntime.cpp:104-111 | A debate without failure made exactly `count` calls, one result each; a failed debate made one call more than it has results. |
| AgentRuntime.DebateStops | src/AgentRuntime.cpp:51-59 | After a failed call the debate makes no further call. |
| AgentRuntime.DebateExtends | src/AgentRuntime.cpp:104-111 | A longer debate extends a shorter one: its results and calls start with theirs. |
| AgentRuntime.DebatePrefix | src/AgentRuntime.cpp:104-111 | The first k results and calls of a debate are those of the debate stopped after k calls, which had not failed. |
| AgentRuntime.DebateMemories | src/AgentRuntime.cpp:105-109 | Throughout a debate, each agent's memory is its starting memory followed by the assistant turns of the results it produced. |
| AgentRuntime.DebateCall | src/AgentRuntime.cpp:103-110 | Result k came from agent k mod n. Its request was that agent's starting memory, its turns so far, and the previous result's content (the topic for the first call) as a user turn. The backend answered with the result's response. |
| AgentRuntime.DebateFailure | src/AgentRuntime.cpp:51-59 | A failed debate stopped at the call after its last result: the request of the agent whose turn it was, answered with an error and reported with that agent's name. |
| AgentRuntime.DebateOpens | src/AgentRuntime.cpp:103-106 | The first call is the first agent's memory followed by the topic. |
| AgentRuntime.DebateTurn | src/AgentRuntime.cpp:105-109 | One iteration of the inner loop is one step of the reference debate: a result appended and the prompt passed on, or a stop with the error. |
| AgentRuntime.DebateRound | src/AgentRuntime.cpp:105-110 | One round is n steps of the reference debate, or ends early at the first failed call. |
| AgentRuntime.DebateRounds | src/AgentRuntime.cpp:104-111 | The nested loops are the reference debate over rounds * n calls. |
| AgentRuntime.RunDebateRounds | src/AgentRuntime.cpp:92-113 | With no rounds or no agents: no call, and an empty result. Otherwise: the log gains the reference debate's calls; success returns its results in production order; failure returns its error; every agent's memory is its old memory followed by its own turns. On success each agent gained exactly `rounds` turns. |
| AgentSnapshot.Lookup | src/AgentRuntime.cpp:186-192 | A key is found exactly when some member has it, and the value found is that of the first member with the key. |
| AgentSnapshot.StringField | src/AgentRuntime.cpp:186-192 | `value(key, "")`: type error 306 on a value that is not an object, "" for an absent key, the string for a string, and type error 302 otherwise. It has no contract of its own; MissingFieldsDefault and TypeErrors state its cases. |
| AgentSnapshot.Elements | src/AgentRuntime.cpp:188 | What the range-for over the memory visits: an array's items, an object's values in key order, nothing for null, and any other value once, as itself. It has no contract of its own; NullMemoryIsEmpty, ObjectMemoryValues and StringMemoryFails state its cases. |
| AgentSnapshot.MessageRoundTrip | src/AgentRuntime.cpp:124-127 | A saved message loads back as itself. |
| AgentSnapshot.AgentRoundTrip | src/AgentRuntime.cpp:119-129 | A saved agent loads back as itself. |
| AgentSnapshot.SaveLoadRoundTrip | src/AgentRuntime.cpp:183-198 | The document SaveAgents writes loads back as the same agents, in order. |
| AgentSnapshot.MissingFieldsDefault | src/AgentRuntime.cpp:186-192 | A field missing from any object reads as the empty string, whatever the other fields hold. An agent without memory loads with its own name and system prompt and an empty memory. A message without reasoning loads with its own role and content. |
| AgentSnapshot.NullMemoryIsEmpty | src/AgentRuntime.cpp:188 | A null memory gives no messages. |
| AgentSnapshot.ObjectMemoryValues | src/AgentRuntime.cpp:188 | An object used as the memory contributes its values as messages. |
| AgentSnapshot.TypeErrors | src/AgentRuntime.cpp:186-187 | A root element that is not an object fails with type error 306; a name that is not a string fails with type error 302. |
| AgentSnapshot.StringMemoryFails | src/AgentRuntime.cpp:188-190 | A string memory is visited once, as itself, and fails with type error 306. |
| AgentSnapshot.AgentJson | src/AgentRuntime.cpp:120-128 | The object built for one agent is its encoding: memory array, name and system prompt. |
| AgentSnapshot.AgentsJson | src/AgentRuntime.cpp:118-130 | The root array holds one encoded agent per agent, in order. |
| AgentSnapshot.SaveAgents | src/AgentRuntime.cpp:115-147 | Fails with "Failed to open file for write: path" or "Failed to write file: path"; otherwise writes the encoded agents. |
| AgentSnapshot.ReadAgent | src/AgentRuntime.cpp:185-195 | Reading one element gives exactly the reference decoding, including the first failing field. |
| AgentSnapshot.ReadAgents | src/AgentRuntime.cpp:183-196 | Either every element decodes and fresh agents hold the decoded states, or the first failure is reported. |
| AgentSnapshot.LoadAgents | src/AgentRuntime.cpp:149-200 | A null roster is refused. An unreadable file, a parse error, a non-array root or an element that fails leaves the roster unchanged and reports the source's message. Success replaces the roster with fresh agents holding the decoded states. |
| Llama.BuildPrompt | src/LlamaBackend.cpp:14-31 | The buffer built message by message equals the reference prompt: a system line, one tagged line per message, and the open assistant tag. |
| Llama.LinesAppend | src/LlamaBackend.cpp:20-28 | Rendering a history distributes over concatenating histories. |
| Llama.PromptIgnoresReasoning | src/LlamaBackend.cpp:19-29 | Requests that differ only in reasoning get the same prompt. |
| Llama.SystemMessagesArePlain | src/LlamaBackend.cpp:25-26 | A "system" role is rendered as a plain "Message: " line. |
| Llama.ChunkedShape | src/LlamaBackend.cpp:146-149 | The stream emits ceil(n/16) deltas. Each has empty reasoning and 1 to 16 characters of content; all but the last have 16. |
| Llama.ChunkedReassembles | src/LlamaBackend.cpp:146-149 | The chunks put back together are the generated text, with no reasoning. |
| Llama.StreamChunks | src/LlamaBackend.cpp:146-149 | The chunk loop emits exactly the reference chunks. |
| Llama.ChatLambda | src/LlamaBackend.cpp:132-139 | Unless Generate throws, chat succeeds, with the generated text for the prompt and 256 tokens, and no reasoning. |
| Llama.StreamLambda | src/LlamaBackend.cpp:140-151 | Unless Generate throws, stream succeeds, and its deltas reassemble to the generated text. |
| Llama.Backend | src/LlamaBackend.cpp:130-153 | A fresh backend whose two operations are the local ones. |
| Llama.LocalAnswer | src/LlamaBackend.cpp:130-153 | Generate's exceptions aside, a caller of the local backend never sees a failure, and a streaming and a blocking call after the same history give the same response. |
| Cli.DefaultsAre | include/CliOptions.hpp:8-20 | Default values: one round, streaming, local only, no help, no topic, model "deepseek-reasoner", zero GPU layers and no "auto", empty paths. |
| Cli.Stoi | src/CliOptions.cpp:71-91 | std::stoi in base 10: skip whitespace, read one optional sign, then at least one digit, and ignore the rest; no digits or a value outside int is None. It has no contract of its own; StoiReads, StoiDecimal, StoiRejectsNonNumbers and StoiExamples state its behaviour. |
| Cli.StoiReads | src/CliOptions.cpp:90-97 | stoi reads a decimal number after whitespace and before a non-digit: the number when it fits in int, an error otherwise. |
| Cli.StoiDecimal | src/CliOptions.cpp:91 | Every int reads back from its decimal text. |
| Cli.StoiRejectsNonNumbers | src/CliOptions.cpp:90-96 | Text without a digit after the leading whitespace and the optional sign is an error. |
| Cli.StoiExamples | src/CliOptions.cpp:70-77 | " 12x" reads 12; 2147483648 is out of range. |
| Cli.StoiRejectExamples | src/CliOptions.cpp:70-77 | "-", "abc" and "  x" are errors. |
| Cli.ParseCli | src/CliOptions.cpp:27-113 | The argument loop returns exactly the reference scan of argv after the program name. |
| Cli.ApplyValue | src/CliOptions.cpp:59-104 | Storing a flag's value gives the reference effect, including each error message. |
| Cli.NoArguments | tests/CliOptionsTests.cpp:5-18 | With no arguments the options are the defaults. |
| Cli.HelpShortCircuits | src/CliOptions.cpp:31-34 | "--help" succeeds at once with help set, whatever follows. |
| Cli.ScanSwitch | src/CliOptions.cpp:35-50 | A switch sets its field and the scan goes on. |
| Cli.ScanValue | src/CliOptions.cpp:51-59 | A value flag takes the next argument verbatim, even one that looks like a flag; the scan goes on unless the value is refused. |
| Cli.MissingValue | src/CliOptions.cpp:53-58 | A value flag in last position fails with "Missing value for <flag>". |
| Cli.UnknownOption | src/CliOptions.cpp:107-110 | Any other argument fails with "Unknown option: <arg>". |
| Cli.ScanAppend | src/CliOptions.cpp:29-111 | Scanning a + b is scanning a, then b from where a left off (when a succeeded without "--help"). |
| Cli.SetValueKeepsSwitches | src/CliOptions.cpp:59-104 | Storing a flag's value leaves streaming and local-only mode as they were. |
| Cli.ScanKeepsStream | src/CliOptions.cpp:29-111 | A successful scan of arguments without --stream or --no-stream leaves streaming as it was. |
| Cli.ScanKeepsLocalOnly | src/CliOptions.cpp:29-111 | A successful scan of arguments without --local-only or --remote leaves local-only mode as it was. |
| Cli.LastSwitchWins | src/CliOptions.cpp:35-50 | The last of --stream/--no-stream wins, and so does the last of --local-only/--remote, whatever other arguments follow it. |
| Cli.SetValueKeepsRanges | src/CliOptions.cpp:65-103 | A stored value keeps rounds positive and GPU layers non-negative, never clears "auto", and leaves help alone. |
| Cli.ScanKeepsRanges | src/CliOptions.cpp:29-111 | A successful scan keeps rounds positive and GPU layers non-negative, and never clears "auto". |
| Cli.ParsedInRange | src/CliOptions.cpp:78-103 | Every successful parse has rounds > 0 and gpu-layers >= 0. |
| Cli.GpuLayersAuto | src/CliOptions.cpp:66-68 | "auto" sets the auto flag and zero layers. |
| Cli.RoundsMustBePositive | src/CliOptions.cpp:90-103 | A rounds value stoi refuses gives "Invalid rounds value: v"; one it reads as <= 0 gives "Rounds must be > 0". |
| Cli.GpuLayersMustBeNonNegative | src/CliOptions.cpp:70-83 | A gpu-layers value stoi refuses gives "Invalid gpu-layers value: v"; a negative one gives "gpu-layers must be >= 0". |
| Cli.ParsesValuesTest | tests/CliOptionsTests.cpp:20-36 | The full example command line parses to the expected options. |
| Cli.RejectsInvalidRoundsTest | tests/CliOptionsTests.cpp:38-45 | "--rounds 0" fails with a message. |
| Cli.RemoteFlagDisablesLocalOnlyTest | tests/CliOptionsTests.cpp:47-54 | "--remote" clears local-only. |
| Cli.RejectsInvalidGpuLayersTest | tests/CliOptionsTests.cpp:56-63 | "--gpu-layers -1" fails with a message. |
| Cli.ParsesAutoGpuLayersTest | tests/CliOptionsTests.cpp:65-73 | "--gpu-layers auto" sets auto and zero layers. |
| TopicFilter.SearchFrom | src/main.cpp:90-94 | The search stops at the first position where the token matches ignoring ASCII case, or at the end when there is none. |
| TopicFilter.ContainsToken | src/main.cpp:89-96 | Whether the case-folding search stops before the end of the text. It has no contract of its own; ContainsTokenIff and ContainsTokenIgnoresCase state what it decides. |
| TopicFilter.IsEngineeringTopic | src/main.cpp:98-101 | Whether one of c++, software, agent or program is contained in the topic. It has no contract of its own; EngineeringIff, EngineeringExtends and the example lemmas state what it admits. |
| TopicFilter.ContainsTokenIff | src/main.cpp:89-96 | A non-empty token is contained exactly when it occurs somewhere, ignoring case; the empty token is contained exactly in non-empty texts. |
| TopicFilter.EngineeringIff | src/main.cpp:98-101 | A topic is admitted exactly when it mentions c++, software, agent or program in any case. |
| TopicFilter.EngineeringExtends | src/main.cpp:98-101 | Text added around an admitted topic keeps it admitted. |
| TopicFilter.ContainsTokenIgnoresCase | src/main.cpp:93-94 | Texts equal up to ASCII case are treated alike. |
| TopicFilter.EmptyTopicRejected | src/main.cpp:98-101 | The empty topic is rejected. |
| TopicFilter.KeywordExamples | src/main.cpp:99-100 | "C++ memory models", "Programming" and "reagent" are admitted. |
| TopicFilter.PoetryRejected | src/main.cpp:99-100 | "Poetry" is rejected. |
| TopicFilter.Admit | src/main.cpp:205-224 | In local mode the keyword filter decides with no call; otherwise one blocking gate call with the rule "Allow only software engineering topics." decides, or its failure is reported. |
| TopicFilter.RunTopic | src/main.cpp:204-226 | A failed gate gives "Gate evaluation failed: " with the reason; a rejected topic gives "Gate rejected the topic."; either way no call beyond the gate's, and no memory changes. An admitted topic runs exactly the reference debate after the gate call. |

## Left out

- RunAgentsConcurrent: concurrent agents on threads and futures are not modelled.
- Console output: the printing stream sink in RunAgent, the coloured gate messages, and the summary pager of `run_topic` (src/main.cpp:227-240). The model returns the messages instead of printing them.
- Token generation by the local model: `Generate` and the llama.cpp context, sampler and tokenizer are an abstract function of the call history, the prompt and the token budget. All copies of a `Backend()` share one llama context in the source, while each modelled `ChatBackend` keeps a log of its own. The shared context is reflected only in that generation may depend on every earlier call.
- Llama.ChatLambda, Llama.StreamLambda, Llama.LocalAnswer: `Generate` throws `runtime_error` when tokenizing fails ("Failed to tokenize prompt.", src/LlamaBackend.cpp:47-49) or decoding fails ("Failed to decode prompt.", src/LlamaBackend.cpp:53-55). Decoding can fail once earlier calls fill the context, because nothing clears it between calls. That exception passes through the lambdas, RunAgent (where it is not wrapped as a request error), RunDebateRounds and Evaluate. The model's generator always returns text, so these contracts hold only apart from those exceptions.
- AgentSnapshot.SaveAgents: `root.dump(2)` (src/AgentRuntime.cpp:139) throws the library's type error 316 on a string that is not valid UTF-8. The model has no text encoding, so it never takes that path.
- LlamaBackend's constructor and destructor: model loading and GPU-layer heuristics are not modelled.
- The remote backend is not modelled. Every backend is an oracle of the call history and the request.
- `main` glue, the interactive loop and `Usage` are not modelled.
- JSON text and files: the document is a JSON value.
  - Opening, writing and parsing the file are parameters (`Sink`, `Source`) that stand for their outcomes.
  - The text layout of `dump(2)` is not modelled.
  - Numbers carry no payload.
  - Parsed objects are taken to have unique keys in sorted order, as the library's map keeps them, so duplicate keys in the text are not modelled.
- `error_out` may be null in the source. The model always returns the message.
- Exceptions are values in the model. The `runtime_error` of RunAgent stops RunDebateRounds, and the results gathered so far are discarded.
- AgentSnapshot.LoadAgents: the library's type errors (302, 306) escape LoadAgents as exceptions in the source. The model returns them as `TypeError` values, with the same guarantee that the vector is left unchanged.
- `std::stoi`: both exceptions it throws (invalid argument, out of range) are `None`. Only base 10 is modelled.
- AgentRuntime.RunDebateRounds and TopicFilter.RunTopic require the agents to be distinct objects, as the elements of a `std::vector<Agent>` are. Aliased agents are not modelled.
- The `std::mutex` passed to RunAgent only guards printing and is left out.
