/** The logic gate of src/LogicGate.cpp: a one-shot backend call that must answer YES or NO,
    and the parser that turns the answer into a decision. */
module Gate {
  import opened Outcomes
  import opened CType
  import opened Chat

  const GateSystemPrompt := "You are a strict logic gate. Output YES or NO only."
  const AnswerLine := "Answer with a single token: YES or NO. No other text."
  const NotYesNo := "Gate did not return YES/NO."

  /** The user message of a gate call: the rule, the input and the answer instruction. */
  function GatePrompt(rule: string, input: string): string
  {
    "Rule: " + rule + "\n" + "Input: " + input + "\n" + AnswerLine
  }

  /** Index of the first line break, or |s| when there is none. */
  function LineEnd(s: string): (n: nat)
    ensures n <= |s|
    ensures forall k :: 0 <= k < n ==> s[k] != '\n'
    ensures n < |s| ==> s[n] == '\n'
  {
    if s == [] || s[0] == '\n' then 0 else 1 + LineEnd(s[1..])
  }

  /** A prompt framed as the gate frames it, with closing text tail after the input. */
  function Framed(rule: string, input: string, tail: string): string
  {
    "Rule: " + rule + ("\nInput: " + input + tail)
  }

  /** Reads rule and input back out of a prompt framed with tail: the rule is the first line
      after "Rule: ", the input everything between "Input: " and the closing tail. */
  function Unframe(p: string, tail: string): Option<(string, string)>
  {
    if |p| < 6 || p[..6] != "Rule: " then None
    else
      var body := p[6..];
      var rest := body[LineEnd(body)..];
      if |rest| < 8 + |tail| || rest[..8] != "\nInput: " || rest[|rest| - |tail|..] != tail then None
      else Some((body[..LineEnd(body)], rest[8..|rest| - |tail|]))
  }

  /** Reads rule and input back out of a gate prompt. */
  function SplitGatePrompt(p: string): Option<(string, string)>
  {
    Unframe(p, "\n" + AnswerLine)
  }

  /** The gate prompt is the rule and input framed by the answer line. */
  lemma GatePromptIsFramed(rule: string, input: string)
    ensures GatePrompt(rule, input) == Framed(rule, input, "\n" + AnswerLine)
  {
    var tail := "\n" + AnswerLine;
    calc {
      GatePrompt(rule, input);
      "Rule: " + rule + "\n" + "Input: " + input + "\n" + AnswerLine;
      { Assoc("Rule: " + rule + "\n" + "Input: " + input, "\n", AnswerLine); }
      "Rule: " + rule + "\n" + "Input: " + input + tail;
      { Assoc("Rule: " + rule + "\n", "Input: ", input);
        Assoc("Rule: " + rule + "\n", "Input: " + input, tail);
        Assoc("Rule: " + rule, "\n", "Input: " + input + tail);
        assert "\n" + ("Input: " + input + tail) == "\nInput: " + input + tail; }
      "Rule: " + rule + ("\nInput: " + input + tail);
    }
  }

  /** Framing keeps rule and input apart: for a rule without line breaks both come back. */
  lemma UnframeFramed(rule: string, input: string, tail: string)
    requires forall k :: 0 <= k < |rule| ==> rule[k] != '\n'
    ensures Unframe(Framed(rule, input, tail), tail) == Some((rule, input))
  {
    var p, rest := Framed(rule, input, tail), "\nInput: " + input + tail;
    var body := rule + rest;
    Assoc("Rule: ", rule, rest);
    assert p[..6] == "Rule: " && p[6..] == body;
    LineEndAt(rule, rest);
    assert body[..|rule|] == rule && body[|rule|..] == rest;
    Split3("\nInput: ", input, tail);
  }

  /** The prompt carries rule and input verbatim: for a rule without line breaks, both are
      recovered exactly, so different (rule, input) pairs give different prompts. */
  lemma GatePromptRoundTrip(rule: string, input: string)
    requires forall k :: 0 <= k < |rule| ==> rule[k] != '\n'
    ensures SplitGatePrompt(GatePrompt(rule, input)) == Some((rule, input))
  {
    GatePromptIsFramed(rule, input);
    UnframeFramed(rule, input, "\n" + AnswerLine);
  }

  /** Slicing a concatenation at its seams gives the parts back. */
  lemma Split3(a: string, x: string, b: string)
    ensures (a + x + b)[..|a|] == a
    ensures (a + x + b)[|a|..|a| + |x|] == x
    ensures (a + x + b)[|a| + |x|..] == b
    ensures (a + x + b)[|a|..] == x + b
    ensures (a + x + b)[..|a + x + b| - |b|] == a + x
  {
  }

  /** The first line break of line + rest is the one that starts rest. */
  lemma {:induction false} LineEndAt(line: string, rest: string)
    requires forall k :: 0 <= k < |line| ==> line[k] != '\n'
    requires rest != [] && rest[0] == '\n'
    ensures LineEnd(line + rest) == |line|
  {
    if line != [] {
      assert (line + rest)[1..] == line[1..] + rest;
      LineEndAt(line[1..], rest);
    }
  }

  /** Whether pat occurs in s at position k. */
  predicate OccursAt(s: string, pat: string, k: nat)
  {
    k + |pat| <= |s| && s[k..k + |pat|] == pat
  }

  /** std::string::find from position i: the first occurrence of pat at or after i. */
  function FindFrom(s: string, pat: string, i: nat): (r: Option<nat>)
    decreases |s| - i
    ensures r.Some? ==> i <= r.value && OccursAt(s, pat, r.value)
    ensures r.Some? ==> forall k :: i <= k < r.value ==> !OccursAt(s, pat, k)
    ensures r.None? ==> forall k :: i <= k ==> !OccursAt(s, pat, k)
  {
    if i + |pat| > |s| then None
    else if OccursAt(s, pat, i) then Some(i)
    else FindFrom(s, pat, i + 1)
  }

  function Find(s: string, pat: string): Option<nat>
  {
    FindFrom(s, pat, 0)
  }

  /** A match of length len at pos is a whole word: a boundary or a non-letter on each side. */
  predicate StandsAlone(u: string, pos: nat, len: nat)
    requires pos <= |u|
  {
    (pos == 0 || !IsAlpha(u[pos - 1])) && (pos + len >= |u| || !IsAlpha(u[pos + len]))
  }

  /** Some occurrence of word in u stands alone as a word. */
  ghost predicate HasWord(u: string, word: string)
  {
    exists k: nat :: OccursAt(u, word, k) && StandsAlone(u, k, |word|)
  }

  /** The maximal run of letters after the leading whitespace. */
  function FirstWord(s: string): string
  {
    var rest := s[LeadingSpaces(s)..];
    rest[..LeadingLetters(rest)]
  }

  /** The decision ParseDecision reaches: the first word when it is YES or NO (in any case);
      otherwise the first occurrence of "YES" in the upper-cased text if it stands alone,
      then the first occurrence of "NO" if it stands alone; otherwise no decision. */
  function Decision(s: string): Option<bool>
  {
    var w := Upper(FirstWord(s));
    if w == "YES" then Some(true)
    else if w == "NO" then Some(false)
    else
      var u := Upper(s);
      var y := Find(u, "YES");
      if y.Some? && StandsAlone(u, y.value, 3) then Some(true)
      else
        var n := Find(u, "NO");
        if n.Some? && StandsAlone(u, n.value, 2) then Some(false)
        else None
  }

  /** ParseDecision: total over every string, scanning as the source does. */
  method ParseDecision(content: string) returns (d: Option<bool>)
    ensures d == Decision(content)
  {
    var i := 0;
    while i < |content| && IsSpace(content[i])
      invariant 0 <= i <= |content|
      invariant forall k :: 0 <= k < i ==> IsSpace(content[k])
    {
      i := i + 1;
    }
    var start := i;
    while i < |content| && IsAlpha(content[i])
      invariant start <= i <= |content|
      invariant forall k :: start <= k < i ==> IsAlpha(content[k])
    {
      i := i + 1;
    }
    ScanIsFirstWord(content, start, i);
    if start < i {
      var token := Upper(content[start..i]);
      if token == "YES" {
        return Some(true);
      }
      if token == "NO" {
        return Some(false);
      }
    }
    var upper := Upper(content);
    var posYes := Find(upper, "YES");
    if posYes.Some? && StandsAlone(upper, posYes.value, 3) {
      return Some(true);
    }
    var posNo := Find(upper, "NO");
    if posNo.Some? && StandsAlone(upper, posNo.value, 2) {
      return Some(false);
    }
    return None;
  }

  /** The two scanning loops of ParseDecision stop exactly around FirstWord. */
  lemma ScanIsFirstWord(s: string, start: nat, i: nat)
    requires start <= i <= |s|
    requires forall k :: 0 <= k < start ==> IsSpace(s[k])
    requires start == |s| || !IsSpace(s[start])
    requires forall k :: start <= k < i ==> IsAlpha(s[k])
    requires i == |s| || !IsAlpha(s[i])
    ensures FirstWord(s) == s[start..i]
  {
    LeadingSpacesIs(s, start);
    LeadingLettersIs(s[start..], i - start);
  }

  /** A leading YES or NO, after any whitespace and followed by a non-letter or the end,
      decides, whatever follows: "no, yes" is false and "  No." is false. */
  lemma LeadingWordDecides(pre: string, w: string, rest: string)
    requires forall k :: 0 <= k < |pre| ==> IsSpace(pre[k])
    requires Upper(w) == "YES" || Upper(w) == "NO"
    requires rest == [] || !IsAlpha(rest[0])
    ensures Decision(pre + w + rest) == Some(Upper(w) == "YES")
  {
    var s := pre + w + rest;
    assert forall k :: 0 <= k < |w| ==> IsAlpha(w[k]) by {
      forall k | 0 <= k < |w| ensures IsAlpha(w[k]) {
        assert IsAlpha(Upper(w)[k]);
      }
    }
    assert s[|pre|] == w[0];
    ScanIsFirstWord(s, |pre|, |pre| + |w|);
    assert s[|pre|..|pre| + |w|] == w;
  }

  /** The parser never answers true without a standalone YES in the upper-cased text. */
  lemma DecisionTrueHasYesWord(s: string)
    requires Decision(s) == Some(true)
    ensures HasWord(Upper(s), "YES")
  {
    var u := Upper(s);
    if Upper(FirstWord(s)) == "YES" {
      FirstWordStandsAlone(s);
    } else {
      var y := Find(u, "YES");
      assert OccursAt(u, "YES", y.value) && StandsAlone(u, y.value, 3);
    }
  }

  /** The parser never answers false without a standalone NO in the upper-cased text. */
  lemma DecisionFalseHasNoWord(s: string)
    requires Decision(s) == Some(false)
    ensures HasWord(Upper(s), "NO")
  {
    var u := Upper(s);
    if Upper(FirstWord(s)) == "NO" {
      FirstWordStandsAlone(s);
    } else {
      var n := Find(u, "NO");
      assert OccursAt(u, "NO", n.value) && StandsAlone(u, n.value, 2);
    }
  }

  /** The first word, upper-cased, occurs in the upper-cased text as a whole word. */
  lemma FirstWordStandsAlone(s: string)
    ensures HasWord(Upper(s), Upper(FirstWord(s)))
  {
    var u := Upper(s);
    var w := Upper(FirstWord(s));
    var n := LeadingSpaces(s);
    var rest := s[n..];
    var m := LeadingLetters(rest);
    assert u[n..n + m] == w;
    assert OccursAt(u, w, n);
    if n > 0 {
      assert !IsAlpha(s[n - 1]);
    }
    if n + m < |u| {
      assert s[n + m] == rest[m];
    }
    assert StandsAlone(u, n, |w|);
  }

  /** The first word decides: "yes please" is true. */
  lemma FirstWordYesExample()
    ensures Decision("yes please") == Some(true)
  {
    assert "yes please" == "" + "yes" + " please";
    LeadingWordDecides("", "yes", " please");
  }

  /** The first word decides after whitespace: "  No." is false. */
  lemma FirstWordNoExample()
    ensures Decision("  No.") == Some(false)
  {
    assert "  No." == "  " + "No" + ".";
    LeadingWordDecides("  ", "No", ".");
  }

  /** The first word beats a later answer: "no, yes" is false. */
  lemma FirstWordWinsExample()
    ensures Decision("no, yes") == Some(false)
  {
  }

  /** In "YESNO" neither first occurrence stands alone. */
  lemma UndecidedYesNo()
    ensures Decision("YESNO") == None
  {
  }

  /** "Nope" has a letter right after its NO. */
  lemma UndecidedNope()
    ensures Decision("Nope") == None
  {
  }

  /** "Maybe not" has a letter right after its NO. */
  lemma UndecidedMaybeNot()
    ensures Decision("Maybe not") == None
  {
    MaybeNotWords();
    MaybeNotFinds();
  }

  lemma MaybeNotWords()
    ensures Upper(FirstWord("Maybe not")) == "MAYBE"
    ensures Upper("Maybe not") == "MAYBE NOT"
  {
    MaybeNotFirstWord();
  }

  lemma MaybeNotFirstWord()
    ensures FirstWord("Maybe not") == "Maybe"
  {
    ScanIsFirstWord("Maybe not", 0, 5);
  }

  lemma MaybeNotFinds()
    ensures Find("MAYBE NOT", "YES") == None
    ensures Find("MAYBE NOT", "NO") == Some(6)
  {
    var u := "MAYBE NOT";
    forall j | 0 <= j
      ensures !OccursAt(u, "YES", j)
    {
      if j + 3 <= |u| {
        assert u[j..j + 3][2] != 'S';
      }
    }
    assert OccursAt(u, "NO", 6);
    forall j | 0 <= j < 6
      ensures !OccursAt(u, "NO", j)
    {
      assert u[j..j + 2][0] != 'N';
    }
  }

  /** Only the first YES is examined: the standalone second one in "YESS YES" is not. */
  lemma UndecidedLaterYes()
    ensures Decision("YESS YES") == None
  {
    LaterYesWords();
    LaterYesFinds();
  }

  lemma LaterYesWords()
    ensures Upper(FirstWord("YESS YES")) == "YESS"
    ensures Upper("YESS YES") == "YESS YES"
  {
    ScanIsFirstWord("YESS YES", 0, 4);
  }

  lemma LaterYesFinds()
    ensures Find("YESS YES", "YES") == Some(0)
    ensures Find("YESS YES", "NO") == None
  {
    var u := "YESS YES";
    assert OccursAt(u, "YES", 0);
    forall j | 0 <= j
      ensures !OccursAt(u, "NO", j)
    {
      if j + 2 <= |u| {
        assert u[j..j + 2][0] != 'N';
      }
    }
  }

  datatype GateResult = GateResult(allow: bool, rawContent: string, reasoning: string)

  /** The one request a gate evaluation sends. */
  function GateRequest(rule: string, input: string): Request
  {
    Request([Message("user", GatePrompt(rule, input), "")], GateSystemPrompt)
  }

  class LogicGate {
    const rule: string

    constructor (rule: string)
      ensures this.rule == rule
    {
      this.rule := rule;
    }

    /** One backend call with the gate prompt, then the parse of its content. */
    method Evaluate(backend: ChatBackend, input: string, stream: bool) returns (r: Result<GateResult>)
      modifies backend
      ensures backend.log == old(backend.log) + [Call(GateRequest(rule, input), stream)]
      ensures var a := backend.Answer(old(backend.log), GateRequest(rule, input), stream);
        && (a.Err? ==> r == Err(a.error))
        && (a.Ok? && Decision(a.value.content).None? ==> r == Err(NotYesNo))
        && (a.Ok? && Decision(a.value.content).Some? ==>
              r == Ok(GateResult(Decision(a.value.content).value, a.value.content, a.value.reasoning)))
      ensures r.Ok? && r.value.allow ==> HasWord(Upper(r.value.rawContent), "YES")
      ensures r.Ok? && !r.value.allow ==> HasWord(Upper(r.value.rawContent), "NO")
    {
      var messages := [Message("user", GatePrompt(rule, input), "")];
      var content, reasoning;
      if stream {
        var reply := backend.Stream(messages, GateSystemPrompt);
        reasoning, content := Collect(reply.deltas);
        if !reply.ok {
          return Err(reply.error);
        }
      } else {
        var reply := backend.Chat(messages, GateSystemPrompt);
        if reply.ChatFailed? {
          return Err(reply.error);
        }
        content, reasoning := reply.response.content, reply.response.reasoning;
      }
      var decision := ParseDecision(content);
      if decision.None? {
        return Err(NotYesNo);
      }
      if decision.value {
        DecisionTrueHasYesWord(content);
      } else {
        DecisionFalseHasNoWord(content);
      }
      return Ok(GateResult(decision.value, content, reasoning));
    }
  }
}
