/**
 * The conversational assistant's local logic (src/conversational_ai.py):
 * classifying a QA question, the fallback suggestions, the summary,
 * insights and extra context drawn from a conversation, the context text
 * sent with every question, the parsing of suggested questions, the error
 * reply and the enrichment of a test case with its conversation. The
 * language-model call itself is not part of this model: where a reply or a
 * parsed reply is needed it is a parameter.
 */
module ConversationalAi {
  import opened Wrappers
  import opened Text
  import opened Json
  import TranscriptParser

  // ------------------------------------------------------------ classifier

  /** The five kinds of question, with the names stored in `question_type`. */
  datatype QuestionType = Automation | EdgeCase | Clarification | Enhancement | General {
    function Name(): (r: string)
      ensures r in ["automation", "edge_case", "clarification", "enhancement", "general"]
    {
      match this
      case Automation => "automation"
      case EdgeCase => "edge_case"
      case Clarification => "clarification"
      case Enhancement => "enhancement"
      case General => "general"
    }

    /** The position of this kind's keyword group in the order they are tried. */
    function Rank(): nat {
      match this
      case Automation => 0
      case EdgeCase => 1
      case Clarification => 2
      case Enhancement => 3
      case General => 4
    }

    /** The substrings that make a lower-cased question this kind. */
    function Keywords(): seq<string> {
      match this
      case Automation => ["automate", "automation", "script", "selenium", "playwright"]
      case EdgeCase => ["edge case", "edge", "additional", "what if", "scenario"]
      case Clarification => ["why", "how", "explain", "clarify", "what does"]
      case Enhancement => ["improve", "enhance", "better", "optimize"]
      case General => []
    }
  }

  /** Some word of `words` occurs in `text`. */
  predicate AnyIn(words: seq<string>, text: string) {
    exists k :: 0 <= k < |words| && Contains(text, words[k])
  }

  /**
   * `_classify_question`: the first kind, in rank order, one of whose
   * keywords occurs in the lower-cased question; General when none does.
   */
  function ClassifyQuestion(question: string): (r: QuestionType)
    ensures r != General ==> AnyIn(r.Keywords(), LowerStr(question))
    ensures forall t: QuestionType :: t.Rank() < r.Rank() ==> !AnyIn(t.Keywords(), LowerStr(question))
  {
    var lower := LowerStr(question);
    if AnyIn(Automation.Keywords(), lower) then Automation
    else if AnyIn(EdgeCase.Keywords(), lower) then EdgeCase
    else if AnyIn(Clarification.Keywords(), lower) then Clarification
    else if AnyIn(Enhancement.Keywords(), lower) then Enhancement
    else General
  }

  /**
   * The keyword groups are tried in order, so a question that mentions a
   * scenario is an edge-case question even when it also asks "how" to
   * "improve" something, as long as it names no automation keyword.
   */
  lemma ScenarioOutranksImprove(question: string)
    requires Contains(LowerStr(question), "scenario")
    requires !AnyIn(Automation.Keywords(), LowerStr(question))
    ensures ClassifyQuestion(question) == EdgeCase
  {
    assert EdgeCase.Keywords()[4] == "scenario";
  }

  // ------------------------------------------------------ fallback questions

  /** A suggested follow-up question and its category. */
  datatype Suggestion = Suggestion(category: string, question: string)

  /** The six questions offered when the model gives no suggestions. */
  const BaseQuestions: seq<Suggestion> := [
    Suggestion("automation", "What specific UI elements should be automated for this test?"),
    Suggestion("automation", "What test data variations should be included in automation?"),
    Suggestion("edge_cases", "What additional scenarios should be tested?"),
    Suggestion("edge_cases", "How does this issue vary across different devices or browsers?"),
    Suggestion("clarification", "What specific error messages should be validated?"),
    Suggestion("clarification", "What are the exact steps to reproduce this issue?")
  ]

  /** The extra question for a mobile domain. */
  const MobileQuestion := Suggestion("edge_cases", "How does this behave on different mobile OS versions?")

  /** The extra question for a web domain. */
  const WebQuestion := Suggestion("edge_cases", "What happens with different browser configurations?")

  /**
   * `_get_fallback_questions`: the domain-specific extras are appended after
   * the six base questions and cut off again by `[:6]`, so the result is
   * always the base questions. `.lower()` fails on a domain or service that
   * is present but not a string.
   */
  method FallbackQuestions(testCase: Record) returns (r: Result<seq<Suggestion>>)
    ensures r.Ok? <==> Get(testCase, "domain", Str("")).Str? && Get(testCase, "service", Str("")).Str?
    ensures r.Ok? ==> r.value == BaseQuestions
  {
    var domainValue := Get(testCase, "domain", Str(""));
    if !domainValue.Str? {
      return Failure("AttributeError: 'domain' has no attribute 'lower'");
    }
    var serviceValue := Get(testCase, "service", Str(""));
    if !serviceValue.Str? {
      return Failure("AttributeError: 'service' has no attribute 'lower'");
    }
    var domain := LowerStr(domainValue.s);
    var questions := BaseQuestions;
    if Contains(domain, "mobile") {
      questions := questions + [MobileQuestion];
    }
    if Contains(domain, "web") {
      questions := questions + [WebQuestion];
    }
    return Ok(questions[..6]);
  }

  // ----------------------------------------------------- conversation entries

  /** One question and answer of a conversation, with its `question_type`. */
  datatype Entry = Entry(question: string, response: string, questionType: string)

  /** The number of entries of type `t`. */
  function CountType(convs: seq<Entry>, t: string): (n: nat)
    ensures n <= |convs|
  {
    if convs == [] then 0
    else CountType(convs[..|convs| - 1], t) + (if convs[|convs| - 1].questionType == t then 1 else 0)
  }

  /** An entry the insights and the summary single out. */
  predicate IsFlagged(e: Entry) {
    e.questionType == "automation" || e.questionType == "edge_case"
  }

  /** The automation and edge-case entries, in conversation order. */
  function Flagged(convs: seq<Entry>): seq<Entry> {
    if convs == [] then []
    else Flagged(convs[..|convs| - 1]) + (if IsFlagged(convs[|convs| - 1]) then [convs[|convs| - 1]] else [])
  }

  /** The flagged entries are exactly the automation ones plus the edge-case ones, and no more than all entries. */
  lemma {:induction false} FlaggedCount(convs: seq<Entry>)
    ensures |Flagged(convs)| == CountType(convs, "automation") + CountType(convs, "edge_case")
    ensures |Flagged(convs)| <= |convs|
    ensures forall k :: 0 <= k < |Flagged(convs)| ==> IsFlagged(Flagged(convs)[k])
  {
    if convs != [] {
      FlaggedCount(convs[..|convs| - 1]);
    }
  }

  // ----------------------------------------------------------------- summary

  /** `_summarize_conversations`. */
  function Summary(convs: seq<Entry>): string {
    if convs == [] then "No conversations yet"
    else SummaryLine(|convs|, CountType(convs, "automation"), CountType(convs, "edge_case"))
  }

  /** The summary of a non-empty conversation. */
  function SummaryLine(total: nat, automation: nat, edgeCases: nat): string {
    "Total questions: " + (NatToString(total) + " (Automation: " + NatToString(automation)
      + ", Edge cases: " + NatToString(edgeCases) + ")")
  }

  /**
   * The summary is the "No conversations yet" message exactly for an empty
   * conversation; otherwise it reports the total first, and the automation
   * and edge-case counts it reports never add up to more than the total.
   */
  lemma SummaryReport(convs: seq<Entry>)
    ensures Summary(convs) == "No conversations yet" <==> convs == []
    ensures convs != [] ==> Summary(convs)[..17] == "Total questions: "
    ensures CountType(convs, "automation") + CountType(convs, "edge_case") <= |convs|
  {
    FlaggedCount(convs);
    if convs != [] {
      var lead := "Total questions: ";
      var rest := Summary(convs)[|lead|..];
      assert Summary(convs) == lead + rest;
      assert Summary(convs)[0] == 'T';
    }
  }

  // ---------------------------------------------------------------- insights

  /** The insight one flagged entry yields: a label and the first 50 characters of the question. */
  function Insight(e: Entry): (r: string)
    requires IsFlagged(e)
    ensures |r| <= |"Automation guidance requested: "| + 50 + 3
  {
    (if e.questionType == "automation" then "Automation guidance requested: " else "Edge case identified: ")
      + Take(e.question, 50) + "..."
  }

  /** The insights of a conversation: one per automation or edge-case entry. */
  function Insights(convs: seq<Entry>): seq<string> {
    if convs == [] then []
    else
      var last := convs[|convs| - 1];
      Insights(convs[..|convs| - 1]) + (if IsFlagged(last) then [Insight(last)] else [])
  }

  /** `_extract_insights_from_conversations`. */
  method ExtractInsights(convs: seq<Entry>) returns (insights: seq<string>)
    ensures insights == Insights(convs)
  {
    insights := [];
    var i := 0;
    while i < |convs|
      invariant i <= |convs|
      invariant insights == Insights(convs[..i])
    {
      var conv := convs[i];
      assert convs[..i + 1][..i] == convs[..i];
      if conv.questionType == "automation" {
        insights := insights + ["Automation guidance requested: " + Take(conv.question, 50) + "..."];
      } else if conv.questionType == "edge_case" {
        insights := insights + ["Edge case identified: " + Take(conv.question, 50) + "..."];
      }
      i := i + 1;
    }
    assert convs[..i] == convs;
  }

  /** The k-th insight belongs to the k-th flagged entry, so there are as many insights as flagged entries. */
  lemma {:induction false} InsightsOfFlagged(convs: seq<Entry>)
    ensures |Insights(convs)| == |Flagged(convs)| == CountType(convs, "automation") + CountType(convs, "edge_case")
    ensures forall k :: 0 <= k < |Flagged(convs)| ==> IsFlagged(Flagged(convs)[k]) && Insights(convs)[k] == Insight(Flagged(convs)[k])
  {
    FlaggedCount(convs);
    if convs != [] {
      InsightsOfFlagged(convs[..|convs| - 1]);
    }
  }

  // ------------------------------------------------------ additional context

  const SpecificNote := "Requires specific implementation details"
  const EdgeCasesNote := "Multiple edge cases identified"

  /** The notes one answer contributes. */
  function NotesOf(e: Entry): seq<string> {
    var response := LowerStr(e.response);
    (if Contains(response, "specific") then [SpecificNote] else [])
      + (if Contains(response, "edge case") then [EdgeCasesNote] else [])
  }

  /** The notes of a whole conversation, in order. */
  function ContextItems(convs: seq<Entry>): seq<string> {
    if convs == [] then [] else ContextItems(convs[..|convs| - 1]) + NotesOf(convs[|convs| - 1])
  }

  /** `_generate_additional_context`: the notes joined by "; ". */
  method GenerateAdditionalContext(convs: seq<Entry>) returns (r: string)
    ensures r == Join("; ", ContextItems(convs))
  {
    if convs == [] {
      return "";
    }
    var items := [];
    var i := 0;
    while i < |convs|
      invariant i <= |convs|
      invariant items == ContextItems(convs[..i])
    {
      var response := LowerStr(convs[i].response);
      assert convs[..i + 1][..i] == convs[..i];
      if Contains(response, "specific") {
        items := items + [SpecificNote];
      }
      if Contains(response, "edge case") {
        items := items + [EdgeCasesNote];
      }
      i := i + 1;
    }
    assert convs[..i] == convs;
    return Join("; ", items);
  }

  /** An answer that mentions "specific" or "edge case", in any letter case. */
  predicate Noteworthy(e: Entry) {
    Contains(LowerStr(e.response), "specific") || Contains(LowerStr(e.response), "edge case")
  }

  /**
   * Every note is one of the two fixed phrases, each answer gives at most
   * two, and there is none exactly when no answer is noteworthy.
   */
  lemma {:induction false} ContextItemsSpec(convs: seq<Entry>)
    ensures |ContextItems(convs)| <= 2 * |convs|
    ensures forall k :: 0 <= k < |ContextItems(convs)| ==> ContextItems(convs)[k] in [SpecificNote, EdgeCasesNote]
    ensures ContextItems(convs) == [] <==> forall k :: 0 <= k < |convs| ==> !Noteworthy(convs[k])
  {
    if convs != [] {
      var init := convs[..|convs| - 1];
      ContextItemsSpec(init);
      assert forall k :: 0 <= k < |init| ==> init[k] == convs[k];
    }
  }

  // ------------------------------------------------------ conversation context

  /** The answer preview: at most 200 characters, then "..." when the answer is longer. */
  function Preview(response: string): string {
    Truncate(response, 200, "...")
  }

  /** "..." is added exactly when the answer is longer than 200 characters, after its first 200. */
  lemma PreviewMarksCut(response: string)
    ensures |Preview(response)| <= 203
    ensures |response| <= 200 ==> Preview(response) == response
    ensures |response| > 200 ==> (|Preview(response)| == 203 &&
      Preview(response)[..200] == response[..200] && Preview(response)[200..] == "...")
  {
  }

  /** The preview as `_build_conversation_context` builds it: the first 200 characters, then "..." if anything was cut. */
  lemma PreviewIsCutAnswer(response: string)
    ensures Preview(response) == Take(response, 200) + (if |response| > 200 then "..." else "")
  {
  }

  /** The items `for step in test_steps` iterates, rendered: a list's items, or a string's characters. */
  function StepItems(steps: Value): (r: Result<seq<string>>)
    ensures steps.Arr? ==> r.Ok? && |r.value| == |steps.items|
    ensures steps.Str? ==> r.Ok? && |r.value| == |steps.s|
  {
    match steps
    case Arr(items) => Ok(seq(|items|, k requires 0 <= k < |items| => Show(items[k])))
    case Str(s) => Ok(seq(|s|, k requires 0 <= k < |s| => [s[k]]))
    case Obj(_) => Failure("dict keys have no order in this model")
    case _ => Failure("TypeError: object is not iterable")
  }

  /** The numbered step lines, built one step at a time. */
  function StepLines(steps: seq<string>): seq<string> {
    if steps == [] then []
    else StepLines(steps[..|steps| - 1]) + ["  " + NatToString(|steps|) + ". " + steps[|steps| - 1]]
  }

  /** Steps are numbered from 1: line k shows number k + 1 and the k-th step. */
  lemma {:induction false} StepsNumberedFromOne(steps: seq<string>)
    ensures |StepLines(steps)| == |steps|
    ensures forall k :: 0 <= k < |steps| ==> StepLines(steps)[k] == "  " + NatToString(k + 1) + ". " + steps[k]
  {
    if steps != [] {
      StepsNumberedFromOne(steps[..|steps| - 1]);
    }
  }

  /** The lines describing the test case itself. */
  function HeaderLines(testCase: Record): seq<string> {
    ["=== GENERATED TEST CASE ===",
     "ID: " + Show(Get(testCase, "test_case_id", Str("Unknown"))),
     "Domain: " + Show(Get(testCase, "domain", Str("Unknown"))),
     "Service: " + Show(Get(testCase, "service", Str("Unknown"))),
     "Priority: " + Show(Get(testCase, "priority", Str("Unknown"))),
     "Issue: " + Show(Get(testCase, "issue_description", Str("Unknown"))),
     "Test Scenario: " + Show(Get(testCase, "test_scenario", Str("Unknown")))]
  }

  /** The step lines, present when the test case has truthy `test_steps`. */
  function StepsPart(testCase: Record): Result<seq<string>> {
    var steps := Get(testCase, "test_steps", Null);
    if !Truthy(steps) then Ok([])
    else match StepItems(steps)
      case Failure(e) => Failure(e)
      case Ok(items) => Ok(["Test Steps:"] + StepLines(items))
  }

  /** The transcript lines, present when a non-empty transcript is given. */
  function TranscriptPart(transcript: Option<Record>): Result<seq<string>> {
    if transcript.None? || transcript.value == map[] then Ok([])
    else
      var t := transcript.value;
      var lines := ["\n=== ORIGINAL CUSTOMER TRANSCRIPT ===",
                    "Channel: " + Show(Get(t, "channel", Str("Unknown"))),
                    "Issue Category: " + Show(Get(t, "category", Str("Unknown")))];
      var text := Get(t, "transcript_text", Null);
      if !Truthy(text) then Ok(lines)
      else match Truncated(text, 1000, "...")
        case Failure(e) => Failure(e)
        case Ok(shown) => Ok(lines + ["Customer Issue: " + shown])
  }

  /** The last three entries of a history, or all of a shorter one. */
  function Recent(history: seq<Entry>): (r: seq<Entry>)
    ensures |r| == if |history| < 3 then |history| else 3
  {
    if |history| <= 3 then history else history[|history| - 3..]
  }

  /** The question and answer lines of some entries. */
  function ExchangeLines(entries: seq<Entry>): seq<string> {
    if entries == [] then []
    else
      var last := entries[|entries| - 1];
      ExchangeLines(entries[..|entries| - 1]) + ["Q: " + last.question, "A: " + Preview(last.response)]
  }

  /** Each entry gives two lines: its question, then the preview of its answer. */
  lemma {:induction false} ExchangeLinesSpec(entries: seq<Entry>)
    ensures |ExchangeLines(entries)| == 2 * |entries|
    ensures forall k :: 0 <= k < |entries| ==>
      ExchangeLines(entries)[2 * k] == "Q: " + entries[k].question &&
      ExchangeLines(entries)[2 * k + 1] == "A: " + Preview(entries[k].response)
  {
    if entries != [] {
      ExchangeLinesSpec(entries[..|entries| - 1]);
    }
  }

  /** The history lines, present when the history is not empty. */
  function HistoryPart(history: seq<Entry>): seq<string> {
    if history == [] then [] else ["\n=== PREVIOUS CONVERSATION ==="] + ExchangeLines(Recent(history))
  }

  /** The lines of the context, or the error that stops it being built. */
  function ContextLines(testCase: Record, transcript: Option<Record>, history: seq<Entry>): Result<seq<string>> {
    match StepsPart(testCase)
    case Failure(e) => Failure(e)
    case Ok(steps) =>
      match TranscriptPart(transcript)
      case Failure(e) => Failure(e)
      case Ok(lines) => Ok(HeaderLines(testCase) + steps + lines + HistoryPart(history))
  }

  /** The context text sent with a question. */
  function ContextText(testCase: Record, transcript: Option<Record>, history: seq<Entry>): Result<string> {
    match ContextLines(testCase, transcript, history)
    case Failure(e) => Failure(e)
    case Ok(lines) => Ok(JoinLines(lines))
  }

  /** The step lines of `_build_conversation_context`, appended to `parts`. */
  method AppendSteps(parts: seq<string>, testCase: Record) returns (r: Result<seq<string>>)
    ensures StepsPart(testCase).Failure? ==> r.Failure?
    ensures StepsPart(testCase).Ok? ==> r == Ok(parts + StepsPart(testCase).value)
  {
    var steps := Get(testCase, "test_steps", Null);
    if !Truthy(steps) {
      assert parts + [] == parts;
      return Ok(parts);
    }
    var items := StepItems(steps);
    if items.Failure? {
      return Failure(items.error);
    }
    var lines := parts + ["Test Steps:"];
    var i := 0;
    while i < |items.value|
      invariant i <= |items.value|
      invariant lines == parts + ["Test Steps:"] + StepLines(items.value[..i])
    {
      assert items.value[..i + 1][..i] == items.value[..i];
      lines := lines + ["  " + NatToString(i + 1) + ". " + items.value[i]];
      i := i + 1;
    }
    assert items.value[..i] == items.value;
    assert lines == parts + (["Test Steps:"] + StepLines(items.value));
    return Ok(lines);
  }

  /** The transcript lines of `_build_conversation_context`, appended to `parts`. */
  method AppendTranscript(parts: seq<string>, transcript: Option<Record>) returns (r: Result<seq<string>>)
    ensures TranscriptPart(transcript).Failure? ==> r.Failure?
    ensures TranscriptPart(transcript).Ok? ==> r == Ok(parts + TranscriptPart(transcript).value)
  {
    if transcript.None? || transcript.value == map[] {
      assert parts + [] == parts;
      return Ok(parts);
    }
    var t := transcript.value;
    var lines := parts + ["\n=== ORIGINAL CUSTOMER TRANSCRIPT ==="];
    lines := lines + ["Channel: " + Show(Get(t, "channel", Str("Unknown")))];
    lines := lines + ["Issue Category: " + Show(Get(t, "category", Str("Unknown")))];
    var channel := "Channel: " + Show(Get(t, "channel", Str("Unknown")));
    var category := "Issue Category: " + Show(Get(t, "category", Str("Unknown")));
    var head := ["\n=== ORIGINAL CUSTOMER TRANSCRIPT ===", channel, category];
    assert lines == parts + head;
    var text := Get(t, "transcript_text", Null);
    if Truthy(text) {
      var shown := Truncated(text, 1000, "...");
      if shown.Failure? {
        return Failure(shown.error);
      }
      lines := lines + ["Customer Issue: " + shown.value];
      assert lines == parts + (head + ["Customer Issue: " + shown.value]);
      assert TranscriptPart(transcript) == Ok(head + ["Customer Issue: " + shown.value]);
    } else {
      assert TranscriptPart(transcript) == Ok(head);
    }
    return Ok(lines);
  }

  /** The history lines of `_build_conversation_context`, appended to `parts`. */
  method AppendHistory(parts: seq<string>, history: seq<Entry>) returns (lines: seq<string>)
    ensures lines == parts + HistoryPart(history)
  {
    if history == [] {
      assert parts + HistoryPart(history) == parts;
      return parts;
    }
    var prefix := parts + ["\n=== PREVIOUS CONVERSATION ==="];
    lines := prefix;
    var recent := Recent(history);
    var i := 0;
    while i < |recent|
      invariant i <= |recent|
      invariant lines == prefix + ExchangeLines(recent[..i])
    {
      var entry := recent[i];
      var question := "Q: " + entry.question;
      lines := lines + [question];
      var preview := Preview(entry.response);
      var answer := "A: " + preview;
      lines := lines + [answer];
      assert recent[..i + 1][..i] == recent[..i];
      i := i + 1;
    }
    assert recent[..i] == recent;
    assert HistoryPart(history) == ["\n=== PREVIOUS CONVERSATION ==="] + ExchangeLines(recent);
  }

  /** `_build_conversation_context`: the parts are appended one by one and joined by newlines. */
  method BuildConversationContext(testCase: Record, transcript: Option<Record>, history: seq<Entry>)
    returns (r: Result<string>)
    ensures r.Failure? <==> ContextText(testCase, transcript, history).Failure?
    ensures r.Ok? ==> r == ContextText(testCase, transcript, history)
  {
    var withSteps := AppendSteps(HeaderLines(testCase), testCase);
    if withSteps.Failure? {
      return Failure(withSteps.error);
    }
    var withTranscript := AppendTranscript(withSteps.value, transcript);
    if withTranscript.Failure? {
      return Failure(withTranscript.error);
    }
    var parts := AppendHistory(withTranscript.value, history);
    return Ok(JoinLines(parts));
  }

  /**
   * The context shows at most the last three exchanges, the final entries
   * of the history: after the heading, line 2k + 1 is the question of the
   * k-th of them and line 2k + 2 the preview of its answer.
   */
  lemma HistoryShowsLastThree(history: seq<Entry>)
    requires history != []
    ensures |Recent(history)| <= 3 && Recent(history) == history[|history| - |Recent(history)|..]
    ensures |HistoryPart(history)| == 1 + 2 * |Recent(history)|
    ensures forall k :: 0 <= k < |Recent(history)| ==>
      HistoryPart(history)[1 + 2 * k] == "Q: " + Recent(history)[k].question &&
      HistoryPart(history)[2 + 2 * k] == "A: " + Preview(Recent(history)[k].response)
  {
    var recent := Recent(history);
    var lines := ExchangeLines(recent);
    ExchangeLinesSpec(recent);
    var shown := HistoryPart(history);
    assert shown == ["\n=== PREVIOUS CONVERSATION ==="] + lines;
    forall k | 0 <= k < |recent|
      ensures shown[1 + 2 * k] == lines[2 * k] && shown[2 + 2 * k] == lines[2 * k + 1]
    {
    }
  }

  /**
   * The transcript text is read only from `transcript_text`, a key that the
   * parser's records never carry: for a parsed record the context has a
   * channel and a category line but no "Customer Issue" line.
   */
  lemma ParsedRecordHasNoIssueLine(c: TranscriptParser.ParsedCall)
    ensures TranscriptPart(Some(TranscriptParser.AsRecord(c))) == Ok(
      ["\n=== ORIGINAL CUSTOMER TRANSCRIPT ===",
       "Channel: " + c.channel,
       "Issue Category: " + c.category])
  {
    var r := TranscriptParser.AsRecord(c);
    assert "call_id" in r;
    assert "transcript_text" !in r;
  }

  // --------------------------------------------------- suggestions parsing

  /** The slice json.loads receives: from the first '{' to the last '}', empty when the last '}' comes first. */
  function JsonSlice(response: string): (r: string)
    requires Contains(response, "{") && Contains(response, "}")
    ensures r != [] ==> r[0] == '{' && r[|r| - 1] == '}'
    ensures r != [] ==> (Find(response, "{") < RFind(response, "}") &&
      r == response[Find(response, "{")..RFind(response, "}") + 1])
    ensures r != [] ==> forall j :: 0 <= j < Find(response, "{") ==> response[j] != '{'
    ensures r != [] ==> forall j :: RFind(response, "}") < j < |response| ==> response[j] != '}'
  {
    var start := Find(response, "{");
    var end := RFind(response, "}") + 1;
    if end > start then
      assert response[start] == '{' && response[end - 1] == '}' by {
        assert At(response, start, "{") && At(response, end - 1, "}");
        assert response[start + 0] == "{"[0] && response[end - 1 + 0] == "}"[0];
      }
      assert forall j :: 0 <= j < start ==> response[j] != '{' by {
        forall j | 0 <= j < start
          ensures response[j] != '{'
        {
          assert !At(response, j, "{");
        }
      }
      assert forall j :: end <= j < |response| ==> response[j] != '}' by {
        forall j | end <= j < |response|
          ensures response[j] != '}'
        {
          assert !At(response, j, "}");
        }
      }
      response[start..end]
    else []
  }

  /**
   * `_parse_suggestions_response`, with `json.loads` as `parse`. Only a
   * decoding error is caught; a decoded value that is not an object makes
   * `.get` fail.
   */
  function ParseSuggestions(response: string, parse: string -> Option<Value>): (r: Result<Value>)
    ensures !(Contains(response, "{") && Contains(response, "}")) ==> r == Ok(Arr([]))
    ensures Contains(response, "{") && Contains(response, "}") && parse(JsonSlice(response)).None? ==> r == Ok(Arr([]))
    ensures r.Failure? <==> (Contains(response, "{") && Contains(response, "}") &&
      parse(JsonSlice(response)).Some? && !parse(JsonSlice(response)).value.Obj?)
  {
    if Contains(response, "{") && Contains(response, "}") then
      match parse(JsonSlice(response))
      case None => Ok(Arr([]))
      case Some(data) =>
        if data.Obj? then Ok(Get(data.fields, "suggestions", Arr([])))
        else Failure("AttributeError: parsed value has no attribute 'get'")
    else Ok(Arr([]))
  }

  /** When the response is one JSON object with a suggestions list, that list is returned. */
  lemma WholeObjectParsed(response: string, parse: string -> Option<Value>, suggestions: seq<Value>)
    requires |response| >= 2 && response[0] == '{' && response[|response| - 1] == '}'
    requires parse(response) == Some(Obj(map["suggestions" := Arr(suggestions)]))
    ensures ParseSuggestions(response, parse) == Ok(Arr(suggestions))
  {
    assert At(response, 0, "{");
    assert At(response, |response| - 1, "}");
    assert JsonSlice(response) == response;
  }

  // --------------------------------------------------------- error replies

  /** The prefix and suffix around the error in an error reply. */
  const ErrorLead := "I encountered an error processing your question: "
  const ErrorTail := ". Please try rephrasing or contact support if the issue persists."

  /** `_create_error_response`, at time `now`. */
  function ErrorResponse(question: string, error: string, now: string): (r: Record)
    ensures r.Keys == {"timestamp", "question", "response", "question_type", "error"}
    ensures r["question"] == Str(question) && r["question_type"] == Str("error") && r["error"] == Bool(true)
    ensures r["response"].Str? && At(r["response"].s, |ErrorLead|, error)
  {
    map["timestamp" := Str(now), "question" := Str(question),
        "response" := Str(ErrorLead + error + ErrorTail),
        "question_type" := Str("error"), "error" := Bool(true)]
  }

  /** No question is ever classified as "error", so an error reply is told apart by its type. */
  lemma ErrorTypeIsNeverAClass(question: string)
    ensures ClassifyQuestion(question).Name() != "error"
  {
  }

  // ------------------------------------------------------------ enrichment

  /** A `question_type` the insights and the summary single out. */
  predicate FlaggedType(v: Value) {
    v == Str("automation") || v == Str("edge_case")
  }

  /**
   * What the enrichment reads from one stored entry, with `.get(key, '')`:
   * an entry that is not a dict has no `get`; every answer is lower-cased,
   * so it must be text; the question of an automation or edge-case entry is
   * sliced to 50 characters, so it must be text too. A `question_type` is
   * only compared with "automation" and "edge_case", so one that is not
   * text reads as "".
   */
  function ReadEntry(v: Value): (r: Result<Entry>)
    ensures r.Ok? <==> (v.Obj? && Get(v.fields, "response", Str("")).Str? &&
      (FlaggedType(Get(v.fields, "question_type", Str(""))) ==> Get(v.fields, "question", Str("")).Str?))
    ensures r.Ok? ==> Str(r.value.response) == Get(v.fields, "response", Str(""))
    ensures r.Ok? ==> (IsFlagged(r.value) <==> FlaggedType(Get(v.fields, "question_type", Str(""))))
    ensures r.Ok? && IsFlagged(r.value) ==> Str(r.value.question) == Get(v.fields, "question", Str(""))
    ensures r.Ok? ==> (Get(v.fields, "question_type", Str("")) == Str(r.value.questionType) || r.value.questionType == "")
  {
    if !v.Obj? then Failure("AttributeError: conversation entry has no attribute 'get'")
    else
      var questionType := Get(v.fields, "question_type", Str(""));
      var question := Get(v.fields, "question", Str(""));
      var response := Get(v.fields, "response", Str(""));
      if !response.Str? then Failure("AttributeError: response has no attribute 'lower'")
      else if FlaggedType(questionType) && !question.Str? then Failure("TypeError: question cannot be sliced")
      else Ok(Entry(if question.Str? then question.s else "", response.s, if questionType.Str? then questionType.s else ""))
  }

  /**
   * The entry `ask_question` returns, at time `now`, with the float
   * `confidence_score` left out: its timestamp, the question, the reply, the
   * question's class and the context it used.
   */
  function AskedEntry(question: string, reply: string, now: string, hasTranscript: bool, historyLength: nat): Record {
    map["timestamp" := Str(now), "question" := Str(question), "response" := Str(reply),
        "question_type" := Str(ClassifyQuestion(question).Name()),
        "context_used" := Obj(map["has_transcript" := Bool(hasTranscript), "conversation_length" := Int(historyLength)])]
  }

  /** The enrichment reads an answered entry as its question, its reply and its class. */
  lemma AskedEntryRead(question: string, reply: string, now: string, hasTranscript: bool, historyLength: nat)
    ensures ReadEntry(Obj(AskedEntry(question, reply, now, hasTranscript, historyLength))) ==
      Ok(Entry(question, reply, ClassifyQuestion(question).Name()))
  {
    var e := AskedEntry(question, reply, now, hasTranscript, historyLength);
    assert Get(e, "question", Str("")) == Str(question);
    assert Get(e, "response", Str("")) == Str(reply);
    assert Get(e, "question_type", Str("")) == Str(ClassifyQuestion(question).Name());
  }

  /** The enrichment reads an error reply as its question, its message and the type "error", which is never flagged. */
  lemma ErrorEntryRead(question: string, error: string, now: string)
    ensures var r := ReadEntry(Obj(ErrorResponse(question, error, now)));
      r == Ok(Entry(question, ErrorLead + error + ErrorTail, "error")) && !IsFlagged(r.value)
  {
    var e := ErrorResponse(question, error, now);
    assert Get(e, "response", Str("")) == Str(ErrorLead + error + ErrorTail);
    assert Get(e, "question_type", Str("")) == Str("error");
  }

  /** The `conversational_data` object of a conversation `convs` whose entries read as `entries`, at time `now`. */
  function DataObject(convs: seq<Value>, entries: seq<Entry>, now: string): Value {
    var insights := Insights(entries);
    Obj(map["conversation_history" := Arr(convs),
            "qa_insights" := Arr(seq(|insights|, k requires 0 <= k < |insights| => Str(insights[k]))),
            "additional_context" := Str(Join("; ", ContextItems(entries))),
            "conversation_summary" := Str(Summary(entries)),
            "last_updated" := Str(now)])
  }

  /**
   * The `conversational_data` computed from a conversation at time `now`,
   * or the error reading one of its entries raises.
   */
  function ConversationalData(convs: seq<Value>, now: string): (r: Result<Value>)
    ensures r.Ok? ==> r.value.Obj? && "conversation_history" in r.value.fields
    ensures r.Ok? ==> r.value.fields["conversation_history"] == Arr(convs)
  {
    match MapAll(ReadEntry, convs)
    case Failure(e) => Failure(e)
    case Ok(entries) => Ok(DataObject(convs, entries, now))
  }

  /**
   * The conversational data exists exactly when every entry can be read;
   * it then holds the five keys: the list passed in, one insight per
   * automation or edge-case entry in order, the notes, the summary and the
   * time.
   */
  lemma ConversationalDataSpec(convs: seq<Value>, now: string)
    ensures var r := ConversationalData(convs, now);
      && (r.Ok? <==> forall k :: 0 <= k < |convs| ==> ReadEntry(convs[k]).Ok?)
      && (r.Ok? ==> (r.value.Obj? && r.value.fields.Keys ==
                     {"conversation_history", "qa_insights", "additional_context", "conversation_summary", "last_updated"}))
      && (r.Ok? ==> r.value.fields["conversation_history"] == Arr(convs) && r.value.fields["last_updated"] == Str(now))
      && (r.Ok? ==>
           var entries := MapAll(ReadEntry, convs).value;
           && |entries| == |convs|
           && (forall k :: 0 <= k < |convs| ==> entries[k] == ReadEntry(convs[k]).value)
           && r.value.fields["qa_insights"].Arr?
           && |r.value.fields["qa_insights"].items| == CountType(entries, "automation") + CountType(entries, "edge_case")
           && (forall k :: 0 <= k < |Insights(entries)| ==> r.value.fields["qa_insights"].items[k] == Str(Insights(entries)[k]))
           && r.value.fields["additional_context"] == Str(Join("; ", ContextItems(entries)))
           && r.value.fields["conversation_summary"] == Str(Summary(entries)))
  {
    MapAllSpec(ReadEntry, convs);
    if MapAll(ReadEntry, convs).Ok? {
      InsightsOfFlagged(MapAll(ReadEntry, convs).value);
    }
  }

  /**
   * `enhance_test_case_with_conversation`: a copy of the test case that also
   * carries `conversational_data`; every other key keeps its value, and the
   * test case passed in is a value and so is left as it was.
   */
  function EnhanceTestCase(testCase: Record, convs: seq<Value>, now: string): (r: Result<Record>)
    ensures r.Ok? <==> ConversationalData(convs, now).Ok?
    ensures r.Ok? ==> r.value.Keys == testCase.Keys + {"conversational_data"}
    ensures r.Ok? ==> forall k :: k in testCase && k != "conversational_data" ==> r.value[k] == testCase[k]
    ensures r.Ok? ==> r.value["conversational_data"] == ConversationalData(convs, now).value
    ensures r.Ok? ==> r.value["conversational_data"].fields["conversation_history"] == Arr(convs)
  {
    match ConversationalData(convs, now)
    case Failure(e) => Failure(e)
    case Ok(data) => Ok(testCase["conversational_data" := data])
  }

  /**
   * Enriching with answered entries never fails: the stored history is the
   * list of entries with every key they carry, and the summary, insights and
   * notes are those of their questions, replies and classes.
   */
  lemma EnhanceWithAskedEntries(testCase: Record, entries: seq<Record>, now: string)
    requires forall k :: 0 <= k < |entries| ==> exists q, a, t, h, n :: entries[k] == AskedEntry(q, a, t, h, n)
    ensures var convs := seq(|entries|, k requires 0 <= k < |entries| => Obj(entries[k]));
      var r := EnhanceTestCase(testCase, convs, now);
      r.Ok? && r.value["conversational_data"].fields["conversation_history"] == Arr(convs)
  {
    var convs := seq(|entries|, k requires 0 <= k < |entries| => Obj(entries[k]));
    forall k | 0 <= k < |convs| ensures ReadEntry(convs[k]).Ok? {
      var q, a, t, h, n :| entries[k] == AskedEntry(q, a, t, h, n);
      AskedEntryRead(q, a, t, h, n);
    }
    ConversationalDataSpec(convs, now);
  }
}
