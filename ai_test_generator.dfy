/**
 * The test-case generator's local logic (src/ai_test_generator.py): the
 * prompt built from a masked transcript, the selection and completion of
 * the JSON test case in a model reply, and the loop that collects the
 * generated cases. The language-model call is the parameter `api` (the
 * prompt in, the reply text or nothing out) and json.loads is `parse`.
 */
module AiTestGenerator {
  import opened Wrappers
  import opened Text
  import opened Json

  // ------------------------------------------------------------------ prompt

  /** The transcript fields the prompt shows, as the f-string renders them. */
  datatype PromptFields = PromptFields(
    callId: string, channel: string, category: string, severity: string,
    conversation: string, resolution: string, impact: string)

  /** The conversation is cut to this many characters before it goes into the prompt. */
  const MaxConversation: nat := 800

  /**
   * The fields of `_create_test_case_prompt`, with their defaults, and the
   * conversation cut to 800 characters followed by "...[truncated]".
   * Python's `len` fails on a conversation that is not text or a container.
   */
  function PromptFieldsOf(transcript: Record): (r: Result<PromptFields>)
    ensures r.Ok? <==> Truncated(Get(transcript, "transcript", Str("")), MaxConversation, "...[truncated]").Ok?
    ensures r.Ok? ==> r.value.conversation == Truncated(Get(transcript, "transcript", Str("")), MaxConversation, "...[truncated]").value
  {
    match Truncated(Get(transcript, "transcript", Str("")), MaxConversation, "...[truncated]")
    case Failure(e) => Failure(e)
    case Ok(conversation) =>
      Ok(PromptFields(
        Show(Get(transcript, "call_id", Str("Unknown"))),
        Show(Get(transcript, "channel", Str("Unknown"))),
        Show(Get(transcript, "category", Str("Unknown"))),
        Show(Get(transcript, "severity", Str("Medium"))),
        conversation,
        Show(Get(transcript, "resolution", Str(""))),
        Show(Get(transcript, "impact", Str("")))))
  }

  /**
   * Missing fields take their defaults: call id, channel and category
   * "Unknown", severity "Medium", and an empty conversation, resolution and
   * impact.
   */
  lemma MissingFieldsDefault(transcript: Record)
    requires forall key :: key in transcript ==>
      key !in ["call_id", "channel", "category", "severity", "transcript", "resolution", "impact"]
    ensures PromptFieldsOf(transcript) == Ok(PromptFields("Unknown", "Unknown", "Unknown", "Medium", "", "", ""))
  {
    assert "call_id" !in transcript && "channel" !in transcript && "category" !in transcript;
    assert "severity" !in transcript && "transcript" !in transcript;
    assert "resolution" !in transcript && "impact" !in transcript;
  }

  /**
   * A text conversation of at most 800 characters goes into the prompt
   * unchanged; a longer one as its first 800 characters and "...[truncated]".
   */
  lemma ConversationCut(transcript: Record, conversation: string)
    requires Get(transcript, "transcript", Str("")) == Str(conversation)
    ensures PromptFieldsOf(transcript).Ok?
    ensures |conversation| <= 800 ==> PromptFieldsOf(transcript).value.conversation == conversation
    ensures |conversation| > 800 ==>
      PromptFieldsOf(transcript).value.conversation == conversation[..800] + "...[truncated]"
  {
  }

  const PromptLead := "Analyze" + " this customer support case and create a test case:\n\nCASE DETAILS:\nCall ID: "
  const PromptTail := "\n\nCreate a detailed test case that would help QA catch this problem before customers experience it. Focus on the specific steps needed to reproduce and test for this issue.\n\nReturn only the JSON test case"

  /** The prompt text up to the conversation. */
  function CaseDetails(f: PromptFields): string {
    PromptLead + (f.callId + "\nChannel: " + f.channel + "\nIssue Category: " + f.category
      + "\nSeverity: " + f.severity + "\n\nCUSTOMER CONVERSATION:\n")
  }

  /** The prompt text after the conversation. */
  function CaseOutcome(f: PromptFields): string {
    ("\n\nRESOLUTION: " + f.resolution + "\nCUSTOMER IMPACT: " + f.impact + PromptTail) + "."
  }

  /** The prompt template filled in. */
  function PromptText(f: PromptFields): string {
    CaseDetails(f) + (f.conversation + CaseOutcome(f))
  }

  /** `_create_test_case_prompt`: the filled-in template, stripped. */
  function TestCasePrompt(transcript: Record): Result<string> {
    match PromptFieldsOf(transcript)
    case Failure(e) => Failure(e)
    case Ok(f) => Ok(Strip(PromptText(f)))
  }

  /** The template starts and ends with text, so strip() leaves the filled-in prompt as it is. */
  lemma PromptIsTrimmed(f: PromptFields)
    ensures Strip(PromptText(f)) == PromptText(f)
  {
    var text := PromptText(f);
    assert PromptLead[0] == 'A';
    assert text[0] == 'A';
    assert text[|text| - 1] == '.';
    StripOfTrimmed(text);
  }

  /** The filled-in template carries the conversation verbatim right after the case details. */
  lemma PromptCarriesConversation(f: PromptFields)
    ensures At(PromptText(f), |CaseDetails(f)|, f.conversation)
  {
    var details := CaseDetails(f);
    var rest := f.conversation + CaseOutcome(f);
    assert PromptText(f) == details + rest;
    forall k | 0 <= k < |f.conversation|
      ensures PromptText(f)[|details| + k] == f.conversation[k]
    {
      assert PromptText(f)[|details| + k] == rest[k];
    }
  }

  /** `_create_test_case_prompt` gives the filled-in template itself, with the cut conversation in it. */
  lemma PromptOfTranscript(transcript: Record)
    requires PromptFieldsOf(transcript).Ok?
    ensures TestCasePrompt(transcript) == Ok(PromptText(PromptFieldsOf(transcript).value))
  {
    PromptIsTrimmed(PromptFieldsOf(transcript).value);
  }

  // --------------------------------------------------------- reply parsing

  /**
   * The slice `_parse_ai_response` decodes: from the first '{' of the
   * stripped reply to its last '}', when there is a '}' after the '{'.
   */
  function ReplySpan(reply: string): Option<string> {
    var response := Strip(reply);
    var start := Find(response, "{");
    var end := RFind(response, "}") + 1;
    if start >= 0 && end > start then Some(response[start..end]) else None
  }

  /**
   * There is a span exactly when the stripped reply has a '}' after its
   * first '{'; the span then runs from that '{' to the last '}'.
   */
  lemma ReplySpanBraces(reply: string)
    ensures var r := ReplySpan(reply);
      var response := Strip(reply);
      (r.Some? <==> 0 <= Find(response, "{") < RFind(response, "}")) &&
      (r.Some? ==> r.value == response[Find(response, "{")..RFind(response, "}") + 1]) &&
      (r.Some? ==> |r.value| >= 2 && r.value[0] == '{' && r.value[|r.value| - 1] == '}')
  {
    var response := Strip(reply);
    var start := Find(response, "{");
    var end := RFind(response, "}") + 1;
    if start >= 0 && end > start {
      assert At(response, start, "{") && At(response, end - 1, "}");
      assert response[start + 0] == "{"[0] && response[end - 1 + 0] == "}"[0];
    } else if start >= 0 && end - 1 >= 0 {
      assert At(response, start, "{") && At(response, end - 1, "}");
      assert response[start + 0] == "{"[0] && response[end - 1 + 0] == "}"[0];
    }
  }

  /** The test case object decoded from a reply, if the reply holds one. */
  function Decoded(reply: string, parse: string -> Option<Value>): Option<Record> {
    match ReplySpan(reply)
    case None => None
    case Some(span) =>
      match parse(span)
      case Some(Obj(fields)) => Some(fields)
      case _ => None
  }

  /** `TC_<first three characters of the channel, upper-cased>_<index, zero-filled to three digits>`. */
  function FallbackId(channel: string, index: nat): string {
    "TC_" + UpperStr(Take(channel, 3)) + "_" + Pad3(index)
  }

  /**
   * A fallback id starts with "TC_", its channel code has at most three
   * characters, and the digits after its last underscore read back as the
   * index.
   */
  lemma FallbackIdReadsBack(channel: string, index: nat)
    ensures var id := FallbackId(channel, index);
      id[..3] == "TC_" &&
      RFind(id, "_") == |id| - |Pad3(index)| - 1 &&
      3 <= RFind(id, "_") <= 6 &&
      ParseNat(id[RFind(id, "_") + 1..]) == index
  {
    var id := FallbackId(channel, index);
    var digits := Pad3(index);
    var u := |id| - |digits| - 1;
    assert id[u] == '_';
    assert At(id, u, "_");
    forall k | u < k <= |id|
      ensures !At(id, k, "_")
    {
      if k < |id| {
        assert id[k] == digits[k - u - 1];
      }
    }
    assert id[u + 1..] == digits;
    ParsePad3(index);
  }

  /** The keys `_parse_ai_response` sets on the decoded test case. */
  const AddedKeys: set<string> := {"source_call_id", "source_channel", "generated_at", "test_case_id"}

  /** The decoded test case with its source fields set from the transcript at time `now`. */
  function Stamped(decoded: Record, transcript: Record, now: string): Record {
    decoded["source_call_id" := Get(transcript, "call_id", Str("Unknown"))]
           ["source_channel" := Get(transcript, "channel", Str("Unknown"))]
           ["generated_at" := Str(now)]
  }

  /**
   * `_parse_ai_response` at time `now`: the decoded test case with its
   * source fields set from the transcript and, when it has no truthy
   * `test_case_id`, the fallback id. Any error (no braces, undecodable
   * JSON, a decoded value that is not an object, a channel that cannot be
   * sliced and upper-cased) gives None.
   */
  function AiTestCase(reply: string, transcript: Record, index: nat, parse: string -> Option<Value>, now: string): Option<Record>
  {
    match Decoded(reply, parse)
    case None => None
    case Some(decoded) => Completed(decoded, transcript, index, now)
  }

  /** The decoded test case stamped with its source fields and given the fallback id when it has no truthy one. */
  function Completed(decoded: Record, transcript: Record, index: nat, now: string): Option<Record> {
    var testCase := Stamped(decoded, transcript, now);
    if Truthy(Get(testCase, "test_case_id", Null)) then Some(testCase)
    else
      var channel := Get(transcript, "channel", Str("UNK"));
      if channel.Str? then Some(testCase["test_case_id" := Str(FallbackId(channel.s, index))])
      else None
  }

  /**
   * What `_parse_ai_response` promises: nothing without a decoded object;
   * otherwise the decoded keys plus the three source fields and the id,
   * every other decoded value unchanged, the source fields copied from the
   * transcript, and a truthy `test_case_id`.
   */
  lemma ParsedCaseShape(reply: string, transcript: Record, index: nat, parse: string -> Option<Value>, now: string)
    ensures var r := AiTestCase(reply, transcript, index, parse, now);
      var decoded := Decoded(reply, parse);
      (decoded.None? ==> r.None?) &&
      (r.Some? ==> decoded.Some? && r.value.Keys == decoded.value.Keys + AddedKeys) &&
      (r.Some? ==> forall k :: k in decoded.value && k !in AddedKeys ==> r.value[k] == decoded.value[k]) &&
      (r.Some? ==> (r.value["source_call_id"] == Get(transcript, "call_id", Str("Unknown")) &&
        r.value["source_channel"] == Get(transcript, "channel", Str("Unknown")) &&
        r.value["generated_at"] == Str(now))) &&
      (r.Some? ==> Truthy(r.value["test_case_id"]))
  {
    match Decoded(reply, parse)
    case None =>
    case Some(decoded) => CompletedShape(decoded, transcript, index, now);
  }

  /** The completed case keeps every decoded value but the four it sets, and its id is truthy. */
  lemma CompletedShape(decoded: Record, transcript: Record, index: nat, now: string)
    ensures var r := Completed(decoded, transcript, index, now);
      (r.Some? ==> r.value.Keys == decoded.Keys + AddedKeys) &&
      (r.Some? ==> forall k :: k in decoded && k !in AddedKeys ==> r.value[k] == decoded[k]) &&
      (r.Some? ==> (r.value["source_call_id"] == Get(transcript, "call_id", Str("Unknown")) &&
        r.value["source_channel"] == Get(transcript, "channel", Str("Unknown")) &&
        r.value["generated_at"] == Str(now))) &&
      (r.Some? ==> Truthy(r.value["test_case_id"]))
  {
    var testCase := Stamped(decoded, transcript, now);
    assert testCase.Keys == decoded.Keys + {"source_call_id", "source_channel", "generated_at"};
    var channel := Get(transcript, "channel", Str("UNK"));
    if !Truthy(Get(testCase, "test_case_id", Null)) && channel.Str? {
      assert Truthy(Str(FallbackId(channel.s, index)));
    }
  }

  /**
   * The id: a truthy `test_case_id` from the model is kept; otherwise the
   * fallback id is built from the transcript's channel ("UNK" when it has
   * none), and the reply is dropped when that channel is not text.
   */
  lemma IdKeptOrFilled(reply: string, transcript: Record, index: nat, parse: string -> Option<Value>, now: string)
    requires Decoded(reply, parse).Some?
    ensures var decoded := Decoded(reply, parse).value;
      var channel := Get(transcript, "channel", Str("UNK"));
      var r := AiTestCase(reply, transcript, index, parse, now);
      (Truthy(Get(decoded, "test_case_id", Null)) ==> r.Some? && r.value["test_case_id"] == decoded["test_case_id"]) &&
      (!Truthy(Get(decoded, "test_case_id", Null)) && channel.Str? ==>
        r.Some? && r.value["test_case_id"] == Str(FallbackId(channel.s, index))) &&
      (!Truthy(Get(decoded, "test_case_id", Null)) && !channel.Str? ==> r.None?)
  {
  }

  /** `_parse_ai_response`: the decoded dict is updated in place, key by key. */
  method ParseAiResponse(reply: string, transcript: Record, index: nat, parse: string -> Option<Value>, now: string)
    returns (r: Option<Record>)
    ensures r == AiTestCase(reply, transcript, index, parse, now)
  {
    var response := Strip(reply);
    var start := Find(response, "{");
    var end := RFind(response, "}") + 1;
    if !(start >= 0 && end > start) {
      assert ReplySpan(reply) == None;
      return None;
    }
    assert ReplySpan(reply) == Some(response[start..end]);
    var decoded := parse(response[start..end]);
    if !(decoded.Some? && decoded.value.Obj?) {
      assert Decoded(reply, parse) == None;
      return None;
    }
    assert Decoded(reply, parse) == Some(decoded.value.fields);
    assert AiTestCase(reply, transcript, index, parse, now) == Completed(decoded.value.fields, transcript, index, now);
    var testCase := decoded.value.fields;
    testCase := testCase["source_call_id" := Get(transcript, "call_id", Str("Unknown"))];
    testCase := testCase["source_channel" := Get(transcript, "channel", Str("Unknown"))];
    testCase := testCase["generated_at" := Str(now)];
    assert testCase == Stamped(decoded.value.fields, transcript, now);
    ghost var expected := Completed(decoded.value.fields, transcript, index, now);
    if !Truthy(Get(testCase, "test_case_id", Null)) {
      var channel := Get(transcript, "channel", Str("UNK"));
      if !channel.Str? {
        assert expected == None;
        return None;
      }
      var channelShort := UpperStr(Take(channel.s, 3));
      assert "TC_" + channelShort + "_" + Pad3(index) == FallbackId(channel.s, index);
      testCase := testCase["test_case_id" := Str("TC_" + channelShort + "_" + Pad3(index))];
      assert expected == Some(testCase);
    } else {
      assert expected == Some(testCase);
    }
    return Some(testCase);
  }

  // ----------------------------------------------------------- generation

  /**
   * `_generate_single_test_case`: prompt, model call, reply parsing; a
   * prompt that cannot be built or a failed call gives None.
   */
  function SingleCase(transcript: Record, index: nat, api: string -> Option<string>,
                      parse: string -> Option<Value>, now: string): Option<Record>
  {
    match TestCasePrompt(transcript)
    case Failure(_) => None
    case Ok(prompt) =>
      match api(prompt)
      case None => None
      case Some(reply) => AiTestCase(reply, transcript, index, parse, now)
  }

  /** `_generate_single_test_case` as a function of the transcript and its number. */
  function Producer(api: string -> Option<string>, parse: string -> Option<Value>, now: string): (Record, nat) -> Option<Record> {
    (t: Record, n: nat) => SingleCase(t, n, api, parse, now)
  }

  /**
   * The test cases `produce` makes from some transcripts, each numbered
   * from 1 by its position, in order; failures and transcripts that are
   * not objects are skipped.
   */
  function Collected(transcripts: seq<Value>, produce: (Record, nat) -> Option<Record>): seq<Record> {
    if transcripts == [] then []
    else
      var last := transcripts[|transcripts| - 1];
      var produced := if last.Obj? then produce(last.fields, |transcripts|) else None;
      Collected(transcripts[..|transcripts| - 1], produce)
        + (if produced.Some? && produced.value != map[] then [produced.value] else [])
  }

  /** The 0-based positions of the transcripts that produced a case. */
  function Sources(transcripts: seq<Value>, produce: (Record, nat) -> Option<Record>): seq<nat> {
    if transcripts == [] then []
    else
      var last := transcripts[|transcripts| - 1];
      var produced := if last.Obj? then produce(last.fields, |transcripts|) else None;
      Sources(transcripts[..|transcripts| - 1], produce)
        + (if produced.Some? && produced.value != map[] then [|transcripts| - 1] else [])
  }

  /**
   * The generated cases keep transcript order: the k-th case comes from the
   * transcript at the k-th of strictly increasing positions, produced with
   * that transcript's 1-based number, and is not empty; and every object
   * transcript whose step produces a non-empty case is one of the sources.
   */
  lemma {:induction false} CollectedInOrder(transcripts: seq<Value>, produce: (Record, nat) -> Option<Record>)
    ensures var cases := Collected(transcripts, produce);
      var sources := Sources(transcripts, produce);
      |sources| == |cases| <= |transcripts| &&
      (forall k :: 0 <= k < |sources| ==> sources[k] < |transcripts|) &&
      (forall k, l :: 0 <= k < l < |sources| ==> sources[k] < sources[l]) &&
      (forall k :: 0 <= k < |sources| ==> (transcripts[sources[k]].Obj? &&
        produce(transcripts[sources[k]].fields, sources[k] + 1) == Some(cases[k]) && cases[k] != map[])) &&
      (forall i :: (0 <= i < |transcripts| && transcripts[i].Obj? &&
                    produce(transcripts[i].fields, i + 1).Some? && produce(transcripts[i].fields, i + 1).value != map[]) ==>
        i in sources)
  {
    if transcripts != [] {
      var init := transcripts[..|transcripts| - 1];
      CollectedInOrder(init, produce);
      assert forall i :: 0 <= i < |init| ==> init[i] == transcripts[i];
    }
  }

  /** One more transcript appends at most its own case. */
  lemma CollectedStep(transcripts: seq<Value>, i: nat, produce: (Record, nat) -> Option<Record>)
    requires i < |transcripts| && transcripts[i].Obj?
    ensures var produced := produce(transcripts[i].fields, i + 1);
      Collected(transcripts[..i + 1], produce) == Collected(transcripts[..i], produce)
        + (if produced.Some? && produced.value != map[] then [produced.value] else [])
  {
    assert transcripts[..i + 1][..i] == transcripts[..i];
  }

  /** `_generate_single_test_case`, with the model call as `api`. */
  method GenerateSingleTestCase(transcript: Record, index: nat, api: string -> Option<string>,
                                parse: string -> Option<Value>, now: string) returns (r: Option<Record>)
    ensures r == SingleCase(transcript, index, api, parse, now)
  {
    var prompt := TestCasePrompt(transcript);
    if prompt.Failure? {
      return None;
    }
    var reply := api(prompt.value);
    if reply.None? {
      return None;
    }
    r := ParseAiResponse(reply.value, transcript, index, parse, now);
  }

  /**
   * The collect loop of `generate_test_cases` over the single-case step
   * `produce`: every transcript is tried in turn; a case is appended and
   * counted when one is produced. A transcript that is not an object fails
   * the whole run (its `.get` raises outside the per-transcript handler);
   * otherwise the run succeeds exactly when at least one case was produced.
   */
  method CollectTestCases(transcripts: seq<Value>, produce: (Record, nat) -> Option<Record>)
    returns (r: Option<seq<Record>>)
    ensures (exists i :: 0 <= i < |transcripts| && !transcripts[i].Obj?) ==> r.None?
    ensures (forall i :: 0 <= i < |transcripts| ==> transcripts[i].Obj?) ==>
      var cases := Collected(transcripts, produce);
      r == if cases == [] then None else Some(cases)
  {
    var generated: seq<Record> := [];
    var successes := 0;
    var i := 0;
    while i < |transcripts|
      invariant i <= |transcripts|
      invariant forall j :: 0 <= j < i ==> transcripts[j].Obj?
      invariant generated == Collected(transcripts[..i], produce)
      invariant successes == |generated|
    {
      var transcript := transcripts[i];
      if !transcript.Obj? {
        return None;
      }
      CollectedStep(transcripts, i, produce);
      var testCase := produce(transcript.fields, i + 1);
      if testCase.Some? && testCase.value != map[] {
        generated := generated + [testCase.value];
        successes := successes + 1;
      }
      i := i + 1;
    }
    assert transcripts[..i] == transcripts;
    if generated == [] {
      return None;
    }
    return Some(generated);
  }

  /** `generate_test_cases`, with the model call as `api` and `json.loads` as `parse`. */
  method GenerateTestCases(transcripts: seq<Value>, api: string -> Option<string>,
                           parse: string -> Option<Value>, now: string) returns (r: Option<seq<Record>>)
    ensures (exists i :: 0 <= i < |transcripts| && !transcripts[i].Obj?) ==> r.None?
    ensures (forall i :: 0 <= i < |transcripts| ==> transcripts[i].Obj?) ==>
      var cases := Collected(transcripts, Producer(api, parse, now));
      r == if cases == [] then None else Some(cases)
  {
    r := CollectTestCases(transcripts, Producer(api, parse, now));
  }
}
