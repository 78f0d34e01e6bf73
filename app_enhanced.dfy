/**
 * The statistics of the enhanced Flask app in web_app/app_enhanced.py:
 * the integer counts `calculate_enhanced_statistics` reports about the
 * generated test cases and the conversations attached to them.
 */
module AppEnhanced {
  import opened Wrappers
  import opened Json
  import opened Tally

  /**
   * The integer statistics: total, High and Critical priorities, distinct
   * channels, cases with a conversation, questions asked, and the
   * automation and edge-case questions among them.
   */
  datatype EnhancedStats = EnhancedStats(
    total: nat, highPriority: nat, criticalPriority: nat, channels: nat,
    casesWithConversations: nat, totalQuestions: nat, automationQuestions: nat, edgeCaseQuestions: nat)

  /** What an empty list of test cases reports. */
  const NoStats := EnhancedStats(0, 0, 0, 0, 0, 0, 0, 0)

  /**
   * The history the loop walks for one test case: its
   * `conversation_history`, read from `conversational_data` (an empty dict
   * when missing), or nothing when the history is falsy. A
   * `conversational_data` that is not a dict has no `get`; a truthy history
   * that is not a list either has no `len` or yields items without `get`.
   */
  function History(tc: Record): Result<seq<Value>> {
    var convData := Get(tc, "conversational_data", Obj(map[]));
    if !convData.Obj? then Failure("AttributeError: conversational_data has no get")
    else
      var conversations := Get(convData.fields, "conversation_history", Arr([]));
      if !Truthy(conversations) then Ok([])
      else if conversations.Arr? then Ok(conversations.items)
      else Failure("conversation_history is not a list")
  }

  /** The automation and edge-case questions of a history; an entry that is not a dict has no `get`. */
  function TypeCounts(convs: seq<Value>): Result<(nat, nat)>
    decreases |convs|
  {
    if convs == [] then Ok((0, 0))
    else
      match TypeCounts(convs[..|convs| - 1])
      case Failure(e) => Failure(e)
      case Ok(counts) =>
        var conv := convs[|convs| - 1];
        if !conv.Obj? then Failure("AttributeError: conversation has no get")
        else
          var qType := Get(conv.fields, "question_type", Str(""));
          Ok((counts.0 + (if qType == Str("automation") then 1 else 0),
              counts.1 + (if qType == Str("edge_case") then 1 else 0)))
  }

  /** The conversation counters of the loop. */
  datatype Tallies = Tallies(cases: nat, questions: nat, automation: nat, edgeCases: nat)

  /** One pass of the loop body: the counters after test case `tc`. */
  function TallyCase(t: Tallies, tc: Record): Result<Tallies> {
    match History(tc)
    case Failure(e) => Failure(e)
    case Ok(convs) =>
      if convs == [] then Ok(t)
      else
        match TypeCounts(convs)
        case Failure(e) => Failure(e)
        case Ok(counts) => Ok(Tallies(t.cases + 1, t.questions + |convs|, t.automation + counts.0, t.edgeCases + counts.1))
  }

  /** The conversation counters after the loop has run over `tcs`. */
  function ConversationTallies(tcs: seq<Record>): Result<Tallies>
    decreases |tcs|
  {
    if tcs == [] then Ok(Tallies(0, 0, 0, 0))
    else
      match ConversationTallies(tcs[..|tcs| - 1])
      case Failure(e) => Failure(e)
      case Ok(t) => TallyCase(t, tcs[|tcs| - 1])
  }

  /**
   * `calculate_enhanced_statistics` on its integer fields: all zero for no
   * test cases; otherwise the priority counts (exact 'High' and 'Critical'),
   * the number of distinct `source_channel` values ('Unknown' when missing;
   * a list or dict cannot go into the set) and the conversation counters.
   */
  function EnhancedStatistics(tcs: seq<Record>): Result<EnhancedStats> {
    if tcs == [] then Ok(NoStats)
    else
      var priorities := Column(tcs, "priority", Null);
      var channels := Column(tcs, "source_channel", Str("Unknown"));
      if !AllHashable(channels) then Failure("TypeError: unhashable source_channel")
      else
        match ConversationTallies(tcs)
        case Failure(e) => Failure(e)
        case Ok(t) =>
          Ok(EnhancedStats(|tcs|, Occ(priorities, Str("High")), Occ(priorities, Str("Critical")), |Distinct(channels)|,
                           t.cases, t.questions, t.automation, t.edgeCases))
  }

  /** Once a prefix of a history fails, the whole history fails. */
  lemma {:induction false} TypeCountsFailureStays(convs: seq<Value>, n: nat)
    requires n <= |convs| && TypeCounts(convs[..n]).Failure?
    ensures TypeCounts(convs).Failure?
    decreases |convs| - n
  {
    if n < |convs| {
      assert convs[..n + 1][..n] == convs[..n];
      TypeCountsFailureStays(convs, n + 1);
    } else {
      assert convs[..n] == convs;
    }
  }

  /** The only way a history's count fails is an entry that is not a dict. */
  lemma {:induction false} TypeCountsError(convs: seq<Value>)
    ensures TypeCounts(convs).Failure? ==> TypeCounts(convs).error == "AttributeError: conversation has no get"
    decreases |convs|
  {
    if convs != [] {
      TypeCountsError(convs[..|convs| - 1]);
    }
  }

  /** Once a prefix of the test cases fails, the whole loop fails. */
  lemma {:induction false} TalliesFailureStays(tcs: seq<Record>, n: nat)
    requires n <= |tcs| && ConversationTallies(tcs[..n]).Failure?
    ensures ConversationTallies(tcs).Failure?
    decreases |tcs| - n
  {
    if n < |tcs| {
      assert tcs[..n + 1][..n] == tcs[..n];
      TalliesFailureStays(tcs, n + 1);
    } else {
      assert tcs[..n] == tcs;
    }
  }

  /** The loop over one more test case adds that case's history on top of the counters so far. */
  lemma TalliesNext(tcs: seq<Record>, i: nat)
    requires i < |tcs|
    ensures ConversationTallies(tcs[..i + 1]) ==
      match ConversationTallies(tcs[..i])
      case Failure(e) => Failure(e)
      case Ok(t) => TallyCase(t, tcs[i])
  {
    assert tcs[..i + 1][..i] == tcs[..i];
  }

  /** The inner loop over one history, adding its automation and edge-case questions to the running counts. */
  method CountQuestionTypes(convs: seq<Value>, automation: nat, edgeCases: nat)
    returns (r: Result<(nat, nat)>)
    ensures r.Failure? <==> TypeCounts(convs).Failure?
    ensures r.Failure? ==> r.error == "AttributeError: conversation has no get"
    ensures r.Ok? ==> r.value == (automation + TypeCounts(convs).value.0, edgeCases + TypeCounts(convs).value.1)
  {
    var automationQs: nat := automation;
    var edgeCaseQs: nat := edgeCases;
    var j := 0;
    while j < |convs|
      invariant j <= |convs|
      invariant TypeCounts(convs[..j]).Ok?
      invariant automationQs == automation + TypeCounts(convs[..j]).value.0
      invariant edgeCaseQs == edgeCases + TypeCounts(convs[..j]).value.1
    {
      var conv := convs[j];
      assert convs[..j + 1][..j] == convs[..j];
      if !conv.Obj? {
        TypeCountsFailureStays(convs, j + 1);
        return Failure("AttributeError: conversation has no get");
      }
      var qType := Get(conv.fields, "question_type", Str(""));
      if qType == Str("automation") {
        automationQs := automationQs + 1;
      } else if qType == Str("edge_case") {
        edgeCaseQs := edgeCaseQs + 1;
      }
      j := j + 1;
    }
    assert convs[..j] == convs;
    return Ok((automationQs, edgeCaseQs));
  }

  /** The body of the outer loop for one test case, its inner loop included. */
  method CountCase(t: Tallies, tc: Record) returns (r: Result<Tallies>)
    ensures r == TallyCase(t, tc)
  {
    var history := History(tc);
    if history.Failure? {
      return Failure(history.error);
    }
    var conversations := history.value;
    if conversations == [] {
      return Ok(t);
    }
    var counted := CountQuestionTypes(conversations, t.automation, t.edgeCases);
    if counted.Failure? {
      TypeCountsError(conversations);
      return Failure(counted.error);
    }
    return Ok(Tallies(t.cases + 1, t.questions + |conversations|, counted.value.0, counted.value.1));
  }

  /** The outer loop of `calculate_enhanced_statistics`: the conversation counters over all test cases. */
  method CountConversations(tcs: seq<Record>) returns (r: Result<Tallies>)
    ensures r == ConversationTallies(tcs)
  {
    var tallies := Tallies(0, 0, 0, 0);
    var i := 0;
    while i < |tcs|
      invariant i <= |tcs|
      invariant ConversationTallies(tcs[..i]) == Ok(tallies)
    {
      TalliesNext(tcs, i);
      var next := CountCase(tallies, tcs[i]);
      if next.Failure? {
        TalliesFailureStays(tcs, i + 1);
        return ConversationTallies(tcs);
      }
      tallies := next.value;
      i := i + 1;
    }
    assert tcs[..i] == tcs;
    return Ok(tallies);
  }

  /** `calculate_enhanced_statistics`, its integer fields. */
  method CalculateEnhancedStatistics(tcs: seq<Record>) returns (r: Result<EnhancedStats>)
    ensures r == EnhancedStatistics(tcs)
  {
    if |tcs| == 0 {
      return Ok(NoStats);
    }
    var priorities := Column(tcs, "priority", Null);
    var channels := Column(tcs, "source_channel", Str("Unknown"));
    if !AllHashable(channels) {
      return Failure("TypeError: unhashable source_channel");
    }
    var tallies := CountConversations(tcs);
    if tallies.Failure? {
      return Failure(tallies.error);
    }
    var t := tallies.value;
    return Ok(EnhancedStats(|tcs|, Occ(priorities, Str("High")), Occ(priorities, Str("Critical")), |Distinct(channels)|,
                            t.cases, t.questions, t.automation, t.edgeCases));
  }

  /** A history has at least as many questions as automation and edge-case ones together. */
  lemma {:induction false} TypeCountsBound(convs: seq<Value>)
    requires TypeCounts(convs).Ok?
    ensures TypeCounts(convs).value.0 + TypeCounts(convs).value.1 <= |convs|
    decreases |convs|
  {
    if convs != [] {
      TypeCountsBound(convs[..|convs| - 1]);
    }
  }

  /**
   * The conversation counters: no more cases with a conversation than test
   * cases, each of them with at least one question, and no more automation
   * and edge-case questions together than questions.
   */
  lemma {:induction false} TalliesBounds(tcs: seq<Record>)
    requires ConversationTallies(tcs).Ok?
    ensures var t := ConversationTallies(tcs).value;
      t.cases <= |tcs| && t.cases <= t.questions && t.automation + t.edgeCases <= t.questions
    decreases |tcs|
  {
    if tcs != [] {
      TalliesBounds(tcs[..|tcs| - 1]);
      var h := History(tcs[|tcs| - 1]);
      if h.Ok? && h.value != [] {
        TypeCountsBound(h.value);
      }
    }
  }

  /**
   * The statistics of a non-empty list: the total is its length; High and
   * Critical together are at most the total; there are between one and
   * total distinct channels; and the conversation counters are bounded as
   * `TalliesBounds` states. An empty list reports all zeros.
   */
  lemma EnhancedStatisticsBounds(tcs: seq<Record>)
    requires EnhancedStatistics(tcs).Ok?
    ensures tcs == [] ==> EnhancedStatistics(tcs).value == NoStats
    ensures var s := EnhancedStatistics(tcs).value;
      s.total == |tcs| &&
      s.highPriority + s.criticalPriority <= s.total &&
      (tcs != [] ==> 1 <= s.channels) && s.channels <= s.total &&
      s.casesWithConversations <= s.total && s.casesWithConversations <= s.totalQuestions &&
      s.automationQuestions + s.edgeCaseQuestions <= s.totalQuestions
  {
    if tcs != [] {
      TalliesBounds(tcs);
      OccOfTwo(Column(tcs, "priority", Null), Str("High"), Str("Critical"));
      DistinctBounds(Column(tcs, "source_channel", Str("Unknown")));
    }
  }
}
