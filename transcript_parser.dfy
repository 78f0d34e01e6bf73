/**
 * The transcript segmenter and field extractor of src/transcript_parser.py:
 * a document is split into call sections by the separator pattern that
 * yields the most long sections, and each section becomes one record of
 * first-match-wins extractions (call id, channel, labelled fields and the
 * conversation body).
 */
module TranscriptParser {
  import opened Wrappers
  import opened Text
  import opened Json
  import opened Regex

  // ------------------------------------------------------------ segmenting

  /** The separator patterns in the order they are tried. */
  const Separators: seq<Matcher> :=
    [Compile(CallMarker), Compile(TwMarker), Compile(SectionMarker), Compile(EqualsRule),
     Compile(DashRule), Compile(TranscriptMarker), Compile(ChannelHeader)]

  /** The trimmed pieces longer than 300 characters, in order. */
  function LongPieces(pieces: seq<string>): (r: seq<string>)
    ensures |r| <= |pieces|
  {
    if pieces == [] then []
    else
      var s := Strip(pieces[0]);
      (if |s| > 300 then [s] else []) + LongPieces(pieces[1..])
  }

  /** Every kept piece is trimmed and over 300 characters long. */
  lemma {:induction false} LongPiecesAreLong(pieces: seq<string>)
    ensures forall k :: 0 <= k < |LongPieces(pieces)| ==>
      |LongPieces(pieces)[k]| > 300 && Trimmed(LongPieces(pieces)[k])
  {
    if pieces != [] {
      LongPiecesAreLong(pieces[1..]);
    }
  }

  /** The sections one separator pattern would give. */
  function Candidate(separator: Matcher, content: string): seq<string> {
    LongPieces(Split(separator, content))
  }

  /** The sections each separator gives by `candidate`, in the order the separators are tried. */
  function CandidatesBy(candidate: (Matcher, string) -> seq<string>, separators: seq<Matcher>, content: string)
    : (cs: seq<seq<string>>)
    ensures |cs| == |separators|
  {
    seq(|separators|, j requires 0 <= j < |separators| => candidate(separators[j], content))
  }

  /** The sections each separator would give, in the order the separators are tried. */
  function Candidates(separators: seq<Matcher>, content: string): (cs: seq<seq<string>>) {
    CandidatesBy(Candidate, separators, content)
  }

  /**
   * The running best after trying the first `n` candidate splits: the
   * sections kept so far and the index of the split that gave them.
   */
  function BestOf(cands: seq<seq<string>>, n: nat): (seq<string>, Option<nat>)
    requires n <= |cands|
  {
    if n == 0 then ([], None)
    else
      var prev := BestOf(cands, n - 1);
      if |cands[n - 1]| > |prev.0| then (cands[n - 1], Some(n - 1)) else prev
  }

  /** The best split over all separators. */
  function Best(separators: seq<Matcher>, content: string): (seq<string>, Option<nat>) {
    BestOf(Candidates(separators, content), |separators|)
  }

  /** The best of the candidate splits, or the whole document when every candidate is empty. */
  function SectionsOf(cands: seq<seq<string>>, content: string): seq<string> {
    var best := BestOf(cands, |cands|).0;
    if best == [] then [content] else best
  }

  /** The sections the document is parsed as: the best split, or the whole document. */
  function Sections(separators: seq<Matcher>, content: string): seq<string> {
    SectionsOf(Candidates(separators, content), content)
  }

  /**
   * The chosen split has the most sections of any candidate; it is the
   * earliest candidate reaching that count; and nothing is chosen only when
   * every candidate is empty.
   */
  lemma {:induction false} BestOfIsMaximal(cands: seq<seq<string>>, n: nat)
    requires n <= |cands|
    ensures forall j :: 0 <= j < n ==> |cands[j]| <= |BestOf(cands, n).0|
    ensures BestOf(cands, n).1.None? ==> BestOf(cands, n).0 == []
    ensures BestOf(cands, n).1.Some? ==>
      var k := BestOf(cands, n).1.value;
      k < n && BestOf(cands, n).0 == cands[k] &&
      forall j :: 0 <= j < k ==> |cands[j]| < |BestOf(cands, n).0|
  {
    if n > 0 {
      BestOfIsMaximal(cands, n - 1);
    }
  }

  /**
   * The separator loop: keeps a pattern's split only when it beats the
   * current best; `candidate` is the split-and-filter of one pattern
   * (Candidate, in the parser).
   */
  method SplitSections(separators: seq<Matcher>, content: string, candidate: (Matcher, string) -> seq<string>)
    returns (calls: seq<string>, best: Option<nat>)
    ensures calls == SectionsOf(CandidatesBy(candidate, separators, content), content)
    ensures best == BestOf(CandidatesBy(candidate, separators, content), |separators|).1
  {
    ghost var cands := CandidatesBy(candidate, separators, content);
    calls := [];
    best := None;
    var i := 0;
    while i < |separators|
      invariant 0 <= i <= |separators|
      invariant calls == BestOf(cands, i).0 && best == BestOf(cands, i).1
    {
      var valid := candidate(separators[i], content);
      if |valid| > |calls| {
        calls := valid;
        best := Some(i);
      }
      i := i + 1;
    }
    if calls == [] {
      calls := [content];
    }
  }

  // -------------------------------------------------------------- records

  datatype ParsedCall = ParsedCall(
    callId: string,
    channel: string,
    date: string,
    category: string,
    severity: string,
    journeyType: string,
    transcript: string,
    resolution: string,
    impact: string,
    rootCause: string,
    rawTextLength: nat)

  /** The record as the JSON object written to the parsed-transcripts file. */
  function AsRecord(c: ParsedCall): (r: Record)
    ensures r.Keys == {"call_id", "channel", "date", "category", "severity", "journey_type",
                       "transcript", "resolution", "impact", "root_cause", "raw_text_length"}
  {
    map["call_id" := Str(c.callId), "channel" := Str(c.channel), "date" := Str(c.date),
        "category" := Str(c.category), "severity" := Str(c.severity),
        "journey_type" := Str(c.journeyType), "transcript" := Str(c.transcript),
        "resolution" := Str(c.resolution), "impact" := Str(c.impact),
        "root_cause" := Str(c.rootCause), "raw_text_length" := Int(c.rawTextLength)]
  }

  /** A section the parser keeps: at least 100 characters once trimmed. */
  predicate Substantial(section: string) {
    |Strip(section)| >= 100
  }

  /**
   * The records of the first `n` sections, each parsed by `parse` with its
   * 1-based section number; a section is skipped unless `keep` holds of it.
   */
  function ParseKept<T>(calls: seq<string>, n: nat, keep: string -> bool, parse: (string, nat) -> T): seq<T>
    requires n <= |calls|
  {
    if n == 0 then []
    else
      ParseKept(calls, n - 1, keep, parse) + (if keep(calls[n - 1]) then [parse(calls[n - 1], n)] else [])
  }

  /** When every section is kept, every section gives a record, numbered by position. */
  lemma {:induction false} ParseKeptAll<T>(calls: seq<string>, n: nat, keep: string -> bool, parse: (string, nat) -> T)
    requires n <= |calls|
    requires forall k :: 0 <= k < n ==> keep(calls[k])
    ensures |ParseKept(calls, n, keep, parse)| == n
    ensures forall k :: 0 <= k < n ==> ParseKept(calls, n, keep, parse)[k] == parse(calls[k], k + 1)
  {
    if n > 0 {
      ParseKeptAll(calls, n - 1, keep, parse);
    }
  }

  /** The records of a whole document: every kept section, parsed with its section number. */
  function ParseSections<T>(separators: seq<Matcher>, content: string, parse: (string, nat) -> T): seq<T> {
    ParseKept(Sections(separators, content), |Sections(separators, content)|, Substantial, parse)
  }

  /**
   * When some separator gives sections, each of them is kept (they are over
   * 300 characters once trimmed) and becomes the record at its position.
   */
  lemma SplitSectionsAllKept<T>(separators: seq<Matcher>, content: string, parse: (string, nat) -> T)
    requires Best(separators, content).0 != []
    ensures |ParseSections(separators, content, parse)| == |Sections(separators, content)|
    ensures forall k :: 0 <= k < |Sections(separators, content)| ==>
      ParseSections(separators, content, parse)[k] == parse(Sections(separators, content)[k], k + 1)
  {
    BestOfIsMaximal(Candidates(separators, content), |separators|);
    var calls := Sections(separators, content);
    var k0 := Best(separators, content).1.value;
    assert calls == Candidates(separators, content)[k0] == Candidate(separators[k0], content);
    LongPiecesAreLong(Split(separators[k0], content));
    forall k | 0 <= k < |calls| ensures Substantial(calls[k]) {
      StripOfTrimmed(calls[k]);
    }
    ParseKeptAll(calls, |calls|, Substantial, parse);
  }

  /**
   * When no separator gives a section, the whole untrimmed document is the
   * only section, and it is dropped when its trimmed text is under 100
   * characters.
   */
  lemma WholeDocumentFallback<T>(separators: seq<Matcher>, content: string, parse: (string, nat) -> T)
    requires Best(separators, content).0 == []
    ensures ParseSections(separators, content, parse) == (if Substantial(content) then [parse(content, 1)] else [])
  {
    var calls := Sections(separators, content);
    assert calls == [content];
    assert ParseKept(calls, 1, Substantial, parse) ==
      ParseKept(calls, 0, Substantial, parse) + (if Substantial(calls[0]) then [parse(calls[0], 1)] else []);
    assert ParseSections(separators, content, parse) == ParseKept(calls, 1, Substantial, parse);
  }

  /**
   * The loop over the sections: each section that passes the length test
   * `keep` (Substantial, in the parser) is parsed with its 1-based number.
   */
  method ParseEachSection<T>(calls: seq<string>, keep: string -> bool, parse: (string, nat) -> T)
    returns (records: seq<T>)
    ensures records == ParseKept(calls, |calls|, keep, parse)
  {
    records := [];
    var i := 0;
    while i < |calls|
      invariant 0 <= i <= |calls|
      invariant records == ParseKept(calls, i, keep, parse)
    {
      var callText := calls[i];
      if keep(callText) {
        records := records + [parse(callText, i + 1)];
      }
      i := i + 1;
    }
  }

  /** Splits a document into sections and parses each kept section, numbering sections from 1. */
  method ParseTextContent(content: string) returns (records: seq<ParsedCall>)
    ensures records == ParseSections(Separators, content, ParseSingleCall)
  {
    var calls, _ := SplitSections(Separators, content, Candidate);
    records := ParseEachSection(calls, Substantial, ParseSingleCall);
  }

  // ------------------------------------------------------------- call ids

  /** The channel token of a generated id: the first keyword group found in the lower-cased text. */
  function IdToken(text: string): (tok: string)
    ensures tok in {"TASORA", "WEB", "APP", "TARGET", "SMS", "UNKNOWN"}
  {
    if ContainsCI(text, "tasora") then "TASORA"
    else if ContainsCI(text, "web") || ContainsCI(text, "portal") then "WEB"
    else if ContainsCI(text, "app") || ContainsCI(text, "mobile") then "APP"
    else if ContainsCI(text, "target") then "TARGET"
    else if ContainsCI(text, "sms") || ContainsCI(text, "bot") then "SMS"
    else "UNKNOWN"
  }

  /** The id taken from a `Call ...` or `ID: ...` match: the whole match when it holds TW_, else TW_ and the group. */
  function IdFromMatch(text: string, m: GroupMatch): string
    requires ValidGroupMatch(text, m)
  {
    var whole := text[m.start..m.end];
    if Contains(UpperStr(whole), "TW_") then whole else "TW_" + GroupText(text, m)
  }

  /** The id generated when no id pattern matches. */
  function GeneratedId(text: string, callNumber: nat): string {
    "TW_" + IdToken(text) + "_" + Pad3(callNumber)
  }

  /** The call id: the first id pattern that matches wins; otherwise one is generated from the text. */
  function ExtractCallId(text: string, callNumber: nat): (id: string)
    ensures Contains(UpperStr(id), "TW_")
    ensures (Search(Compile(TwMarker), text).None? && SearchGroup(CompileGroup(CallReference), text).None? &&
             SearchGroup(CompileGroup(IdLabel), text).None?) ==> id == GeneratedId(text, callNumber)
  {
    match Search(Compile(TwMarker), text)
    case Some(m) =>
      TwMatchCarriesPrefix(text, m.0, m.1);
      text[m.0..m.1]
    case None =>
      match SearchGroup(CompileGroup(CallReference), text)
      case Some(m) => IdFromMatchCarriesPrefix(text, m); IdFromMatch(text, m)
      case None =>
        match SearchGroup(CompileGroup(IdLabel), text)
        case Some(m) => IdFromMatchCarriesPrefix(text, m); IdFromMatch(text, m)
        case None => GeneratedCarriesPrefix(text, callNumber); GeneratedId(text, callNumber)
  }

  /** A TW_ marker match passes the `'TW_' in group(0).upper()` test, so its missing group 1 is never read. */
  lemma TwMatchCarriesPrefix(text: string, a: nat, b: nat)
    requires a < b <= |text| && Compile(TwMarker)(text, a) == Some(b)
    ensures Contains(UpperStr(text[a..b]), "TW_")
  {
    var u := UpperStr(text[a..b]);
    assert AtCI(text, a, "tw_");
    assert Lower(text[a + 0]) == "tw_"[0] && Lower(text[a + 1]) == "tw_"[1] && Lower(text[a + 2]) == "tw_"[2];
    assert u[0] == Upper(text[a]) && u[1] == Upper(text[a + 1]) && u[2] == Upper(text[a + 2]);
    assert u[0] == 'T' && u[1] == 'W' && u[2] == '_';
    assert At(u, 0, "TW_");
    ContainsIff(u, "TW_");
  }

  lemma IdFromMatchCarriesPrefix(text: string, m: GroupMatch)
    requires ValidGroupMatch(text, m)
    ensures Contains(UpperStr(IdFromMatch(text, m)), "TW_")
  {
    var whole := text[m.start..m.end];
    if !Contains(UpperStr(whole), "TW_") {
      var id := "TW_" + GroupText(text, m);
      assert At(UpperStr(id), 0, "TW_");
      ContainsIff(UpperStr(id), "TW_");
    }
  }

  lemma GeneratedCarriesPrefix(text: string, callNumber: nat)
    ensures Contains(UpperStr(GeneratedId(text, callNumber)), "TW_")
  {
    var id := GeneratedId(text, callNumber);
    assert At(UpperStr(id), 0, "TW_");
    ContainsIff(UpperStr(id), "TW_");
  }

  // -------------------------------------------------------------- channel

  const Channels: set<string> := {"TASORA", "Web Portal", "Mobile App", "Target", "SMS/Bot/IVR", "Unknown"}

  /** The channel: the first rule that fires, looking at the upper-cased id and the lower-cased text. */
  function ExtractChannel(text: string, callId: string): (c: string)
    ensures c in Channels
  {
    var id := UpperStr(callId);
    if Contains(id, "TASORA") || ContainsCI(text, "tasora") then "TASORA"
    else if Contains(id, "WEB") || ContainsCI(text, "web portal") || ContainsCI(text, "website") then "Web Portal"
    else if Contains(id, "APP") || ContainsCI(text, "mobile app") || ContainsCI(text, "application") then "Mobile App"
    else if Contains(id, "TARGET") || ContainsCI(text, "target") then "Target"
    else if Contains(id, "SMS") || ContainsCI(text, "sms") || ContainsCI(text, "bot") || ContainsCI(text, "ivr") then "SMS/Bot/IVR"
    else "Unknown"
  }

  /** The channel a generated id's token stands for. */
  function TokenChannel(tok: string): string {
    if tok == "TASORA" then "TASORA"
    else if tok == "WEB" then "Web Portal"
    else if tok == "APP" then "Mobile App"
    else if tok == "TARGET" then "Target"
    else if tok == "SMS" then "SMS/Bot/IVR"
    else "Unknown"
  }

  /** A literal whose first `n` characters are the keyword: finding the literal finds the keyword. */
  lemma KeywordOfPhrase(text: string, phrase: string, n: nat)
    requires n <= |phrase|
    ensures ContainsCI(text, phrase) ==> ContainsCI(text, phrase[..n])
  {
    if ContainsCI(text, phrase) {
      ContainsCIIff(text, phrase);
      var j :| 0 <= j <= |text| && AtCI(text, j, phrase);
      assert AtCI(text, j, phrase[..n]);
      ContainsCIIff(text, phrase[..n]);
    }
  }

  /** A generated id holds no keyword with a letter that neither "TW" nor its token has. */
  lemma KeywordNotInId(tok: string, n: nat, w: string, c: char)
    requires forall k :: 0 <= k < |tok| ==> IsUpper(tok[k])
    requires IsUpper(c) && c != 'T' && c != 'W' && c !in tok && c in w
    ensures !Contains(UpperStr("TW_" + tok + "_" + Pad3(n)), w)
  {
    var id := "TW_" + tok + "_" + Pad3(n);
    forall k | 0 <= k < |id| ensures UpperStr(id)[k] != c {
      if 3 <= k < 3 + |tok| {
        assert id[k] == tok[k - 3];
      } else if k > 3 + |tok| {
        assert id[k] == Pad3(n)[k - 4 - |tok|];
      }
    }
    ContainsHasChar(UpperStr(id), w, c);
  }

  /** A generated id holds its own token. */
  lemma TokenInId(tok: string, n: nat)
    requires forall k :: 0 <= k < |tok| ==> IsUpper(tok[k])
    ensures Contains(UpperStr("TW_" + tok + "_" + Pad3(n)), tok)
  {
    var u := UpperStr("TW_" + tok + "_" + Pad3(n));
    assert At(u, 3, tok);
    ContainsIff(u, tok);
  }

  /** The keyword phrases the channel rule looks for in the text each hold an id keyword. */
  lemma PhrasesHoldKeywords(text: string)
    ensures ContainsCI(text, "web portal") || ContainsCI(text, "website") ==> ContainsCI(text, "web")
    ensures ContainsCI(text, "mobile app") ==> ContainsCI(text, "mobile")
    ensures ContainsCI(text, "application") ==> ContainsCI(text, "app")
  {
    KeywordOfPhrase(text, "web portal", 3);
    assert "web portal"[..3] == "web";
    KeywordOfPhrase(text, "website", 3);
    assert "website"[..3] == "web";
    KeywordOfPhrase(text, "mobile app", 6);
    assert "mobile app"[..6] == "mobile";
    KeywordOfPhrase(text, "application", 3);
    assert "application"[..3] == "app";
  }

  /** Token WEB: the id holds WEB and no TASORA, so the channel is Web Portal. */
  lemma WebIdChannel(text: string, n: nat)
    requires IdToken(text) == "WEB"
    ensures ExtractChannel(text, GeneratedId(text, n)) == "Web Portal"
  {
    KeywordNotInId("WEB", n, "TASORA", 'O');
    TokenInId("WEB", n);
  }

  /** Token APP: the text has no web keyword and the id no TASORA or WEB, so the channel is Mobile App. */
  lemma AppIdChannel(text: string, n: nat)
    requires IdToken(text) == "APP"
    ensures ExtractChannel(text, GeneratedId(text, n)) == "Mobile App"
  {
    PhrasesHoldKeywords(text);
    KeywordNotInId("APP", n, "TASORA", 'O');
    KeywordNotInId("APP", n, "WEB", 'E');
    TokenInId("APP", n);
  }

  /** Token TARGET: no earlier rule fires, and the id holds TARGET. */
  lemma TargetIdChannel(text: string, n: nat)
    requires IdToken(text) == "TARGET"
    ensures ExtractChannel(text, GeneratedId(text, n)) == "Target"
  {
    PhrasesHoldKeywords(text);
    KeywordNotInId("TARGET", n, "TASORA", 'O');
    KeywordNotInId("TARGET", n, "WEB", 'B');
    KeywordNotInId("TARGET", n, "APP", 'P');
    TokenInId("TARGET", n);
  }

  /** Token SMS: no earlier rule fires, and the id holds SMS. */
  lemma SmsIdChannel(text: string, n: nat)
    requires IdToken(text) == "SMS"
    ensures ExtractChannel(text, GeneratedId(text, n)) == "SMS/Bot/IVR"
  {
    PhrasesHoldKeywords(text);
    KeywordNotInId("SMS", n, "TASORA", 'O');
    KeywordNotInId("SMS", n, "WEB", 'E');
    KeywordNotInId("SMS", n, "APP", 'A');
    KeywordNotInId("SMS", n, "TARGET", 'A');
    TokenInId("SMS", n);
  }

  /** Token UNKNOWN: only "ivr" in the text can still give a channel. */
  lemma UnknownIdChannel(text: string, n: nat)
    requires IdToken(text) == "UNKNOWN"
    ensures ExtractChannel(text, GeneratedId(text, n)) == if ContainsCI(text, "ivr") then "SMS/Bot/IVR" else "Unknown"
  {
    PhrasesHoldKeywords(text);
    KeywordNotInId("UNKNOWN", n, "TASORA", 'A');
    KeywordNotInId("UNKNOWN", n, "WEB", 'E');
    KeywordNotInId("UNKNOWN", n, "APP", 'A');
    KeywordNotInId("UNKNOWN", n, "TARGET", 'A');
    KeywordNotInId("UNKNOWN", n, "SMS", 'S');
  }

  /**
   * For a generated id the channel is the one its token stands for, except
   * that a text with none of the id keywords but with "ivr" gets token
   * UNKNOWN and channel SMS/Bot/IVR.
   */
  lemma GeneratedIdChannel(text: string, callNumber: nat)
    ensures var tok := IdToken(text);
      ExtractChannel(text, GeneratedId(text, callNumber)) ==
        if tok == "UNKNOWN" && ContainsCI(text, "ivr") then "SMS/Bot/IVR" else TokenChannel(tok)
  {
    var tok := IdToken(text);
    if tok == "WEB" {
      WebIdChannel(text, callNumber);
    } else if tok == "APP" {
      AppIdChannel(text, callNumber);
    } else if tok == "TARGET" {
      TargetIdChannel(text, callNumber);
    } else if tok == "SMS" {
      SmsIdChannel(text, callNumber);
    } else if tok == "UNKNOWN" {
      UnknownIdChannel(text, callNumber);
    }
  }


  // ---------------------------------------------------------------- fields

  /** The value of the first label (in list order) that matches: the trimmed group, or "" when none does. */
  function ExtractField(text: string, labels: seq<Literal>): (r: string)
    ensures OneLine(r)
    ensures Trimmed(r)
    ensures (forall k :: 0 <= k < |labels| ==> !ContainsCI(text, labels[k])) ==> r == ""
  {
    if labels == [] then ""
    else
      match SearchGroup(CompileGroup(Field(labels[0])), text)
      case Some(m) =>
        FieldMatchHasLabel(text, labels[0], m);
        StripOneLine(GroupText(text, m));
        Strip(GroupText(text, m))
      case None => ExtractField(text, labels[1..])
  }

  /** A field match needs its label in the text (in any case), and its group stays on one line. */
  lemma FieldMatchHasLabel(text: string, lit: Literal, m: GroupMatch)
    requires ValidGroupMatch(text, m) && CompileGroup(Field(lit))(text, m.start) == Some(m)
    ensures ContainsCI(text, lit)
    ensures OneLine(GroupText(text, m))
  {
    assert FieldAt(lit, text, m.start) == Some(m);
    FieldLabelAt(text, lit, m);
    assert GroupText(text, m) == LineAt(text, m.groupStart);
    LineAtOneLine(text, m.groupStart);
  }

  lemma FieldLabelAt(text: string, lit: Literal, m: GroupMatch)
    requires m.start <= |text| && FieldAt(lit, text, m.start) == Some(m)
    ensures ContainsCI(text, lit)
  {
    AtLower(text, m.start, lit);
    ContainsIff(LowerStr(text), lit);
  }

  /** When a field label is followed on some line by text, the value is that line's text from its first non-blank character. */
  lemma FieldValueIsLineRest(text: string, lit: Literal, i: nat)
    requires i <= |text| && AtCI(text, i, lit)
    requires RunEnd(text, i + |lit|, Space) < |text|
    ensures var e := RunEnd(text, i + |lit|, Space);
      CompileGroup(Field(lit))(text, i) == Some(GroupMatch(i, RunEnd(text, e, NotNewline), e, RunEnd(text, e, NotNewline)))
  {
  }

  /**
   * The value a label at `i` introduces: the line the first non-blank
   * character after the label stands on (a later line when only line
   * breaks and blanks follow the label), read from that character and
   * stripped; "" when only whitespace follows the label.
   */
  function LabelValue(text: string, lit: Literal, i: nat): string
    requires i + |lit| <= |text|
  {
    var e := RunEnd(text, i + |lit|, Space);
    Strip(text[e..RunEnd(text, e, NotNewline)])
  }

  /** A field match at the label's position reads the label's value. */
  lemma FieldValue(text: string, lit: Literal, m: GroupMatch)
    requires ValidGroupMatch(text, m) && CompileGroup(Field(lit))(text, m.start) == Some(m)
    ensures AtCI(text, m.start, lit) && m.start + |lit| <= |text|
    ensures Strip(GroupText(text, m)) == LabelValue(text, lit, m.start)
  {
    var q := m.start + |lit|;
    var e := RunEnd(text, q, Space);
    assert FieldAt(lit, text, m.start) == Some(m);
    if e < |text| {
      assert LastValueStart(text, q, e) == Some(e);
    } else {
      var g := GroupText(text, m);
      forall k | 0 <= k < |g| ensures IsSpace(g[k]) {
        assert g[k] == text[m.groupStart + k];
      }
      StripEmptyIff(g);
      StripEmptyIff(text[e..RunEnd(text, e, NotNewline)]);
    }
  }

  /**
   * ExtractField reads the first label in list order that matches anywhere
   * in the text, at its leftmost match: the field is that label's value.
   */
  lemma {:induction false} ExtractFieldValue(text: string, labels: seq<Literal>, k: nat)
    requires k < |labels|
    requires forall k' :: 0 <= k' < k ==> SearchGroup(CompileGroup(Field(labels[k'])), text).None?
    requires SearchGroup(CompileGroup(Field(labels[k])), text).Some?
    ensures AtCI(text, SearchGroup(CompileGroup(Field(labels[k])), text).value.start, labels[k])
    ensures SearchGroup(CompileGroup(Field(labels[k])), text).value.start + |labels[k]| <= |text|
    ensures ExtractField(text, labels) == LabelValue(text, labels[k], SearchGroup(CompileGroup(Field(labels[k])), text).value.start)
    decreases k
  {
    if k == 0 {
      ExtractFieldHead(text, labels);
    } else {
      var rest := labels[1..];
      forall k' | 0 <= k' < k - 1 ensures SearchGroup(CompileGroup(Field(rest[k'])), text).None? {
        assert rest[k'] == labels[k' + 1];
      }
      assert rest[k - 1] == labels[k];
      ExtractFieldValue(text, rest, k - 1);
      ExtractFieldSkip(text, labels);
    }
  }

  /** When the first label matches, the field is its value. */
  lemma ExtractFieldHead(text: string, labels: seq<Literal>)
    requires labels != [] && SearchGroup(CompileGroup(Field(labels[0])), text).Some?
    ensures AtCI(text, SearchGroup(CompileGroup(Field(labels[0])), text).value.start, labels[0])
    ensures SearchGroup(CompileGroup(Field(labels[0])), text).value.start + |labels[0]| <= |text|
    ensures ExtractField(text, labels) == LabelValue(text, labels[0], SearchGroup(CompileGroup(Field(labels[0])), text).value.start)
  {
    var m := SearchGroup(CompileGroup(Field(labels[0])), text).value;
    assert ExtractField(text, labels) == Strip(GroupText(text, m));
    FieldValue(text, labels[0], m);
  }

  /** A first label that matches nowhere is passed over. */
  lemma ExtractFieldSkip(text: string, labels: seq<Literal>)
    requires labels != [] && SearchGroup(CompileGroup(Field(labels[0])), text).None?
    ensures ExtractField(text, labels) == ExtractField(text, labels[1..])
  {
  }

  /** With no label matching anywhere, the field is "". */
  lemma {:induction false} ExtractFieldNone(text: string, labels: seq<Literal>)
    requires forall k :: 0 <= k < |labels| ==> SearchGroup(CompileGroup(Field(labels[k])), text).None?
    ensures ExtractField(text, labels) == ""
    decreases |labels|
  {
    if labels != [] {
      assert SearchGroup(CompileGroup(Field(labels[0])), text).None?;
      ExtractFieldNone(text, labels[1..]);
    }
  }

  const DateLabels: seq<Literal> := ["date:", "timestamp:", "time:"]
  const CategoryLabels: seq<Literal> := ["category:", "issue type:", "type:", "problem:"]
  const SeverityLabels: seq<Literal> := ["severity:", "priority:", "level:"]
  const JourneyLabels: seq<Literal> := ["journey type:", "journey:", "type:"]
  const ResolutionLabels: seq<Literal> := ["resolution:", "solution:", "fix:", "resolved:"]
  const ImpactLabels: seq<Literal> := ["impact:", "effect:", "consequence:"]
  const RootCauseLabels: seq<Literal> := ["root cause:", "cause:", "reason:"]

  // ---------------------------------------------------------- conversation

  const ConversationPatterns: seq<GroupPattern> :=
    [Conversation("transcript:", false), Conversation("conversation:", false), Conversation("agent:", true)]

  /** re.sub(r'^(transcript|conversation):\s*', '', c, flags=re.IGNORECASE): only the very start can match. */
  function DropLeadingLabel(c: string): (r: string)
    ensures |r| <= |c|
  {
    if AtCI(c, 0, "transcript:") then c[RunEnd(c, 11, Space)..]
    else if AtCI(c, 0, "conversation:") then c[RunEnd(c, 13, Space)..]
    else c
  }

  /** The first conversation pattern (in order) that matches, its group trimmed and unlabelled. */
  function ConversationFrom(text: string, ps: seq<GroupPattern>): Option<string> {
    if ps == [] then None
    else
      match SearchGroup(CompileGroup(ps[0]), text)
      case Some(m) => Some(DropLeadingLabel(Strip(GroupText(text, m))))
      case None => ConversationFrom(text, ps[1..])
  }

  /**
   * The conversation body. The `re.findall` agent/customer fallback of the
   * source is not modelled: AgentCustomerBranchUnreachable shows that it
   * only runs when the third pattern has already matched.
   */
  function ExtractConversation(text: string): (r: string)
    ensures ConversationFrom(text, ConversationPatterns).None? ==>
      (|text| <= 1000 ==> r == text) && (|text| > 1000 ==> r == text[..1000] + "...")
  {
    match ConversationFrom(text, ConversationPatterns)
    case Some(c) => c
    case None => if |text| > 1000 then text[..1000] + "..." else text
  }

  /** The condition under which `(agent:.*?customer:.*?)(?=\n\s*[A-Z][A-Z]:|$)` finds a match (its `$` holds at the end). */
  ghost predicate AgentCustomerFound(text: string) {
    exists i: nat, j: nat :: i + 6 <= j && AtCI(text, i, "agent:") && AtCI(text, j, "customer:")
  }

  lemma AgentCustomerBranchUnreachable(text: string)
    requires AgentCustomerFound(text)
    ensures ConversationFrom(text, ConversationPatterns).Some?
  {
    var i: nat, j: nat :| i + 6 <= j && AtCI(text, i, "agent:") && AtCI(text, j, "customer:");
    assert CompileGroup(Conversation("agent:", true))(text, i).Some?;
    assert SearchGroup(CompileGroup(Conversation("agent:", true)), text).Some?;
    var ps := ConversationPatterns;
    assert ps[1..][1..] == [Conversation("agent:", true)];
    assert ConversationFrom(text, ps[1..][1..]).Some?;
    assert ConversationFrom(text, ps[1..]).Some?;
  }

  // ------------------------------------------------------------- one call

  /** One section's record. */
  function ParseSingleCall(text: string, callNumber: nat): (r: ParsedCall)
    ensures r.rawTextLength == |text|
    ensures r.channel in Channels
    ensures Contains(UpperStr(r.callId), "TW_")
  {
    var callId := ExtractCallId(text, callNumber);
    ParsedCall(
      callId,
      ExtractChannel(text, callId),
      ExtractField(text, DateLabels),
      ExtractField(text, CategoryLabels),
      ExtractField(text, SeverityLabels),
      ExtractField(text, JourneyLabels),
      ExtractConversation(text),
      ExtractField(text, ResolutionLabels),
      ExtractField(text, ImpactLabels),
      ExtractField(text, RootCauseLabels),
      |text|)
  }
}
