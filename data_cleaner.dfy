/**
 * The normaliser of src/data_cleaner.py: one cleaner per transcript field
 * (category, severity, journey type, date, conversation, resolution,
 * impact), the record cleaner that applies them to a copy of a parsed
 * transcript, and the loop that cleans a whole parsed batch.
 */
module DataCleaner {
  import opened Wrappers
  import opened Text
  import opened Json
  import opened Regex
  import opened Categories

  // ------------------------------------------------------- substitutions

  /** re.sub(p, '', text) for each pattern of `ps` in turn. */
  function RemoveAll(ps: seq<Pattern>, text: string): string
    decreases |ps|
  {
    if ps == [] then text else RemoveAll(ps[1..], Sub(Compile(ps[0]), text, []))
  }

  /** When no pattern changes the text on its own, the chain of substitutions leaves it as it is. */
  predicate Keeps(p: Pattern, text: string) {
    Sub(Compile(p), text, []) == text
  }

  lemma {:induction false} RemoveAllKeeps(ps: seq<Pattern>, text: string)
    requires forall i :: 0 <= i < |ps| ==> Keeps(ps[i], text)
    ensures RemoveAll(ps, text) == text
    decreases |ps|
  {
    if ps != [] {
      assert Keeps(ps[0], text);
      forall i | 0 <= i < |ps[1..]| ensures Keeps(ps[1..][i], text) {
        assert ps[1..][i] == ps[i + 1];
      }
      RemoveAllKeeps(ps[1..], text);
    }
  }

  // ------------------------------------------------------- ordered tables

  /** Key `k` of `table` is a substring of `text` and no earlier key is. */
  predicate FirstKeyIs(table: seq<(string, string)>, text: string, k: nat) {
    k < |table| && Contains(text, table[k].0)
    && forall j :: 0 <= j < k ==> !Contains(text, table[j].0)
  }

  /** No key of `table` is a substring of `text`. */
  predicate NoKey(table: seq<(string, string)>, text: string) {
    forall j :: 0 <= j < |table| ==> !Contains(text, table[j].0)
  }

  /** `for key, value in table: if key in text: return ...`, from entry `i` on. */
  function FirstKeyFrom(table: seq<(string, string)>, text: string, i: nat): (r: Option<nat>)
    requires i <= |table|
    ensures r.Some? ==> i <= r.value < |table| && Contains(text, table[r.value].0)
    ensures r.Some? ==> forall j :: i <= j < r.value ==> !Contains(text, table[j].0)
    ensures r.None? <==> forall j :: i <= j < |table| ==> !Contains(text, table[j].0)
    decreases |table| - i
  {
    if i == |table| then None
    else if Contains(text, table[i].0) then Some(i)
    else FirstKeyFrom(table, text, i + 1)
  }

  /** The index of the first entry, in table order, whose key occurs in `text`. */
  function FirstKey(table: seq<(string, string)>, text: string): (r: Option<nat>)
    ensures r.Some? ==> FirstKeyIs(table, text, r.value)
    ensures r.None? <==> NoKey(table, text)
  {
    FirstKeyFrom(table, text, 0)
  }

  /**
   * The value of the first table key, in table order, that is a substring
   * of the lower-cased `text`; when there is none, `text` itself, or
   * `fallback` when `text` is empty.
   */
  function Standardize(table: seq<(string, string)>, text: string, fallback: string): (r: string)
    ensures (exists k: nat :: FirstKeyIs(table, LowerStr(text), k) && r == table[k].1)
      || (NoKey(table, LowerStr(text)) && r == (if text == [] then fallback else text))
    ensures (forall k :: 0 <= k < |table| ==> table[k].1 != []) && fallback != [] ==> r != []
  {
    match FirstKey(table, LowerStr(text))
    case Some(k) => table[k].1
    case None => if text == [] then fallback else text
  }

  // ------------------------------------------------------------- category

  /** The contamination stripped from a category, in the order it is stripped. */
  const CategoryNoise: seq<Pattern> := [
    TrailingLabel("severity:"), TrailingLabel("transcript:"), TrailingLabel("agent:"),
    TrailingWord("high"), TrailingWord("medium"), TrailingWord("low")]

  /** The category with its contamination removed and whitespace stripped. */
  function CategoryText(category: string): string {
    Strip(RemoveAll(CategoryNoise, category))
  }

  /** _clean_category. */
  function CleanCategory(category: string): (r: string)
    ensures r == [] <==> category == []
  {
    if category == [] then []
    else
      CategoryValuesNonEmpty();
      Standardize(CategoryTable, CategoryText(category), "Unknown")
  }

  /** Contamination stripping leaves a plain name as it is. */
  lemma PlainNameUncontaminated(v: string)
    requires PlainName(v)
    ensures CategoryText(v) == v
  {
    PlainNameNoLabel(v);
    PlainNameNoWord(v);
    SixKeep(CategoryNoise, v);
    StripOfTrimmed(v);
  }

  lemma PlainNameNoLabel(v: string)
    requires PlainName(v)
    ensures Keeps(CategoryNoise[0], v)
    ensures Keeps(CategoryNoise[1], v)
    ensures Keeps(CategoryNoise[2], v)
  {
    NoiseLabelAbsent(0, v);
    NoiseLabelAbsent(1, v);
    NoiseLabelAbsent(2, v);
  }

  /** The first three contamination patterns are labels ending in ':', which a plain name lacks. */
  lemma NoiseLabelAbsent(i: nat, v: string)
    requires i < 3 && PlainName(v)
    ensures Keeps(CategoryNoise[i], v)
  {
    var lit := CategoryNoise[i].lit;
    assert CategoryNoise[i] == TrailingLabel(lit) && lit[|lit| - 1] == ':';
    TrailingLabelAbsent(lit, ':', v);
  }

  lemma PlainNameNoWord(v: string)
    requires PlainName(v)
    ensures Keeps(CategoryNoise[3], v)
    ensures Keeps(CategoryNoise[4], v)
    ensures Keeps(CategoryNoise[5], v)
  {
    NoiseWordAbsent(3, v);
    NoiseWordAbsent(4, v);
    NoiseWordAbsent(5, v);
  }

  /** The last three contamination patterns are trailing words ending in h, m or w, which a plain name does not end in. */
  lemma NoiseWordAbsent(i: nat, v: string)
    requires 3 <= i < 6 && PlainName(v)
    ensures Keeps(CategoryNoise[i], v)
  {
    var word := CategoryNoise[i].word;
    assert CategoryNoise[i] == TrailingWord(word) && word[|word| - 1] in "hmw";
    TrailingWordAbsent(word, v);
  }

  lemma SixKeep(ps: seq<Pattern>, v: string)
    requires |ps| == 6
    requires Keeps(ps[0], v) && Keeps(ps[1], v) && Keeps(ps[2], v)
    requires Keeps(ps[3], v) && Keeps(ps[4], v) && Keeps(ps[5], v)
    ensures RemoveAll(ps, v) == v
  {
    RemoveAllKeeps(ps, v);
  }

  /** Key `m`, taken as the text, is matched first by entry `m` when no earlier key occurs in it. */
  lemma OwnKeyFirst(table: seq<(string, string)>, m: nat)
    requires m < |table|
    requires forall j :: 0 <= j < m ==> !HasFrom(table[m].0, table[j].0, 0)
    ensures FirstKey(table, table[m].0) == Some(m)
  {
    var key := table[m].0;
    assert At(key, 0, key);
    forall j | 0 <= j < m ensures !Contains(key, table[j].0) {
      HasFromContains(key, table[j].0);
    }
    assert FirstKeyIs(table, key, m);
  }

  /**
   * Standardize maps `v` to itself when `v` lower-cased is key `m`, entry
   * `m` maps back to `v` and no earlier key occurs in key `m`.
   */
  lemma StandardizeFixed(table: seq<(string, string)>, v: string, fallback: string, m: nat)
    requires m < |table| && LowerStr(v) == table[m].0 && table[m].1 == v
    requires forall j :: 0 <= j < m ==> !HasFrom(table[m].0, table[j].0, 0)
    ensures Standardize(table, v, fallback) == v
  {
    OwnKeyFirst(table, m);
  }

  /** _clean_category maps every canonical category value to itself. */
  lemma CanonicalCategoryFixed(k: nat)
    requires k < |CategoryTable|
    ensures CleanCategory(CategoryTable[k].1) == CategoryTable[k].1
  {
    var v := CategoryTable[k].1;
    var m := CategoryValue(k);
    CategoryFirst(m);
    PlainNameUncontaminated(v);
    StandardizeFixed(CategoryTable, v, "Unknown", m);
  }

  // ------------------------------------------------------------- severity

  /** The contamination stripped from a severity, in the order it is stripped. */
  const SeverityNoise: seq<Pattern> :=
    [TrailingLabel("transcript:"), TrailingLabel("agent:"), TrailingLabel("category:")]

  /** The severity keywords, in the order they are checked, with the level each gives. */
  const SeverityTable: seq<(string, string)> :=
    [("high", "High"), ("medium", "Medium"), ("low", "Low"), ("critical", "Critical")]

  /** The severity with its contamination removed and whitespace stripped. */
  function SeverityText(severity: string): string {
    Strip(RemoveAll(SeverityNoise, severity))
  }

  /** _clean_severity. */
  function CleanSeverity(severity: string): (r: string)
    ensures r == [] <==> severity == []
  {
    if severity == [] then []
    else
      assert forall k :: 0 <= k < |SeverityTable| ==> SeverityTable[k].1 != [];
      Standardize(SeverityTable, Title(SeverityText(severity)), "Medium")
  }

  /**
   * The keywords are checked in the order high, medium, low, critical, in
   * any case; without any of them the title-cased text is returned, or
   * "Medium" when nothing is left of it.
   */
  lemma SeverityLevels(severity: string)
    requires severity != []
    ensures var t, r := SeverityText(severity), CleanSeverity(severity);
      && (ContainsCI(t, "high") ==> r == "High")
      && (!ContainsCI(t, "high") && ContainsCI(t, "medium") ==> r == "Medium")
      && (!ContainsCI(t, "high") && !ContainsCI(t, "medium") && ContainsCI(t, "low") ==> r == "Low")
      && ((!ContainsCI(t, "high") && !ContainsCI(t, "medium") && !ContainsCI(t, "low") &&
           ContainsCI(t, "critical")) ==> r == "Critical")
      && ((!ContainsCI(t, "high") && !ContainsCI(t, "medium") && !ContainsCI(t, "low") &&
           !ContainsCI(t, "critical")) ==> r == if t == [] then "Medium" else Title(t))
  {
    SeverityOfText(SeverityText(severity));
  }

  /** The severity table lookup on a title-cased text, keyword by keyword. */
  lemma SeverityOfText(t: string)
    ensures var r := Standardize(SeverityTable, Title(t), "Medium");
      && (ContainsCI(t, "high") ==> r == "High")
      && (!ContainsCI(t, "high") && ContainsCI(t, "medium") ==> r == "Medium")
      && (!ContainsCI(t, "high") && !ContainsCI(t, "medium") && ContainsCI(t, "low") ==> r == "Low")
      && ((!ContainsCI(t, "high") && !ContainsCI(t, "medium") && !ContainsCI(t, "low") &&
           ContainsCI(t, "critical")) ==> r == "Critical")
      && ((!ContainsCI(t, "high") && !ContainsCI(t, "medium") && !ContainsCI(t, "low") &&
           !ContainsCI(t, "critical")) ==> r == if t == [] then "Medium" else Title(t))
  {
    var lt := LowerStr(Title(t));
    LowerTitle(t);
    assert FirstKeyFrom(SeverityTable, lt, 3) == if Contains(lt, "critical") then Some(3) else None;
    assert FirstKeyFrom(SeverityTable, lt, 2) == if Contains(lt, "low") then Some(2) else FirstKeyFrom(SeverityTable, lt, 3);
    assert FirstKeyFrom(SeverityTable, lt, 1) == if Contains(lt, "medium") then Some(1) else FirstKeyFrom(SeverityTable, lt, 2);
    assert FirstKeyFrom(SeverityTable, lt, 0) == if Contains(lt, "high") then Some(0) else FirstKeyFrom(SeverityTable, lt, 1);
  }

  /** "Medium" keeps its keyword, in any case. */
  lemma MediumKeyword(t: string)
    requires Title(t) == "Medium"
    ensures ContainsCI(t, "medium")
  {
    LowerTitle(t);
    assert LowerStr("Medium") == "medium";
    assert At(LowerStr(t), 0, "medium");
  }

  /**
   * "Medium" comes out exactly when the stripped text lacks "high" and
   * either holds "medium" or is empty: a non-empty severity that cleans to
   * nothing defaults to "Medium".
   */
  lemma SeverityMediumIff(severity: string)
    ensures var t := SeverityText(severity);
      CleanSeverity(severity) == "Medium" <==>
        severity != [] && !ContainsCI(t, "high") && (ContainsCI(t, "medium") || t == [])
  {
    if severity != [] {
      var t := SeverityText(severity);
      SeverityLevels(severity);
      if CleanSeverity(severity) == "Medium" && t != [] && !ContainsCI(t, "high") && !ContainsCI(t, "medium") {
        if !ContainsCI(t, "low") && !ContainsCI(t, "critical") {
          MediumKeyword(t);
        }
      }
    }
  }

  // --------------------------------------------------------- journey type

  /** The journey keywords, in the order they are checked, with the type each gives. */
  const JourneyTable: seq<(string, string)> :=
    [("tangible", "Tangible"), ("non-tangible", "Non-tangible")]

  /** _clean_journey_type. */
  function CleanJourneyType(journeyType: string): (r: string)
    ensures r == [] <==> journeyType == []
  {
    if journeyType == [] then []
    else Standardize(JourneyTable, Title(Strip(journeyType)), "Non-tangible")
  }

  /** Every text holding "non-tangible" holds "tangible". */
  lemma NonTangibleHoldsTangible(s: string)
    ensures Contains(s, "non-tangible") ==> Contains(s, "tangible")
  {
    if Contains(s, "non-tangible") {
      var j := Find(s, "non-tangible");
      forall k | 0 <= k < 8 ensures s[j + 4 + k] == "tangible"[k] {
        assert s[j + (4 + k)] == "non-tangible"[4 + k];
      }
      assert At(s, j + 4, "tangible");
    }
  }

  /** A text that title-cases to `v` holds `v` lower-cased. */
  lemma TitleKeepsWord(t: string, v: string, w: string)
    requires LowerStr(v) == w
    ensures Title(t) == v ==> ContainsCI(t, w)
  {
    LowerTitle(t);
    if Title(t) == v {
      assert At(LowerStr(t), 0, w);
    }
  }

  /** The journey keywords and types, as the proofs below need them. */
  lemma JourneyWords()
    ensures LowerStr("Tangible") == "tangible" && LowerStr("Non-tangible") == "non-tangible"
    ensures Trimmed("tangible")
  {
  }

  /** A journey type becomes "Tangible" exactly when it holds "tangible" in any case, "non-tangible" included. */
  lemma JourneyTangibleIff(journeyType: string)
    requires journeyType != []
    ensures CleanJourneyType(journeyType) == "Tangible" <==> ContainsCI(journeyType, "tangible")
  {
    var t := Strip(journeyType);
    JourneyWords();
    LowerTitle(t);
    ContainsCIStrip(journeyType, "tangible");
    NonTangibleHoldsTangible(LowerStr(t));
    TitleKeepsWord(t, "Tangible", "tangible");
  }

  /**
   * "Non-tangible" comes out exactly for non-empty all-whitespace input:
   * its own branch is never taken, since "non-tangible" holds "tangible".
   */
  lemma JourneyNonTangibleIff(journeyType: string)
    ensures CleanJourneyType(journeyType) == "Non-tangible" <==> journeyType != [] && AllSpace(journeyType)
  {
    if journeyType != [] {
      var t := Strip(journeyType);
      JourneyWords();
      LowerTitle(t);
      StripEmptyIff(journeyType);
      NonTangibleHoldsTangible(LowerStr(t));
      TitleKeepsWord(t, "Non-tangible", "non-tangible");
    }
  }

  // ----------------------------------------------------------------- date

  /** The date shapes, in the order they are tried: "August 1, 2024", "2024-08-01", "8/1/2024". */
  const DateMatchers: seq<Matcher> := [Compile(MonthDayYear), Compile(IsoDate), Compile(SlashDate)]

  /** The index of the first matcher of `ms`, from index `i` on, that matches anywhere in `t`. */
  function FirstMatcher(ms: seq<Matcher>, t: string, i: nat): (r: Option<nat>)
    requires i <= |ms|
    ensures r.Some? ==> i <= r.value < |ms| && Search(ms[r.value], t).Some?
    ensures r.Some? ==> forall j :: i <= j < r.value ==> Search(ms[j], t).None?
    ensures r.None? <==> forall j :: i <= j < |ms| ==> Search(ms[j], t).None?
    decreases |ms| - i
  {
    if i == |ms| then None
    else if Search(ms[i], t).Some? then Some(i)
    else FirstMatcher(ms, t, i + 1)
  }

  /** `sub` is a contiguous piece of `s`. */
  predicate PieceOf(sub: string, s: string) {
    exists a, b :: 0 <= a <= b <= |s| && sub == s[a..b]
  }

  /** _clean_date: the first date shape found, in pattern order, or else the stripped text; always a piece of the input. */
  function CleanDate(date: string): (r: string)
    ensures date == [] ==> r == []
    ensures PieceOf(r, date)
  {
    if date == [] then assert date[0..0] == []; []
    else
      match FirstMatcher(DateMatchers, date, 0)
      case Some(k) => var span := Search(DateMatchers[k], date).value; date[span.0..span.1]
      case None => assert Strip(date) == date[StripStart(date)..StripEnd(date)]; Strip(date)
  }

  /** No character of `date` is whitespace: "Month D, YYYY" cannot match anywhere in it. */
  lemma NoMonthDayYear(date: string)
    requires forall k :: 0 <= k < |date| ==> !IsSpace(date[k])
    ensures Search(Compile(MonthDayYear), date).None?
  {
    forall j | 0 <= j <= |date| ensures Compile(MonthDayYear)(date, j).None? {
      var w := RunEnd(date, j, Word);
      assert RunEnd(date, w, Space) == w;
    }
  }

  /** An ISO date "YYYY-MM-DD" on its own is cleaned to itself. */
  lemma IsoDateFixed(date: string)
    requires |date| == 10 && DigitsAt(date, 0, 4) && date[4] == '-' && DigitsAt(date, 5, 2) &&
      date[7] == '-' && DigitsAt(date, 8, 2)
    ensures CleanDate(date) == date
  {
    forall k | 0 <= k < |date| ensures !IsSpace(date[k]) {
      assert k < 4 || k == 4 || 5 <= k < 7 || k == 7 || 8 <= k;
    }
    NoMonthDayYear(date);
    assert DateMatchers[1](date, 0) == Some(10);
  }

  // ------------------------------------------------------ resolution, impact

  /** Trailing labels that end in ':' never touch text without a ':'. */
  lemma ColonLabelsKeep(ps: seq<Pattern>, v: string)
    requires forall i :: 0 <= i < |ps| ==> ps[i].TrailingLabel? && ':' in ps[i].lit
    requires ':' !in v
    ensures RemoveAll(ps, v) == v
  {
    forall i | 0 <= i < |ps| ensures Keeps(ps[i], v) {
      TrailingLabelAbsent(ps[i].lit, ':', v);
    }
    RemoveAllKeeps(ps, v);
  }

  /** The contamination stripped from a resolution, in the order it is stripped. */
  const ResolutionNoise: seq<Pattern> := [TrailingLabel("impact:"), TrailingLabel("root cause:")]

  /** The contamination stripped from an impact, in the order it is stripped. */
  const ImpactNoise: seq<Pattern> := [TrailingLabel("root cause:"), TrailingLabel("resolution:")]

  /** _clean_resolution. */
  function CleanResolution(resolution: string): (r: string)
    ensures resolution == [] ==> r == []
    ensures Trimmed(r)
  {
    if resolution == [] then [] else Strip(RemoveAll(ResolutionNoise, resolution))
  }

  /** _clean_impact. */
  function CleanImpact(impact: string): (r: string)
    ensures impact == [] ==> r == []
    ensures Trimmed(r)
  {
    if impact == [] then [] else Strip(RemoveAll(ImpactNoise, impact))
  }

  /** A resolution without a ':' holds no label to strip: it is only trimmed. */
  lemma ResolutionWithoutLabel(resolution: string)
    requires ':' !in resolution
    ensures CleanResolution(resolution) == Strip(resolution)
  {
    assert ':' in ResolutionNoise[0].lit && ':' in ResolutionNoise[1].lit;
    ColonLabelsKeep(ResolutionNoise, resolution);
  }

  /** An impact without a ':' holds no label to strip: it is only trimmed. */
  lemma ImpactWithoutLabel(impact: string)
    requires ':' !in impact
    ensures CleanImpact(impact) == Strip(impact)
  {
    assert ':' in ImpactNoise[0].lit && ':' in ImpactNoise[1].lit;
    ColonLabelsKeep(ImpactNoise, impact);
  }

  // --------------------------------------------------------- conversation

  /** The header and footer lines emptied from a conversation, in the order they are emptied. */
  const ConversationNoise: seq<Pattern> := [
    LineWithBoth("total wireless", "customer support"), LineWith("dataset", true),
    LineWith("===", false), LineWith("Channels:", false)]

  /** Some line-wise pattern of `ps` matches the line. */
  predicate AnyLineNoise(ps: seq<Pattern>, line: string) {
    exists i :: 0 <= i < |ps| && LineNoise(ps[i], line)
  }

  /** The lines with every line that a pattern of `ps` matches emptied. */
  function DropNoise(ps: seq<Pattern>, ls: seq<string>): (r: seq<string>)
    ensures |r| == |ls|
  {
    seq(|ls|, k requires 0 <= k < |ls| => if AnyLineNoise(ps, ls[k]) then [] else ls[k])
  }

  predicate LinePatterns(ps: seq<Pattern>) {
    forall i :: 0 <= i < |ps| ==> ps[i].LineWith? || ps[i].LineWithBoth?
  }

  /** No line-wise pattern matches an empty line. */
  lemma EmptyLineQuiet(p: Pattern)
    requires p.LineWith? || p.LineWithBoth?
    ensures !LineNoise(p, [])
  {
    assert LowerStr([]) == [];
  }

  /** Emptying the lines one pattern matches, then those the rest match, empties those any of them matches. */
  lemma DropNoiseStep(ps: seq<Pattern>, ls: seq<string>)
    requires ps != [] && LinePatterns(ps)
    ensures DropNoise(ps[1..], EmptyLines(LineTest(ps[0]), ls)) == DropNoise(ps, ls)
  {
    forall k | 0 <= k < |ls| ensures DropNoise(ps[1..], EmptyLines(LineTest(ps[0]), ls))[k] == DropNoise(ps, ls)[k] {
      if LineNoise(ps[0], ls[k]) {
        forall i | 0 <= i < |ps[1..]| ensures !LineNoise(ps[1..][i], []) {
          EmptyLineQuiet(ps[i + 1]);
        }
      } else {
        assert AnyLineNoise(ps, ls[k]) ==> AnyLineNoise(ps[1..], ls[k]) by {
          if AnyLineNoise(ps, ls[k]) {
            var i :| 0 <= i < |ps| && LineNoise(ps[i], ls[k]);
            assert ps[1..][i - 1] == ps[i];
          }
        }
        assert AnyLineNoise(ps[1..], ls[k]) ==> AnyLineNoise(ps, ls[k]) by {
          if AnyLineNoise(ps[1..], ls[k]) {
            var i :| 0 <= i < |ps[1..]| && LineNoise(ps[1..][i], ls[k]);
            assert ps[1..][i] == ps[i + 1];
          }
        }
      }
    }
  }

  /** Emptied and kept lines hold no newline when the lines did not. */
  lemma EmptyLinesOneLine(noisy: string -> bool, ls: seq<string>)
    requires forall k :: 0 <= k < |ls| ==> OneLine(ls[k])
    ensures forall k :: 0 <= k < |EmptyLines(noisy, ls)| ==> OneLine(EmptyLines(noisy, ls)[k])
  {
  }

  /** A chain of line-wise substitutions empties every line that any of its patterns matches. */
  lemma {:induction false} RemoveAllLines(ps: seq<Pattern>, t: string)
    requires LinePatterns(ps)
    ensures RemoveAll(ps, t) == JoinLines(DropNoise(ps, Lines(t)))
    decreases |ps|
  {
    if ps == [] {
      JoinLinesOfLines(t);
      assert DropNoise(ps, Lines(t)) == Lines(t);
    } else {
      var ls := Lines(t);
      var emptied := EmptyLines(LineTest(ps[0]), ls);
      var u := Sub(Compile(ps[0]), t, []);
      SubEmptiesLines(ps[0], t);
      LinesOneLine(t);
      EmptyLinesOneLine(LineTest(ps[0]), ls);
      LinesOfJoinLines(emptied);
      assert LinePatterns(ps[1..]) by {
        forall i | 0 <= i < |ps[1..]| ensures ps[1..][i].LineWith? || ps[1..][i].LineWithBoth? {
          assert ps[1..][i] == ps[i + 1];
        }
      }
      RemoveAllLines(ps[1..], u);
      DropNoiseStep(ps, ls);
    }
  }

  /** A line is conversation noise when it matches one of the four header and footer patterns. */
  lemma ConversationNoiseLine(line: string)
    ensures AnyLineNoise(ConversationNoise, line) <==>
      LineHasBoth("total wireless", "customer support", line) || ContainsCI(line, "dataset") ||
      Contains(line, "===") || Contains(line, "Channels:")
  {
    if LineHasBoth("total wireless", "customer support", line) {
      assert LineNoise(ConversationNoise[0], line);
    } else if ContainsCI(line, "dataset") {
      assert LineNoise(ConversationNoise[1], line);
    } else if Contains(line, "===") {
      assert LineNoise(ConversationNoise[2], line);
    } else if Contains(line, "Channels:") {
      assert LineNoise(ConversationNoise[3], line);
    }
  }

  /** The conversation with its noise lines emptied. */
  function ConversationBody(conversation: string): string {
    RemoveAll(ConversationNoise, conversation)
  }

  /** _clean_conversation. */
  function CleanConversation(conversation: string): (r: string)
    ensures conversation == [] ==> r == []
    ensures Trimmed(r)
  {
    if conversation == [] then []
    else Strip(Sub(Compile(BlankLines), ConversationBody(conversation), "\n\n"))
  }

  /**
   * Before blank lines are collapsed, the conversation is its own lines
   * with exactly the noise lines emptied; every line stays in place.
   */
  lemma ConversationLinesEmptied(conversation: string)
    ensures ConversationBody(conversation) == JoinLines(DropNoise(ConversationNoise, Lines(conversation)))
  {
    assert LinePatterns(ConversationNoise);
    RemoveAllLines(ConversationNoise, conversation);
  }

  /** A match of a matcher that agrees with BlankLines spans whitespace only. */
  lemma BlankLinesSpanOf(m: Matcher, t: string, i: nat)
    requires i <= |t| && BlankLinesMatchAt(m, t, i) && m(t, i).Some?
    ensures AllSpace(t[i..m(t, i).value])
  {
    var e := m(t, i).value;
    var run := RunEnd(t, i + 1, Space);
    assert e <= run;
    forall k | 0 <= k < e - i ensures IsSpace(t[i..e][k]) {
      assert t[i..e][k] == t[i + k];
    }
  }

  /** A blank-line run that matches is all whitespace. */
  lemma BlankLinesSpan(t: string, i: nat)
    requires i <= |t| && Compile(BlankLines)(t, i).Some?
    ensures AllSpace(t[i..Compile(BlankLines)(t, i).value])
  {
    BlankLinesEverywhere(t);
    BlankLinesSpanOf(Compile(BlankLines), t, i);
  }

  /** BlankLinesVisible for a matcher that agrees with BlankLines on `t`. */
  lemma {:induction false} BlankLinesVisibleFrom(m: Matcher, t: string, i: nat)
    requires i <= |t|
    requires forall j :: 0 <= j <= |t| ==> BlankLinesMatchAt(m, t, j)
    ensures Visible(SubFrom(m, t, "\n\n", i)) == Visible(t[i..])
    decreases |t| - i
  {
    if i < |t| {
      match m(t, i)
      case Some(e) =>
        BlankLinesSpanOf(m, t, i);
        BlankLinesVisibleFrom(m, t, e);
        VisibleSpaceThen(t, i, e, "\n\n", SubFrom(m, t, "\n\n", e));
      case None =>
        BlankLinesVisibleFrom(m, t, i + 1);
        VisibleCharThen(t, i, SubFrom(m, t, "\n\n", i + 1));
    }
  }

  /** Collapsing blank-line runs from index `i` on changes only whitespace. */
  lemma BlankLinesVisible(t: string, i: nat)
    requires i <= |t|
    ensures Visible(SubFrom(Compile(BlankLines), t, "\n\n", i)) == Visible(t[i..])
  {
    BlankLinesEverywhere(t);
    BlankLinesVisibleFrom(Compile(BlankLines), t, i);
  }

  /**
   * Collapsing blank lines and stripping change only whitespace: the
   * cleaned conversation shows exactly the characters of its noise-free
   * lines, in order.
   */
  lemma ConversationVisible(conversation: string)
    requires conversation != []
    ensures Visible(CleanConversation(conversation)) == Visible(ConversationBody(conversation))
  {
    var body := ConversationBody(conversation);
    BlankLinesVisible(body, 0);
    assert body[0..] == body;
    StripVisible(Sub(Compile(BlankLines), body, "\n\n"));
  }

  // ---------------------------------------------------- blank-line runs

  /** The number of newlines in `s`. */
  function NewlineCount(s: string): nat {
    if s == [] then 0 else (if s[0] == '\n' then 1 else 0) + NewlineCount(s[1..])
  }

  lemma {:induction false} NewlineCountConcat(x: string, y: string)
    ensures NewlineCount(x + y) == NewlineCount(x) + NewlineCount(y)
    decreases |x|
  {
    if x != [] {
      assert (x + y)[0] == x[0];
      assert (x + y)[1..] == x[1..] + y;
      NewlineCountConcat(x[1..], y);
    } else {
      assert x + y == y;
    }
  }

  lemma {:induction false} NewlineCountNone(s: string)
    requires forall k :: 0 <= k < |s| ==> s[k] != '\n'
    ensures NewlineCount(s) == 0
    decreases |s|
  {
    if s != [] {
      NewlineCountNone(s[1..]);
    }
  }

  lemma NewlineCountSplit(t: string, lo: nat, k: nat, hi: nat)
    requires lo <= k <= hi <= |t|
    ensures NewlineCount(t[lo..hi]) == NewlineCount(t[lo..k]) + NewlineCount(t[k..hi])
  {
    assert t[lo..hi] == t[lo..k] + t[k..hi];
    NewlineCountConcat(t[lo..k], t[k..hi]);
  }

  /** No newline in t[lo..hi] means the slice counts none. */
  lemma NewlineCountNoneIn(t: string, lo: nat, hi: nat)
    requires lo <= hi <= |t|
    requires forall k :: lo <= k < hi ==> t[k] != '\n'
    ensures NewlineCount(t[lo..hi]) == 0
  {
    forall k | 0 <= k < hi - lo ensures t[lo..hi][k] != '\n' {
      assert t[lo..hi][k] == t[lo + k];
    }
    NewlineCountNone(t[lo..hi]);
  }

  /** A slice never counts more newlines than the text it is cut from. */
  lemma NewlineCountSlice(s: string, a: nat, b: nat)
    requires a <= b <= |s|
    ensures NewlineCount(s[a..b]) <= NewlineCount(s)
  {
    assert s[0..|s|] == s;
    NewlineCountSplit(s, 0, a, |s|);
    NewlineCountSplit(s, a, b, |s|);
  }

  /** The first newline of t[lo..hi], or `hi` when there is none. */
  function FirstNewline(t: string, lo: nat, hi: nat): (f: nat)
    requires lo <= hi <= |t|
    ensures lo <= f <= hi
    ensures forall k :: lo <= k < f ==> t[k] != '\n'
    ensures f < hi ==> t[f] == '\n'
    decreases hi - lo
  {
    if lo == hi || t[lo] == '\n' then lo else FirstNewline(t, lo + 1, hi)
  }

  /** Just past the last newline of t[lo..hi], or `lo` when there is none. */
  function AfterLastNewline(t: string, lo: nat, hi: nat): (a: nat)
    requires lo <= hi <= |t|
    ensures lo <= a <= hi
    ensures forall k :: a <= k < hi ==> t[k] != '\n'
    ensures lo < a ==> t[a - 1] == '\n'
    decreases hi
  {
    if hi == lo then lo else if t[hi - 1] == '\n' then hi else AfterLastNewline(t, lo, hi - 1)
  }

  /** The newline LastNewline finds is the last one. */
  lemma {:induction false} LastNewlineIsLast(t: string, lo: nat, hi: nat)
    requires hi <= |t| && LastNewline(t, lo, hi).Some?
    ensures forall k :: LastNewline(t, lo, hi).value < k < hi ==> t[k] != '\n'
    decreases hi
  {
    if t[hi - 1] != '\n' {
      LastNewlineIsLast(t, lo, hi - 1);
    }
  }

  /** The count of a slice, split at the newline LastNewline finds. */
  lemma LastNewlineCount(t: string, lo: nat, hi: nat)
    requires lo <= hi <= |t|
    ensures LastNewline(t, lo, hi).None? ==> NewlineCount(t[lo..hi]) == 0
    ensures LastNewline(t, lo, hi).Some? ==>
      NewlineCount(t[lo..hi]) == NewlineCount(t[lo..LastNewline(t, lo, hi).value]) + 1
  {
    match LastNewline(t, lo, hi)
    case None =>
      NewlineCountNoneIn(t, lo, hi);
    case Some(l) =>
      LastNewlineIsLast(t, lo, hi);
      NewlineCountSplit(t, lo, l, hi);
      NewlineCountSplit(t, l, l + 1, hi);
      NewlineCountNoneIn(t, l + 1, hi);
      assert t[l..l + 1] == ['\n'];
  }

  /**
   * What collapsing leaves of the whitespace t[j..e]: with three newlines or
   * more, the whitespace before its first newline, "\n\n", and the
   * whitespace after its last; with fewer, the whitespace as it is.
   */
  function CollapsedRun(t: string, j: nat, e: nat): string
    requires j <= e <= |t|
  {
    if NewlineCount(t[j..e]) < 3 then t[j..e]
    else t[j..FirstNewline(t, j, e)] + "\n\n" + t[AfterLastNewline(t, j, e)..e]
  }

  /**
   * The substitution of _clean_conversation stated run by run: each maximal
   * whitespace run of t[i..] becomes its CollapsedRun, every other
   * character stays.
   */
  function Collapsed(t: string, i: nat): string
    requires i <= |t|
    decreases |t| - i
  {
    if i == |t| then []
    else if !IsSpace(t[i]) then [t[i]] + Collapsed(t, i + 1)
    else
      var e := RunEnd(t, i, Space);
      CollapsedRun(t, i, e) + Collapsed(t, e)
  }

  /** A stretch of an all-whitespace slice is all whitespace. */
  lemma AllSpaceWithin(t: string, j: nat, e: nat, lo: nat, hi: nat)
    requires j <= lo <= hi <= e <= |t| && AllSpace(t[j..e])
    ensures AllSpace(t[lo..hi])
  {
    forall k | 0 <= k < hi - lo ensures IsSpace(t[lo..hi][k]) {
      assert t[lo..hi][k] == t[j..e][lo - j + k];
    }
  }

  /** Whitespace, "\n\n" and whitespace make whitespace. */
  lemma AllSpaceAround(x: string, z: string)
    requires AllSpace(x) && AllSpace(z)
    ensures AllSpace(x + "\n\n" + z)
  {
    var r := x + "\n\n" + z;
    forall k | 0 <= k < |r| ensures IsSpace(r[k]) {
      if k >= |x| + 2 {
        assert r[k] == z[k - |x| - 2];
      }
    }
  }

  /**
   * A run with three newlines or more keeps exactly two, and nothing but
   * whitespace; a run with fewer is kept as it is.
   */
  lemma CollapsedRunSpec(t: string, j: nat, e: nat)
    requires j <= e <= |t| && AllSpace(t[j..e])
    ensures AllSpace(CollapsedRun(t, j, e))
    ensures NewlineCount(t[j..e]) < 3 ==> CollapsedRun(t, j, e) == t[j..e]
    ensures NewlineCount(t[j..e]) >= 3 ==> NewlineCount(CollapsedRun(t, j, e)) == 2
  {
    if NewlineCount(t[j..e]) >= 3 {
      var f := FirstNewline(t, j, e);
      var a := AfterLastNewline(t, j, e);
      var x, z := t[j..f], t[a..e];
      NewlineCountNoneIn(t, j, f);
      NewlineCountNoneIn(t, a, e);
      NewlineCountConcat(x, "\n\n");
      NewlineCountConcat(x + "\n\n", z);
      AllSpaceWithin(t, j, e, j, f);
      AllSpaceWithin(t, j, e, a, e);
      AllSpaceAround(x, z);
    }
  }

  /**
   * `m` agrees with the BlankLines matcher at `j`. The lemmas that walk the
   * substitution take `m` as a parameter with this fact for every index, so
   * that the matcher is unfolded only where a lemma asks for it.
   */
  predicate BlankLinesMatchAt(m: Matcher, t: string, j: nat)
    requires j <= |t|
  {
    m(t, j) == BlankLinesEndAt(t, j)
  }

  /** The compiled BlankLines pattern agrees with the BlankLines matcher everywhere. */
  lemma BlankLinesEverywhere(t: string)
    ensures forall j :: 0 <= j <= |t| ==> BlankLinesMatchAt(Compile(BlankLines), t, j)
  {
    assert Compile(BlankLines) == BlankLinesMatcher();
  }

  /** CollapsedRunCons for a run with three newlines or more. */
  lemma CollapsedLongRunCons(t: string, j: nat, e: nat)
    requires j < e <= |t| && t[j] != '\n'
    requires NewlineCount(t[j..e]) >= 3 && NewlineCount(t[j + 1..e]) >= 3
    ensures CollapsedRun(t, j, e) == [t[j]] + CollapsedRun(t, j + 1, e)
  {
    var f := FirstNewline(t, j + 1, e);
    var a := AfterLastNewline(t, j + 1, e);
    AfterLastNewlineCons(t, j, e);
    assert FirstNewline(t, j, e) == f;
    var x, z := t[j + 1..f], t[a..e];
    assert t[j..f] == [t[j]] + x;
    assert ([t[j]] + x) + "\n\n" + z == [t[j]] + (x + "\n\n" + z);
  }

  /** A character other than a newline in front does not move the end of the last newline. */
  lemma AfterLastNewlineCons(t: string, j: nat, e: nat)
    requires j < e <= |t| && t[j] != '\n'
    requires NewlineCount(t[j + 1..e]) > 0
    ensures AfterLastNewline(t, j, e) == AfterLastNewline(t, j + 1, e)
  {
    if AfterLastNewline(t, j + 1, e) == j + 1 {
      NewlineCountNoneIn(t, j + 1, e);
    }
  }

  /** A run that starts with a character other than a newline keeps it in front. */
  lemma CollapsedRunCons(t: string, j: nat, e: nat)
    requires j < e <= |t| && t[j] != '\n'
    ensures CollapsedRun(t, j, e) == [t[j]] + CollapsedRun(t, j + 1, e)
  {
    NewlineCountSplit(t, j, j + 1, e);
    assert t[j..j + 1] == [t[j]];
    assert NewlineCount(t[j..j + 1]) == 0;
    if NewlineCount(t[j..e]) >= 3 {
      CollapsedLongRunCons(t, j, e);
    } else {
      assert t[j..e] == [t[j]] + t[j + 1..e];
    }
  }

  /** From a newline with no newline after it in the run, nothing collapses. */
  lemma {:induction false} CollapseShortRun(t: string, j: nat, e: nat)
    requires j < e <= |t| && t[j] == '\n'
    requires NewlineCount(t[j + 1..e]) <= 1
    ensures CollapsedRun(t, j, e) == ['\n'] + CollapsedRun(t, j + 1, e)
  {
    NewlineCountSplit(t, j, j + 1, e);
    assert t[j..j + 1] == ['\n'];
    assert t[j..e] == [t[j]] + t[j + 1..e];
  }

  /** Two newlines in t[j + 1..e] after the one at `j`: three at least. */
  lemma LongRunCount(t: string, j: nat, e: nat, n1: nat)
    requires j < n1 < e <= |t| && t[j] == '\n'
    requires LastNewline(t, j + 1, e) == Some(n1) && LastNewline(t, j + 1, n1).Some?
    ensures NewlineCount(t[j..e]) >= 3
  {
    LastNewlineCount(t, j + 1, e);
    LastNewlineCount(t, j + 1, n1);
    NewlineCountSplit(t, j, j + 1, e);
    assert t[j..j + 1] == ['\n'];
  }

  /** AfterLastNewline from any `j` at or before `lo` ends just past the newline LastNewline finds. */
  lemma {:induction false} AfterLastOfLast(t: string, j: nat, lo: nat, hi: nat)
    requires j <= lo <= hi <= |t| && LastNewline(t, lo, hi).Some?
    ensures AfterLastNewline(t, j, hi) == LastNewline(t, lo, hi).value + 1
    decreases hi
  {
    if t[hi - 1] != '\n' {
      AfterLastOfLast(t, j, lo, hi - 1);
    }
  }

  /** A slice with no newline is its own CollapsedRun. */
  lemma CollapseNoNewline(t: string, lo: nat, e: nat)
    requires lo <= e <= |t|
    requires forall k :: lo <= k < e ==> t[k] != '\n'
    ensures CollapsedRun(t, lo, e) == t[lo..e]
  {
    NewlineCountNoneIn(t, lo, e);
  }

  /** What follows the last newline `n1` of t[lo..e] is its own CollapsedRun. */
  lemma CollapseAfterLast(t: string, lo: nat, e: nat, n1: nat)
    requires lo <= e <= |t| && LastNewline(t, lo, e) == Some(n1)
    ensures n1 < e && CollapsedRun(t, n1 + 1, e) == t[n1 + 1..e]
  {
    LastNewlineIsLast(t, lo, e);
    CollapseNoNewline(t, n1 + 1, e);
  }

  /** From a newline with two more after it in the run, the run collapses to "\n\n" and what follows its last newline. */
  lemma CollapseLongRun(t: string, j: nat, e: nat, n1: nat)
    requires j < n1 < e <= |t| && t[j] == '\n'
    requires LastNewline(t, j + 1, e) == Some(n1) && LastNewline(t, j + 1, n1).Some?
    ensures CollapsedRun(t, j, e) == "\n\n" + CollapsedRun(t, n1 + 1, e)
  {
    CollapseLongShape(t, j, e, n1);
    CollapseAfterLast(t, j + 1, e, n1);
  }

  /** CollapseLongRun with the rest of the run spelled out as a slice. */
  lemma CollapseLongShape(t: string, j: nat, e: nat, n1: nat)
    requires j < n1 < e <= |t| && t[j] == '\n'
    requires LastNewline(t, j + 1, e) == Some(n1) && LastNewline(t, j + 1, n1).Some?
    ensures CollapsedRun(t, j, e) == "\n\n" + t[n1 + 1..e]
  {
    LongRunCount(t, j, e, n1);
    AfterLastOfLast(t, j, j + 1, e);
    assert FirstNewline(t, j, e) == j;
    EmptyInFront(t[j..j], "\n\n", t[n1 + 1..e]);
  }

  /** An empty piece in front of y + z changes nothing. */
  lemma EmptyInFront(x: string, y: string, z: string)
    requires x == []
    ensures x + y + z == y + z
  {
    assert x + y == y;
  }

  /** Where the matcher fails at `j`, the substitution copies t[j]. */
  lemma SubCopies(m: Matcher, t: string, j: nat)
    requires j < |t| && m(t, j).None?
    ensures SubFrom(m, t, "\n\n", j) == [t[j]] + SubFrom(m, t, "\n\n", j + 1)
  {
  }

  /** Where the matcher ends at `n`, the substitution writes "\n\n" and goes on from `n`. */
  lemma SubReplaces(m: Matcher, t: string, j: nat, n: nat)
    requires j < |t| && m(t, j) == Some(n)
    ensures SubFrom(m, t, "\n\n", j) == "\n\n" + SubFrom(m, t, "\n\n", n)
  {
  }

  /** The matcher never starts at a character other than a newline. */
  lemma BlankLinesNeedNewline(m: Matcher, t: string, j: nat)
    requires j < |t| && t[j] != '\n' && BlankLinesMatchAt(m, t, j)
    ensures m(t, j).None?
  {
  }

  /** Fewer than two newlines in t[lo..e] when LastNewline finds at most one. */
  lemma AtMostOneNewline(t: string, lo: nat, e: nat)
    requires lo <= e <= |t|
    requires LastNewline(t, lo, e).None? || LastNewline(t, lo, LastNewline(t, lo, e).value).None?
    ensures NewlineCount(t[lo..e]) <= 1
  {
    LastNewlineCount(t, lo, e);
    if LastNewline(t, lo, e).Some? {
      LastNewlineCount(t, lo, LastNewline(t, lo, e).value);
    }
  }

  /** At a newline of a run with fewer than two newlines after it, the matcher fails. */
  lemma BlankLinesFail(m: Matcher, t: string, j: nat, e: nat)
    requires j < e <= |t| && t[j] == '\n' && BlankLinesMatchAt(m, t, j)
    requires RunEnd(t, j + 1, Space) == e
    requires LastNewline(t, j + 1, e).None? || LastNewline(t, j + 1, LastNewline(t, j + 1, e).value).None?
    ensures m(t, j).None?
  {
  }

  /** At a newline of a run with two newlines or more after it, the matcher ends past the last. */
  lemma BlankLinesEnd(m: Matcher, t: string, j: nat, e: nat, n1: nat)
    requires j < e <= |t| && t[j] == '\n' && BlankLinesMatchAt(m, t, j)
    requires RunEnd(t, j + 1, Space) == e
    requires LastNewline(t, j + 1, e) == Some(n1) && LastNewline(t, j + 1, n1).Some?
    ensures m(t, j) == Some(n1 + 1)
  {
  }

  /** Two more newlines follow t[j] within t[j + 1..e]. */
  predicate LongAt(t: string, j: nat, e: nat)
    requires j < e <= |t|
  {
    match LastNewline(t, j + 1, e)
    case None => false
    case Some(n1) => LastNewline(t, j + 1, n1).Some?
  }

  /**
   * At a newline inside a whitespace run ending at `e`, the matcher
   * succeeds exactly when two more newlines follow in the run, and then
   * ends just past the last of them.
   */
  lemma BlankLinesInRun(m: Matcher, t: string, j: nat, e: nat) returns (matched: bool, n1: nat)
    requires j < e <= |t| && t[j] == '\n' && BlankLinesMatchAt(m, t, j)
    requires RunEnd(t, j + 1, Space) == e
    ensures matched == LongAt(t, j, e)
    ensures !matched ==> m(t, j).None?
    ensures matched ==> m(t, j) == Some(n1 + 1) && LastNewline(t, j + 1, e) == Some(n1)
  {
    matched, n1 := false, j;
    match LastNewline(t, j + 1, e)
    case None =>
      BlankLinesFail(m, t, j, e);
    case Some(l) =>
      if LastNewline(t, j + 1, l).Some? {
        BlankLinesEnd(m, t, j, e, l);
        matched, n1 := true, l;
      } else {
        BlankLinesFail(m, t, j, e);
      }
  }

  /**
   * t[j..e] collapsed the way the substitution walks it: a character at a
   * time, and "\n\n" in place of a newline with two more after it, up to
   * the last of them.
   */
  function CollapseWalk(t: string, j: nat, e: nat): string
    requires j <= e <= |t|
    decreases e - j
  {
    if j == e then []
    else if t[j] == '\n' && LongAt(t, j, e) then "\n\n" + CollapseWalk(t, LastNewline(t, j + 1, e).value + 1, e)
    else [t[j]] + CollapseWalk(t, j + 1, e)
  }

  /** WalkIsCollapsedRun at a character other than a newline, given it from j + 1. */
  lemma WalkCons(t: string, j: nat, e: nat)
    requires j < e <= |t| && t[j] != '\n'
    requires CollapseWalk(t, j + 1, e) == CollapsedRun(t, j + 1, e)
    ensures CollapseWalk(t, j, e) == CollapsedRun(t, j, e)
  {
    CollapsedRunCons(t, j, e);
  }

  /** WalkIsCollapsedRun at a newline with at most one more in the run, given it from j + 1. */
  lemma WalkShort(t: string, j: nat, e: nat)
    requires j < e <= |t| && t[j] == '\n' && !LongAt(t, j, e)
    requires CollapseWalk(t, j + 1, e) == CollapsedRun(t, j + 1, e)
    ensures CollapseWalk(t, j, e) == CollapsedRun(t, j, e)
  {
    AtMostOneNewline(t, j + 1, e);
    CollapseShortRun(t, j, e);
  }

  /** WalkIsCollapsedRun at a newline with two more in the run, given it past the last of them. */
  lemma WalkLong(t: string, j: nat, e: nat, n1: nat)
    requires j < n1 < e <= |t| && t[j] == '\n' && LongAt(t, j, e)
    requires LastNewline(t, j + 1, e) == Some(n1)
    requires CollapseWalk(t, n1 + 1, e) == CollapsedRun(t, n1 + 1, e)
    ensures CollapseWalk(t, j, e) == CollapsedRun(t, j, e)
  {
    CollapseLongRun(t, j, e, n1);
  }

  /** The walk and the run-at-once definition agree. */
  lemma {:induction false} WalkIsCollapsedRun(t: string, j: nat, e: nat)
    requires j <= e <= |t|
    ensures CollapseWalk(t, j, e) == CollapsedRun(t, j, e)
    decreases e - j
  {
    if j == e {
      assert t[j..e] == [];
    } else if t[j] != '\n' {
      WalkIsCollapsedRun(t, j + 1, e);
      WalkCons(t, j, e);
    } else if LongAt(t, j, e) {
      var n1 := LastNewline(t, j + 1, e).value;
      WalkIsCollapsedRun(t, n1 + 1, e);
      WalkLong(t, j, e, n1);
    } else {
      WalkIsCollapsedRun(t, j + 1, e);
      WalkShort(t, j, e);
    }
  }

  /** From sj == piece + sk, cj == piece + ck and sk == ck + se follows sj == cj + se. */
  lemma Chain(sj: string, sk: string, se: string, cj: string, ck: string, piece: string)
    requires sj == piece + sk && cj == piece + ck && sk == ck + se
    ensures sj == cj + se
  {
    assert piece + (ck + se) == (piece + ck) + se;
  }

  /** A whitespace run seen from any later point inside it ends at the same place. */
  lemma {:induction false} RunEndFrom(t: string, j: nat, k: nat)
    requires j <= |t| && j <= k <= RunEnd(t, j, Space)
    ensures RunEnd(t, k, Space) == RunEnd(t, j, Space)
    decreases k - j
  {
    if j < k {
      RunEndFrom(t, j + 1, k);
    }
  }

  /** SubOverRun where the substitution copies t[j], given it from j + 1. */
  lemma SubCopiesInRun(m: Matcher, t: string, j: nat, e: nat)
    requires j < e <= |t| && m(t, j).None? && !(t[j] == '\n' && LongAt(t, j, e))
    requires SubFrom(m, t, "\n\n", j + 1) == CollapseWalk(t, j + 1, e) + SubFrom(m, t, "\n\n", e)
    ensures SubFrom(m, t, "\n\n", j) == CollapseWalk(t, j, e) + SubFrom(m, t, "\n\n", e)
  {
    SubCopies(m, t, j);
    Chain(SubFrom(m, t, "\n\n", j), SubFrom(m, t, "\n\n", j + 1), SubFrom(m, t, "\n\n", e),
          CollapseWalk(t, j, e), CollapseWalk(t, j + 1, e), [t[j]]);
  }

  /** SubOverRun where the matcher ends past the run's last newline `n1`, given it from n1 + 1. */
  lemma SubReplacesInRun(m: Matcher, t: string, j: nat, e: nat, n1: nat)
    requires j < e <= |t| && t[j] == '\n' && LongAt(t, j, e)
    requires LastNewline(t, j + 1, e) == Some(n1) && m(t, j) == Some(n1 + 1)
    requires SubFrom(m, t, "\n\n", n1 + 1) == CollapseWalk(t, n1 + 1, e) + SubFrom(m, t, "\n\n", e)
    ensures SubFrom(m, t, "\n\n", j) == CollapseWalk(t, j, e) + SubFrom(m, t, "\n\n", e)
  {
    SubReplaces(m, t, j, n1 + 1);
    Chain(SubFrom(m, t, "\n\n", j), SubFrom(m, t, "\n\n", n1 + 1), SubFrom(m, t, "\n\n", e),
          CollapseWalk(t, j, e), CollapseWalk(t, n1 + 1, e), "\n\n");
  }

  /**
   * One step of the substitution inside a whitespace run ending at `e`:
   * from `j` it goes on at `k`, and what it writes in between is what
   * CollapseWalk writes.
   */
  lemma SubStepInRun(m: Matcher, t: string, j: nat, e: nat) returns (k: nat)
    requires j < e <= |t| && RunEnd(t, j, Space) == e && BlankLinesMatchAt(m, t, j)
    ensures j < k <= e && RunEnd(t, k, Space) == e
    ensures SubFrom(m, t, "\n\n", k) == CollapseWalk(t, k, e) + SubFrom(m, t, "\n\n", e) ==>
      SubFrom(m, t, "\n\n", j) == CollapseWalk(t, j, e) + SubFrom(m, t, "\n\n", e)
  {
    if t[j] != '\n' {
      BlankLinesNeedNewline(m, t, j);
      k := j + 1;
      if SubFrom(m, t, "\n\n", k) == CollapseWalk(t, k, e) + SubFrom(m, t, "\n\n", e) {
        SubCopiesInRun(m, t, j, e);
      }
    } else {
      k := SubStepAtNewline(m, t, j, e);
    }
  }

  /** SubStepInRun at a newline. */
  lemma SubStepAtNewline(m: Matcher, t: string, j: nat, e: nat) returns (k: nat)
    requires j < e <= |t| && t[j] == '\n' && RunEnd(t, j, Space) == e && BlankLinesMatchAt(m, t, j)
    ensures j < k <= e && RunEnd(t, k, Space) == e
    ensures SubFrom(m, t, "\n\n", k) == CollapseWalk(t, k, e) + SubFrom(m, t, "\n\n", e) ==>
      SubFrom(m, t, "\n\n", j) == CollapseWalk(t, j, e) + SubFrom(m, t, "\n\n", e)
  {
    var matched, n1 := BlankLinesInRun(m, t, j, e);
    if matched {
      RunEndFrom(t, j + 1, n1 + 1);
      k := n1 + 1;
      if SubFrom(m, t, "\n\n", k) == CollapseWalk(t, k, e) + SubFrom(m, t, "\n\n", e) {
        SubReplacesInRun(m, t, j, e, n1);
      }
    } else {
      k := j + 1;
      if SubFrom(m, t, "\n\n", k) == CollapseWalk(t, k, e) + SubFrom(m, t, "\n\n", e) {
        SubCopiesInRun(m, t, j, e);
      }
    }
  }

  /**
   * Substituting from inside a whitespace run that ends at `e`: the rest of
   * the run becomes its CollapseWalk.
   */
  lemma {:induction false} SubOverRun(m: Matcher, t: string, j: nat, e: nat)
    requires forall i :: 0 <= i <= |t| ==> BlankLinesMatchAt(m, t, i)
    requires j <= |t| && RunEnd(t, j, Space) == e
    ensures SubFrom(m, t, "\n\n", j) == CollapseWalk(t, j, e) + SubFrom(m, t, "\n\n", e)
    decreases e - j
  {
    if j == e {
      assert CollapseWalk(t, j, e) + SubFrom(m, t, "\n\n", e) == SubFrom(m, t, "\n\n", e);
    } else {
      var k := SubStepInRun(m, t, j, e);
      SubOverRun(m, t, k, e);
    }
  }

  /** The collapse from `i` on, stated for the matcher of BlankLines alone. */
  lemma {:induction false} SubCollapsedFrom(m: Matcher, t: string, i: nat)
    requires forall i :: 0 <= i <= |t| ==> BlankLinesMatchAt(m, t, i)
    requires i <= |t|
    ensures SubFrom(m, t, "\n\n", i) == Collapsed(t, i)
    decreases |t| - i
  {
    if i < |t| {
      if !IsSpace(t[i]) {
        BlankLinesNeedNewline(m, t, i);
        SubCollapsedFrom(m, t, i + 1);
      } else {
        var e := RunEnd(t, i, Space);
        SubOverRun(m, t, i, e);
        WalkIsCollapsedRun(t, i, e);
        SubCollapsedFrom(m, t, e);
      }
    }
  }

  /** re.sub(r'\n\s*\n\s*\n+', '\n\n', t) collapses t run by run. */
  lemma SubIsCollapsed(t: string, i: nat)
    requires i <= |t|
    ensures SubFrom(Compile(BlankLines), t, "\n\n", i) == Collapsed(t, i)
  {
    BlankLinesEverywhere(t);
    SubCollapsedFrom(Compile(BlankLines), t, i);
  }

  /** No stretch of whitespace in `s` holds more than two newlines. */
  predicate BlankLinesCollapsed(s: string) {
    forall a, b :: 0 <= a <= b <= |s| && AllSpace(s[a..b]) ==> NewlineCount(s[a..b]) <= 2
  }

  lemma FewNewlinesCollapsed(s: string)
    requires NewlineCount(s) <= 2
    ensures BlankLinesCollapsed(s)
  {
    forall a, b | 0 <= a <= b <= |s| ensures NewlineCount(s[a..b]) <= 2 {
      NewlineCountSlice(s, a, b);
    }
  }

  /** A whitespace stretch across the seam of x + y holds both seam characters. */
  lemma SpaceAcross(x: string, y: string, a: nat, b: nat)
    requires a < |x| < b <= |x + y| && AllSpace((x + y)[a..b])
    ensures IsSpace(x[|x| - 1]) && IsSpace(y[0])
  {
    assert (x + y)[a..b][|x| - 1 - a] == x[|x| - 1];
    assert (x + y)[a..b][|x| - a] == y[0];
  }

  /** A whitespace stretch of x + y that lies within x. */
  lemma StretchInLeft(x: string, y: string, a: nat, b: nat)
    requires BlankLinesCollapsed(x)
    requires a <= b <= |x| && AllSpace((x + y)[a..b])
    ensures NewlineCount((x + y)[a..b]) <= 2
  {
    assert (x + y)[a..b] == x[a..b];
  }

  /** A whitespace stretch of x + y that lies within y. */
  lemma StretchInRight(x: string, y: string, a: nat, b: nat)
    requires BlankLinesCollapsed(y)
    requires |x| <= a <= b <= |x + y| && AllSpace((x + y)[a..b])
    ensures NewlineCount((x + y)[a..b]) <= 2
  {
    assert (x + y)[a..b] == y[a - |x|..b - |x|];
  }

  lemma CollapsedConcat(x: string, y: string)
    requires BlankLinesCollapsed(x) && BlankLinesCollapsed(y)
    requires x == [] || y == [] || !IsSpace(x[|x| - 1]) || !IsSpace(y[0])
    ensures BlankLinesCollapsed(x + y)
  {
    var s := x + y;
    forall a, b | 0 <= a <= b <= |s| && AllSpace(s[a..b]) ensures NewlineCount(s[a..b]) <= 2 {
      if b <= |x| {
        StretchInLeft(x, y, a, b);
      } else if a >= |x| {
        StretchInRight(x, y, a, b);
      } else {
        SpaceAcross(x, y, a, b);
      }
    }
  }

  /** After collapsing, no whitespace stretch holds three newlines. */
  lemma {:induction false} CollapsedHasNoLongRun(t: string, i: nat)
    requires i <= |t|
    ensures BlankLinesCollapsed(Collapsed(t, i))
    decreases |t| - i
  {
    if i < |t| {
      if !IsSpace(t[i]) {
        CollapsedHasNoLongRun(t, i + 1);
        assert NewlineCount([t[i]]) == 0;
        FewNewlinesCollapsed([t[i]]);
        CollapsedConcat([t[i]], Collapsed(t, i + 1));
      } else {
        var e := RunEnd(t, i, Space);
        CollapsedHasNoLongRun(t, e);
        RunIsSpace(t, i);
        CollapsedRunSpec(t, i, e);
        FewNewlinesCollapsed(CollapsedRun(t, i, e));
        var r := CollapsedRun(t, i, e);
        CollapsedConcat(r, Collapsed(t, e));
      }
    }
  }

  /** A maximal whitespace run is all whitespace. */
  lemma RunIsSpace(t: string, i: nat)
    requires i <= |t|
    ensures AllSpace(t[i..RunEnd(t, i, Space)])
  {
    var e := RunEnd(t, i, Space);
    forall k | 0 <= k < e - i ensures IsSpace(t[i..e][k]) {
      assert t[i..e][k] == t[i + k];
    }
  }

  /** In a collapsed text, every run is kept as it is. */
  lemma RunKept(t: string, i: nat)
    requires i <= |t| && BlankLinesCollapsed(t)
    ensures CollapsedRun(t, i, RunEnd(t, i, Space)) == t[i..RunEnd(t, i, Space)]
  {
    RunIsSpace(t, i);
  }

  /** Text whose whitespace stretches already hold at most two newlines is left as it is. */
  lemma {:induction false} CollapsedKeeps(t: string, i: nat)
    requires i <= |t| && BlankLinesCollapsed(t)
    ensures Collapsed(t, i) == t[i..]
    decreases |t| - i
  {
    if i < |t| {
      if !IsSpace(t[i]) {
        CollapsedKeeps(t, i + 1);
        assert t[i..] == [t[i]] + t[i + 1..];
      } else {
        var e := RunEnd(t, i, Space);
        CollapsedKeeps(t, e);
        RunKept(t, i);
        assert t[i..] == t[i..e] + t[e..];
      }
    }
  }

  /** Every slice of a collapsed text is collapsed: stripping keeps it so. */
  lemma SliceCollapsed(s: string, c: nat, d: nat)
    requires c <= d <= |s| && BlankLinesCollapsed(s)
    ensures BlankLinesCollapsed(s[c..d])
  {
    var u := s[c..d];
    forall a, b | 0 <= a <= b <= |u| && AllSpace(u[a..b]) ensures NewlineCount(u[a..b]) <= 2 {
      assert u[a..b] == s[c + a..c + b] by {
        forall k | 0 <= k < b - a ensures u[a..b][k] == s[c + a..c + b][k] {
          assert u[a..b][k] == u[a + k];
        }
      }
    }
  }

  /**
   * The collapse is complete and changes nothing it need not: no whitespace
   * stretch of the substituted text holds three newlines, and text with no
   * such stretch comes through unchanged, so collapsing twice is
   * collapsing once.
   */
  lemma BlankLinesSubSpec(t: string)
    ensures BlankLinesCollapsed(Sub(Compile(BlankLines), t, "\n\n"))
    ensures BlankLinesCollapsed(t) ==> Sub(Compile(BlankLines), t, "\n\n") == t
  {
    SubIsCollapsed(t, 0);
    CollapsedHasNoLongRun(t, 0);
    if BlankLinesCollapsed(t) {
      CollapsedKeeps(t, 0);
      assert t[0..] == t;
    }
  }

  /** The cleaned conversation has no whitespace stretch with three newlines. */
  lemma ConversationBlankLinesCollapsed(conversation: string)
    ensures BlankLinesCollapsed(CleanConversation(conversation))
  {
    if conversation != [] {
      var s := Sub(Compile(BlankLines), ConversationBody(conversation), "\n\n");
      BlankLinesSubSpec(ConversationBody(conversation));
      SliceCollapsed(s, StripStart(s), StripEnd(s));
    } else {
      FewNewlinesCollapsed([]);
    }
  }

  /** Four newlines in a row count four. */
  lemma FourNewlines(w: string)
    requires w == "\n\n\n\n"
    ensures NewlineCount(w) == 4
  {
    var pair := "\n\n";
    assert pair[1..] == "\n" && pair[1..][1..] == [];
    assert w == pair + pair;
    NewlineCountConcat(pair, pair);
  }

  /** The run of "a\n\n\n\nb" collapses to "\n\n". */
  lemma ExampleRun(t: string)
    requires t == "a\n\n\n\nb"
    ensures Collapsed(t, 1) == "\n\nb"
  {
    RunEndIs(t, 1, Space, 5);
    FourNewlines(t[1..5]);
    assert FirstNewline(t, 1, 5) == 1;
    assert AfterLastNewline(t, 1, 5) == 5;
    assert CollapsedRun(t, 1, 5) == "\n\n";
    assert Collapsed(t, 5) == "b";
  }

  /** For instance "a\n\n\n\nb" comes out as "a\n\nb". */
  lemma BlankLinesExample(t: string)
    requires t == "a\n\n\n\nb"
    ensures Sub(Compile(BlankLines), t, "\n\n") == "a\n\nb"
  {
    SubIsCollapsed(t, 0);
    ExampleRun(t);
    assert Collapsed(t, 0) == ['a'] + Collapsed(t, 1);
  }


  // ------------------------------------------------------------- records

  /**
   * One field as _clean_single_transcript reads it with get(key, ''): a
   * falsy value cleans to "", a string is cleaned, and any other value
   * makes the cleaner raise, since it is not a string.
   */
  function CleanField(clean: string -> string, v: Value): (r: Result<Value>)
    ensures !Truthy(v) ==> r == Ok(Str([]))
    ensures v.Str? && v.s != [] ==> r == Ok(Str(clean(v.s)))
    ensures r.Failure? <==> Truthy(v) && !v.Str?
  {
    if !Truthy(v) then Ok(Str([]))
    else if v.Str? then Ok(Str(clean(v.s)))
    else Failure("TypeError: expected string")
  }

  /** The fields that are cleaned, in the order they are cleaned. */
  const CleanedKeys: seq<string> :=
    ["category", "severity", "journey_type", "date", "transcript", "resolution", "impact"]

  /** The cleaner of each field of CleanedKeys. */
  const Cleaners: seq<string -> string> := [
    CleanCategory, CleanSeverity, CleanJourneyType, CleanDate, CleanConversation, CleanResolution, CleanImpact]

  /** The cleaned fields are seven different keys. */
  lemma CleanedKeysDistinct()
    ensures |CleanedKeys| == |Cleaners| == 7
    ensures forall i, j :: 0 <= i < j < |CleanedKeys| ==> CleanedKeys[i] != CleanedKeys[j]
  {
    forall i, j | 0 <= i < j < |CleanedKeys| ensures CleanedKeys[i] != CleanedKeys[j] {
      assert CleanedKeys[i][0] != CleanedKeys[j][0];
    }
  }

  /** Fields `keys[i..]` cleaned into `acc` by `cleaners[i..]`, each read from the original record `orig`. */
  function CleanFieldsFrom(keys: seq<string>, cleaners: seq<string -> string>, orig: Record, acc: Record, i: nat)
    : Result<Record>
    requires |keys| == |cleaners| && i <= |keys|
    decreases |keys| - i
  {
    if i == |keys| then Ok(acc)
    else
      match CleanField(cleaners[i], Get(orig, keys[i], Str([])))
      case Failure(e) => Failure(e)
      case Ok(v) => CleanFieldsFrom(keys, cleaners, orig, acc[keys[i] := v], i + 1)
  }

  /** _clean_single_transcript, as a function of the record. */
  function CleanRecord(transcript: Record): Result<Record> {
    CleanFieldsFrom(CleanedKeys, Cleaners, transcript, transcript, 0)
  }

  /** Cleaning fields `i` onwards fails exactly when one of them holds a truthy non-string. */
  lemma {:induction false} CleanFieldsFromOk(keys: seq<string>, cleaners: seq<string -> string>, orig: Record, acc: Record, i: nat)
    requires |keys| == |cleaners| && i <= |keys|
    ensures CleanFieldsFrom(keys, cleaners, orig, acc, i).Ok? <==>
      forall j :: i <= j < |keys| ==> CleanField(cleaners[j], Get(orig, keys[j], Str([]))).Ok?
    decreases |keys| - i
  {
    if i < |keys| {
      var v := CleanField(cleaners[i], Get(orig, keys[i], Str([])));
      if v.Ok? {
        CleanFieldsFromOk(keys, cleaners, orig, acc[keys[i] := v.value], i + 1);
      }
    }
  }

  /** Cleaning fields `i` onwards adds exactly those keys and leaves every other key as it was. */
  lemma {:induction false} CleanFieldsFromKeys(keys: seq<string>, cleaners: seq<string -> string>, orig: Record, acc: Record, i: nat)
    requires |keys| == |cleaners| && i <= |keys|
    ensures var r := CleanFieldsFrom(keys, cleaners, orig, acc, i);
      r.Ok? ==> forall k :: k in r.value <==> k in acc || k in keys[i..]
    ensures var r := CleanFieldsFrom(keys, cleaners, orig, acc, i);
      r.Ok? ==> forall k :: k in acc && k !in keys[i..] ==> r.value[k] == acc[k]
    decreases |keys| - i
  {
    if i < |keys| {
      var v := CleanField(cleaners[i], Get(orig, keys[i], Str([])));
      if v.Ok? {
        var acc' := acc[keys[i] := v.value];
        var r := CleanFieldsFrom(keys, cleaners, orig, acc', i + 1);
        CleanFieldsFromKeys(keys, cleaners, orig, acc', i + 1);
        assert keys[i..] == [keys[i]] + keys[i + 1..];
        if r.Ok? {
          forall k ensures k in r.value <==> k in acc || k in keys[i..] {
            assert k in acc' <==> k in acc || k == keys[i];
          }
          forall k | k in acc && k !in keys[i..] ensures r.value[k] == acc[k] {
            assert k != keys[i] && k !in keys[i + 1..];
          }
        }
      }
    }
  }

  /** Each field `j` from `i` on, with the keys distinct, ends up holding its cleaned value. */
  lemma {:induction false} CleanFieldsFromValues(keys: seq<string>, cleaners: seq<string -> string>, orig: Record, acc: Record, i: nat)
    requires |keys| == |cleaners| && i <= |keys|
    requires forall a, b :: 0 <= a < b < |keys| ==> keys[a] != keys[b]
    ensures var r := CleanFieldsFrom(keys, cleaners, orig, acc, i);
      r.Ok? ==> forall j :: i <= j < |keys| ==>
        keys[j] in r.value && CleanField(cleaners[j], Get(orig, keys[j], Str([]))).Ok? &&
        r.value[keys[j]] == CleanField(cleaners[j], Get(orig, keys[j], Str([]))).value
    decreases |keys| - i
  {
    if i < |keys| {
      var v := CleanField(cleaners[i], Get(orig, keys[i], Str([])));
      if v.Ok? {
        var acc' := acc[keys[i] := v.value];
        CleanFieldsFromValues(keys, cleaners, orig, acc', i + 1);
        CleanFieldsFromKeys(keys, cleaners, orig, acc', i + 1);
        CleanFieldsFromOk(keys, cleaners, orig, acc', i + 1);
        forall j | i + 1 <= j < |keys| ensures keys[j] != keys[i] {
        }
        assert keys[i] !in keys[i + 1..];
      }
    }
  }

  /**
   * What _clean_single_transcript does to a record: it fails exactly when
   * a cleaned field holds a truthy non-string; otherwise the result has the
   * record's keys and the seven cleaned ones, each cleaned field holds its
   * cleaned value, and every other key keeps its value.
   */
  lemma CleanRecordSpec(transcript: Record)
    ensures CleanRecord(transcript).Ok? <==>
      forall j :: 0 <= j < |CleanedKeys| ==> CleanField(Cleaners[j], Get(transcript, CleanedKeys[j], Str([]))).Ok?
    ensures CleanRecord(transcript).Ok? ==>
      forall k :: k in CleanRecord(transcript).value <==> k in transcript || k in CleanedKeys
    ensures CleanRecord(transcript).Ok? ==>
      forall k :: k in transcript && k !in CleanedKeys ==> CleanRecord(transcript).value[k] == transcript[k]
    ensures CleanRecord(transcript).Ok? ==>
      forall j :: 0 <= j < |CleanedKeys| ==>
        CleanedKeys[j] in CleanRecord(transcript).value &&
        CleanRecord(transcript).value[CleanedKeys[j]] == CleanField(Cleaners[j], Get(transcript, CleanedKeys[j], Str([]))).value
  {
    CleanedKeysDistinct();
    assert CleanedKeys[0..] == CleanedKeys;
    CleanFieldsFromOk(CleanedKeys, Cleaners, transcript, transcript, 0);
    CleanFieldsFromKeys(CleanedKeys, Cleaners, transcript, transcript, 0);
    CleanFieldsFromValues(CleanedKeys, Cleaners, transcript, transcript, 0);
  }

  /** The call id, the channel and the root cause are not cleaned: they stay as they were, present or absent. */
  lemma CleanRecordKeepsIdentity(transcript: Record)
    requires CleanRecord(transcript).Ok?
    ensures forall k :: k in {"call_id", "channel", "root_cause"} ==>
      (k in CleanRecord(transcript).value <==> k in transcript) &&
      (k in transcript ==> CleanRecord(transcript).value[k] == transcript[k])
  {
    CleanRecordSpec(transcript);
    IdentityKeysNotCleaned();
  }

  lemma IdentityKeysNotCleaned()
    ensures "call_id" !in CleanedKeys && "channel" !in CleanedKeys && "root_cause" !in CleanedKeys
  {
    forall j | 0 <= j < |CleanedKeys|
      ensures CleanedKeys[j] != "call_id" && CleanedKeys[j] != "channel" && CleanedKeys[j] != "root_cause"
    {
      assert CleanedKeys[j][..2] != "ca" || CleanedKeys[j][2] != 'l';
    }
  }

  /** _clean_single_transcript: a copy of the record, filled field by field. */
  method CleanSingleTranscript(transcript: Record) returns (r: Result<Record>)
    ensures r == CleanRecord(transcript)
  {
    var cleaned := transcript;
    var category := CleanField(CleanCategory, Get(transcript, "category", Str([])));
    if category.Failure? { return Failure(category.error); }
    cleaned := cleaned["category" := category.value];
    assert CleanRecord(transcript) == CleanFieldsFrom(CleanedKeys, Cleaners, transcript, cleaned, 1);
    var severity := CleanField(CleanSeverity, Get(transcript, "severity", Str([])));
    if severity.Failure? { return Failure(severity.error); }
    cleaned := cleaned["severity" := severity.value];
    assert CleanRecord(transcript) == CleanFieldsFrom(CleanedKeys, Cleaners, transcript, cleaned, 2);
    var journeyType := CleanField(CleanJourneyType, Get(transcript, "journey_type", Str([])));
    if journeyType.Failure? { return Failure(journeyType.error); }
    cleaned := cleaned["journey_type" := journeyType.value];
    assert CleanRecord(transcript) == CleanFieldsFrom(CleanedKeys, Cleaners, transcript, cleaned, 3);
    var date := CleanField(CleanDate, Get(transcript, "date", Str([])));
    if date.Failure? { return Failure(date.error); }
    cleaned := cleaned["date" := date.value];
    assert CleanRecord(transcript) == CleanFieldsFrom(CleanedKeys, Cleaners, transcript, cleaned, 4);
    var conversation := CleanField(CleanConversation, Get(transcript, "transcript", Str([])));
    if conversation.Failure? { return Failure(conversation.error); }
    cleaned := cleaned["transcript" := conversation.value];
    assert CleanRecord(transcript) == CleanFieldsFrom(CleanedKeys, Cleaners, transcript, cleaned, 5);
    var resolution := CleanField(CleanResolution, Get(transcript, "resolution", Str([])));
    if resolution.Failure? { return Failure(resolution.error); }
    cleaned := cleaned["resolution" := resolution.value];
    assert CleanRecord(transcript) == CleanFieldsFrom(CleanedKeys, Cleaners, transcript, cleaned, 6);
    var impact := CleanField(CleanImpact, Get(transcript, "impact", Str([])));
    if impact.Failure? { return Failure(impact.error); }
    cleaned := cleaned["impact" := impact.value];
    return Ok(cleaned);
  }

  // -------------------------------------------------------------- batches

  /** The cleaned batch: its metadata and the cleaned records, in input order. */
  datatype CleanedData = CleanedData(
    totalTranscripts: nat,
    cleanedAt: Value,
    channels: set<Value>,
    categories: set<Value>,
    transcripts: seq<Record>)

  /**
   * The items the loop of clean_parsed_data visits: data.get('transcripts', [])
   * iterated. A list gives its elements; an empty string or dict gives
   * nothing; a non-empty one gives strings, on which the loop fails; any
   * other value cannot be iterated.
   */
  function TranscriptItems(data: Value): (r: Result<seq<Value>>)
    ensures data.Obj? && Get(data.fields, "transcripts", Arr([])).Arr? ==>
      r == Ok(Get(data.fields, "transcripts", Arr([])).items)
  {
    if !data.Obj? then Failure("AttributeError: data has no get")
    else
      match Get(data.fields, "transcripts", Arr([]))
      case Arr(items) => Ok(items)
      case Str(s) => if s == [] then Ok([]) else Failure("AttributeError: str has no copy")
      case Obj(m) => if m == map[] then Ok([]) else Failure("AttributeError: str has no copy")
      case _ => Failure("TypeError: not iterable")
  }

  /** One iteration of the loop: clean the record, then read its call id, which must be present. */
  function CleanOne(item: Value): (r: Result<Record>)
    ensures r.Ok? ==> item.Obj? && CleanRecord(item.fields) == Ok(r.value)
    ensures r.Ok? <==> item.Obj? && CleanRecord(item.fields).Ok? && "call_id" in item.fields
  {
    if !item.Obj? then Failure("AttributeError: not a dict")
    else
      match CleanRecord(item.fields)
      case Failure(e) => Failure(e)
      case Ok(c) => CleanRecordKeepsIdentity(item.fields); if "call_id" in c then Ok(c) else Failure("KeyError: 'call_id'")
  }

  /** The list the loop builds, or the first failure. */
  function CleanAll(items: seq<Value>): Result<seq<Record>> {
    MapAll(CleanOne, items)
  }

  /** The metadata and the cleaned list, as clean_parsed_data writes them. */
  function Assemble(data: Value, cleaned: seq<Record>): (r: Result<CleanedData>)
    requires data.Obj?
    ensures r.Ok? ==> r.value.totalTranscripts == |r.value.transcripts| == |cleaned|
  {
    var metadata := Get(data.fields, "metadata", Obj(map[]));
    if !metadata.Obj? then Failure("AttributeError: metadata has no get")
    else if exists k :: 0 <= k < |cleaned| && !Hashable(Get(cleaned[k], "channel", Str("Unknown"))) then
      Failure("TypeError: unhashable channel")
    else
      Ok(CleanedData(
        |cleaned|,
        Get(metadata.fields, "parsed_at", Str([])),
        set c | c in cleaned :: Get(c, "channel", Str("Unknown")),
        set c | c in cleaned && Truthy(Get(c, "category", Str([]))) :: Get(c, "category", Str([])),
        cleaned))
  }

  /** clean_parsed_data, as a function of the loaded data; a failure is the method returning False. */
  function CleanData(data: Value): Result<CleanedData> {
    match TranscriptItems(data)
    case Failure(e) => Failure(e)
    case Ok(items) =>
      match CleanAll(items)
      case Failure(e) => Failure(e)
      case Ok(cleaned) => Assemble(data, cleaned)
  }

  /** The loop of clean_parsed_data: the records cleaned one by one and appended. */
  method CleanParsedData(data: Value) returns (r: Result<CleanedData>)
    ensures r == CleanData(data)
  {
    var items := TranscriptItems(data);
    if items.Failure? { return Failure(items.error); }
    var cleanedTranscripts: seq<Record> := [];
    var i := 0;
    while i < |items.value|
      invariant 0 <= i <= |items.value|
      invariant CleanAll(items.value[..i]) == Ok(cleanedTranscripts)
    {
      var cleaned := CleanOne(items.value[i]);
      assert items.value[..i + 1][..i] == items.value[..i];
      if cleaned.Failure? {
        MapAllFailureStays(CleanOne, items.value, i + 1);
        return Failure(cleaned.error);
      }
      cleanedTranscripts := cleanedTranscripts + [cleaned.value];
      i := i + 1;
    }
    assert items.value[..i] == items.value;
    r := Assemble(data, cleanedTranscripts);
  }

  /**
   * A batch that cleans keeps the number and the order of its records;
   * a record without a call id, or one that is not a dict, fails it.
   */
  lemma CleanDataKeepsRecords(data: Value)
    requires TranscriptItems(data).Ok?
    ensures var items := TranscriptItems(data).value;
      CleanData(data).Ok? ==>
        CleanData(data).value.totalTranscripts == |items| &&
        |CleanData(data).value.transcripts| == |items| &&
        forall k :: 0 <= k < |items| ==>
          items[k].Obj? && CleanRecord(items[k].fields) == Ok(CleanData(data).value.transcripts[k])
    ensures var items := TranscriptItems(data).value;
      (exists k :: 0 <= k < |items| && (!items[k].Obj? || "call_id" !in items[k].fields)) ==> CleanData(data).Failure?
  {
    MapAllSpec(CleanOne, TranscriptItems(data).value);
  }
}
