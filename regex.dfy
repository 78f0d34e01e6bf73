/**
 * The regular expressions of the pipeline, each as a hand-written matcher
 * that follows Python's backtracking order for that one pattern, and the
 * scanning operations built on them: re.search, len(re.findall), re.sub
 * and re.split. None of the patterns can match the empty string, so every
 * match consumes at least one character and scanning resumes at its end.
 */
module Regex {
  import opened Wrappers
  import opened Text

  /** A non-empty literal. */
  type Literal = s: string | |s| > 0 witness "x"

  datatype Pattern =
    // section separators (src/transcript_parser.py:81-87), all IGNORECASE
    | CallMarker             // call\s+tw_\w+_\d+
    | TwMarker               // tw_\w+_\d+
    | SectionMarker          // section\s+\d+
    | EqualsRule             // ={3,}
    | DashRule               // -{10,}
    | TranscriptMarker       // transcript\s+\d+
    | ChannelHeader          // \d+\.\s+\w+\s+channel
    // date shapes (src/data_cleaner.py:181-183)
    | MonthDayYear           // \w+\s+\d+,\s+\d{4}
    | IsoDate                // \d{4}-\d{2}-\d{2}
    | SlashDate              // \d{1,2}/\d{1,2}/\d{4}
    // personal data (src/pii_masker.py:16-44), all IGNORECASE
    | PhoneDashed            // \b\d{3}-\d{3}-\d{4}\b
    | PhoneParens            // \b\(\d{3}\)\s*\d{3}-\d{4}\b
    | PhoneDotted            // \b\d{3}\.\d{3}\.\d{4}\b
    | PhoneTenDigits         // \b\d{10}\b
    | Email                  // \b[A-Za-z0-9._%+-]+@[A-Za-z0-9.-]+\.[A-Z|a-z]{2,}\b
    | AccountDigits          // \b\d{10,15}\b
    | AccountAlnum           // \b[A-Z0-9]{8,12}\b
    | Imei                   // \b\d{15}\b
    | CreditCard             // \b\d{4}[\s-]?\d{4}[\s-]?\d{4}[\s-]?\d{4}\b
    | Ssn                    // \b\d{3}-\d{2}-\d{4}\b
    | NameAfterRole          // \b(?:Agent|Customer):\s*[A-Z][a-z]+\s+[A-Z][a-z]+\b
    | NameBeforeVerb         // \b[A-Z][a-z]+\s+[A-Z][a-z]+(?=\s+(?:said|called|from))\b
    | StreetAddress          // \b\d+\s+[A-Za-z0-9\s]+(?:Street|St|...|Pl)\b
    | ZipCode                // \b\d{5}(?:-\d{4})?\b
    // telecom identifiers (src/pii_masker.py:177-183), all IGNORECASE
    | SimNumber              // \b(SIM|sim)\s*(card\s*)?number[:\s]+[\w\d]+
    | ActivationCode         // \bactivation\s*code[:\s]+[\w\d]+
    | PortRequest            // \bport\s*request[:\s]+[\w\d-]+
    | TradeInReference       // \btrade-in\s*reference[:\s]+[\w\d-]+
    | OrderConfirmation      // \border\s*confirmation[:\s]+[\w\d-]+
    | BillingAddress         // \bbilling\s*address[:\s]+[^.]+\.
    | ZipCodeLabel           // \bZIP\s*code[:\s]+\d{5}
    // contamination stripping (src/data_cleaner.py:99-104,144-146,199-205,216-217,227-228)
    | TrailingLabel(lit: Literal)              // \s*LABEL.*$, IGNORECASE, lit in lower case
    | TrailingWord(word: Literal)                // \s*WORD\s*$, IGNORECASE, word in lower case
    | LineWith(needle: Literal, ignoreCase: bool) // ^.*?NEEDLE.*?$ with MULTILINE
    | LineWithBoth(first: Literal, second: Literal) // ^.*?FIRST.*?SECOND.*?$, MULTILINE | IGNORECASE
    | BlankLines                                 // \n\s*\n\s*\n+

  // ----------------------------------------------------------- small pieces

  predicate DigitsAt(t: string, i: nat, n: nat) {
    i + n <= |t| && forall k :: i <= k < i + n ==> IsDigit(t[k])
  }

  predicate CharAt(t: string, i: nat, c: char) {
    i < |t| && t[i] == c
  }

  function Min(a: nat, b: nat): nat {
    if a <= b then a else b
  }

  /** `$` without MULTILINE: at the end, or just before a final newline. */
  predicate DollarAt(t: string, p: nat)
    requires p <= |t|
  {
    p == |t| || (p == |t| - 1 && t[p] == '\n')
  }

  /** The largest `p` in [lo, hi] where \b holds. */
  function LastBoundary(t: string, lo: nat, hi: nat): (r: Option<nat>)
    requires lo <= hi <= |t|
    ensures r.Some? ==> lo <= r.value <= hi && Boundary(t, r.value)
    ensures r.None? ==> forall p :: lo <= p <= hi ==> !Boundary(t, p)
    decreases hi
  {
    if Boundary(t, hi) then Some(hi) else if hi == lo then None else LastBoundary(t, lo, hi - 1)
  }

  /** The largest `p` in [lo, hi] where `$` holds. */
  function LastDollar(t: string, lo: nat, hi: nat): (r: Option<nat>)
    requires lo <= hi <= |t|
    ensures r.Some? ==> lo <= r.value <= hi && DollarAt(t, r.value)
    decreases hi
  {
    if DollarAt(t, hi) then Some(hi) else if hi == lo then None else LastDollar(t, lo, hi - 1)
  }

  /** `\bC{lo,hi}\b` at `i`: the run of class `k` is retried from its longest allowed length down to `lo`. */
  function BoundedWordAt(t: string, i: nat, k: CharClass, lo: nat, hi: nat): (r: Option<nat>)
    requires i <= |t| && 0 < lo <= hi
    ensures r.Some? ==> i + lo <= r.value <= i + hi && r.value <= |t|
  {
    if !Boundary(t, i) then None
    else
      var e := RunEnd(t, i, k);
      if e < i + lo then None else LastBoundary(t, i + lo, Min(e, i + hi))
  }

  /** `KW\s+\d+` at `i`. */
  function KeywordNumberAt(t: string, i: nat, kw: Literal): (r: Option<nat>)
    requires i <= |t|
    ensures r.Some? ==> i < r.value <= |t|
  {
    if !AtCI(t, i, kw) then None
    else
      var s := RunEnd(t, i + |kw|, Space);
      if s == i + |kw| then None
      else
        var d := RunEnd(t, s, Digit);
        if d == s then None else Some(d)
  }

  /** The largest `m` in [lo, hi) with `_` at `m` and a digit right after it. */
  function LastUnderscoreBeforeDigit(t: string, lo: nat, hi: nat): (r: Option<nat>)
    requires hi <= |t|
    ensures r.Some? ==> lo <= r.value < hi && t[r.value] == '_' && r.value + 1 < |t| && IsDigit(t[r.value + 1])
    decreases hi
  {
    if hi <= lo then None
    else if t[hi - 1] == '_' && hi < |t| && IsDigit(t[hi]) then Some(hi - 1)
    else LastUnderscoreBeforeDigit(t, lo, hi - 1)
  }

  /** `\w+_\d+` at `j`: \w+ gives back characters until a `_` followed by a digit ends it. */
  function UnderscoreDigitsAt(t: string, j: nat): (r: Option<nat>)
    requires j <= |t|
    ensures r.Some? ==> j + 3 <= r.value <= |t|
  {
    var w := RunEnd(t, j, Word);
    match LastUnderscoreBeforeDigit(t, j + 1, w)
    case None => None
    case Some(m) => Some(RunEnd(t, m + 1, Digit))
  }

  /** `\w+_\w+_\d+` at `s`: the first `_` is tried from the right, then the second. */
  function TwoUnderscoresFrom(t: string, s: nat, w: nat, a: int): (r: Option<nat>)
    requires s <= w <= |t| && a < w
    ensures r.Some? ==> s + 5 <= r.value <= |t|
    decreases a
  {
    if a < s + 1 then None
    else
      match LastUnderscoreBeforeDigit(t, a + 2, w)
      case Some(b) =>
        if t[a] == '_' then Some(RunEnd(t, b + 1, Digit)) else TwoUnderscoresFrom(t, s, w, a - 1)
      case None => TwoUnderscoresFrom(t, s, w, a - 1)
  }

  /** `[A-Z][a-z]+\s+[A-Z][a-z]+` (IGNORECASE) at `s`: the start and the letter-run end of the second word. */
  function TwoWordsAt(t: string, s: nat): (r: Option<(nat, nat)>)
    requires s <= |t|
    ensures r.Some? ==> s + 3 <= r.value.0 && r.value.0 + 2 <= r.value.1 <= |t|
  {
    if !(s < |t| && IsLetter(t[s])) then None
    else
      var w1 := RunEnd(t, s + 1, Letter);
      if w1 == s + 1 then None
      else
        var s2 := RunEnd(t, w1, Space);
        if s2 == w1 || !(s2 < |t| && IsLetter(t[s2])) then None
        else
          var w2 := RunEnd(t, s2 + 1, Letter);
          if w2 == s2 + 1 then None else Some((s2, w2))
  }

  /** The lookahead `(?=\s+(?:said|called|from))` at `p`. */
  predicate VerbFollows(t: string, p: nat)
    requires p <= |t|
  {
    var s := RunEnd(t, p, Space);
    s > p && (AtCI(t, s, "said") || AtCI(t, s, "called") || AtCI(t, s, "from"))
  }

  /** The largest `p` in [lo, hi] where the verb lookahead and then \b hold. */
  function LastNameEnd(t: string, lo: nat, hi: nat): (r: Option<nat>)
    requires lo <= hi <= |t|
    ensures r.Some? ==> lo <= r.value <= hi
    decreases hi
  {
    if VerbFollows(t, hi) && Boundary(t, hi) then Some(hi)
    else if hi == lo then None
    else LastNameEnd(t, lo, hi - 1)
  }

  const StreetSuffixes: seq<string> :=
    ["street", "st", "avenue", "ave", "road", "rd", "drive", "dr", "lane", "ln",
     "boulevard", "blvd", "way", "place", "pl"]

  /** The street-suffix alternation followed by \b at `k`, alternatives tried in order. */
  function SuffixAt(t: string, k: nat, alts: seq<string>): (r: Option<nat>)
    requires k <= |t|
    ensures r.Some? ==> k <= r.value <= |t|
  {
    if alts == [] then None
    else if AtCI(t, k, alts[0]) && Boundary(t, k + |alts[0]|) then Some(k + |alts[0]|)
    else SuffixAt(t, k, alts[1..])
  }

  /** `[A-Za-z0-9\s]+` ending at some `k` in [lo, hi], tried from the longest, then a street suffix. */
  function LastSuffixEnd(t: string, lo: nat, hi: nat): (r: Option<nat>)
    requires hi <= |t|
    ensures r.Some? ==> lo <= r.value <= |t|
    decreases hi
  {
    if hi < lo then None
    else
      match SuffixAt(t, hi, StreetSuffixes)
      case Some(e) => Some(e)
      case None => if hi == lo then None else LastSuffixEnd(t, lo, hi - 1)
  }

  /** The address tail after `\d+`: `\s+` taken as t[d..sp), from the longest. */
  function AddressFrom(t: string, d: nat, sp: nat): (r: Option<nat>)
    requires d < sp <= |t|
    ensures r.Some? ==> d < r.value <= |t|
    decreases sp
  {
    match LastSuffixEnd(t, sp + 1, RunEnd(t, sp, AlnumOrSpace))
    case Some(e) => Some(e)
    case None => if sp - 1 > d then AddressFrom(t, d, sp - 1) else None
  }

  /** `[\s-]?`: one separator is taken when present (the next item needs a digit). */
  function SkipSeparator(t: string, j: nat): (r: nat)
    ensures j <= r <= j + 1
  {
    if j < |t| && (IsSpace(t[j]) || t[j] == '-') then j + 1 else j
  }

  /** `\d{1,2}/` at `j`: two digits are tried first; one digit is tried only when no second digit follows. */
  function ShortNumberSlash(t: string, j: nat): (r: Option<nat>)
    ensures r.Some? ==> j + 2 <= r.value <= |t|
  {
    if DigitsAt(t, j, 2) then (if CharAt(t, j + 2, '/') then Some(j + 3) else None)
    else if DigitsAt(t, j, 1) && CharAt(t, j + 1, '/') then Some(j + 2)
    else None
  }

  /** The largest `k` in [lo, hi) with `.` at `k` that a TLD `[A-Z|a-z]{2,}\b` follows; the match end. */
  function EmailDotTld(t: string, lo: nat, hi: nat): (r: Option<nat>)
    requires hi <= |t|
    ensures r.Some? ==> lo + 3 <= r.value <= |t|
    decreases hi
  {
    if hi <= lo then None
    else
      var k := hi - 1;
      var m := RunEnd(t, k + 1, TldChar);
      if t[k] == '.' && m >= k + 3 then
        (match LastBoundary(t, k + 3, m)
         case Some(e) => Some(e)
         case None => EmailDotTld(t, lo, k))
      else EmailDotTld(t, lo, k)
  }

  /** `LABEL[:\s]+C+` at `n`, for a value class `k` that excludes `:` and whitespace. */
  function LabelValueAt(t: string, n: nat, lit: Literal, k: CharClass): (r: Option<nat>)
    requires n <= |t|
    ensures r.Some? ==> n < r.value <= |t|
  {
    if !AtCI(t, n, lit) then None
    else
      var c := RunEnd(t, n + |lit|, ColonOrSpace);
      if c == n + |lit| then None
      else
        var e := RunEnd(t, c, k);
        if e == c then None else Some(e)
  }

  /** `\bFIRST\s*SECOND[:\s]+C+` at `i`. */
  function PhraseValueAt(t: string, i: nat, first: Literal, second: Literal, k: CharClass): (r: Option<nat>)
    requires i <= |t|
    ensures r.Some? ==> i < r.value <= |t|
  {
    if !(Boundary(t, i) && AtCI(t, i, first)) then None
    else LabelValueAt(t, RunEnd(t, i + |first|, Space), second, k)
  }

  /** `[^.]+\.` after `[:\s]+` taken as t[a..c), from the longest. */
  function DotTerminatedFrom(t: string, a: nat, c: nat): (r: Option<nat>)
    requires a < c <= |t|
    ensures r.Some? ==> a + 2 < r.value <= |t|
    decreases c
  {
    var p := RunEnd(t, c, NotDot);
    if c < p < |t| then Some(p + 1)
    else if c - 1 > a then DotTerminatedFrom(t, a, c - 1)
    else None
  }

  /** `\s*` taken as t[x..y), from the longest, then LABEL, then a run of class `tail`, then `$`. */
  function TrailingFrom(t: string, x: nat, y: nat, lit: Literal, tail: CharClass): (r: Option<nat>)
    requires x <= y <= |t|
    ensures r.Some? ==> x < r.value <= |t|
    decreases y
  {
    var m := if AtCI(t, y, lit) then LastDollar(t, y + |lit|, RunEnd(t, y + |lit|, tail)) else None;
    if m.Some? then m
    else if y > x then TrailingFrom(t, x, y - 1, lit, tail)
    else None
  }

  /** `^` with MULTILINE. */
  predicate LineStart(t: string, x: nat)
    requires x <= |t|
  {
    x == 0 || t[x - 1] == '\n'
  }

  /** The largest `k` in [lo, hi) holding a newline. */
  function LastNewline(t: string, lo: nat, hi: nat): (r: Option<nat>)
    requires hi <= |t|
    ensures r.Some? ==> lo <= r.value < hi && t[r.value] == '\n'
    ensures r.None? ==> forall k :: lo <= k < hi ==> t[k] != '\n'
    decreases hi
  {
    if hi <= lo then None
    else if t[hi - 1] == '\n' then Some(hi - 1)
    else LastNewline(t, lo, hi - 1)
  }

  /** Whether a line holds `needle`, ignoring case when `ci` (the needle is then written in lower case). */
  predicate LineHas(needle: Literal, ci: bool, line: string) {
    Contains(if ci then LowerStr(line) else line, needle)
  }

  /**
   * Whether a line holds `first` and, somewhere after it, `second`, ignoring
   * case. A later occurrence of `first` only leaves less room for `second`,
   * so the first occurrence decides.
   */
  predicate LineHasBoth(first: Literal, second: Literal, line: string) {
    var l := LowerStr(line);
    var f := Find(l, first);
    f >= 0 && Contains(l[f + |first|..], second)
  }

  /** Whether a line-wise pattern (^...$ under MULTILINE) matches the given whole line. */
  predicate LineNoise(p: Pattern, line: string) {
    match p
    case LineWith(needle, ci) => LineHas(needle, ci, line)
    case LineWithBoth(first, second) => LineHasBoth(first, second, line)
    case _ => false
  }

  // ------------------------------------------------------------ the matchers

  function SeparatorAt(p: Pattern, t: string, i: nat): (r: Option<nat>)
    requires i <= |t|
    ensures r.Some? ==> i < r.value <= |t|
  {
    match p
    case CallMarker =>
      if !AtCI(t, i, "call") then None
      else
        var s := RunEnd(t, i + 4, Space);
        if s == i + 4 || !AtCI(t, s, "tw_") then None else UnderscoreDigitsAt(t, s + 3)
    case TwMarker =>
      if AtCI(t, i, "tw_") then UnderscoreDigitsAt(t, i + 3) else None
    case SectionMarker => KeywordNumberAt(t, i, "section")
    case EqualsRule =>
      var e := RunEnd(t, i, Only('='));
      if e >= i + 3 then Some(e) else None
    case DashRule =>
      var e := RunEnd(t, i, Only('-'));
      if e >= i + 10 then Some(e) else None
    case TranscriptMarker => KeywordNumberAt(t, i, "transcript")
    case ChannelHeader =>
      var d := RunEnd(t, i, Digit);
      if d == i || !CharAt(t, d, '.') then None
      else
        var s1 := RunEnd(t, d + 1, Space);
        if s1 == d + 1 then None
        else
          var w := RunEnd(t, s1, Word);
          if w == s1 then None
          else
            var s2 := RunEnd(t, w, Space);
            if s2 == w || !AtCI(t, s2, "channel") then None else Some(s2 + 7)
    case _ => None
  }

  function DateAt(p: Pattern, t: string, i: nat): (r: Option<nat>)
    requires i <= |t|
    ensures r.Some? ==> i < r.value <= |t|
  {
    match p
    case MonthDayYear =>
      var w := RunEnd(t, i, Word);
      if w == i then None
      else
        var s := RunEnd(t, w, Space);
        if s == w then None
        else
          var d := RunEnd(t, s, Digit);
          if d == s || !CharAt(t, d, ',') then None
          else
            var s2 := RunEnd(t, d + 1, Space);
            if s2 == d + 1 || !DigitsAt(t, s2, 4) then None else Some(s2 + 4)
    case IsoDate =>
      if DigitsAt(t, i, 4) && CharAt(t, i + 4, '-') && DigitsAt(t, i + 5, 2) &&
         CharAt(t, i + 7, '-') && DigitsAt(t, i + 8, 2)
      then Some(i + 10) else None
    case SlashDate =>
      (match ShortNumberSlash(t, i)
       case None => None
       case Some(a) =>
         (match ShortNumberSlash(t, a)
          case None => None
          case Some(b) => if DigitsAt(t, b, 4) then Some(b + 4) else None))
    case _ => None
  }

  function PhoneAt(p: Pattern, t: string, i: nat): (r: Option<nat>)
    requires i <= |t|
    ensures r.Some? ==> i < r.value <= |t|
  {
    match p
    case PhoneDashed =>
      if Boundary(t, i) && DigitsAt(t, i, 3) && CharAt(t, i + 3, '-') && DigitsAt(t, i + 4, 3) &&
         CharAt(t, i + 7, '-') && DigitsAt(t, i + 8, 4) && Boundary(t, i + 12)
      then Some(i + 12) else None
    case PhoneParens =>
      if !(Boundary(t, i) && CharAt(t, i, '(') && DigitsAt(t, i + 1, 3) && CharAt(t, i + 4, ')')) then None
      else
        var s := RunEnd(t, i + 5, Space);
        if DigitsAt(t, s, 3) && CharAt(t, s + 3, '-') && DigitsAt(t, s + 4, 4) && Boundary(t, s + 8)
        then Some(s + 8) else None
    case PhoneDotted =>
      if Boundary(t, i) && DigitsAt(t, i, 3) && CharAt(t, i + 3, '.') && DigitsAt(t, i + 4, 3) &&
         CharAt(t, i + 7, '.') && DigitsAt(t, i + 8, 4) && Boundary(t, i + 12)
      then Some(i + 12) else None
    case PhoneTenDigits => BoundedWordAt(t, i, Digit, 10, 10)
    case _ => None
  }

  function IdentityAt(p: Pattern, t: string, i: nat): (r: Option<nat>)
    requires i <= |t|
    ensures r.Some? ==> i < r.value <= |t|
  {
    match p
    case Email =>
      if !Boundary(t, i) then None
      else
        var a := RunEnd(t, i, EmailLocal);
        if a == i || !CharAt(t, a, '@') then None
        else EmailDotTld(t, a + 2, RunEnd(t, a + 1, EmailDomain))
    case AccountDigits => BoundedWordAt(t, i, Digit, 10, 15)
    case AccountAlnum => BoundedWordAt(t, i, Alnum, 8, 12)
    case Imei => BoundedWordAt(t, i, Digit, 15, 15)
    case CreditCard =>
      if !(Boundary(t, i) && DigitsAt(t, i, 4)) then None
      else
        var a := SkipSeparator(t, i + 4);
        if !DigitsAt(t, a, 4) then None
        else
          var b := SkipSeparator(t, a + 4);
          if !DigitsAt(t, b, 4) then None
          else
            var c := SkipSeparator(t, b + 4);
            if DigitsAt(t, c, 4) && Boundary(t, c + 4) then Some(c + 4) else None
    case Ssn =>
      if Boundary(t, i) && DigitsAt(t, i, 3) && CharAt(t, i + 3, '-') && DigitsAt(t, i + 4, 2) &&
         CharAt(t, i + 6, '-') && DigitsAt(t, i + 7, 4) && Boundary(t, i + 11)
      then Some(i + 11) else None
    case _ => None
  }

  function PlaceAt(p: Pattern, t: string, i: nat): (r: Option<nat>)
    requires i <= |t|
    ensures r.Some? ==> i < r.value <= |t|
  {
    match p
    case NameAfterRole =>
      var c := if AtCI(t, i, "agent:") then i + 6 else if AtCI(t, i, "customer:") then i + 9 else i;
      if !Boundary(t, i) || c == i then None
      else
        (match TwoWordsAt(t, RunEnd(t, c, Space))
         case None => None
         case Some(w) => LastBoundary(t, w.0 + 2, w.1))
    case NameBeforeVerb =>
      if !Boundary(t, i) then None
      else
        (match TwoWordsAt(t, i)
         case None => None
         case Some(w) => LastNameEnd(t, w.0 + 2, w.1))
    case StreetAddress =>
      if !Boundary(t, i) then None
      else
        var d := RunEnd(t, i, Digit);
        if d == i then None
        else
          var s := RunEnd(t, d, Space);
          if s == d then None else AddressFrom(t, d, s)
    case ZipCode =>
      if !(Boundary(t, i) && DigitsAt(t, i, 5)) then None
      else if CharAt(t, i + 5, '-') && DigitsAt(t, i + 6, 4) && Boundary(t, i + 10) then Some(i + 10)
      else if Boundary(t, i + 5) then Some(i + 5)
      else None
    case _ => None
  }

  function TelecomAt(p: Pattern, t: string, i: nat): (r: Option<nat>)
    requires i <= |t|
    ensures r.Some? ==> i < r.value <= |t|
  {
    match p
    case SimNumber =>
      if !(Boundary(t, i) && AtCI(t, i, "sim")) then None
      else
        var s := RunEnd(t, i + 3, Space);
        var n := if AtCI(t, s, "card") then RunEnd(t, s + 4, Space) else s;
        LabelValueAt(t, n, "number", Word)
    case ActivationCode => PhraseValueAt(t, i, "activation", "code", Word)
    case PortRequest => PhraseValueAt(t, i, "port", "request", WordOrDash)
    case TradeInReference => PhraseValueAt(t, i, "trade-in", "reference", WordOrDash)
    case OrderConfirmation => PhraseValueAt(t, i, "order", "confirmation", WordOrDash)
    case BillingAddress =>
      if !(Boundary(t, i) && AtCI(t, i, "billing")) then None
      else
        var s := RunEnd(t, i + 7, Space);
        if !AtCI(t, s, "address") then None
        else
          var c := RunEnd(t, s + 7, ColonOrSpace);
          if c == s + 7 then None else DotTerminatedFrom(t, s + 7, c)
    case ZipCodeLabel =>
      if !(Boundary(t, i) && AtCI(t, i, "zip")) then None
      else
        var s := RunEnd(t, i + 3, Space);
        if !AtCI(t, s, "code") then None
        else
          var c := RunEnd(t, s + 4, ColonOrSpace);
          if c > s + 4 && DigitsAt(t, c, 5) then Some(c + 5) else None
    case _ => None
  }

  function CleanupAt(p: Pattern, t: string, i: nat): (r: Option<nat>)
    requires i <= |t|
    ensures r.Some? ==> i < r.value <= |t|
  {
    match p
    case TrailingLabel(lit) => TrailingFrom(t, i, RunEnd(t, i, Space), lit, NotNewline)
    case TrailingWord(word) => TrailingFrom(t, i, RunEnd(t, i, Space), word, Space)
    case _ => None
  }

  /** `\n\s*\n\s*\n+`: a newline, then whitespace holding two more newlines, up to the last of them. */
  function BlankLinesEndAt(t: string, i: nat): (r: Option<nat>)
    requires i <= |t|
    ensures r.Some? ==> i < r.value <= |t|
  {
    if !CharAt(t, i, '\n') then None
    else
      var e := RunEnd(t, i + 1, Space);
      match LastNewline(t, i + 1, e)
      case None => None
      case Some(n1) => if LastNewline(t, i + 1, n1).Some? then Some(n1 + 1) else None
  }

  /**
   * A compiled pattern: run on `t` at index `i` (re.match at that position)
   * it gives where the match ends. Every match is non-empty and inside `t`.
   */
  type Matcher = m: (string, nat) -> Option<nat> |
    forall t: string, i: nat :: m(t, i).Some? ==> i < m(t, i).value <= |t|
    witness (t: string, i: nat) => None

  function SeparatorMatcher(p: Pattern): Matcher {
    (t: string, i: nat) => if i <= |t| then SeparatorAt(p, t, i) else None
  }

  function DateMatcher(p: Pattern): Matcher {
    (t: string, i: nat) => if i <= |t| then DateAt(p, t, i) else None
  }

  function PhoneMatcher(p: Pattern): Matcher {
    (t: string, i: nat) => if i <= |t| then PhoneAt(p, t, i) else None
  }

  function IdentityMatcher(p: Pattern): Matcher {
    (t: string, i: nat) => if i <= |t| then IdentityAt(p, t, i) else None
  }

  function PlaceMatcher(p: Pattern): Matcher {
    (t: string, i: nat) => if i <= |t| then PlaceAt(p, t, i) else None
  }

  function TelecomMatcher(p: Pattern): Matcher {
    (t: string, i: nat) => if i <= |t| then TelecomAt(p, t, i) else None
  }

  function CleanupMatcher(p: Pattern): Matcher {
    (t: string, i: nat) => if i <= |t| then CleanupAt(p, t, i) else None
  }

  function BlankLinesMatcher(): Matcher {
    (t: string, i: nat) => if i <= |t| then BlankLinesEndAt(t, i) else None
  }

  /** The test a line-wise pattern applies to each line. */
  function LineTest(p: Pattern): string -> bool {
    (line: string) => LineNoise(p, line)
  }

  /**
   * A line-wise pattern (^.*?...$ under MULTILINE): it matches a whole
   * non-empty line, from the line start up to the newline, when `noisy`
   * holds of the line.
   */
  function LineMatcher(noisy: string -> bool): Matcher {
    (t: string, i: nat) => if i <= |t| then LineMatchAt(noisy, t, i) else None
  }

  function LineMatchAt(noisy: string -> bool, t: string, i: nat): (r: Option<nat>)
    requires i <= |t|
    ensures r.Some? ==> i < r.value <= |t|
  {
    var e := RunEnd(t, i, NotNewline);
    if LineStart(t, i) && i < e && noisy(t[i..e]) then Some(e) else None
  }

  /** re.compile: the matcher of a pattern. */
  function Compile(p: Pattern): Matcher {
    match p
    case CallMarker | TwMarker | SectionMarker | EqualsRule | DashRule | TranscriptMarker | ChannelHeader =>
      SeparatorMatcher(p)
    case MonthDayYear | IsoDate | SlashDate => DateMatcher(p)
    case SimNumber | ActivationCode | PortRequest | TradeInReference | OrderConfirmation
      | BillingAddress | ZipCodeLabel => TelecomMatcher(p)
    case TrailingLabel(_) | TrailingWord(_) => CleanupMatcher(p)
    case BlankLines => BlankLinesMatcher()
    case LineWith(_, _) | LineWithBoth(_, _) => LineMatcher(LineTest(p))
    case PhoneDashed | PhoneParens | PhoneDotted | PhoneTenDigits => PhoneMatcher(p)
    case Email | AccountDigits | AccountAlnum | Imei | CreditCard | Ssn => IdentityMatcher(p)
    case NameAfterRole | NameBeforeVerb | StreetAddress | ZipCode => PlaceMatcher(p)
  }

  // ------------------------------------------------------ capturing patterns

  /** Patterns whose first capture group is read. */
  datatype GroupPattern =
    | CallReference                          // Call\s+(\w+_\w+_\d+), IGNORECASE
    | IdLabel                                // ID[:\s]+([A-Z0-9_]+), IGNORECASE
    | Field(lit: Literal)                    // LIT\s*([^\n]+), IGNORECASE
    | Conversation(lit: Literal, keep: bool) // LIT(.+?)(?=resolution:|impact:|root cause:|$), DOTALL | IGNORECASE;
                                             // with `keep` the group also holds LIT: (LIT.+?)(?=...)

  /** A match t[start..end] whose first group is t[groupStart..groupEnd]. */
  datatype GroupMatch = GroupMatch(start: nat, end: nat, groupStart: nat, groupEnd: nat)

  predicate ValidGroupMatch(t: string, m: GroupMatch) {
    m.start < m.end <= |t| && m.start <= m.groupStart <= m.groupEnd <= m.end
  }

  function GroupText(t: string, m: GroupMatch): string
    requires ValidGroupMatch(t, m)
  {
    t[m.groupStart..m.groupEnd]
  }

  /** The largest `j` in [lo, hi] where `[^\n]+` can start. */
  function LastValueStart(t: string, lo: nat, hi: nat): (r: Option<nat>)
    requires lo <= hi <= |t|
    ensures r.Some? ==> lo <= r.value <= hi && r.value < |t| && t[r.value] != '\n'
    decreases hi
  {
    if hi < |t| && t[hi] != '\n' then Some(hi)
    else if hi == lo then None
    else LastValueStart(t, lo, hi - 1)
  }

  /** The lookahead (?=resolution:|impact:|root cause:|$) at `e`. */
  predicate StopAt(t: string, e: nat)
    requires e <= |t|
  {
    AtCI(t, e, "resolution:") || AtCI(t, e, "impact:") || AtCI(t, e, "root cause:") || DollarAt(t, e)
  }

  /** The smallest `e >= k` where the lookahead holds: where the lazy `.+?` stops. */
  function FirstStop(t: string, k: nat): (e: nat)
    requires k <= |t|
    ensures k <= e <= |t| && StopAt(t, e)
    ensures forall j :: k <= j < e ==> !StopAt(t, j)
    decreases |t| - k
  {
    if StopAt(t, k) then k else FirstStop(t, k + 1)
  }

  /** Call\s+(\w+_\w+_\d+) at `i`. */
  function CallReferenceAt(t: string, i: nat): (r: Option<GroupMatch>)
    requires i <= |t|
    ensures r.Some? ==> r.value.start == i && ValidGroupMatch(t, r.value)
  {
    if !AtCI(t, i, "call") then None
    else
      var s := RunEnd(t, i + 4, Space);
      var w := RunEnd(t, s, Word);
      if s == i + 4 then None
      else
        match TwoUnderscoresFrom(t, s, w, w - 1)
        case None => None
        case Some(e) => Some(GroupMatch(i, e, s, e))
  }

  /** ID[:\s]+([A-Z0-9_]+) at `i`. */
  function IdLabelAt(t: string, i: nat): (r: Option<GroupMatch>)
    requires i <= |t|
    ensures r.Some? ==> r.value.start == i && ValidGroupMatch(t, r.value)
  {
    if !AtCI(t, i, "id") then None
    else
      var c := RunEnd(t, i + 2, ColonOrSpace);
      var e := RunEnd(t, c, Word);
      if c == i + 2 || e == c then None else Some(GroupMatch(i, e, c, e))
  }

  /** LIT\s*([^\n]+) at `i`: `\s*` gives back characters until `[^\n]+` can start. */
  function FieldAt(lit: Literal, t: string, i: nat): (r: Option<GroupMatch>)
    requires i <= |t|
    ensures r.Some? ==> r.value.start == i && ValidGroupMatch(t, r.value)
  {
    if !AtCI(t, i, lit) then None
    else
      var q := i + |lit|;
      match LastValueStart(t, q, RunEnd(t, q, Space))
      case None => None
      case Some(j) =>
        var e := RunEnd(t, j, NotNewline);
        Some(GroupMatch(i, e, j, e))
  }

  /** LIT(.+?) up to the first stop, the group starting at LIT when `keep` holds. */
  function ConversationAt(lit: Literal, keep: bool, t: string, i: nat): (r: Option<GroupMatch>)
    requires i <= |t|
    ensures r.Some? ==> r.value.start == i && ValidGroupMatch(t, r.value)
  {
    var q := i + |lit|;
    if !AtCI(t, i, lit) || q >= |t| then None
    else
      var e := FirstStop(t, q + 1);
      Some(GroupMatch(i, e, if keep then i else q, e))
  }

  /** A compiled capturing pattern: the match at `i` and its first group. */
  type GroupMatcher = m: (string, nat) -> Option<GroupMatch> |
    forall t: string, i: nat :: m(t, i).Some? ==> m(t, i).value.start == i && ValidGroupMatch(t, m(t, i).value)
    witness (t: string, i: nat) => None

  /** re.compile for a capturing pattern. */
  function CompileGroup(g: GroupPattern): GroupMatcher {
    match g
    case CallReference => (t: string, i: nat) => if i <= |t| then CallReferenceAt(t, i) else None
    case IdLabel => (t: string, i: nat) => if i <= |t| then IdLabelAt(t, i) else None
    case Field(lit) => (t: string, i: nat) => if i <= |t| then FieldAt(lit, t, i) else None
    case Conversation(lit, keep) => (t: string, i: nat) => if i <= |t| then ConversationAt(lit, keep, t, i) else None
  }

  /** re.search for a capturing pattern, from index `i`. */
  function SearchGroupFrom(m: GroupMatcher, t: string, i: nat): (r: Option<GroupMatch>)
    requires i <= |t|
    ensures r.Some? ==> i <= r.value.start && ValidGroupMatch(t, r.value) && m(t, r.value.start) == r
    ensures r.Some? ==> forall j :: i <= j < r.value.start ==> m(t, j).None?
    ensures r.None? ==> forall j :: i <= j <= |t| ==> m(t, j).None?
    decreases |t| - i
  {
    match m(t, i)
    case Some(x) => Some(x)
    case None => if i == |t| then None else SearchGroupFrom(m, t, i + 1)
  }

  function SearchGroup(m: GroupMatcher, t: string): (r: Option<GroupMatch>)
    ensures r.Some? ==> ValidGroupMatch(t, r.value) && m(t, r.value.start) == r
    ensures r.Some? ==> forall j :: 0 <= j < r.value.start ==> m(t, j).None?
    ensures r.None? ==> forall j :: 0 <= j <= |t| ==> m(t, j).None?
  {
    SearchGroupFrom(m, t, 0)
  }

  // ------------------------------------------------------------- scanning

  /** re.search from index `i`: the leftmost match, as (start, end). */
  function SearchFrom(m: Matcher, t: string, i: nat): (r: Option<(nat, nat)>)
    requires i <= |t|
    ensures r.Some? ==> i <= r.value.0 < r.value.1 <= |t| && m(t, r.value.0) == Some(r.value.1)
    ensures r.Some? ==> forall j :: i <= j < r.value.0 ==> m(t, j).None?
    ensures r.None? ==> forall j :: i <= j <= |t| ==> m(t, j).None?
    decreases |t| - i
  {
    match m(t, i)
    case Some(e) => Some((i, e))
    case None => if i == |t| then None else SearchFrom(m, t, i + 1)
  }

  /** re.search. */
  function Search(m: Matcher, t: string): (r: Option<(nat, nat)>)
    ensures r.Some? ==> r.value.0 < r.value.1 <= |t| && m(t, r.value.0) == Some(r.value.1)
    ensures r.None? <==> forall j :: 0 <= j <= |t| ==> m(t, j).None?
  {
    SearchFrom(m, t, 0)
  }

  /** len(re.findall(...)) from index `i`: non-overlapping matches, scanning left to right. */
  function CountFrom(m: Matcher, t: string, i: nat): nat
    requires i <= |t|
    decreases |t| - i
  {
    if i == |t| then 0
    else
      match m(t, i)
      case Some(e) => 1 + CountFrom(m, t, e)
      case None => CountFrom(m, t, i + 1)
  }

  function Count(m: Matcher, t: string): nat {
    CountFrom(m, t, 0)
  }

  /** re.sub from index `i`: every match found by the same scan is replaced by `repl`. */
  function SubFrom(m: Matcher, t: string, repl: string, i: nat): string
    requires i <= |t|
    decreases |t| - i
  {
    if i == |t| then []
    else
      match m(t, i)
      case Some(e) => repl + SubFrom(m, t, repl, e)
      case None => [t[i]] + SubFrom(m, t, repl, i + 1)
  }

  function Sub(m: Matcher, t: string, repl: string): string {
    SubFrom(m, t, repl, 0)
  }

  /** re.split from index `i`, where the current piece began at `start`. */
  function SplitFrom(m: Matcher, t: string, start: nat, i: nat): seq<string>
    requires start <= i <= |t|
    decreases |t| - i
  {
    if i == |t| then [t[start..]]
    else
      match m(t, i)
      case Some(e) => [t[start..i]] + SplitFrom(m, t, e, e)
      case None => SplitFrom(m, t, start, i + 1)
  }

  function Split(m: Matcher, t: string): seq<string> {
    SplitFrom(m, t, 0, 0)
  }

  // ------------------------------------------------------- scanning lemmas

  /** re.split yields one more piece than re.findall finds matches. */
  lemma {:induction false} SplitPieces(m: Matcher, t: string, start: nat, i: nat)
    requires start <= i <= |t|
    ensures |SplitFrom(m, t, start, i)| == CountFrom(m, t, i) + 1
    decreases |t| - i
  {
    if i < |t| {
      match m(t, i)
      case Some(e) => SplitPieces(m, t, e, e);
      case None => SplitPieces(m, t, start, i + 1);
    }
  }

  lemma SplitCount(m: Matcher, t: string)
    ensures |Split(m, t)| == Count(m, t) + 1
  {
    SplitPieces(m, t, 0, 0);
  }

  /** A scan that finds nothing leaves the text as it was. */
  lemma {:induction false} SubFromNoMatch(m: Matcher, t: string, repl: string, i: nat)
    requires i <= |t|
    requires CountFrom(m, t, i) == 0
    ensures SubFrom(m, t, repl, i) == t[i..]
    decreases |t| - i
  {
    if i < |t| {
      match m(t, i)
      case Some(e) =>
      case None =>
        SubFromNoMatch(m, t, repl, i + 1);
        assert t[i..] == [t[i]] + t[i + 1..];
    }
  }

  /** No match anywhere from `i` on is the same as a zero count from `i`. */
  lemma {:induction false} CountFromZeroIff(m: Matcher, t: string, i: nat)
    requires i <= |t|
    ensures CountFrom(m, t, i) == 0 <==> SearchFrom(m, t, i).None?
    decreases |t| - i
  {
    if i < |t| {
      match m(t, i)
      case Some(e) =>
      case None => CountFromZeroIff(m, t, i + 1);
    }
  }

  /** When re.search finds nothing, re.sub leaves the text as it is and re.findall finds nothing. */
  lemma SubUnchangedWithoutMatch(m: Matcher, t: string, repl: string)
    requires Search(m, t).None?
    ensures Sub(m, t, repl) == t
    ensures Count(m, t) == 0
  {
    CountFromZeroIff(m, t, 0);
    SubFromNoMatch(m, t, repl, 0);
  }

  // ----------------------------------------------------- trailing patterns

  /**
   * A trailing pattern (\s*LIT...$) that matches shows its literal in the
   * text; when the text ends in a character that is neither a line break
   * nor of the tail class, the literal is where the text ends.
   */
  lemma {:induction false} TrailingFromEnds(t: string, x: nat, y: nat, lit: Literal, tail: CharClass)
    requires x <= y <= |t| && TrailingFrom(t, x, y, lit, tail).Some?
    ensures ContainsCI(t, lit)
    ensures t != [] && t[|t| - 1] != '\n' && !In(t[|t| - 1], tail) ==>
      |lit| <= |t| && AtCI(t, |t| - |lit|, lit)
    decreases y
  {
    var m := if AtCI(t, y, lit) then LastDollar(t, y + |lit|, RunEnd(t, y + |lit|, tail)) else None;
    if m.Some? {
      ContainsCIIff(t, lit);
      var e := RunEnd(t, y + |lit|, tail);
      if t != [] && t[|t| - 1] != '\n' && !In(t[|t| - 1], tail) {
        assert m.value == |t| == e;
      }
    } else {
      TrailingFromEnds(t, x, y - 1, lit, tail);
    }
  }

  /** A trailing label holding a non-letter that the text lacks never matches, so re.sub keeps the text. */
  lemma TrailingLabelAbsent(lit: Literal, c: char, t: string)
    requires c in lit && !IsLetter(c) && c !in t
    ensures Sub(Compile(TrailingLabel(lit)), t, []) == t
  {
    var m := Compile(TrailingLabel(lit));
    forall j | 0 <= j <= |t| ensures m(t, j).None? {
      if TrailingFrom(t, j, RunEnd(t, j, Space), lit, NotNewline).Some? {
        TrailingFromEnds(t, j, RunEnd(t, j, Space), lit, NotNewline);
        MissingCharNotContainedCI(t, lit, c);
      }
    }
    SubUnchangedWithoutMatch(m, t, []);
  }

  /** A trailing word never matches text ending in a non-space other than the word's last letter. */
  lemma TrailingWordAbsent(word: Literal, t: string)
    requires t != [] && !IsSpace(t[|t| - 1]) && Lower(t[|t| - 1]) != word[|word| - 1]
    ensures Sub(Compile(TrailingWord(word)), t, []) == t
  {
    var m := Compile(TrailingWord(word));
    forall j | 0 <= j <= |t| ensures m(t, j).None? {
      if TrailingFrom(t, j, RunEnd(t, j, Space), word, Space).Some? {
        TrailingFromEnds(t, j, RunEnd(t, j, Space), word, Space);
        assert false;
      }
    }
    SubUnchangedWithoutMatch(m, t, []);
  }

  // ---------------------------------------------------- line-wise patterns

  /** A line as it is kept: emptied when `noisy` holds of it. */
  function KeepLine(noisy: string -> bool, line: string): string {
    if noisy(line) then [] else line
  }

  /** The lines as a line-wise pattern leaves them: each noisy line emptied. */
  function EmptyLines(noisy: string -> bool, ls: seq<string>): seq<string> {
    seq(|ls|, k requires 0 <= k < |ls| => KeepLine(noisy, ls[k]))
  }

  lemma EmptyLinesCons(noisy: string -> bool, x: string, rest: seq<string>)
    ensures EmptyLines(noisy, [x] + rest) == [KeepLine(noisy, x)] + EmptyLines(noisy, rest)
  {
  }

  /** The matcher matches nowhere in [i, e). */
  predicate NoMatchIn(m: Matcher, t: string, i: nat, e: nat)
    requires i <= e <= |t|
    decreases e - i
  {
    i == e || (m(t, i).None? && NoMatchIn(m, t, i + 1, e))
  }

  /** A stretch of text where nothing matches is copied as it is. */
  lemma {:induction false} SubFromCopies(m: Matcher, t: string, repl: string, i: nat, e: nat)
    requires i <= e <= |t| && NoMatchIn(m, t, i, e)
    ensures SubFrom(m, t, repl, i) == t[i..e] + SubFrom(m, t, repl, e)
    decreases e - i
  {
    if i < e {
      SubFromCopies(m, t, repl, i + 1, e);
      var rest := SubFrom(m, t, repl, e);
      assert SubFrom(m, t, repl, i) == [t[i]] + (t[i + 1..e] + rest);
      assert t[i..e] == [t[i]] + t[i + 1..e];
      ConcatAssoc([t[i]], t[i + 1..e], rest);
    }
  }

  /**
   * `m` agrees with the line matcher of `noisy` at `x`. The lemmas that walk
   * the substitution take `m` with this fact for every index, so that the
   * matcher is unfolded only where a lemma asks for it.
   */
  predicate LineMatchIs(m: Matcher, noisy: string -> bool, t: string, x: nat)
    requires x <= |t|
  {
    m(t, x) == LineMatchAt(noisy, t, x)
  }

  /** `m` agrees with the line matcher of `noisy` at every index of `t`. */
  predicate LineMatchEverywhere(m: Matcher, noisy: string -> bool, t: string) {
    forall x :: 0 <= x <= |t| ==> LineMatchIs(m, noisy, t, x)
  }

  /** Past the start of a line, a line matcher matches nowhere up to the line's end. */
  lemma {:induction false} InsideLineNoMatch(m: Matcher, noisy: string -> bool, t: string, i: nat, j: nat)
    requires forall x :: 0 <= x <= |t| ==> LineMatchIs(m, noisy, t, x)
    requires i <= |t| && i < j <= RunEnd(t, i, NotNewline)
    ensures NoMatchIn(m, t, j, RunEnd(t, i, NotNewline))
    decreases |t| - j
  {
    var e := RunEnd(t, i, NotNewline);
    if j < e {
      assert In(t[j - 1], NotNewline);
      assert LineMatchIs(m, noisy, t, j);
      InsideLineNoMatch(m, noisy, t, i, j + 1);
    }
  }

  /** From a line start, a non-empty line is removed when noisy and copied otherwise. */
  lemma SubLineHead(m: Matcher, noisy: string -> bool, t: string, i: nat)
    requires forall x :: 0 <= x <= |t| ==> LineMatchIs(m, noisy, t, x)
    requires i <= |t| && LineStart(t, i) && (LineAt(t, i) == [] ==> !noisy([]))
    ensures SubFrom(m, t, [], i) == KeepLine(noisy, LineAt(t, i)) + SubFrom(m, t, [], RunEnd(t, i, NotNewline))
  {
    var e := RunEnd(t, i, NotNewline);
    assert LineMatchIs(m, noisy, t, i);
    if !noisy(LineAt(t, i)) {
      if i < e {
        InsideLineNoMatch(m, noisy, t, i, i + 1);
      }
      SubFromCopies(m, t, [], i, e);
    }
  }

  /** A newline is never matched, so it is copied. */
  lemma SubLineBreak(m: Matcher, noisy: string -> bool, t: string, e: nat)
    requires e < |t| && t[e] == '\n' && LineMatchIs(m, noisy, t, e)
    ensures SubFrom(m, t, [], e) == "\n" + SubFrom(m, t, [], e + 1)
  {
    RunEndIs(t, e, NotNewline, e);
    assert [t[e]] == "\n";
  }

  /** The text from line start `i` on, with every noisy line emptied and each newline kept. */
  function DropLinesFrom(noisy: string -> bool, t: string, i: nat): string
    requires i <= |t|
    decreases |t| - i
  {
    var e := RunEnd(t, i, NotNewline);
    if e == |t| then KeepLine(noisy, t[i..e])
    else KeepLine(noisy, t[i..e]) + ("\n" + DropLinesFrom(noisy, t, e + 1))
  }

  /** Dropping lines is emptying them in the list of lines and joining the list again. */
  lemma {:induction false} DropLinesByList(noisy: string -> bool, t: string, i: nat)
    requires i <= |t|
    ensures DropLinesFrom(noisy, t, i) == JoinLines(EmptyLines(noisy, Lines(t[i..])))
    decreases |t| - i
  {
    var e := RunEnd(t, i, NotNewline);
    LinesOfSuffix(t, i);
    if e == |t| {
      assert EmptyLines(noisy, [LineAt(t, i)]) == [KeepLine(noisy, LineAt(t, i))];
    } else {
      var rest := Lines(t[e + 1..]);
      var k := KeepLine(noisy, LineAt(t, i));
      DropLinesStep(noisy, t, i);
      DropLinesByList(noisy, t, e + 1);
      EmptyLinesCons(noisy, LineAt(t, i), rest);
      JoinLinesCons(k, EmptyLines(noisy, rest));
      ConcatAssoc(k, "\n", JoinLines(EmptyLines(noisy, rest)));
    }
  }

  /** One step of DropLinesFrom: the line at `i`, then, after a newline, the lines after it. */
  lemma DropLinesStep(noisy: string -> bool, t: string, i: nat)
    requires i <= |t|
    ensures var e := RunEnd(t, i, NotNewline);
      DropLinesFrom(noisy, t, i) ==
        if e == |t| then KeepLine(noisy, LineAt(t, i))
        else KeepLine(noisy, LineAt(t, i)) + ("\n" + DropLinesFrom(noisy, t, e + 1))
  {
  }

  /** re.sub over the line at line start `i` and the newline ending it. */
  lemma SubLineWhole(m: Matcher, noisy: string -> bool, t: string, i: nat) returns (e: nat)
    requires LineMatchEverywhere(m, noisy, t)
    requires !noisy([])
    requires i <= |t| && LineStart(t, i)
    ensures e == RunEnd(t, i, NotNewline)
    ensures e == |t| ==> SubFrom(m, t, [], i) == KeepLine(noisy, LineAt(t, i))
    ensures e < |t| ==> SubFrom(m, t, [], i) == KeepLine(noisy, LineAt(t, i)) + ("\n" + SubFrom(m, t, [], e + 1))
  {
    e := RunEnd(t, i, NotNewline);
    SubLineHead(m, noisy, t, i);
    if e < |t| {
      SubLineBreak(m, noisy, t, e);
    } else {
      assert KeepLine(noisy, LineAt(t, i)) + SubFrom(m, t, [], e) == KeepLine(noisy, LineAt(t, i));
    }
  }

  /** From a line start, re.sub empties exactly the noisy lines of the rest of the text. */
  lemma {:induction false} SubLinesFrom(m: Matcher, noisy: string -> bool, t: string, i: nat)
    requires LineMatchEverywhere(m, noisy, t)
    requires !noisy([])
    requires i <= |t| && LineStart(t, i)
    ensures SubFrom(m, t, [], i) == DropLinesFrom(noisy, t, i)
    decreases |t| - i
  {
    var e := SubLineWhole(m, noisy, t, i);
    DropLinesStep(noisy, t, i);
    if e < |t| {
      SubLinesFrom(m, noisy, t, e + 1);
    }
  }

  /** re.sub with a line matcher empties exactly the noisy lines. */
  lemma SubDropsLines(noisy: string -> bool, t: string)
    requires !noisy([])
    ensures Sub(LineMatcher(noisy), t, []) == JoinLines(EmptyLines(noisy, Lines(t)))
  {
    assert LineMatchEverywhere(LineMatcher(noisy), noisy, t);
    SubLinesFrom(LineMatcher(noisy), noisy, t, 0);
    DropLinesByList(noisy, t, 0);
    assert t[0..] == t;
  }

  lemma SubEmptiesLines(p: Pattern, t: string)
    requires p.LineWith? || p.LineWithBoth?
    ensures Sub(Compile(p), t, []) == JoinLines(EmptyLines(LineTest(p), Lines(t)))
  {
    assert Compile(p) == LineMatcher(LineTest(p));
    assert !LineTest(p)([]);
    SubDropsLines(LineTest(p), t);
  }
}
