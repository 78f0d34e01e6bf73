/**
 * Python string primitives the pipeline relies on: character classes,
 * case mapping, strip(), find()/rfind()/`in`, and decimal formatting.
 * Case mapping and the classes \d and \w are modelled on ASCII; whitespace
 * is Python's exact str.isspace() set, which is also what \s matches.
 */
module Text {

  // ---------------------------------------------------------------- classes

  /** str.isspace() for one character, and the regex class \s. */
  predicate IsSpace(c: char) {
    ('\t' <= c <= '\r') || ('\U{1C}' <= c <= '\U{1F}') || c == ' ' || c == '\U{85}' ||
    c == '\U{A0}' || c == '\U{1680}' || ('\U{2000}' <= c <= '\U{200A}') ||
    c == '\U{2028}' || c == '\U{2029}' || c == '\U{202F}' || c == '\U{205F}' || c == '\U{3000}'
  }

  predicate IsDigit(c: char) { '0' <= c <= '9' }
  predicate IsUpper(c: char) { 'A' <= c <= 'Z' }
  predicate IsLower(c: char) { 'a' <= c <= 'z' }
  predicate IsLetter(c: char) { IsUpper(c) || IsLower(c) }
  predicate IsAlnum(c: char) { IsLetter(c) || IsDigit(c) }
  /** The regex class \w. */
  predicate IsWord(c: char) { IsAlnum(c) || c == '_' }

  /** The character classes that occur in the pipeline's regular expressions. */
  datatype CharClass =
    | Digit          // \d
    | Space          // \s
    | Word           // \w, and [\w\d]
    | Alnum          // [A-Z0-9] under IGNORECASE
    | Letter         // [a-z] / [A-Z] under IGNORECASE
    | ColonOrSpace   // [:\s]
    | WordOrDash     // [\w\d-]
    | NotNewline     // [^\n], and . without DOTALL
    | NotDot         // [^.]
    | EmailLocal     // [A-Za-z0-9._%+-]
    | EmailDomain    // [A-Za-z0-9.-]
    | TldChar        // [A-Z|a-z]
    | AlnumOrSpace   // [A-Za-z0-9\s]
    | Only(c: char)  // a single literal character

  predicate In(c: char, k: CharClass) {
    match k
    case Digit => IsDigit(c)
    case Space => IsSpace(c)
    case Word => IsWord(c)
    case Alnum => IsAlnum(c)
    case Letter => IsLetter(c)
    case ColonOrSpace => c == ':' || IsSpace(c)
    case WordOrDash => IsWord(c) || c == '-'
    case NotNewline => c != '\n'
    case NotDot => c != '.'
    case EmailLocal => IsAlnum(c) || c == '.' || c == '_' || c == '%' || c == '+' || c == '-'
    case EmailDomain => IsAlnum(c) || c == '.' || c == '-'
    case TldChar => IsLetter(c) || c == '|'
    case AlnumOrSpace => IsAlnum(c) || IsSpace(c)
    case Only(d) => c == d
  }

  /** End of the longest run of class-`k` characters starting at `i` (a greedy `k*`). */
  function RunEnd(s: string, i: nat, k: CharClass): (e: nat)
    requires i <= |s|
    ensures i <= e <= |s|
    ensures forall j :: i <= j < e ==> In(s[j], k)
    ensures e < |s| ==> !In(s[e], k)
    decreases |s| - i
  {
    if i < |s| && In(s[i], k) then RunEnd(s, i + 1, k) else i
  }

  lemma ConcatAssoc<T>(a: seq<T>, b: seq<T>, c: seq<T>)
    ensures a + (b + c) == (a + b) + c
  {
  }

  /** A run is determined by where it stops: the run from `i` ends at the first index outside class `k`. */
  lemma RunEndIs(s: string, i: nat, k: CharClass, e: nat)
    requires i <= e <= |s|
    requires forall j :: i <= j < e ==> In(s[j], k)
    requires e < |s| ==> !In(s[e], k)
    ensures RunEnd(s, i, k) == e
  {
  }

  /** A run in a suffix of the text is the same run, shifted. */
  lemma RunEndSuffix(s: string, i: nat, k: CharClass)
    requires i <= |s|
    ensures RunEnd(s[i..], 0, k) == RunEnd(s, i, k) - i
  {
    var e := RunEnd(s, i, k);
    RunEndIs(s[i..], 0, k, e - i);
  }

  /** The regex assertion \b at position `k`: exactly one neighbour is a word character. */
  predicate Boundary(s: string, k: nat)
    requires k <= |s|
  {
    (k > 0 && IsWord(s[k - 1])) != (k < |s| && IsWord(s[k]))
  }

  predicate AllSpace(s: string) {
    forall k :: 0 <= k < |s| ==> IsSpace(s[k])
  }

  predicate AllDigits(s: string) {
    forall k :: 0 <= k < |s| ==> IsDigit(s[k])
  }

  // ------------------------------------------------------------- case maps

  function Lower(c: char): (r: char)
    ensures IsUpper(c) ==> IsLower(r)
    ensures !IsUpper(c) ==> r == c
  {
    if IsUpper(c) then (c as int - 'A' as int + 'a' as int) as char else c
  }

  function Upper(c: char): (r: char)
    ensures IsLower(c) ==> IsUpper(r)
    ensures !IsLower(c) ==> r == c
  {
    if IsLower(c) then (c as int - 'a' as int + 'A' as int) as char else c
  }

  /** str.lower(). */
  function LowerStr(s: string): (r: string)
    ensures |r| == |s|
    ensures forall k :: 0 <= k < |s| ==> r[k] == Lower(s[k])
  {
    seq(|s|, k requires 0 <= k < |s| => Lower(s[k]))
  }

  /** str.upper(). */
  function UpperStr(s: string): (r: string)
    ensures |r| == |s|
    ensures forall k :: 0 <= k < |s| ==> r[k] == Upper(s[k])
  {
    seq(|s|, k requires 0 <= k < |s| => Upper(s[k]))
  }

  /** str.title(): a letter is upper-cased when the character before it is not a letter, lower-cased otherwise. */
  function Title(s: string): (r: string)
    ensures |r| == |s|
  {
    seq(|s|, k requires 0 <= k < |s| =>
      if k > 0 && IsLetter(s[k - 1]) then Lower(s[k]) else Upper(s[k]))
  }

  lemma {:induction false} LowerIdempotent(s: string)
    ensures LowerStr(LowerStr(s)) == LowerStr(s)
  {
    forall k | 0 <= k < |s|
      ensures LowerStr(LowerStr(s))[k] == LowerStr(s)[k]
    {
      assert !IsUpper(Lower(s[k]));
    }
  }

  // ------------------------------------------------------------------ strip

  /** Index of the first character str.strip() keeps. */
  function StripStart(s: string): (a: nat)
    ensures a <= |s|
  {
    RunEnd(s, 0, Space)
  }

  /** Largest `b` in [lo, hi] such that s[lo..b] does not end in whitespace. */
  function TrimEnd(s: string, lo: nat, hi: nat): (b: nat)
    requires lo <= hi <= |s|
    ensures lo <= b <= hi
    ensures forall k :: b <= k < hi ==> IsSpace(s[k])
    ensures b > lo ==> !IsSpace(s[b - 1])
    decreases hi
  {
    if hi > lo && IsSpace(s[hi - 1]) then TrimEnd(s, lo, hi - 1) else hi
  }

  /** Index just after the last character str.strip() keeps. */
  function StripEnd(s: string): (b: nat)
    ensures StripStart(s) <= b <= |s|
  {
    TrimEnd(s, StripStart(s), |s|)
  }

  /** Text that neither starts nor ends with whitespace. */
  predicate Trimmed(s: string) {
    s == [] || (!IsSpace(s[0]) && !IsSpace(s[|s| - 1]))
  }

  /** str.strip(): the text with leading and trailing whitespace removed. */
  function Strip(s: string): (r: string)
    ensures |r| <= |s|
    ensures Trimmed(r)
  {
    s[StripStart(s)..StripEnd(s)]
  }

  /** strip() cuts only whitespace: everything before and after the kept slice is whitespace. */
  lemma StripCutsOnlySpace(s: string)
    ensures forall k :: 0 <= k < StripStart(s) ==> IsSpace(s[k])
    ensures forall k :: StripEnd(s) <= k < |s| ==> IsSpace(s[k])
  {
  }

  /** Text with no line break in it. */
  predicate OneLine(s: string) {
    forall k :: 0 <= k < |s| ==> s[k] != '\n'
  }

  /** strip() of a single line is a single line. */
  lemma StripOneLine(s: string)
    requires OneLine(s)
    ensures OneLine(Strip(s))
  {
    var a := StripStart(s);
    forall k | 0 <= k < |Strip(s)| ensures Strip(s)[k] != '\n' {
      assert Strip(s)[k] == s[a + k];
    }
  }

  /** strip() gives the empty string exactly on all-whitespace text. */
  lemma StripEmptyIff(s: string)
    ensures Strip(s) == [] <==> AllSpace(s)
  {
    StripCutsOnlySpace(s);
    if Strip(s) == [] {
      forall k | 0 <= k < |s| ensures IsSpace(s[k]) {
        if k >= StripStart(s) { assert k >= StripEnd(s); }
      }
    } else {
      assert !IsSpace(s[StripStart(s)]);
    }
  }

  /** strip() is idempotent. */
  lemma StripIdempotent(s: string)
    ensures Strip(Strip(s)) == Strip(s)
  {
    var r := Strip(s);
    if r != [] {
      assert StripStart(r) == 0;
      assert StripEnd(r) == |r|;
    }
  }

  /** Text whose ends are not whitespace is its own strip(). */
  lemma StripOfTrimmed(s: string)
    requires Trimmed(s)
    ensures Strip(s) == s
  {
    if s != [] {
      assert StripStart(s) == 0;
      assert StripEnd(s) == |s|;
    }
  }

  /** The characters of `s` that are not whitespace, in order. */
  function Visible(s: string): (r: string)
    ensures |r| <= |s|
  {
    if s == [] then [] else (if IsSpace(s[0]) then [] else [s[0]]) + Visible(s[1..])
  }

  lemma {:induction false} VisibleConcat(a: string, b: string)
    ensures Visible(a + b) == Visible(a) + Visible(b)
    decreases |a|
  {
    if a != [] {
      assert (a + b)[1..] == a[1..] + b && (a + b)[0] == a[0];
      VisibleConcat(a[1..], b);
      ConcatAssoc(if IsSpace(a[0]) then [] else [a[0]], Visible(a[1..]), Visible(b));
    } else {
      assert a + b == b;
    }
  }

  lemma {:induction false} VisibleOfSpace(s: string)
    requires AllSpace(s)
    ensures Visible(s) == []
    decreases |s|
  {
    if s != [] {
      VisibleOfSpace(s[1..]);
    }
  }

  /** Whitespace around a text adds nothing visible. */
  lemma VisibleBetweenSpace(head: string, body: string, tail: string)
    requires AllSpace(head) && AllSpace(tail)
    ensures Visible(head + (body + tail)) == Visible(body)
  {
    VisibleConcat(head, body + tail);
    VisibleConcat(body, tail);
    VisibleOfSpace(head);
    VisibleOfSpace(tail);
    assert Visible(body + tail) == Visible(body) + [];
  }

  /** Replacing a whitespace slice of `t` with whitespace keeps what is visible from `i` on. */
  lemma VisibleSpaceThen(t: string, i: nat, e: nat, repl: string, rest: string)
    requires i <= e <= |t| && AllSpace(t[i..e]) && AllSpace(repl)
    requires Visible(rest) == Visible(t[e..])
    ensures Visible(repl + rest) == Visible(t[i..])
  {
    VisibleConcat(repl, rest);
    VisibleOfSpace(repl);
    assert t[i..] == t[i..e] + t[e..];
    VisibleConcat(t[i..e], t[e..]);
    VisibleOfSpace(t[i..e]);
  }

  /** Keeping character `i` of `t` and then text as visible as the rest keeps what is visible from `i` on. */
  lemma VisibleCharThen(t: string, i: nat, rest: string)
    requires i < |t| && Visible(rest) == Visible(t[i + 1..])
    ensures Visible([t[i]] + rest) == Visible(t[i..])
  {
    VisibleConcat([t[i]], rest);
    assert t[i..] == [t[i]] + t[i + 1..];
    VisibleConcat([t[i]], t[i + 1..]);
  }

  /** strip() removes only whitespace. */
  lemma StripVisible(s: string)
    ensures Visible(Strip(s)) == Visible(s)
  {
    var a, b := StripStart(s), StripEnd(s);
    var head, body, tail := s[..a], s[a..b], s[b..];
    assert AllSpace(head) && AllSpace(tail) by {
      StripCutsOnlySpace(s);
      forall k | 0 <= k < |head| ensures IsSpace(head[k]) { assert head[k] == s[k]; }
      forall k | 0 <= k < |tail| ensures IsSpace(tail[k]) { assert tail[k] == s[b + k]; }
    }
    assert s == head + (body + tail);
    VisibleBetweenSpace(head, body, tail);
  }

  // ------------------------------------------------------------------ lines

  /** str.split('\n'): the lines of `s`, without their newlines. */
  function Lines(s: string): (ls: seq<string>)
    ensures |ls| >= 1
    decreases |s|
  {
    var e := RunEnd(s, 0, NotNewline);
    if e == |s| then [s] else [s[..e]] + Lines(s[e + 1..])
  }

  /** No line holds a newline. */
  lemma {:induction false} LinesOneLine(s: string)
    ensures forall k :: 0 <= k < |Lines(s)| ==> OneLine(Lines(s)[k])
    decreases |s|
  {
    var e := RunEnd(s, 0, NotNewline);
    if e < |s| {
      LinesOneLine(s[e + 1..]);
    }
  }

  /** sep.join(parts). */
  function Join(sep: string, parts: seq<string>): string {
    if parts == [] then []
    else if |parts| == 1 then parts[0]
    else parts[0] + sep + Join(sep, parts[1..])
  }

  /** '\n'.join(ls). */
  function JoinLines(ls: seq<string>): string {
    Join("\n", ls)
  }

  /** The line that starts at `i`, without its newline. */
  function LineAt(s: string, i: nat): string
    requires i <= |s|
  {
    s[i..RunEnd(s, i, NotNewline)]
  }

  /** The line at `i` holds no newline. */
  lemma LineAtOneLine(s: string, i: nat)
    requires i <= |s|
    ensures OneLine(LineAt(s, i))
  {
    var e := RunEnd(s, i, NotNewline);
    forall k | 0 <= k < e - i ensures s[i..e][k] != '\n' {
      assert s[i..e][k] == s[i + k] && In(s[i + k], NotNewline);
    }
  }

  /** The lines from index `i` on: the line at `i`, then the lines after its newline. */
  lemma LinesOfSuffix(s: string, i: nat)
    requires i <= |s|
    ensures var e := RunEnd(s, i, NotNewline);
      Lines(s[i..]) == if e == |s| then [LineAt(s, i)] else [LineAt(s, i)] + Lines(s[e + 1..])
  {
    var e := RunEnd(s, i, NotNewline);
    RunEndSuffix(s, i, NotNewline);
    if e < |s| {
      assert s[i..][e - i + 1..] == s[e + 1..];
      assert s[i..][..e - i] == s[i..e];
    } else {
      assert s[i..e] == s[i..];
    }
  }

  /** Joining a first line onto further lines puts one newline between them. */
  lemma JoinLinesCons(x: string, rest: seq<string>)
    requires rest != []
    ensures JoinLines([x] + rest) == x + "\n" + JoinLines(rest)
  {
    assert ([x] + rest)[1..] == rest;
  }

  /** Splitting at newlines and joining back gives the text again. */
  lemma {:induction false} JoinLinesOfLines(s: string)
    ensures JoinLines(Lines(s)) == s
    decreases |s|
  {
    var e := RunEnd(s, 0, NotNewline);
    if e < |s| {
      JoinLinesOfLines(s[e + 1..]);
      assert Lines(s)[1..] == Lines(s[e + 1..]);
      assert s == s[..e] + "\n" + s[e + 1..];
    }
  }

  /** Joining lines that hold no newline and splitting again gives the same lines. */
  lemma {:induction false} LinesOfJoinLines(ls: seq<string>)
    requires |ls| >= 1
    requires forall k :: 0 <= k < |ls| ==> OneLine(ls[k])
    ensures Lines(JoinLines(ls)) == ls
  {
    var s := JoinLines(ls);
    if |ls| == 1 {
      RunEndIs(s, 0, NotNewline, |s|);
    } else {
      var rest := JoinLines(ls[1..]);
      assert s == ls[0] + "\n" + rest;
      RunEndIs(s, 0, NotNewline, |ls[0]|);
      assert s[..|ls[0]|] == ls[0] && s[|ls[0]| + 1..] == rest;
      LinesOfJoinLines(ls[1..]);
      assert ls == [ls[0]] + ls[1..];
    }
  }

  // ------------------------------------------------------ search in strings

  /** `sub` occurs in `s` at index `i`. */
  predicate At(s: string, i: nat, sub: string) {
    i + |sub| <= |s| && forall k :: 0 <= k < |sub| ==> s[i + k] == sub[k]
  }

  /** `lit` (written in lower case) occurs in `s` at `i` ignoring ASCII case. */
  predicate AtCI(s: string, i: nat, lit: string) {
    i + |lit| <= |s| && forall k :: 0 <= k < |lit| ==> Lower(s[i + k]) == lit[k]
  }

  lemma AtSlice(s: string, i: nat, sub: string)
    requires i + |sub| <= |s|
    ensures At(s, i, sub) <==> s[i..i + |sub|] == sub
  {
    if At(s, i, sub) {
      assert s[i..i + |sub|] == sub;
    }
  }

  /** The first index `>= i` where `sub` occurs, or -1. */
  function FindFrom(s: string, sub: string, i: nat): (r: int)
    requires i <= |s|
    ensures r == -1 || (i <= r && At(s, r, sub))
    ensures r == -1 ==> forall j :: i <= j <= |s| ==> !At(s, j, sub)
    ensures r != -1 ==> forall j :: i <= j < r ==> !At(s, j, sub)
    decreases |s| - i
  {
    if i + |sub| > |s| then -1
    else if At(s, i, sub) then i
    else FindFrom(s, sub, i + 1)
  }

  /** str.find(). */
  function Find(s: string, sub: string): (r: int)
    ensures r == -1 || (0 <= r && At(s, r, sub))
    ensures r == -1 <==> forall j :: 0 <= j <= |s| ==> !At(s, j, sub)
    ensures r != -1 ==> forall j :: 0 <= j < r ==> !At(s, j, sub)
  {
    FindFrom(s, sub, 0)
  }

  /** The last index `<= j` where `sub` occurs, or -1. */
  function RFindBelow(s: string, sub: string, j: int): (r: int)
    requires j <= |s|
    ensures r == -1 || (0 <= r <= j && At(s, r, sub))
    ensures forall k :: r < k <= j && 0 <= k ==> !At(s, k, sub)
    decreases j + 1
  {
    if j < 0 then -1
    else if At(s, j, sub) then j
    else RFindBelow(s, sub, j - 1)
  }

  /** str.rfind(). */
  function RFind(s: string, sub: string): (r: int)
    ensures r == -1 || (0 <= r && At(s, r, sub))
    ensures r == -1 <==> forall j :: 0 <= j <= |s| ==> !At(s, j, sub)
    ensures forall k :: r < k <= |s| && 0 <= k ==> !At(s, k, sub)
  {
    RFindBelow(s, sub, |s|)
  }

  /** The `in` operator on strings. */
  predicate Contains(s: string, sub: string) {
    Find(s, sub) >= 0
  }

  /** `sub` matches `s` at `i` from its `k`-th character on; written without a quantifier so that it evaluates on literals. */
  predicate PrefixAt(s: string, sub: string, i: nat, k: nat)
    requires i + |sub| <= |s| && k <= |sub|
    decreases |sub| - k
  {
    k == |sub| || (s[i + k] == sub[k] && PrefixAt(s, sub, i, k + 1))
  }

  /** `sub` occurs in `s` at some index `>= i`; the recursive counterpart of FindFrom. */
  predicate HasFrom(s: string, sub: string, i: nat)
    decreases |s| - i
  {
    i + |sub| <= |s| && (PrefixAt(s, sub, i, 0) || HasFrom(s, sub, i + 1))
  }

  lemma {:induction false} AtPrefixAt(s: string, sub: string, i: nat, k: nat)
    requires At(s, i, sub) && k <= |sub|
    ensures PrefixAt(s, sub, i, k)
    decreases |sub| - k
  {
    if k < |sub| {
      AtPrefixAt(s, sub, i, k + 1);
    }
  }

  lemma {:induction false} AtHasFrom(s: string, sub: string, i: nat, j: nat)
    requires At(s, j, sub) && i <= j
    ensures HasFrom(s, sub, i)
    decreases j - i
  {
    if i == j {
      AtPrefixAt(s, sub, i, 0);
    } else {
      AtHasFrom(s, sub, i + 1, j);
    }
  }

  lemma {:induction false} PrefixAtAt(s: string, sub: string, i: nat, k: nat)
    requires i + |sub| <= |s| && k <= |sub| && PrefixAt(s, sub, i, k)
    ensures forall t :: k <= t < |sub| ==> s[i + t] == sub[t]
    decreases |sub| - k
  {
    if k < |sub| {
      PrefixAtAt(s, sub, i, k + 1);
    }
  }

  lemma {:induction false} HasFromAt(s: string, sub: string, i: nat)
    requires HasFrom(s, sub, i)
    ensures exists j :: i <= j && At(s, j, sub)
    decreases |s| - i
  {
    if PrefixAt(s, sub, i, 0) {
      PrefixAtAt(s, sub, i, 0);
      assert At(s, i, sub);
    } else {
      HasFromAt(s, sub, i + 1);
    }
  }

  /** HasFrom from the start is the `in` operator. */
  lemma HasFromContains(s: string, sub: string)
    ensures HasFrom(s, sub, 0) <==> Contains(s, sub)
  {
    if Contains(s, sub) {
      AtHasFrom(s, sub, 0, Find(s, sub));
    }
    if HasFrom(s, sub, 0) {
      HasFromAt(s, sub, 0);
    }
  }

  /** A string holding a character that `s` lacks does not occur in `s`. */
  /** Every character of a substring occurs in the text that contains it. */
  lemma ContainsHasChar(s: string, sub: string, c: char)
    requires c in sub
    ensures Contains(s, sub) ==> c in s
  {
    if Contains(s, sub) {
      var j := Find(s, sub);
      var n :| 0 <= n < |sub| && sub[n] == c;
      assert s[j + n] == c;
    }
  }

  /** A pattern with a character the text lacks does not occur in it. */
  lemma MissingCharNoMatch(s: string, sub: string, c: char)
    requires c in sub && c !in s
    ensures !HasFrom(s, sub, 0)
  {
    HasFromContains(s, sub);
    ContainsHasChar(s, sub, c);
  }

  /** `lit in s.lower()` for a lower-case literal. */
  predicate ContainsCI(s: string, lit: string) {
    Contains(LowerStr(s), lit)
  }

  lemma AtLower(s: string, i: nat, lit: string)
    ensures At(LowerStr(s), i, lit) <==> AtCI(s, i, lit)
  {
  }

  /** Whether `sub` occurs somewhere in `s`, stated without find(). */
  lemma ContainsIff(s: string, sub: string)
    ensures Contains(s, sub) <==> exists j :: 0 <= j <= |s| && At(s, j, sub)
  {
  }

  /** A literal holding a character that is not a letter and is missing from `s` does not occur in `s`, in any case. */
  lemma MissingCharNotContainedCI(s: string, lit: string, c: char)
    requires c in lit && !IsLetter(c) && c !in s
    ensures !ContainsCI(s, lit)
  {
  }

  /** `lit in s.lower()` stated without find(). */
  lemma ContainsCIIff(s: string, lit: string)
    ensures ContainsCI(s, lit) <==> exists j :: 0 <= j <= |s| && AtCI(s, j, lit)
  {
    ContainsIff(LowerStr(s), lit);
    forall j | 0 <= j <= |s| ensures At(LowerStr(s), j, lit) <==> AtCI(s, j, lit) {
      AtLower(s, j, lit);
    }
  }

  /** A trimmed literal that occurs in `s` lies inside the part strip() keeps. */
  lemma StripKeepsOccurrence(s: string, lit: string, j: nat)
    requires Trimmed(lit) && lit != [] && AtCI(s, j, lit)
    ensures StripStart(s) <= j && AtCI(Strip(s), j - StripStart(s), lit)
  {
    StripCutsOnlySpace(s);
    var a, r := StripStart(s), Strip(s);
    var last := j + |lit| - 1;
    assert Lower(s[j]) == lit[0] && Lower(s[last]) == lit[|lit| - 1];
    assert a <= j && last < StripEnd(s);
    forall k | 0 <= k < |lit| ensures Lower(r[j - a + k]) == lit[k] {
      assert r[j - a + k] == s[j + k];
    }
  }

  /** An occurrence in the part strip() keeps is an occurrence in the text. */
  lemma StripOccurrence(s: string, lit: string, j: nat)
    requires AtCI(Strip(s), j, lit)
    ensures AtCI(s, StripStart(s) + j, lit)
  {
    var a, r := StripStart(s), Strip(s);
    forall k | 0 <= k < |lit| ensures Lower(s[a + j + k]) == lit[k] {
      assert r[j + k] == s[a + j + k];
    }
  }

  /** Whitespace around the text does not change whether a trimmed literal occurs in it. */
  lemma ContainsCIStrip(s: string, lit: string)
    requires Trimmed(lit) && lit != []
    ensures ContainsCI(Strip(s), lit) <==> ContainsCI(s, lit)
  {
    var a, r := StripStart(s), Strip(s);
    ContainsCIIff(r, lit);
    ContainsCIIff(s, lit);
    if ContainsCI(r, lit) {
      var j :| 0 <= j <= |r| && AtCI(r, j, lit);
      StripOccurrence(s, lit, j);
    }
    if ContainsCI(s, lit) {
      var j :| 0 <= j <= |s| && AtCI(s, j, lit);
      StripKeepsOccurrence(s, lit, j);
    }
  }

  /** title() changes only letter case, so lower() cannot tell a text from its title(). */
  lemma LowerTitle(s: string)
    ensures LowerStr(Title(s)) == LowerStr(s)
  {
  }

  /** A literal free of digits occurs in `p + d`, with `d` all digits, only if it occurs in `p`. */
  lemma {:induction false} ContainsBeforeDigits(p: string, d: string, sub: string)
    requires AllDigits(d)
    requires sub != [] && forall k :: 0 <= k < |sub| ==> !IsDigit(sub[k])
    ensures Contains(p + d, sub) ==> Contains(p, sub)
  {
    if Contains(p + d, sub) {
      var j := Find(p + d, sub);
      var k := |sub| - 1;
      assert (p + d)[j + k] == sub[k];
      assert At(p, j, sub);
      ContainsIff(p, sub);
    }
  }

  // ------------------------------------------------------------- formatting

  function DigitChar(d: nat): (c: char)
    requires d < 10
    ensures IsDigit(c)
  {
    ('0' as int + d) as char
  }

  function DigitValue(c: char): (d: nat)
    requires IsDigit(c)
    ensures d < 10 && DigitChar(d) == c
  {
    c as int - '0' as int
  }

  /** str(n) for a natural number n. */
  function NatToString(n: nat): (r: string)
    ensures 1 <= |r| && AllDigits(r)
    ensures r[0] == '0' ==> n == 0
    decreases n
  {
    if n < 10 then [DigitChar(n)] else NatToString(n / 10) + [DigitChar(n % 10)]
  }

  /** int(s) for a non-empty string of decimal digits. */
  function ParseNat(s: string): (n: nat)
    requires AllDigits(s)
    decreases |s|
  {
    if s == [] then 0 else ParseNat(s[..|s| - 1]) * 10 + DigitValue(s[|s| - 1])
  }

  /** The decimal rendering is read back by int(). */
  lemma {:induction false} ParseNatToString(n: nat)
    ensures ParseNat(NatToString(n)) == n
    decreases n
  {
    var r := NatToString(n);
    if n >= 10 {
      ParseNatToString(n / 10);
      assert r[..|r| - 1] == NatToString(n / 10);
    }
  }

  /** str(i) for any integer. */
  function IntToString(i: int): (r: string)
    ensures 1 <= |r|
  {
    if i < 0 then "-" + NatToString(-i) else NatToString(i)
  }

  function Repeat(c: char, n: nat): (r: string)
    ensures |r| == n && forall k :: 0 <= k < n ==> r[k] == c
  {
    seq(n, _ => c)
  }

  /** f"{n:03d}" for a natural number: at least three digits, zero-filled on the left. */
  function Pad3(n: nat): (r: string)
    ensures |r| == if |NatToString(n)| < 3 then 3 else |NatToString(n)|
    ensures AllDigits(r)
  {
    var d := NatToString(n);
    if |d| < 3 then Repeat('0', 3 - |d|) + d else d
  }

  /** Zero-filling keeps the value: int(f"{n:03d}") == n. */
  lemma {:induction false} ParsePad3(n: nat)
    ensures ParseNat(Pad3(n)) == n
  {
    var d := NatToString(n);
    ParseNatToString(n);
    if |d| < 3 {
      ParseLeadingZeros(3 - |d|, d);
    }
  }

  lemma {:induction false} ParseLeadingZeros(z: nat, d: string)
    requires AllDigits(d)
    ensures AllDigits(Repeat('0', z) + d)
    ensures ParseNat(Repeat('0', z) + d) == ParseNat(d)
    decreases |d|
  {
    var s := Repeat('0', z) + d;
    if d == [] {
      assert s == Repeat('0', z);
      ParseZeros(z);
    } else {
      ParseLeadingZeros(z, d[..|d| - 1]);
      assert s[..|s| - 1] == Repeat('0', z) + d[..|d| - 1];
    }
  }

  lemma {:induction false} ParseZeros(z: nat)
    ensures ParseNat(Repeat('0', z)) == 0
    decreases z
  {
    if z > 0 {
      ParseZeros(z - 1);
      assert Repeat('0', z)[..z - 1] == Repeat('0', z - 1);
    }
  }

  /**
   * A preview of `s`: its first `n` characters followed by `suffix` when it
   * is longer than `n`, and `s` itself otherwise.
   */
  function Truncate(s: string, n: nat, suffix: string): (r: string)
    ensures |r| <= n + |suffix|
    ensures |s| <= n ==> r == s
    ensures |s| > n ==> |r| == n + |suffix| && r[..n] == s[..n] && r[n..] == suffix
  {
    if |s| > n then s[..n] + suffix else s
  }

  /** s[:n] in Python: the first n characters, or all of s when it is shorter. */
  function Take(s: string, n: nat): (r: string)
    ensures |r| == if |s| <= n then |s| else n
    ensures r == s[..|r|]
  {
    if |s| <= n then s else s[..n]
  }
}
