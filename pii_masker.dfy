/**
 * The masker of src/pii_masker.py: eight PII categories, each a list of
 * patterns; every pattern counts its matches in the running text and then
 * replaces them with the category's token. An uncounted pass of telecom
 * patterns follows. Records mask four text fields and the call id; a batch
 * masks its records one by one and adds up their counts.
 */
module PiiMasker {
  import opened Wrappers
  import opened Text
  import opened Json
  import opened Regex
  import DataCleaner

  // ------------------------------------------------------------- the tables

  /** The keys of the pattern table. */
  datatype PiiType = Phones | Emails | Accounts | Imeis | CreditCards | Ssns | Names | Addresses

  /** The categories in the order the table lists them, which is the order they are applied in. */
  const PiiTypes: seq<PiiType> := [Phones, Emails, Accounts, Imeis, CreditCards, Ssns, Names, Addresses]

  lemma AllTypes(c: PiiType)
    ensures c in PiiTypes
  {
    match c
    case Phones => assert PiiTypes[0] == c;
    case Emails => assert PiiTypes[1] == c;
    case Accounts => assert PiiTypes[2] == c;
    case Imeis => assert PiiTypes[3] == c;
    case CreditCards => assert PiiTypes[4] == c;
    case Ssns => assert PiiTypes[5] == c;
    case Names => assert PiiTypes[6] == c;
    case Addresses => assert PiiTypes[7] == c;
  }

  /** One entry of the pattern table: a category, its compiled patterns in list order, and its token. */
  datatype Category = Category(key: PiiType, patterns: seq<Matcher>, token: string)

  /**
   * The tables a masker holds: the categories in the order they are
   * applied, and the telecom patterns with their replacements.
   */
  datatype Masker = Masker(categories: seq<Category>, telecom: seq<(Matcher, string)>)

  /** The tables the masker is built with. */
  const PiiTables: Masker := Masker(
    [Category(Phones,
       [PhoneMatcher(PhoneDashed), PhoneMatcher(PhoneParens), PhoneMatcher(PhoneDotted), PhoneMatcher(PhoneTenDigits)],
       "[PHONE_NUMBER]"),
     Category(Emails, [IdentityMatcher(Email)], "[EMAIL_ADDRESS]"),
     Category(Accounts, [IdentityMatcher(AccountDigits), IdentityMatcher(AccountAlnum)], "[ACCOUNT_NUMBER]"),
     Category(Imeis, [IdentityMatcher(Imei)], "[DEVICE_ID]"),
     Category(CreditCards, [IdentityMatcher(CreditCard)], "[CREDIT_CARD]"),
     Category(Ssns, [IdentityMatcher(Ssn)], "[SSN]"),
     Category(Names, [PlaceMatcher(NameAfterRole), PlaceMatcher(NameBeforeVerb)], "[CUSTOMER_NAME]"),
     Category(Addresses, [PlaceMatcher(StreetAddress), PlaceMatcher(ZipCode)], "[ADDRESS]")],
    [(TelecomMatcher(SimNumber), "[SIM_NUMBER]"),
     (TelecomMatcher(ActivationCode), "[ACTIVATION_CODE]"),
     (TelecomMatcher(PortRequest), "[PORT_REQUEST_ID]"),
     (TelecomMatcher(TradeInReference), "[TRADE_IN_ID]"),
     (TelecomMatcher(OrderConfirmation), "[ORDER_ID]"),
     (TelecomMatcher(BillingAddress), "[BILLING_ADDRESS]."),
     (TelecomMatcher(ZipCodeLabel), "[ZIP_CODE]")])

  // ------------------------------------------------------------- the counts

  /** Matches found per category. */
  type PiiCounts = map<PiiType, nat>

  /** A count for every category, as the dict comprehensions over the table build them. */
  predicate Complete(m: PiiCounts) {
    forall c: PiiType :: c in m
  }

  /** `{pii_type: 0 for pii_type in pii_patterns}`. */
  const NoPii: PiiCounts := map c: PiiType | c in PiiTypes :: 0

  lemma NoPiiComplete()
    ensures Complete(NoPii) && forall c: PiiType :: NoPii[c] == 0
  {
    forall c: PiiType ensures c in NoPii {
      AllTypes(c);
    }
  }

  /** The running counts with one more batch of counts added, category by category. */
  function AddCounts(total: PiiCounts, found: PiiCounts): (r: PiiCounts)
    ensures r.Keys == total.Keys
  {
    map c | c in total :: total[c] + (if c in found then found[c] else 0)
  }

  /** `for pii_type, count in found.items(): total[pii_type] += count`. */
  method Accumulate(total: PiiCounts, found: PiiCounts) returns (sum: PiiCounts)
    requires Complete(total) && Complete(found)
    ensures Complete(sum)
    ensures forall c: PiiType :: sum[c] == total[c] + found[c]
    ensures sum == AddCounts(total, found)
  {
    sum := total;
    var k := 0;
    while k < |PiiTypes|
      invariant 0 <= k <= |PiiTypes|
      invariant Complete(sum)
      invariant forall j :: 0 <= j < k ==> sum[PiiTypes[j]] == total[PiiTypes[j]] + found[PiiTypes[j]]
      invariant forall j :: k <= j < |PiiTypes| ==> sum[PiiTypes[j]] == total[PiiTypes[j]]
    {
      var c := PiiTypes[k];
      sum := sum[c := sum[c] + found[c]];
      k := k + 1;
    }
    forall c: PiiType ensures sum[c] == total[c] + found[c] {
      AllTypes(c);
    }
  }

  // ------------------------------------------------------------ one text

  /**
   * The inner loop of _mask_text for one category: each pattern in turn
   * counts its matches in the running text, then replaces them all with
   * the token. The text after the patterns `ms`, and the matches counted.
   */
  function MaskCategory(ms: seq<Matcher>, token: string, text: string): (string, nat)
    decreases |ms|
  {
    if ms == [] then (text, 0)
    else
      var prev := MaskCategory(ms[..|ms| - 1], token, text);
      var m := ms[|ms| - 1];
      (Sub(m, prev.0, token), prev.1 + Count(m, prev.0))
  }

  /** The outer loop of _mask_text over the categories `cs`, starting from zero counts. */
  function MaskCategories(cs: seq<Category>, text: string): (r: (string, PiiCounts))
    ensures Complete(r.1)
    decreases |cs|
  {
    if cs == [] then NoPiiComplete(); (text, NoPii)
    else
      var prev := MaskCategories(cs[..|cs| - 1], text);
      var c := cs[|cs| - 1];
      var step := MaskCategory(c.patterns, c.token, prev.0);
      (step.0, prev.1[c.key := prev.1[c.key] + step.1])
  }

  /** _mask_telecom_specific over the rules `rules`: each pattern's matches replaced in turn. */
  function Telecom(rules: seq<(Matcher, string)>, text: string): string
    decreases |rules|
  {
    if rules == [] then text
    else
      var rule := rules[|rules| - 1];
      Sub(rule.0, Telecom(rules[..|rules| - 1], text), rule.1)
  }

  /** _mask_text: the masked text and the per-category counts. */
  function MaskedText(masker: Masker, text: string): (r: (string, PiiCounts))
    ensures Complete(r.1)
  {
    if text == [] then NoPiiComplete(); (text, NoPii)
    else
      var cats := MaskCategories(masker.categories, text);
      (Telecom(masker.telecom, cats.0), cats.1)
  }

  /** _mask_telecom_specific. */
  method MaskTelecomSpecific(rules: seq<(Matcher, string)>, text: string) returns (masked: string)
    ensures masked == Telecom(rules, text)
  {
    masked := text;
    var k := 0;
    while k < |rules|
      invariant 0 <= k <= |rules|
      invariant masked == Telecom(rules[..k], text)
    {
      var rule := rules[k];
      assert rules[..k + 1][..k] == rules[..k];
      masked := Sub(rule.0, masked, rule.1);
      k := k + 1;
    }
    assert rules[..k] == rules;
  }

  /** One turn of the outer loop of _mask_text: category `c` applied to the running text and counts. */
  method MaskWith(c: Category, text: string, counts: PiiCounts) returns (masked: string, newCounts: PiiCounts)
    requires c.key in counts
    ensures masked == MaskCategory(c.patterns, c.token, text).0
    ensures newCounts == counts[c.key := counts[c.key] + MaskCategory(c.patterns, c.token, text).1]
  {
    masked := text;
    newCounts := counts;
    var ms := c.patterns;
    var pi := 0;
    while pi < |ms|
      invariant 0 <= pi <= |ms|
      invariant masked == MaskCategory(ms[..pi], c.token, text).0
      invariant newCounts == counts[c.key := counts[c.key] + MaskCategory(ms[..pi], c.token, text).1]
    {
      var m := ms[pi];
      assert ms[..pi + 1][..pi] == ms[..pi];
      newCounts := newCounts[c.key := newCounts[c.key] + Count(m, masked)];
      masked := Sub(m, masked, c.token);
      pi := pi + 1;
    }
    assert ms[..pi] == ms;
  }

  /** The outer loop of _mask_text, over the categories `cs`. */
  method MaskAllCategories(cs: seq<Category>, text: string) returns (masked: string, counts: PiiCounts)
    ensures (masked, counts) == MaskCategories(cs, text)
  {
    masked := text;
    NoPiiComplete();
    counts := NoPii;
    var ci := 0;
    while ci < |cs|
      invariant 0 <= ci <= |cs|
      invariant masked == MaskCategories(cs[..ci], text).0
      invariant counts == MaskCategories(cs[..ci], text).1
    {
      assert cs[..ci + 1][..ci] == cs[..ci];
      masked, counts := MaskWith(cs[ci], masked, counts);
      ci := ci + 1;
    }
    assert cs[..ci] == cs;
  }

  /** _mask_text: the categories in order, each pattern counted and then replaced, then the telecom pass. */
  method MaskText(masker: Masker, text: string) returns (masked: string, counts: PiiCounts)
    ensures (masked, counts) == MaskedText(masker, text)
  {
    if text == [] {
      return text, NoPii;
    }
    masked, counts := MaskAllCategories(masker.categories, text);
    masked := MaskTelecomSpecific(masker.telecom, masked);
  }

  // ----------------------------------------------------- counting lemmas

  /** Masking the empty text changes nothing and counts nothing, in every category. */
  lemma EmptyTextUnmasked(masker: Masker)
    ensures MaskedText(masker, []).0 == []
    ensures forall c: PiiType :: MaskedText(masker, []).1[c] == 0
  {
    NoPiiComplete();
  }

  /** No pattern of `ms` finds anything in `text`. */
  predicate NothingFound(ms: seq<Matcher>, text: string) {
    forall k :: 0 <= k < |ms| ==> Count(ms[k], text) == 0
  }

  /** re.sub with a pattern re.findall finds nothing for leaves the text as it is. */
  lemma CountZeroKeeps(m: Matcher, t: string, repl: string)
    requires Count(m, t) == 0
    ensures Sub(m, t, repl) == t
  {
    SubFromNoMatch(m, t, repl, 0);
  }

  /**
   * A category counts nothing exactly when none of its patterns finds
   * anything in the text it starts from, and it then leaves the text as it is.
   */
  lemma {:induction false} CategoryCountsZero(ms: seq<Matcher>, token: string, text: string)
    ensures MaskCategory(ms, token, text).1 == 0 <==> NothingFound(ms, text)
    ensures MaskCategory(ms, token, text).1 == 0 ==> MaskCategory(ms, token, text).0 == text
    decreases |ms|
  {
    if ms != [] {
      var init := ms[..|ms| - 1];
      assert forall k :: 0 <= k < |init| ==> init[k] == ms[k];
      CategoryCountsZero(init, token, text);
      var prev := MaskCategory(init, token, text);
      if prev.1 == 0 && Count(ms[|ms| - 1], text) == 0 {
        CountZeroKeeps(ms[|ms| - 1], text, token);
      }
    }
  }

  /** Every category's patterns find nothing in `text`. */
  predicate NothingFoundIn(cs: seq<Category>, text: string) {
    forall j :: 0 <= j < |cs| ==> NothingFound(cs[j].patterns, text)
  }

  /** Every count is zero. */
  predicate AllZero(counts: PiiCounts) {
    forall c: PiiType :: c in counts && counts[c] == 0
  }

  /**
   * The categories count nothing exactly when no pattern of theirs finds
   * anything in the input, and then the text comes out as it went in.
   */
  lemma {:induction false} CategoriesCountZero(cs: seq<Category>, text: string)
    ensures AllZero(MaskCategories(cs, text).1) <==> NothingFoundIn(cs, text)
    ensures AllZero(MaskCategories(cs, text).1) ==> MaskCategories(cs, text).0 == text
    decreases |cs|
  {
    NoPiiComplete();
    if cs != [] {
      var init := cs[..|cs| - 1];
      var c := cs[|cs| - 1];
      assert forall j :: 0 <= j < |init| ==> init[j] == cs[j];
      CategoriesCountZero(init, text);
      var prev := MaskCategories(init, text);
      CategoryCountsZero(c.patterns, c.token, prev.0);
      var r := MaskCategories(cs, text);
      if AllZero(r.1) {
        forall d: PiiType ensures prev.1[d] == 0 {
          assert r.1[d] == if d == c.key then prev.1[d] + MaskCategory(c.patterns, c.token, prev.0).1 else prev.1[d];
        }
        assert MaskCategory(c.patterns, c.token, prev.0).1 == 0 by {
          assert r.1[c.key] == prev.1[c.key] + MaskCategory(c.patterns, c.token, prev.0).1;
        }
      }
    }
  }

  /**
   * _mask_text counts nothing exactly when no category pattern finds
   * anything in the input; the text is then changed by the telecom pass
   * alone, which never counts.
   */
  lemma MaskedTextCountsZero(masker: Masker, text: string)
    ensures AllZero(MaskedText(masker, text).1) <==> NothingFoundIn(masker.categories, text)
    ensures AllZero(MaskedText(masker, text).1) ==> MaskedText(masker, text).0 == Telecom(masker.telecom, text)
  {
    NoPiiComplete();
    CategoriesCountZero(masker.categories, text);
    if text == [] {
      forall j | 0 <= j < |masker.categories| ensures NothingFound(masker.categories[j].patterns, text) {
        forall k | 0 <= k < |masker.categories[j].patterns|
          ensures Count(masker.categories[j].patterns[k], text) == 0
        {
        }
      }
      TelecomKeeps(masker.telecom, text);
    }
  }

  // ------------------------------------------------------ single matches

  /** The matcher matches at no position of `t`. */
  predicate Nowhere(m: Matcher, t: string) {
    forall i :: 0 <= i <= |t| ==> m(t, i).None?
  }

  lemma NowhereKeeps(m: Matcher, t: string, repl: string)
    requires Nowhere(m, t)
    ensures Count(m, t) == 0 && Sub(m, t, repl) == t
  {
    SubUnchangedWithoutMatch(m, t, repl);
  }

  /** A matcher that matches the whole of `t` counts one match and replaces `t` by the replacement. */
  lemma WholeMatch(m: Matcher, t: string, repl: string)
    requires t != [] && m(t, 0) == Some(|t|)
    ensures Count(m, t) == 1 && Sub(m, t, repl) == repl
  {
    assert CountFrom(m, t, |t|) == 0;
    assert SubFrom(m, t, repl, |t|) == [];
  }

  lemma {:induction false} CategoryNowhere(ms: seq<Matcher>, token: string, t: string)
    requires forall k :: 0 <= k < |ms| ==> Nowhere(ms[k], t)
    ensures MaskCategory(ms, token, t) == (t, 0)
    decreases |ms|
  {
    if ms != [] {
      var init := ms[..|ms| - 1];
      assert forall k :: 0 <= k < |init| ==> init[k] == ms[k];
      CategoryNowhere(init, token, t);
      NowhereKeeps(ms[|ms| - 1], t, token);
    }
  }

  /**
   * A category whose pattern `p` matches the whole text, after earlier
   * patterns that match nowhere and before later ones that do not match
   * the token, turns the text into its token and counts one match.
   */
  lemma {:induction false} CategoryHit(ms: seq<Matcher>, token: string, t: string, p: nat)
    requires p < |ms| && t != [] && ms[p](t, 0) == Some(|t|)
    requires forall k :: 0 <= k < p ==> Nowhere(ms[k], t)
    requires forall k :: p < k < |ms| ==> Nowhere(ms[k], token)
    ensures MaskCategory(ms, token, t) == (token, 1)
    decreases |ms|
  {
    var init := ms[..|ms| - 1];
    assert forall k :: 0 <= k < |init| ==> init[k] == ms[k];
    if |ms| - 1 == p {
      CategoryNowhere(init, token, t);
      WholeMatch(ms[p], t, token);
    } else {
      CategoryHit(init, token, t, p);
      NowhereKeeps(ms[|ms| - 1], token, token);
    }
  }

  /** No pattern of the categories `cs` matches anywhere in `t`. */
  predicate CategoriesNowhere(cs: seq<Category>, t: string) {
    forall j, k :: 0 <= j < |cs| && 0 <= k < |cs[j].patterns| ==> Nowhere(cs[j].patterns[k], t)
  }

  lemma {:induction false} CategoriesKeep(cs: seq<Category>, t: string)
    requires CategoriesNowhere(cs, t)
    ensures MaskCategories(cs, t) == (t, NoPii)
    decreases |cs|
  {
    NoPiiComplete();
    if cs != [] {
      var init := cs[..|cs| - 1];
      var c := cs[|cs| - 1];
      assert forall j :: 0 <= j < |init| ==> init[j] == cs[j];
      CategoriesKeep(init, t);
      CategoryNowhere(c.patterns, c.token, t);
      AddNothing(NoPii, c.key);
    }
  }

  /** Adding nothing to a count leaves the counts as they are. */
  lemma AddNothing(counts: PiiCounts, k: PiiType)
    requires k in counts
    ensures counts[k := counts[k] + 0] == counts
  {
  }

  /** The last category's pattern `p` matches the whole text, and nothing before it matches anything. */
  lemma CategoriesHitLast(init: seq<Category>, c: Category, t: string, p: nat)
    requires p < |c.patterns| && t != [] && c.patterns[p](t, 0) == Some(|t|)
    requires forall a, k :: 0 <= a < |init| && 0 <= k < |init[a].patterns| ==> Nowhere(init[a].patterns[k], t)
    requires forall k :: 0 <= k < p ==> Nowhere(c.patterns[k], t)
    requires forall k :: p < k < |c.patterns| ==> Nowhere(c.patterns[k], c.token)
    ensures MaskCategories(init + [c], t) == (c.token, NoPii[c.key := 1])
  {
    NoPiiComplete();
    var cs := init + [c];
    assert cs[..|cs| - 1] == init;
    CategoriesKeep(init, t);
    CategoryHit(c.patterns, c.token, t, p);
  }

  /**
   * When pattern `p` of category `j` is the first to match anything and
   * matches the whole text, and nothing after it matches that category's
   * token, the text becomes the token with one match counted for `j`.
   */
  lemma {:induction false} CategoriesHit(cs: seq<Category>, t: string, j: nat, p: nat)
    requires j < |cs| && p < |cs[j].patterns| && t != [] && cs[j].patterns[p](t, 0) == Some(|t|)
    requires forall a, k :: 0 <= a < j && 0 <= k < |cs[a].patterns| ==> Nowhere(cs[a].patterns[k], t)
    requires forall k :: 0 <= k < p ==> Nowhere(cs[j].patterns[k], t)
    requires forall k :: p < k < |cs[j].patterns| ==> Nowhere(cs[j].patterns[k], cs[j].token)
    requires forall a, k :: j < a < |cs| && 0 <= k < |cs[a].patterns| ==> Nowhere(cs[a].patterns[k], cs[j].token)
    ensures MaskCategories(cs, t) == (cs[j].token, NoPii[cs[j].key := 1])
    decreases |cs|
  {
    if |cs| - 1 == j {
      assert cs == cs[..|cs| - 1] + [cs[j]];
      CategoriesHitLast(cs[..|cs| - 1], cs[j], t, p);
    } else {
      NoPiiComplete();
      var init := cs[..|cs| - 1];
      var c := cs[|cs| - 1];
      assert forall a :: 0 <= a < |init| ==> init[a] == cs[a];
      CategoriesHit(init, t, j, p);
      CategoryNowhere(c.patterns, c.token, cs[j].token);
      AddNothing(NoPii[cs[j].key := 1], c.key);
    }
  }

  lemma {:induction false} TelecomKeeps(rules: seq<(Matcher, string)>, t: string)
    requires forall k :: 0 <= k < |rules| ==> Nowhere(rules[k].0, t)
    ensures Telecom(rules, t) == t
    decreases |rules|
  {
    if rules != [] {
      var init := rules[..|rules| - 1];
      assert forall k :: 0 <= k < |init| ==> init[k] == rules[k];
      TelecomKeeps(init, t);
      NowhereKeeps(rules[|rules| - 1].0, t, rules[|rules| - 1].1);
    }
  }

  // ------------------------------------------------------------- one record

  /** The fields _mask_single_transcript masks and counts, in order. */
  const MaskedFields: seq<string> := ["transcript", "resolution", "impact", "root_cause"]

  /** What re.findall raises on a value that is not a string. */
  const NotText := "TypeError: expected string or bytes-like object"

  /**
   * One turn of the field loop: a present, truthy field is masked and its
   * counts added; a truthy value that is not a string makes the pattern
   * search raise.
   */
  function MaskField(masker: Masker, acc: (Record, PiiCounts), field: string): Result<(Record, PiiCounts)> {
    var masked := acc.0;
    if field in masked && Truthy(masked[field]) then
      match masked[field]
      case Str(s) =>
        var res := MaskedText(masker, s);
        Ok((masked[field := Str(res.0)], AddCounts(acc.1, res.1)))
      case _ => Failure(NotText)
    else Ok(acc)
  }

  /** The field loop's step, for FoldAll. */
  function FieldStep(masker: Masker): ((Record, PiiCounts), string) -> Result<(Record, PiiCounts)> {
    (acc, field) => MaskField(masker, acc, field)
  }

  /** The call id masked in place when present; its counts are not kept. A falsy id is left as it is. */
  function MaskCallId(masker: Masker, masked: Record): Result<Record> {
    if "call_id" in masked && Truthy(masked["call_id"]) then
      match masked["call_id"]
      case Str(s) => Ok(masked["call_id" := Str(MaskedText(masker, s).0)])
      case _ => Failure(NotText)
    else Ok(masked)
  }

  /** _mask_single_transcript: the masked copy and the counts of the four text fields. */
  function MaskRecord(masker: Masker, transcript: Record): Result<(Record, PiiCounts)> {
    match FoldAll(FieldStep(masker), (transcript, NoPii), MaskedFields)
    case Failure(e) => Failure(e)
    case Ok(acc) =>
      match MaskCallId(masker, acc.0)
      case Failure(e) => Failure(e)
      case Ok(masked) => Ok((masked, acc.1))
  }

  /** _mask_single_transcript. */
  method MaskSingleTranscript(masker: Masker, transcript: Record) returns (r: Result<(Record, PiiCounts)>)
    ensures r == MaskRecord(masker, transcript)
  {
    var masked := transcript;
    NoPiiComplete();
    var piiFound := NoPii;
    var i := 0;
    while i < |MaskedFields|
      invariant 0 <= i <= |MaskedFields|
      invariant Complete(piiFound)
      invariant FoldAll(FieldStep(masker), (transcript, NoPii), MaskedFields[..i]) == Ok((masked, piiFound))
    {
      var field := MaskedFields[i];
      assert MaskedFields[..i + 1][..i] == MaskedFields[..i];
      if field in masked && Truthy(masked[field]) {
        if !masked[field].Str? {
          FoldAllFailureStays(FieldStep(masker), (transcript, NoPii), MaskedFields, i + 1);
          return Failure(NotText);
        }
        var maskedText, fieldPii := MaskText(masker, masked[field].s);
        masked := masked[field := Str(maskedText)];
        piiFound := Accumulate(piiFound, fieldPii);
      }
      i := i + 1;
    }
    assert MaskedFields[..i] == MaskedFields;
    if "call_id" in masked && Truthy(masked["call_id"]) {
      if !masked["call_id"].Str? {
        return Failure(NotText);
      }
      var maskedCallId, _ := MaskText(masker, masked["call_id"].s);
      masked := masked["call_id" := Str(maskedCallId)];
    }
    return Ok((masked, piiFound));
  }

  /** Whether a field can be masked: a present, truthy value must be a string. */
  predicate Maskable(t: Record, f: string) {
    f in t && Truthy(t[f]) ==> t[f].Str?
  }

  /** The value a masked field takes in the copy: the masked text when it is a truthy string, else the value itself. */
  function MaskedValue(masker: Masker, t: Record, f: string): Value
    requires f in t
  {
    if Truthy(t[f]) && t[f].Str? then Str(MaskedText(masker, t[f].s).0) else t[f]
  }

  /** The counts the fields `fs` contribute, each read from the original record. */
  function FieldCounts(masker: Masker, t: Record, fs: seq<string>): (r: PiiCounts)
    ensures Complete(r)
    decreases |fs|
  {
    if fs == [] then NoPiiComplete(); NoPii
    else
      var f := fs[|fs| - 1];
      var prev := FieldCounts(masker, t, fs[..|fs| - 1]);
      if f in t && Truthy(t[f]) && t[f].Str? then AddCounts(prev, MaskedText(masker, t[f].s).1) else prev
  }

  predicate Distinct(fs: seq<string>) {
    forall i, j :: 0 <= i < j < |fs| ==> fs[i] != fs[j]
  }

  /**
   * The field loop over distinct fields `fs` succeeds exactly when every
   * one of them is maskable; it then keeps the keys, masks each of the
   * fields, leaves every other key alone, and its counts are those of the
   * fields read from the original record.
   */
  /** One turn of the field loop on a field the earlier turns left as it was in the original record. */
  lemma MaskFieldStep(masker: Masker, t: Record, acc: (Record, PiiCounts), f: string)
    requires acc.0.Keys == t.Keys && (f in t ==> acc.0[f] == t[f])
    ensures MaskField(masker, acc, f).Ok? <==> Maskable(t, f)
    ensures MaskField(masker, acc, f).Ok? ==>
      var next := MaskField(masker, acc, f).value;
      next.0.Keys == t.Keys &&
      next.1 == (if f in t && Truthy(t[f]) && t[f].Str? then AddCounts(acc.1, MaskedText(masker, t[f].s).1) else acc.1) &&
      (forall k :: k in t && k != f ==> next.0[k] == acc.0[k]) &&
      (f in t ==> next.0[f] == MaskedValue(masker, t, f))
  {
  }

  /**
   * The field loop over distinct fields `fs` succeeds exactly when every
   * one of them is maskable; it then keeps the keys, masks each of the
   * fields, leaves every other key alone, and its counts are those of the
   * fields read from the original record.
   */
  lemma {:induction false} MaskFieldsSpec(masker: Masker, t: Record, fs: seq<string>)
    requires Distinct(fs)
    ensures FoldAll(FieldStep(masker), (t, NoPii), fs).Ok? <==> forall j :: 0 <= j < |fs| ==> Maskable(t, fs[j])
    ensures FoldAll(FieldStep(masker), (t, NoPii), fs).Ok? ==>
      var acc := FoldAll(FieldStep(masker), (t, NoPii), fs).value;
      acc.0.Keys == t.Keys && acc.1 == FieldCounts(masker, t, fs) &&
      (forall k :: k in t && k !in fs ==> acc.0[k] == t[k]) &&
      (forall j :: 0 <= j < |fs| && fs[j] in t ==> acc.0[fs[j]] == MaskedValue(masker, t, fs[j]))
    decreases |fs|
  {
    if fs == [] {
      NoPiiComplete();
    } else {
      var init := fs[..|fs| - 1];
      var f := fs[|fs| - 1];
      assert forall j :: 0 <= j < |init| ==> init[j] == fs[j];
      MaskFieldsSpec(masker, t, init);
      assert f !in init by {
        forall j | 0 <= j < |init| ensures init[j] != f {
          assert fs[j] != fs[|fs| - 1];
        }
      }
      var prev := FoldAll(FieldStep(masker), (t, NoPii), init);
      if prev.Ok? {
        MaskFieldStep(masker, t, prev.value, f);
      }
    }
  }

  lemma MaskedFieldsDistinct()
    ensures Distinct(MaskedFields)
    ensures "call_id" !in MaskedFields
  {
    forall j | 0 <= j < |MaskedFields| ensures MaskedFields[j] != "call_id" {
      assert MaskedFields[j][0] != 'c';
    }
    assert MaskedFields[1][1] != MaskedFields[3][1];
  }

  /**
   * _mask_single_transcript succeeds unless one of the four text fields or
   * the call id holds a truthy value that is not a string. It then keeps
   * the keys, masks the four fields and the call id, copies every other
   * key, and reports the counts of the four fields only.
   */
  lemma MaskRecordSpec(masker: Masker, t: Record)
    ensures MaskRecord(masker, t).Ok? <==>
      (forall j :: 0 <= j < |MaskedFields| ==> Maskable(t, MaskedFields[j])) && Maskable(t, "call_id")
    ensures MaskRecord(masker, t).Ok? ==>
      var m := MaskRecord(masker, t).value.0;
      m.Keys == t.Keys &&
      (forall k :: k in t && k !in MaskedFields && k != "call_id" ==> m[k] == t[k]) &&
      (forall j :: 0 <= j < |MaskedFields| && MaskedFields[j] in t ==> m[MaskedFields[j]] == MaskedValue(masker, t, MaskedFields[j])) &&
      ("call_id" in t ==> m["call_id"] == MaskedValue(masker, t, "call_id"))
    ensures MaskRecord(masker, t).Ok? ==> MaskRecord(masker, t).value.1 == FieldCounts(masker, t, MaskedFields)
  {
    MaskedFieldsDistinct();
    MaskFieldsSpec(masker, t, MaskedFields);
  }

  lemma MaskRecordComplete(masker: Masker, t: Record)
    ensures MaskRecord(masker, t).Ok? ==> Complete(MaskRecord(masker, t).value.1)
  {
    MaskRecordSpec(masker, t);
  }

  /** The counts read only the fields they are taken from. */
  lemma {:induction false} FieldCountsFrame(masker: Masker, t: Record, u: Record, fs: seq<string>)
    requires forall j :: 0 <= j < |fs| ==> (fs[j] in t <==> fs[j] in u)
    requires forall j :: 0 <= j < |fs| && fs[j] in t ==> t[fs[j]] == u[fs[j]]
    ensures FieldCounts(masker, t, fs) == FieldCounts(masker, u, fs)
    decreases |fs|
  {
    if fs != [] {
      var init := fs[..|fs| - 1];
      assert forall j :: 0 <= j < |init| ==> init[j] == fs[j];
      FieldCountsFrame(masker, t, u, init);
    }
  }

  /** Masking the call id counts nothing: records that differ only in their call id report the same counts. */
  lemma CallIdCountsDiscarded(masker: Masker, t: Record, v: Value)
    ensures MaskRecord(masker, t).Ok? && MaskRecord(masker, t["call_id" := v]).Ok? ==>
      MaskRecord(masker, t).value.1 == MaskRecord(masker, t["call_id" := v]).value.1
  {
    var u := t["call_id" := v];
    MaskedFieldsDistinct();
    MaskRecordSpec(masker, t);
    MaskRecordSpec(masker, u);
    FieldCountsFrame(masker, t, u, MaskedFields);
  }

  // -------------------------------------------------------------- a batch

  /** The masked batch as mask_data writes it; the counts are keyed by category. */
  datatype MaskedData = MaskedData(
    totalTranscripts: nat,
    maskedAt: Value,
    channels: set<Value>,
    categories: set<Value>,
    piiRemoved: PiiCounts,
    transcripts: seq<Record>)

  /** One turn of the batch loop: mask the record, then read its call id, which must be present. */
  function MaskOne(masker: Masker, item: Value): Result<(Record, PiiCounts)> {
    if !item.Obj? then Failure("AttributeError: not a dict")
    else
      match MaskRecord(masker, item.fields)
      case Failure(e) => Failure(e)
      case Ok(res) => if "call_id" in item.fields then Ok(res) else Failure("KeyError: 'call_id'")
  }

  /** The batch loop's step, for MapAll. */
  function ItemStep(masker: Masker): Value -> Result<(Record, PiiCounts)> {
    item => MaskOne(masker, item)
  }

  /** The masked records of the loop, in order. */
  function Records(pairs: seq<(Record, PiiCounts)>): (r: seq<Record>)
    ensures |r| == |pairs|
    decreases |pairs|
  {
    if pairs == [] then [] else Records(pairs[..|pairs| - 1]) + [pairs[|pairs| - 1].0]
  }

  /** pii_stats: the counts of the loop added up, record by record. */
  function TotalCounts(pairs: seq<(Record, PiiCounts)>): PiiCounts
    decreases |pairs|
  {
    if pairs == [] then NoPii else AddCounts(TotalCounts(pairs[..|pairs| - 1]), pairs[|pairs| - 1].1)
  }

  /** A truthy category Python cannot put in a set. */
  predicate UnhashableCategory(r: Record) {
    Truthy(Get(r, "category", Str([]))) && !Hashable(Get(r, "category", Str([])))
  }

  /** The metadata and the masked list, as mask_data writes them. */
  function AssembleMasked(data: Value, masked: seq<Record>, stats: PiiCounts): Result<MaskedData>
    requires data.Obj?
  {
    var metadata := Get(data.fields, "metadata", Obj(map[]));
    if !metadata.Obj? then Failure("AttributeError: metadata has no get")
    else if exists k :: 0 <= k < |masked| && !Hashable(Get(masked[k], "channel", Str("Unknown"))) then
      Failure("TypeError: unhashable channel")
    else if exists k :: 0 <= k < |masked| && UnhashableCategory(masked[k]) then
      Failure("TypeError: unhashable category")
    else
      Ok(MaskedData(
        |masked|,
        Get(metadata.fields, "cleaned_at", Str([])),
        set c | c in masked :: Get(c, "channel", Str("Unknown")),
        set c | c in masked && Truthy(Get(c, "category", Str([]))) :: Get(c, "category", Str([])),
        stats,
        masked))
  }

  /** mask_data, as a function of the loaded data; a failure is the method returning False. */
  function MaskData(masker: Masker, data: Value): Result<MaskedData> {
    match DataCleaner.TranscriptItems(data)
    case Failure(e) => Failure(e)
    case Ok(items) =>
      match MapAll(ItemStep(masker), items)
      case Failure(e) => Failure(e)
      case Ok(pairs) => AssembleMasked(data, Records(pairs), TotalCounts(pairs))
  }

  /**
   * One turn of the loop of mask_data: the record masked, then its call id
   * read for the progress line, which fails when it is missing.
   */
  method MaskItem(masker: Masker, item: Value) returns (res: Result<(Record, PiiCounts)>)
    ensures res == MaskOne(masker, item)
    ensures res.Ok? ==> Complete(res.value.1)
  {
    if !item.Obj? {
      return Failure("AttributeError: not a dict");
    }
    res := MaskSingleTranscript(masker, item.fields);
    MaskRecordComplete(masker, item.fields);
    if res.Ok? && "call_id" !in item.fields {
      res := Failure("KeyError: 'call_id'");
    }
  }

  /** The loop of mask_data: each record masked and appended, its counts added to the batch counts. */
  method MaskDataLoop(masker: Masker, data: Value) returns (r: Result<MaskedData>)
    ensures r == MaskData(masker, data)
  {
    var items := DataCleaner.TranscriptItems(data);
    if items.Failure? {
      return Failure(items.error);
    }
    NoPiiComplete();
    var piiStats := NoPii;
    var maskedTranscripts: seq<Record> := [];
    ghost var pairs: seq<(Record, PiiCounts)> := [];
    var i := 0;
    while i < |items.value|
      invariant 0 <= i <= |items.value|
      invariant MapAll(ItemStep(masker), items.value[..i]) == Ok(pairs)
      invariant maskedTranscripts == Records(pairs)
      invariant piiStats == TotalCounts(pairs) && Complete(piiStats)
    {
      assert items.value[..i + 1][..i] == items.value[..i];
      var res := MaskItem(masker, items.value[i]);
      if res.Failure? {
        MapAllFailureStays(ItemStep(masker), items.value, i + 1);
        return Failure(res.error);
      }
      maskedTranscripts := maskedTranscripts + [res.value.0];
      piiStats := Accumulate(piiStats, res.value.1);
      assert (pairs + [res.value])[..|pairs|] == pairs;
      pairs := pairs + [res.value];
      i := i + 1;
    }
    assert items.value[..i] == items.value;
    r := AssembleMasked(data, maskedTranscripts, piiStats);
  }

  /** The number of category `c` matches found in the records of the loop, added up. */
  function CountSum(pairs: seq<(Record, PiiCounts)>, c: PiiType): nat
    decreases |pairs|
  {
    if pairs == [] then 0
    else
      var last := pairs[|pairs| - 1].1;
      CountSum(pairs[..|pairs| - 1], c) + (if c in last then last[c] else 0)
  }

  /** The batch counts hold every category, each the sum of that category over the records. */
  lemma {:induction false} TotalCountsSum(pairs: seq<(Record, PiiCounts)>)
    ensures Complete(TotalCounts(pairs))
    ensures forall c :: TotalCounts(pairs)[c] == CountSum(pairs, c)
    decreases |pairs|
  {
    if pairs == [] {
      NoPiiComplete();
    } else {
      TotalCountsSum(pairs[..|pairs| - 1]);
    }
  }

  /**
   * What mask_data produces: when it succeeds, every transcript was a
   * record with a call id that masked without error, the batch holds the
   * masked records in their order with their number, the time stamp is
   * the cleaner's, and each category count is the sum over the records.
   */
  lemma MaskDataSpec(masker: Masker, data: Value, items: seq<Value>)
    requires DataCleaner.TranscriptItems(data) == Ok(items)
    ensures MaskData(masker, data).Ok? ==>
      forall k :: 0 <= k < |items| ==>
        items[k].Obj? && "call_id" in items[k].fields && MaskRecord(masker, items[k].fields).Ok?
    ensures MaskData(masker, data).Ok? ==>
      var r := MaskData(masker, data).value;
      var pairs := MapAll(ItemStep(masker), items).value;
      && r.totalTranscripts == |r.transcripts| == |pairs| == |items|
      && (forall k :: 0 <= k < |items| ==> pairs[k] == MaskRecord(masker, items[k].fields).value)
      && (forall k :: 0 <= k < |items| ==> r.transcripts[k] == pairs[k].0)
      && r.maskedAt == Get(Get(data.fields, "metadata", Obj(map[])).fields, "cleaned_at", Str([]))
      && Complete(r.piiRemoved)
      && forall c :: r.piiRemoved[c] == CountSum(pairs, c)
  {
    MapAllSpec(ItemStep(masker), items);
    var all := MapAll(ItemStep(masker), items);
    if all.Ok? {
      RecordsSpec(all.value);
      TotalCountsSum(all.value);
    }
  }

  /** The masked records are the first components of the loop's results, in order. */
  lemma {:induction false} RecordsSpec(pairs: seq<(Record, PiiCounts)>)
    ensures forall k :: 0 <= k < |pairs| ==> Records(pairs)[k] == pairs[k].0
    decreases |pairs|
  {
    if pairs != [] {
      RecordsSpec(pairs[..|pairs| - 1]);
    }
  }

  /** A transcript that is not a record, or that has no call id, makes mask_data fail. */
  lemma MaskDataNeedsCallIds(masker: Masker, data: Value, items: seq<Value>, k: nat)
    requires DataCleaner.TranscriptItems(data) == Ok(items)
    requires k < |items| && !(items[k].Obj? && "call_id" in items[k].fields)
    ensures MaskData(masker, data).Failure?
  {
    MapAllSpec(ItemStep(masker), items);
    assert ItemStep(masker)(items[k]).Failure?;
  }
}
