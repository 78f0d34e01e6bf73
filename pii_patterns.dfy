/**
 * What the masking tables of src/pii_masker.py do to particular texts:
 * text that none of the patterns can start on is left alone (and the
 * placeholders the masker writes are such text, so masking them again
 * changes nothing), a bare ten-digit number becomes a phone number, a
 * bare number of eleven to fifteen digits an account number (the IMEI
 * pattern, tried later, never sees it), and so does a single word of
 * eight to twelve letters, since the alphanumeric account pattern is
 * compiled case-insensitively.
 */
module PiiPatterns {
  import opened Wrappers
  import opened Text
  import opened Regex
  import opened PiiMasker

  // ------------------------------------------------------------ inert text

  /** A character no masking pattern needs: not a digit, '@', ':' or whitespace. */
  predicate Quiet(c: char) {
    !IsDigit(c) && c != '@' && c != ':' && !IsSpace(c)
  }

  predicate QuietText(t: string) {
    forall k :: 0 <= k < |t| ==> Quiet(t[k])
  }

  /** Quiet text in which no alphanumeric word of 8 to 12 characters stands alone. */
  predicate Inert(t: string) {
    QuietText(t) && forall i :: 0 <= i <= |t| ==> BoundedWordAt(t, i, Alnum, 8, 12).None?
  }

  /** A run of a class that the character at its start is not in is empty. */
  lemma EmptyRun(t: string, x: nat, k: CharClass)
    requires x <= |t| && (x < |t| ==> !In(t[x], k))
    ensures RunEnd(t, x, k) == x
  {
  }

  lemma QuietNoDigitRun(t: string, i: nat)
    requires QuietText(t) && i <= |t|
    ensures RunEnd(t, i, Digit) == i && RunEnd(t, i, Space) == i && RunEnd(t, i, ColonOrSpace) == i
    ensures !DigitsAt(t, i, 3) && !DigitsAt(t, i, 4) && !DigitsAt(t, i, 5)
  {
    if i < |t| {
      assert Quiet(t[i]);
    }
    EmptyRun(t, i, Digit);
    EmptyRun(t, i, Space);
    EmptyRun(t, i, ColonOrSpace);
  }

  /** A label followed by `[:\s]+` never matches in quiet text. */
  lemma QuietLabel(t: string, n: nat, lit: Literal, k: CharClass)
    requires QuietText(t) && n <= |t|
    ensures LabelValueAt(t, n, lit, k).None?
  {
    if AtCI(t, n, lit) {
      QuietNoDigitRun(t, n + |lit|);
    }
  }

  lemma QuietPhone(t: string, i: nat)
    requires QuietText(t) && i <= |t|
    ensures PhoneAt(PhoneDashed, t, i).None? && PhoneAt(PhoneParens, t, i).None?
    ensures PhoneAt(PhoneDotted, t, i).None? && PhoneAt(PhoneTenDigits, t, i).None?
  {
    QuietNoDigitRun(t, i);
    if i < |t| {
      assert Quiet(t[i]);
      QuietNoDigitRun(t, i + 1);
    }
  }

  lemma QuietIdentity(t: string, i: nat)
    requires QuietText(t) && i <= |t|
    ensures IdentityAt(Email, t, i).None? && IdentityAt(AccountDigits, t, i).None?
    ensures IdentityAt(Imei, t, i).None? && IdentityAt(CreditCard, t, i).None? && IdentityAt(Ssn, t, i).None?
  {
    QuietNoDigitRun(t, i);
    var a := RunEnd(t, i, EmailLocal);
    if a < |t| {
      assert Quiet(t[a]);
    }
  }

  /** A literal with a ':' in it does not occur in quiet text. */
  lemma NoColonLabel(t: string, i: nat, lit: string, k: nat)
    requires QuietText(t) && k < |lit| && lit[k] == ':'
    ensures !AtCI(t, i, lit)
  {
    if AtCI(t, i, lit) {
      assert false;
    }
  }

  lemma QuietPlace(t: string, i: nat)
    requires QuietText(t) && i <= |t|
    ensures PlaceAt(NameAfterRole, t, i).None? && PlaceAt(NameBeforeVerb, t, i).None?
    ensures PlaceAt(StreetAddress, t, i).None? && PlaceAt(ZipCode, t, i).None?
  {
    QuietNoDigitRun(t, i);
    NoColonLabel(t, i, "agent:", 5);
    NoColonLabel(t, i, "customer:", 8);
    if i < |t| && IsLetter(t[i]) {
      QuietNoDigitRun(t, RunEnd(t, i + 1, Letter));
    }
  }

  lemma QuietPhrase(t: string, i: nat, first: Literal, second: Literal, k: CharClass)
    requires QuietText(t) && i <= |t|
    ensures PhraseValueAt(t, i, first, second, k).None?
  {
    if Boundary(t, i) && AtCI(t, i, first) {
      QuietLabel(t, RunEnd(t, i + |first|, Space), second, k);
    }
  }

  lemma QuietSim(t: string, i: nat)
    requires QuietText(t) && i <= |t|
    ensures TelecomAt(SimNumber, t, i).None?
  {
    if Boundary(t, i) && AtCI(t, i, "sim") {
      var s := RunEnd(t, i + 3, Space);
      var n := if AtCI(t, s, "card") then RunEnd(t, s + 4, Space) else s;
      QuietLabel(t, n, "number", Word);
    }
  }

  lemma QuietBillingAddress(t: string, i: nat)
    requires QuietText(t) && i <= |t|
    ensures TelecomAt(BillingAddress, t, i).None?
  {
    if Boundary(t, i) && AtCI(t, i, "billing") {
      var s := RunEnd(t, i + 7, Space);
      if AtCI(t, s, "address") {
        QuietNoDigitRun(t, s + 7);
      }
    }
  }

  lemma QuietZipCodeLabel(t: string, i: nat)
    requires QuietText(t) && i <= |t|
    ensures TelecomAt(ZipCodeLabel, t, i).None?
  {
    if Boundary(t, i) && AtCI(t, i, "zip") {
      var s := RunEnd(t, i + 3, Space);
      if AtCI(t, s, "code") {
        QuietNoDigitRun(t, s + 4);
      }
    }
  }

  lemma QuietPhonesNowhere(t: string)
    requires QuietText(t)
    ensures Nowhere(PhoneMatcher(PhoneDashed), t) && Nowhere(PhoneMatcher(PhoneParens), t)
    ensures Nowhere(PhoneMatcher(PhoneDotted), t) && Nowhere(PhoneMatcher(PhoneTenDigits), t)
  {
    forall i | 0 <= i <= |t| ensures PhoneAt(PhoneDashed, t, i).None? && PhoneAt(PhoneParens, t, i).None?
      && PhoneAt(PhoneDotted, t, i).None? && PhoneAt(PhoneTenDigits, t, i).None? {
      QuietPhone(t, i);
    }
  }

  lemma QuietIdentitiesNowhere(t: string)
    requires QuietText(t)
    ensures Nowhere(IdentityMatcher(Email), t) && Nowhere(IdentityMatcher(AccountDigits), t)
    ensures Nowhere(IdentityMatcher(Imei), t)
    ensures Nowhere(IdentityMatcher(CreditCard), t) && Nowhere(IdentityMatcher(Ssn), t)
  {
    forall i | 0 <= i <= |t| ensures IdentityAt(Email, t, i).None? && IdentityAt(AccountDigits, t, i).None?
      && IdentityAt(Imei, t, i).None? && IdentityAt(CreditCard, t, i).None? && IdentityAt(Ssn, t, i).None? {
      QuietIdentity(t, i);
    }
  }

  lemma QuietPlacesNowhere(t: string)
    requires QuietText(t)
    ensures Nowhere(PlaceMatcher(NameAfterRole), t) && Nowhere(PlaceMatcher(NameBeforeVerb), t)
    ensures Nowhere(PlaceMatcher(StreetAddress), t) && Nowhere(PlaceMatcher(ZipCode), t)
  {
    forall i | 0 <= i <= |t| ensures PlaceAt(NameAfterRole, t, i).None? && PlaceAt(NameBeforeVerb, t, i).None?
      && PlaceAt(StreetAddress, t, i).None? && PlaceAt(ZipCode, t, i).None? {
      QuietPlace(t, i);
    }
  }

  lemma QuietTelecomNowhere(t: string)
    requires QuietText(t)
    ensures Nowhere(TelecomMatcher(SimNumber), t) && Nowhere(TelecomMatcher(ActivationCode), t)
    ensures Nowhere(TelecomMatcher(PortRequest), t) && Nowhere(TelecomMatcher(TradeInReference), t)
    ensures Nowhere(TelecomMatcher(OrderConfirmation), t) && Nowhere(TelecomMatcher(BillingAddress), t)
    ensures Nowhere(TelecomMatcher(ZipCodeLabel), t)
  {
    forall i | 0 <= i <= |t| ensures TelecomAt(SimNumber, t, i).None? {
      QuietSim(t, i);
    }
    forall i | 0 <= i <= |t| ensures TelecomAt(ActivationCode, t, i).None? {
      QuietPhrase(t, i, "activation", "code", Word);
    }
    forall i | 0 <= i <= |t| ensures TelecomAt(PortRequest, t, i).None? {
      QuietPhrase(t, i, "port", "request", WordOrDash);
    }
    forall i | 0 <= i <= |t| ensures TelecomAt(TradeInReference, t, i).None? {
      QuietPhrase(t, i, "trade-in", "reference", WordOrDash);
    }
    forall i | 0 <= i <= |t| ensures TelecomAt(OrderConfirmation, t, i).None? {
      QuietPhrase(t, i, "order", "confirmation", WordOrDash);
    }
    forall i | 0 <= i <= |t| ensures TelecomAt(BillingAddress, t, i).None? {
      QuietBillingAddress(t, i);
    }
    forall i | 0 <= i <= |t| ensures TelecomAt(ZipCodeLabel, t, i).None? {
      QuietZipCodeLabel(t, i);
    }
  }

  /** No pattern of the masking tables matches anywhere in inert text. */
  lemma InertTables(t: string)
    requires Inert(t)
    ensures CategoriesNowhere(PiiTables.categories, t)
    ensures forall k :: 0 <= k < |PiiTables.telecom| ==> Nowhere(PiiTables.telecom[k].0, t)
  {
    QuietPhonesNowhere(t);
    QuietIdentitiesNowhere(t);
    QuietPlacesNowhere(t);
    QuietTelecomNowhere(t);
    forall i | 0 <= i <= |t| ensures IdentityAt(AccountAlnum, t, i).None? {
    }
  }

  /** Masking leaves inert text as it is and counts nothing. */
  lemma InertUnmasked(t: string)
    requires Inert(t)
    ensures MaskedText(PiiTables, t) == (t, NoPii)
  {
    NoPiiComplete();
    InertTables(t);
    if t != [] {
      CategoriesKeep(PiiTables.categories, t);
      TelecomKeeps(PiiTables.telecom, t);
    }
  }


  // ------------------------------------------------------------ placeholders

  /**
   * The name inside a placeholder: capitals and underscores, and when it
   * is eight characters or longer, an underscore somewhere in it.
   */
  predicate PlaceholderName(w: string) {
    w != [] && (forall k :: 0 <= k < |w| ==> IsUpper(w[k]) || w[k] == '_') && (|w| < 8 || '_' in w)
  }

  /** Word boundaries in `[NAME]` followed by an optional '.' fall only around the name. */
  lemma PlaceholderBoundaries(w: string, tail: string, p: nat)
    requires PlaceholderName(w) && (tail == [] || tail == ".")
    requires p <= |"[" + w + "]" + tail| && Boundary("[" + w + "]" + tail, p)
    ensures p == 1 || p == |w| + 1
  {
    var t := "[" + w + "]" + tail;
    assert t[0] == '[' && t[|w| + 1] == ']';
    assert forall k :: 1 <= k <= |w| ==> t[k] == w[k - 1];
    assert forall k :: |w| + 1 < k < |t| ==> t[k] == '.';
  }

  /** A placeholder `[NAME]`, with or without a final '.', is inert. */
  lemma PlaceholderInert(w: string, tail: string)
    requires PlaceholderName(w) && (tail == [] || tail == ".")
    ensures Inert("[" + w + "]" + tail)
  {
    var t := "[" + w + "]" + tail;
    assert forall k :: 1 <= k <= |w| ==> t[k] == w[k - 1];
    assert t[0] == '[' && t[|w| + 1] == ']';
    assert forall k :: |w| + 1 < k < |t| ==> t[k] == '.';
    forall i | 0 <= i <= |t| ensures BoundedWordAt(t, i, Alnum, 8, 12).None? {
      if Boundary(t, i) {
        PlaceholderBoundaries(w, tail, i);
        var e := RunEnd(t, i, Alnum);
        if i == 1 && e >= 9 {
          var u :| 0 <= u < |w| && w[u] == '_';
          assert !In(t[1 + u], Alnum);
          var m := LastBoundary(t, 9, Min(e, 13));
          if m.Some? {
            PlaceholderBoundaries(w, tail, m.value);
          }
        }
      }
    }
  }

  /** Masking a placeholder `[NAME]`, with or without a final '.', changes nothing and counts nothing. */
  lemma PlaceholderUnmasked(w: string, tail: string)
    requires PlaceholderName(w) && (tail == [] || tail == ".")
    ensures MaskedText(PiiTables, "[" + w + "]" + tail) == ("[" + w + "]" + tail, NoPii)
  {
    PlaceholderInert(w, tail);
    InertUnmasked("[" + w + "]" + tail);
  }

  // ------------------------------------------------------- bare numbers and words

  predicate AllLetters(w: string) {
    forall k :: 0 <= k < |w| ==> IsLetter(w[k])
  }

  /** In a text of word characters \b holds only at the two ends. */
  lemma WordOnlyBoundaries(t: string, p: nat)
    requires t != [] && (forall k :: 0 <= k < |t| ==> IsWord(t[k])) && p <= |t|
    ensures Boundary(t, p) <==> p == 0 || p == |t|
  {
    if 0 < p < |t| {
      assert IsWord(t[p - 1]) && IsWord(t[p]);
    }
  }

  /** A run of class `k` that every character of the text belongs to reaches the end. */
  lemma FullRun(t: string, i: nat, k: CharClass)
    requires i <= |t| && forall j :: i <= j < |t| ==> In(t[j], k)
    ensures RunEnd(t, i, k) == |t|
  {
  }

  /** The punctuated phone patterns and the e-mail pattern need a character a bare number does not have. */
  lemma DigitsNotPunctuated(d: string)
    requires d != [] && AllDigits(d)
    ensures Nowhere(PhoneMatcher(PhoneDashed), d) && Nowhere(PhoneMatcher(PhoneParens), d)
    ensures Nowhere(PhoneMatcher(PhoneDotted), d) && Nowhere(IdentityMatcher(Email), d)
  {
    FullRun(d, 0, EmailLocal);
    forall i | 0 <= i <= |d| ensures PhoneAt(PhoneDashed, d, i).None? && PhoneAt(PhoneParens, d, i).None?
      && PhoneAt(PhoneDotted, d, i).None? && IdentityAt(Email, d, i).None? {
      WordOnlyBoundaries(d, i);
      if i == |d| {
        EmptyRun(d, i, EmailLocal);
      }
    }
  }

  /** A bare ten-digit number is the whole of a match of `\b\d{10}\b`. */
  lemma TenDigitsWhole(d: string)
    requires |d| == 10 && AllDigits(d)
    ensures PhoneMatcher(PhoneTenDigits)(d, 0) == Some(10)
  {
    FullRun(d, 0, Digit);
    WordOnlyBoundaries(d, 0);
    WordOnlyBoundaries(d, 10);
  }

  /** In a bare number of 11 to 15 digits `\b\d{10}\b` finds nothing and `\b\d{10,15}\b` takes the whole number. */
  lemma LongDigits(d: string)
    requires 11 <= |d| <= 15 && AllDigits(d)
    ensures Nowhere(PhoneMatcher(PhoneTenDigits), d)
    ensures IdentityMatcher(AccountDigits)(d, 0) == Some(|d|)
  {
    FullRun(d, 0, Digit);
    WordOnlyBoundaries(d, 0);
    WordOnlyBoundaries(d, 10);
    WordOnlyBoundaries(d, |d|);
    forall i | 0 <= i <= |d| ensures PhoneAt(PhoneTenDigits, d, i).None? {
      WordOnlyBoundaries(d, i);
      if i == |d| {
        EmptyRun(d, i, Digit);
      }
    }
  }

  /** A word of 8 to 12 letters is quiet text and is matched whole by `\b[A-Z0-9]{8,12}\b`. */
  lemma LetterWord(w: string)
    requires 8 <= |w| <= 12 && AllLetters(w)
    ensures QuietText(w)
    ensures IdentityMatcher(AccountAlnum)(w, 0) == Some(|w|)
  {
    FullRun(w, 0, Alnum);
    WordOnlyBoundaries(w, 0);
    WordOnlyBoundaries(w, |w|);
  }

  // ------------------------------------------------------- classification

  /** The phone placeholder is inert. */
  lemma PhonePlaceholderInert(t: string)
    requires t == "[PHONE_NUMBER]"
    ensures Inert(t)
  {
    var w := "PHONE_NUMBER";
    assert w[5] == '_';
    assert t == "[" + w + "]" + [];
    PlaceholderInert(w, []);
  }

  /** The account placeholder is inert. */
  lemma AccountPlaceholderInert(t: string)
    requires t == "[ACCOUNT_NUMBER]"
    ensures Inert(t)
  {
    var w := "ACCOUNT_NUMBER";
    assert w[7] == '_';
    assert t == "[" + w + "]" + [];
    PlaceholderInert(w, []);
  }

  /** A bare ten-digit number is masked as one phone number. */
  lemma TenDigitsArePhone(d: string)
    requires |d| == 10 && AllDigits(d)
    ensures MaskedText(PiiTables, d) == ("[PHONE_NUMBER]", NoPii[Phones := 1])
  {
    var token := PiiTables.categories[0].token;
    PhonePlaceholderInert(token);
    InertTables(token);
    DigitsNotPunctuated(d);
    TenDigitsWhole(d);
    CategoriesHit(PiiTables.categories, d, 0, 3);
    TelecomKeeps(PiiTables.telecom, token);
  }

  /**
   * A bare number of 11 to 15 digits is masked as one account number; a
   * fifteen-digit IMEI is no exception, since the account pattern runs
   * first and leaves nothing for the device pattern.
   */
  lemma LongNumberIsAccount(d: string)
    requires 11 <= |d| <= 15 && AllDigits(d)
    ensures MaskedText(PiiTables, d) == ("[ACCOUNT_NUMBER]", NoPii[Accounts := 1])
    ensures MaskedText(PiiTables, d).1[Imeis] == 0
  {
    var token := PiiTables.categories[2].token;
    AccountPlaceholderInert(token);
    InertTables(token);
    DigitsNotPunctuated(d);
    LongDigits(d);
    CategoriesHit(PiiTables.categories, d, 2, 0);
    TelecomKeeps(PiiTables.telecom, token);
    NoPiiComplete();
  }

  /**
   * A single word of 8 to 12 letters, in either case, is masked as one
   * account number: the pattern `[A-Z0-9]{8,12}` is compiled with
   * IGNORECASE.
   */
  lemma LetterWordIsAccount(w: string)
    requires 8 <= |w| <= 12 && AllLetters(w)
    ensures MaskedText(PiiTables, w) == ("[ACCOUNT_NUMBER]", NoPii[Accounts := 1])
  {
    var token := PiiTables.categories[2].token;
    AccountPlaceholderInert(token);
    InertTables(token);
    LetterWord(w);
    QuietPhonesNowhere(w);
    QuietIdentitiesNowhere(w);
    CategoriesHit(PiiTables.categories, w, 2, 1);
    TelecomKeeps(PiiTables.telecom, token);
  }
}
