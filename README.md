# Test Case Generator — verified model of the text pipeline

This project models the rule-based core of the Test Case Generator in Dafny:

- the transcript segmenter and field extractor (`src/transcript_parser.py`);
- the field normaliser (`src/data_cleaner.py`);
- the PII masker (`src/pii_masker.py`);
- the deterministic helpers of the conversational assistant (`src/conversational_ai.py`) and of the test-case generator (`src/ai_test_generator.py`);
- transcript filtering, statistics counters and the upload-extension check of the three Flask apps (`web_app/app.py`, `web_app/app_fixed.py`, `web_app/app_enhanced.py`).

Each module's functions define what the source computes. Its methods carry the source's loops, with invariants, and are proved equal to those functions. Lemmas then prove the promised properties about the functions.

Files:

- `wrappers.dfy` (Option, Result, MapAll/FoldAll over a sequence);
- `text.dfy` (Python string operations: `strip`, `lower`/`upper`/`title`, `find`/`rfind`, `in`, zero padding, slicing with a suffix);
- `json.dfy` (JSON values, records as maps, Python truthiness, hashability);
- `tally.dfy` (dictionary counters and their sums);
- `regex.dfy` (one hand-written matcher per regular expression the core uses, plus `re.search`, `re.findall` counting, `re.sub` and `re.split` over a matcher);
- `categories.dfy` (the category table and its per-entry facts);
- one file per source module.

## Model

| member | source | states |
|---|---|---|
| TranscriptParser.LongPiecesAreLong | src/transcript_parser.py:95-98 | every piece kept from a split is stripped and longer than 300 characters |
| TranscriptParser.CandidatesBy | src/transcript_parser.py:80-98 | one candidate list of kept pieces per separator pattern, in pattern order |
| TranscriptParser.BestOfIsMaximal | src/transcript_parser.py:93-103 | the chosen split has at least as many pieces as every pattern tried; every earlier pattern has strictly fewer, so ties go to the earliest; no qualifying piece means no choice |
| TranscriptParser.SplitSections | src/transcript_parser.py:90-107 | the separator loop's `calls` and `best_split` are the maximal split and its pattern index, or the whole document when none qualifies |
| TranscriptParser.ParseKeptAll | src/transcript_parser.py:109-118 | when every section is long enough, one record per section in order, each parsed with call number position + 1 |
| TranscriptParser.SplitSectionsAllKept | src/transcript_parser.py:109-118 | sections from a separator split are all kept (they exceed 300 characters), giving one record per section with call number position + 1 |
| TranscriptParser.WholeDocumentFallback | src/transcript_parser.py:105-113 | with no qualifying split the untrimmed document is the only section, and it is dropped when its stripped length is under 100 |
| TranscriptParser.ParseEachSection | src/transcript_parser.py:109-118 | the section loop yields exactly the records of the kept sections, in order |
| TranscriptParser.ParseTextContent | src/transcript_parser.py:73-120 | the whole parse equals the split-then-parse specification |
| TranscriptParser.AsRecord | src/transcript_parser.py:143-155 | a parsed call becomes a record with exactly the eleven keys the parser writes |
| TranscriptParser.IdToken | src/transcript_parser.py:171-183 | the synthesised token is one of TASORA, WEB, APP, TARGET, SMS, UNKNOWN |
| TranscriptParser.ExtractCallId | src/transcript_parser.py:157-183 | the id always contains TW_ (upper-cased); when none of the three id patterns matches it is `TW_<token>_<number padded to 3>` |
| TranscriptParser.TwMatchCarriesPrefix | src/transcript_parser.py:161-169 | a bare TW_ marker match passes the `'TW_' in ...upper()` test |
| TranscriptParser.IdFromMatchCarriesPrefix | src/transcript_parser.py:162-169 | an id taken from a Call/ID match always contains TW_ |
| TranscriptParser.GeneratedCarriesPrefix | src/transcript_parser.py:171-183 | a synthesised id contains TW_ |
| TranscriptParser.ExtractChannel | src/transcript_parser.py:185-201 | the channel is always one of the six channel names |
| TranscriptParser.GeneratedIdChannel | src/transcript_parser.py:171-201 | for a synthesised id the channel is the token's channel, except that an UNKNOWN token with "ivr" in the text gives SMS/Bot/IVR |
| TranscriptParser.WebIdChannel | src/transcript_parser.py:171-193 | token WEB: the id holds WEB and not TASORA, so the channel is Web Portal |
| TranscriptParser.AppIdChannel | src/transcript_parser.py:171-195 | token APP: the channel is Mobile App |
| TranscriptParser.TargetIdChannel | src/transcript_parser.py:171-197 | token TARGET: the channel is Target |
| TranscriptParser.SmsIdChannel | src/transcript_parser.py:171-199 | token SMS: the channel is SMS/Bot/IVR |
| TranscriptParser.UnknownIdChannel | src/transcript_parser.py:171-201 | token UNKNOWN: the channel is SMS/Bot/IVR when the text has "ivr", otherwise Unknown |
| TranscriptParser.KeywordNotInId | src/transcript_parser.py:171-188 | a synthesised id holds no keyword with a letter that neither TW nor its token has |
| TranscriptParser.PhrasesHoldKeywords | src/transcript_parser.py:174-194 | "web portal"/"website", "mobile app" and "application" in the text imply the id keywords web, mobile and app |
| TranscriptParser.ExtractField | src/transcript_parser.py:203-210 | the value is one stripped line; no label in the text gives "" |
| TranscriptParser.FieldMatchHasLabel | src/transcript_parser.py:205-209 | a field match implies the label occurs (case-insensitively) and its value holds no newline |
| TranscriptParser.FieldValueIsLineRest | src/transcript_parser.py:206-209 | after the label and its spaces, the value runs to the end of the line |
| TranscriptParser.FieldValue | src/transcript_parser.py:206-209 | a field match, stripped, is the label's value: the line text from the first non-blank character after the label (on a later line when only line breaks follow), stripped; "" when only whitespace follows |
| TranscriptParser.ExtractFieldValue | src/transcript_parser.py:203-210 | the field is the value of the first label in list order that matches anywhere, read at that label's leftmost match |
| TranscriptParser.ExtractFieldNone | src/transcript_parser.py:203-210 | when no label matches anywhere, the field is "" |
| TranscriptParser.DropLeadingLabel | src/transcript_parser.py:224-226 | removing a leading label never lengthens the conversation |
| TranscriptParser.ExtractConversation | src/transcript_parser.py:212-237 | when no labelled pattern matches, text of at most 1000 characters is returned unchanged, longer text as its first 1000 characters + "..." |
| TranscriptParser.AgentCustomerBranchUnreachable | src/transcript_parser.py:218-235 | any text where the agent/customer findall finds something is already matched by a labelled pattern |
| TranscriptParser.ParseSingleCall | src/transcript_parser.py:122-155 | raw_text_length is the section length, the channel is a channel name, the id contains TW_ |
| DataCleaner.RemoveAllKeeps | src/data_cleaner.py:99-104 | stripping patterns that find nothing leave the text unchanged |
| DataCleaner.FirstKeyFrom | src/data_cleaner.py:126-130 | the first table index from `i` whose key occurs, with none before it; None exactly when no key occurs |
| DataCleaner.FirstKey | src/data_cleaner.py:126-130 | the first table key, in table order, that occurs in the text |
| DataCleaner.Standardize | src/data_cleaner.py:126-134 | the value of the first key found in the lower-cased text, else the text itself or the fallback when empty; never empty |
| DataCleaner.CleanCategory | src/data_cleaner.py:93-134 | the result is empty exactly when the input is |
| DataCleaner.PlainNameUncontaminated | src/data_cleaner.py:99-104 | a canonical category name passes the contamination stripping unchanged |
| DataCleaner.NoiseLabelAbsent | src/data_cleaner.py:99-101 | the Severity:/TRANSCRIPT:/Agent: strippers leave a canonical name alone |
| DataCleaner.NoiseWordAbsent | src/data_cleaner.py:102-104 | the trailing High/Medium/Low strippers leave a canonical name alone |
| DataCleaner.OwnKeyFirst | src/data_cleaner.py:126-130 | a key that contains no earlier key is found first by itself |
| DataCleaner.StandardizeFixed | src/data_cleaner.py:126-130 | such a key's value, when it lower-cases to the key, standardises to itself |
| DataCleaner.CanonicalCategoryFixed | src/data_cleaner.py:107-131 | every canonical category value cleans to itself |
| DataCleaner.CleanSeverity | src/data_cleaner.py:136-158 | the result is empty exactly when the input is |
| DataCleaner.SeverityLevels | src/data_cleaner.py:142-158 | high, medium, low, critical are checked in that order and give High/Medium/Low/Critical; otherwise the title-cased text, or Medium when it cleans to empty |
| DataCleaner.SeverityMediumIff | src/data_cleaner.py:136-158 | Medium exactly when the input is non-empty, has no "high", and has "medium" or cleans to empty |
| DataCleaner.CleanJourneyType | src/data_cleaner.py:160-172 | the result is empty exactly when the input is |
| DataCleaner.NonTangibleHoldsTangible | src/data_cleaner.py:167-170 | "non-tangible" contains "tangible", so the Non-tangible branch is never taken |
| DataCleaner.JourneyTangibleIff | src/data_cleaner.py:160-172 | a non-empty value becomes Tangible exactly when it contains "tangible" |
| DataCleaner.JourneyNonTangibleIff | src/data_cleaner.py:160-172 | Non-tangible comes out exactly for non-empty whitespace-only input |
| DataCleaner.FirstMatcher | src/data_cleaner.py:180-189 | the first date pattern, in order, that matches; None exactly when none does |
| DataCleaner.CleanDate | src/data_cleaner.py:174-191 | empty stays empty; the result is always a substring of the input |
| DataCleaner.NoMonthDayYear | src/data_cleaner.py:181 | text without whitespace never matches the month-day-year pattern |
| DataCleaner.IsoDateFixed | src/data_cleaner.py:180-189 | an ISO date YYYY-MM-DD cleans to itself |
| DataCleaner.CleanResolution | src/data_cleaner.py:210-219 | empty stays empty; the result is stripped |
| DataCleaner.CleanImpact | src/data_cleaner.py:221-230 | empty stays empty; the result is stripped |
| DataCleaner.ResolutionWithoutLabel | src/data_cleaner.py:215-219 | without a colon the resolution is only stripped |
| DataCleaner.ImpactWithoutLabel | src/data_cleaner.py:226-230 | without a colon the impact is only stripped |
| DataCleaner.DropNoiseStep | src/data_cleaner.py:199-202 | applying the noise patterns one after another empties lines pattern by pattern |
| DataCleaner.RemoveAllLines | src/data_cleaner.py:199-202 | the line-removing substitutions equal emptying each noisy line and rejoining the lines |
| DataCleaner.ConversationNoiseLine | src/data_cleaner.py:199-202 | a line is emptied exactly when it has TOTAL WIRELESS…Customer Support, dataset (any case), `===` or `Channels:` |
| DataCleaner.CleanConversation | src/data_cleaner.py:193-208 | empty stays empty; the result is stripped |
| DataCleaner.ConversationLinesEmptied | src/data_cleaner.py:199-202 | the body before blank-line collapsing is the lines with noisy ones emptied |
| DataCleaner.BlankLinesSpan | src/data_cleaner.py:205 | a blank-line match spans whitespace only |
| DataCleaner.BlankLinesVisible | src/data_cleaner.py:205 | collapsing blank lines keeps every non-whitespace character in order |
| DataCleaner.ConversationVisible | src/data_cleaner.py:193-208 | the cleaned conversation has the same visible characters as the noise-free body |
| DataCleaner.CollapsedRunSpec | src/data_cleaner.py:205 | a whitespace run with three or more newlines keeps exactly two and nothing but whitespace; a run with fewer is kept as it is |
| DataCleaner.SubIsCollapsed | src/data_cleaner.py:205 | the blank-line substitution equals the run-by-run collapse: each maximal whitespace run becomes its collapsed form, every other character stays |
| DataCleaner.BlankLinesSubSpec | src/data_cleaner.py:205 | after the substitution no whitespace stretch holds three newlines, and text with no such stretch comes out unchanged, so collapsing twice is collapsing once |
| DataCleaner.ConversationBlankLinesCollapsed | src/data_cleaner.py:205-206 | no whitespace stretch of the cleaned conversation holds three newlines |
| DataCleaner.BlankLinesExample | src/data_cleaner.py:205 | `"a\n\n\n\nb"` becomes `"a\n\nb"` |
| DataCleaner.CleanField | src/data_cleaner.py:63-89 | a falsy field becomes "", a non-empty string is cleaned, and a truthy non-string fails |
| DataCleaner.CleanedKeysDistinct | src/data_cleaner.py:63-89 | the seven cleaned keys are distinct |
| DataCleaner.CleanFieldsFromOk | src/data_cleaner.py:61-91 | the field loop succeeds exactly when every field cleans |
| DataCleaner.CleanFieldsFromKeys | src/data_cleaner.py:61-91 | the loop adds exactly the cleaned keys and keeps all others |
| DataCleaner.CleanFieldsFromValues | src/data_cleaner.py:61-91 | each cleaned key holds its cleaner's result |
| DataCleaner.CleanRecordSpec | src/data_cleaner.py:58-91 | the cleaned record has the input's keys plus the seven cleaned keys, other keys unchanged, cleaned keys holding their cleaner's value |
| DataCleaner.CleanRecordKeepsIdentity | src/data_cleaner.py:58-91 | call_id, channel and root_cause are copied unchanged |
| DataCleaner.CleanSingleTranscript | src/data_cleaner.py:58-91 | the copy-and-assign method equals the record specification |
| DataCleaner.TranscriptItems | src/data_cleaner.py:27 | the transcripts list of a JSON object |
| DataCleaner.CleanOne | src/data_cleaner.py:31-35 | an item cleans exactly when it is an object with a call_id whose fields clean |
| DataCleaner.Assemble | src/data_cleaner.py:38-46 | total_transcripts equals the number of cleaned records |
| DataCleaner.CleanParsedData | src/data_cleaner.py:13-56 | the list-building loop equals the batch specification |
| DataCleaner.CleanDataKeepsRecords | src/data_cleaner.py:31-46 | count and order are kept, each record cleaned; an item without call_id fails the batch |
| Categories.CategoryValuesNonEmpty | src/data_cleaner.py:107-124 | every category value is non-empty |
| Categories.CategoryValue | src/data_cleaner.py:107-124 | every value lower-cases to a key holding that same value |
| Categories.CategoryFirst | src/data_cleaner.py:107-124 | no earlier key is a substring of the key of entry m |
| PiiMasker.AllTypes | src/pii_masker.py:14-46 | every PII type is one of the eight categories |
| PiiMasker.NoPiiComplete | src/pii_masker.py:78 | the initial counts hold all eight categories at 0 |
| PiiMasker.AddCounts | src/pii_masker.py:87-88 | adding counts keeps the category keys |
| PiiMasker.Accumulate | src/pii_masker.py:87-88 | the accumulation loop adds per category |
| PiiMasker.MaskCategories | src/pii_masker.py:156-165 | category masking yields counts for all eight categories |
| PiiMasker.MaskedText | src/pii_masker.py:146-170 | masking yields counts for all eight categories |
| PiiMasker.MaskTelecomSpecific | src/pii_masker.py:172-190 | the telecom loop applies every rule in order |
| PiiMasker.MaskWith | src/pii_masker.py:158-165 | each pattern counts on the running text and then replaces; only its category's count grows |
| PiiMasker.MaskAllCategories | src/pii_masker.py:156-165 | the nested category/pattern loop equals the category specification |
| PiiMasker.MaskText | src/pii_masker.py:146-170 | the `_mask_text` method equals the masking specification |
| PiiMasker.EmptyTextUnmasked | src/pii_masker.py:149-150 | empty text is returned unchanged with all counts 0 |
| PiiMasker.CategoryCountsZero | src/pii_masker.py:158-165 | a category counts 0 exactly when none of its patterns finds anything, and then the text is unchanged |
| PiiMasker.CategoriesCountZero | src/pii_masker.py:156-165 | all counts are 0 exactly when no pattern finds anything, and then the text is unchanged |
| PiiMasker.MaskedTextCountsZero | src/pii_masker.py:146-170 | all counts are 0 exactly when no category finds anything, and then only the telecom pass changes the text |
| PiiMasker.WholeMatch | src/pii_masker.py:161-165 | a pattern matching the whole text counts 1 and yields the token |
| PiiMasker.CategoryHit | src/pii_masker.py:158-165 | a category whose pattern matches the whole text, with no earlier pattern matching, yields its token and counts 1 |
| PiiMasker.CategoriesKeep | src/pii_masker.py:156-165 | text no pattern touches comes out unchanged with zero counts |
| PiiMasker.CategoriesHit | src/pii_masker.py:156-165 | the first category to match the whole text wins: its token, its count 1, all others 0 |
| PiiMasker.TelecomKeeps | src/pii_masker.py:186-188 | text no telecom rule touches is unchanged |
| PiiMasker.MaskSingleTranscript | src/pii_masker.py:118-144 | the copy-and-update method equals the record specification |
| PiiMasker.FieldCounts | src/pii_masker.py:122-135 | the counts summed over the masked fields cover all eight categories |
| PiiMasker.MaskFieldStep | src/pii_masker.py:127-135 | one field step masks a present non-empty string field, adds its counts, and changes no other key |
| PiiMasker.MaskFieldsSpec | src/pii_masker.py:125-135 | the field loop keeps the keys, masks each listed field, sums their counts, and leaves other fields unchanged |
| PiiMasker.MaskedFieldsDistinct | src/pii_masker.py:125 | transcript, resolution, impact and root_cause are distinct and exclude call_id |
| PiiMasker.MaskRecordSpec | src/pii_masker.py:118-144 | the masked record has the same keys, masks the four fields and call_id, copies other keys, and counts only the four fields |
| PiiMasker.CallIdCountsDiscarded | src/pii_masker.py:137-142 | changing call_id changes no count |
| PiiMasker.Records | src/pii_masker.py:81-84 | one masked record per item |
| PiiMasker.MaskItem | src/pii_masker.py:82-93 | one item's masking has counts for every category |
| PiiMasker.MaskDataLoop | src/pii_masker.py:60-116 | the batch loop equals the batch specification |
| PiiMasker.TotalCountsSum | src/pii_masker.py:78-88 | the tally is the per-category sum over records |
| PiiMasker.MaskDataSpec | src/pii_masker.py:74-105 | count and order are kept, each record masked, masked_at copies cleaned_at, and the tally is the per-category sum |
| PiiMasker.RecordsSpec | src/pii_masker.py:81-84 | the k-th masked record comes from the k-th item |
| PiiMasker.MaskDataNeedsCallIds | src/pii_masker.py:90-93 | an item without call_id fails the whole batch |
| PiiPatterns.InertUnmasked | src/pii_masker.py:146-190 | text that no pattern can match is returned unchanged with zero counts |
| PiiPatterns.PlaceholderInert | src/pii_masker.py:14-58 | a single placeholder token, optionally followed by a full stop, matches no pattern |
| PiiPatterns.PlaceholderUnmasked | src/pii_masker.py:146-170 | masking a single placeholder token, optionally followed by a full stop, leaves it unchanged with zero counts |
| PiiPatterns.PhonePlaceholderInert | src/pii_masker.py:50 | [PHONE_NUMBER] matches no pattern |
| PiiPatterns.AccountPlaceholderInert | src/pii_masker.py:52 | [ACCOUNT_NUMBER] matches no pattern |
| PiiPatterns.TenDigitsWhole | src/pii_masker.py:19 | a standalone 10-digit run matches the bare phone pattern whole |
| PiiPatterns.LongDigits | src/pii_masker.py:19-25 | an 11–15-digit run is no phone, and it matches the account pattern whole |
| PiiPatterns.LetterWord | src/pii_masker.py:26 | an 8–12-letter word matches the alphanumeric account pattern whole |
| PiiPatterns.TenDigitsArePhone | src/pii_masker.py:156-165 | a standalone 10-digit text becomes [PHONE_NUMBER] with phone count 1 |
| PiiPatterns.LongNumberIsAccount | src/pii_masker.py:19-29 | an 11–15-digit text becomes [ACCOUNT_NUMBER], account count 1, IMEI count 0 |
| PiiPatterns.LetterWordIsAccount | src/pii_masker.py:156-165 | an 8–12-letter word becomes [ACCOUNT_NUMBER] with account count 1 |
| ConversationalAi.QuestionType.Name | src/conversational_ai.py:265-279 | a class name is one of automation, edge_case, clarification, enhancement, general |
| ConversationalAi.ClassifyQuestion | src/conversational_ai.py:265-279 | the class's keywords occur in the lower-cased question, and no earlier group's do |
| ConversationalAi.ScenarioOutranksImprove | src/conversational_ai.py:270-273 | a question with "scenario" and no automation keyword is edge_case |
| ConversationalAi.FallbackQuestions | src/conversational_ai.py:300-322 | exactly the six base questions whatever the domain; fails only on a non-string domain or service |
| ConversationalAi.CountType | src/conversational_ai.py:361-362 | a type count is at most the number of entries |
| ConversationalAi.FlaggedCount | src/conversational_ai.py:327-336 | the flagged entries are the automation and edge_case ones, no more than the entries |
| ConversationalAi.SummaryReport | src/conversational_ai.py:354-364 | "No conversations yet" exactly for an empty list, otherwise it starts "Total questions: ", with a + e ≤ N |
| ConversationalAi.Insight | src/conversational_ai.py:330-334 | an insight is at most the prefix + 50 + 3 characters |
| ConversationalAi.ExtractInsights | src/conversational_ai.py:324-336 | the insight loop equals the insight specification |
| ConversationalAi.InsightsOfFlagged | src/conversational_ai.py:324-336 | one insight per automation or edge_case entry, in order |
| ConversationalAi.GenerateAdditionalContext | src/conversational_ai.py:338-352 | the notes joined with "; " |
| ConversationalAi.ContextItemsSpec | src/conversational_ai.py:338-352 | at most two notes per entry, each one of the two fixed notes; none exactly when no entry is noteworthy |
| ConversationalAi.PreviewMarksCut | src/conversational_ai.py:181-183 | a preview is at most 203 characters, with "..." added exactly when the answer exceeds 200 |
| ConversationalAi.StepItems | src/conversational_ai.py:159-162 | a list gives one step per item; a string gives one per character |
| ConversationalAi.StepsNumberedFromOne | src/conversational_ai.py:159-162 | step k is printed as "  k+1. step" |
| ConversationalAi.Recent | src/conversational_ai.py:179 | at most the last three entries |
| ConversationalAi.ExchangeLinesSpec | src/conversational_ai.py:179-184 | two lines per entry, Q then A with the preview |
| ConversationalAi.AppendSteps | src/conversational_ai.py:159-162 | the step loop appends the numbered steps |
| ConversationalAi.AppendTranscript | src/conversational_ai.py:165-174 | the transcript block is appended |
| ConversationalAi.AppendHistory | src/conversational_ai.py:177-184 | the history block is appended |
| ConversationalAi.BuildConversationContext | src/conversational_ai.py:143-186 | the context builder equals the context specification, failing exactly where it does |
| ConversationalAi.HistoryShowsLastThree | src/conversational_ai.py:177-184 | the history block is a heading, then Q/A lines for the last at most three entries |
| ConversationalAi.ParsedRecordHasNoIssueLine | src/conversational_ai.py:165-174 | a parser record has no transcript_text, so its block has no Customer Issue line |
| ConversationalAi.JsonSlice | src/conversational_ai.py:286-291 | from the first `{` to the last `}` inclusive |
| ConversationalAi.ParseSuggestions | src/conversational_ai.py:281-298 | [] when a brace is missing or the slice does not decode; fails exactly on a decoded non-object |
| ConversationalAi.WholeObjectParsed | src/conversational_ai.py:286-294 | a reply that is one object returns its suggestions list |
| ConversationalAi.ErrorResponse | src/conversational_ai.py:366-376 | every key but the float confidence_score, echoing the question, with question_type "error", error true and the message in the response |
| ConversationalAi.ErrorTypeIsNeverAClass | src/conversational_ai.py:265-279 | "error" is never a classifier class |
| ConversationalAi.ReadEntry | src/conversational_ai.py:324-362 | an entry is read exactly when it is an object whose response is a string and, for an automation or edge_case entry, whose question is a string; the values read are the entry's own, '' for a missing question or type |
| ConversationalAi.AskedEntryRead | src/conversational_ai.py:64-75 | an entry stored by ask_question reads back as its question, its reply and the question's class |
| ConversationalAi.ErrorEntryRead | src/conversational_ai.py:366-376 | an error entry reads back with type "error" and the error message, and is never flagged |
| ConversationalAi.ConversationalData | src/conversational_ai.py:130-136 | the conversation history is stored exactly as passed |
| ConversationalAi.ConversationalDataSpec | src/conversational_ai.py:130-136 | succeeds exactly when every entry reads; exactly the five keys: the history as passed, one insight per automation or edge_case entry in order, the context notes joined with "; ", the summary, and the time |
| ConversationalAi.EnhanceTestCase | src/conversational_ai.py:115-141 | succeeds exactly when the conversational data does; a copy with the test case's keys plus conversational_data, every other key unchanged, the history stored as passed |
| ConversationalAi.EnhanceWithAskedEntries | src/conversational_ai.py:115-141 | enhancing with entries stored by ask_question always succeeds and keeps them as the history |
| AiTestGenerator.PromptFieldsOf | src/ai_test_generator.py:222-233 | the prompt fields, with the conversation truncated |
| AiTestGenerator.MissingFieldsDefault | src/ai_test_generator.py:222-228 | missing fields default to Unknown, Unknown, Unknown, Medium, "", "", "" |
| AiTestGenerator.ConversationCut | src/ai_test_generator.py:231-233 | a conversation over 800 characters becomes its first 800 + "...[truncated]", a shorter one is unchanged |
| AiTestGenerator.PromptIsTrimmed | src/ai_test_generator.py:235-253 | the prompt text is stripped |
| AiTestGenerator.PromptCarriesConversation | src/ai_test_generator.py:235-253 | the conversation appears in the prompt after the case details |
| AiTestGenerator.PromptOfTranscript | src/ai_test_generator.py:218-253 | the prompt is the prompt text of the transcript's fields |
| AiTestGenerator.ReplySpanBraces | src/ai_test_generator.py:260-267 | a span exists exactly when a `{` comes before the last `}` of the stripped reply, and it runs first `{` to last `}` |
| AiTestGenerator.FallbackIdReadsBack | src/ai_test_generator.py:278-280 | the fallback id starts "TC_" and its last `_` is followed by the index padded to three digits |
| AiTestGenerator.ParsedCaseShape | src/ai_test_generator.py:255-292 | None unless the span decodes; on success the decoded keys plus source_call_id, source_channel (from the transcript), generated_at, and a truthy id |
| AiTestGenerator.CompletedShape | src/ai_test_generator.py:271-281 | a decoded object, once stamped and given an id, keeps every other decoded value, gains exactly the four set keys, copies the source fields from the transcript and has a truthy id |
| AiTestGenerator.IdKeptOrFilled | src/ai_test_generator.py:278-280 | a truthy AI id is kept, otherwise it becomes the fallback id; a non-string channel fails |
| AiTestGenerator.ParseAiResponse | src/ai_test_generator.py:255-292 | the mutating method equals the reply specification |
| AiTestGenerator.CollectedInOrder | src/ai_test_generator.py:98-116 | the cases come from strictly increasing transcript positions, each produced with index position + 1 and not empty; every object transcript whose step produces a non-empty case is one of those positions |
| AiTestGenerator.CollectedStep | src/ai_test_generator.py:101-116 | each transcript adds its case when one is produced and non-empty |
| AiTestGenerator.GenerateSingleTestCase | src/ai_test_generator.py:144-187 | the prompt, the API call and the reply parsing, with the API and decoding as parameters |
| AiTestGenerator.CollectTestCases | src/ai_test_generator.py:98-142 | non-object transcripts fail; otherwise the collected cases, and success iff at least one |
| AiTestGenerator.GenerateTestCases | src/ai_test_generator.py:77-142 | the same for the real producer |
| WebShared.KeepInOrder | web_app/app_fixed.py:612-633 | filtering keeps an order-preserving sublist: exactly the positions whose record meets every condition |
| WebShared.KeepNothingRemoved | web_app/app.py:59-72 | no condition keeps everything |
| WebShared.KeepThenSelect | web_app/app_fixed.py:618-631 | filtering one condition after another equals filtering by all of them |
| WebShared.AllowedFileExtension | web_app/app_fixed.py:815-818 | allowed iff the name has a `.` and the lower-cased extension is pdf, txt or json (the same rule at web_app/app_enhanced.py:616-619) |
| AppFixed.FilterOnIsOnePass | web_app/app_fixed.py:618-631 | the chained filter equals one pass with the non-'all' conditions |
| AppFixed.FilterOnFails | web_app/app_fixed.py:618-631 | it fails exactly when a missing filter key is read while records remain |
| AppFixed.NoneActive | web_app/app_fixed.py:618-631 | all filters 'all' gives no condition |
| AppFixed.FilterTranscriptsSpec | web_app/app_fixed.py:612-633 | kept records meet every non-'all' filter; all 'all' returns the input; a missing channel key fails a non-empty list |
| AppFixed.CountBy | web_app/app_fixed.py:194-204 | the counter loop is the tally of the column, failing exactly on an unhashable value |
| AppFixed.CalculateTemplateStats | web_app/app_fixed.py:169-205 | total, channel tally (default Unknown), and severity tally on top of High/Medium/Low at 0 |
| AppFixed.TemplateStatsCounts | web_app/app_fixed.py:180-204 | both tallies sum to the total, each count is the number of matching transcripts, and High/Medium/Low are keys |
| WebApp.FilterOnIsOnePass | web_app/app.py:63-70 | the chained filter equals one pass with the applied conditions |
| WebApp.AppliedOnlyReads | web_app/app.py:63-70 | keys outside the filter list do not change the conditions |
| WebApp.NoneApplied | web_app/app.py:63-70 | no truthy non-'all' filter gives no condition |
| WebApp.FilterTranscriptsSpec | web_app/app.py:59-72 | one pass with the applied filters; missing, empty or 'all' filters keep everything; brand never filters |
| WebApp.DashboardCounts | web_app/app.py:121-135 | the statistics are the total and the three counters |
| WebApp.CountAllSucceeds | web_app/app.py:121-128 | the loop succeeds exactly when every value can be a dict key |
| WebApp.CountAllTallies | web_app/app.py:121-128 | each counter is its column's tally, missing counted as Unknown |
| WebApp.DashboardCountsAddUp | web_app/app.py:121-135 | each counter sums to the total, and each count is the number of matching transcripts |
| AppEnhanced.CountQuestionTypes | web_app/app_enhanced.py:441-446 | the inner loop adds the history's automation and edge_case counts |
| AppEnhanced.TypeCountsError | web_app/app_enhanced.py:440-441 | a history's count can only fail on an entry that is not a dict (no `get`) |
| AppEnhanced.CountCase | web_app/app_enhanced.py:432-446 | one pass of the outer loop body, inner loop included, equals the one-case step of the specification |
| AppEnhanced.CountConversations | web_app/app_enhanced.py:426-446 | the outer loop's four counters equal the conversation counters of the specification, failing exactly where it does |
| AppEnhanced.CalculateEnhancedStatistics | web_app/app_enhanced.py:401-457 | the whole computation equals the statistics specification, failure message included |
| AppEnhanced.TypeCountsBound | web_app/app_enhanced.py:441-446 | automation + edge_case is at most the history length |
| AppEnhanced.TalliesBounds | web_app/app_enhanced.py:428-446 | cases with conversations ≤ total and ≤ questions; automation + edge_case ≤ questions |
| AppEnhanced.EnhancedStatisticsBounds | web_app/app_enhanced.py:405-446 | an empty list gives all zeros; total is the length; 1 ≤ channels ≤ total for a non-empty list; High + Critical ≤ total; conversation bounds |

## Where the code and its description differ

The model follows the code in each case below.

- A synthesised call id agrees with the channel except in one case. A text with none of the token keywords but containing "ivr" gets token UNKNOWN and channel SMS/Bot/IVR (`TranscriptParser.GeneratedIdChannel`).
- The Non-tangible journey type is unreachable: "non-tangible" contains "tangible", so such input becomes Tangible. Only whitespace-only input yields Non-tangible.
- A standalone 15-digit run is counted as an account number, never as an IMEI, because the account pattern runs first.
- All patterns run with `re.IGNORECASE`. The alphanumeric account pattern therefore masks ordinary 8–12-letter words as `[ACCOUNT_NUMBER]`.
- The parenthesised phone pattern starts with `\b\(`, so it needs a word character right before the parenthesis. It is modelled as written.
- The counts from masking `call_id` are discarded.
- The domain-specific fallback questions are appended after the six base questions and then sliced off.
- `_build_conversation_context` reads `transcript_text`, a key parser records never have.

## Left out

- I/O: reading and writing JSON files, PDF text extraction, Flask routes, templates, uploads and downloads, the Excel formatter, and all printing (including the debug loop at web_app/app_fixed.py:172-178, `verify_masking` and the `print_*` summaries).
- Clocks: `datetime.now()` values are string parameters (`now`).
- The LLM service: calls are a function parameter from prompt to optional reply. The network paths of `ask_question` and `get_suggested_questions`, the prompt templates `_create_conversation_prompt`, `_create_suggestions_prompt` and `_get_system_prompt`, and `_test_connection` are outside the model.
- `json.loads` is a function parameter from text to optional value. `json.dumps` and `str()` of lists and dicts are rendered by a simple printer that does not reproduce Python's exact output.
- Floating-point statistics: `avg_questions_per_case`, `conversation_coverage`, `success_rate` and `confidence_score`.
- Python regular expressions are hand-modelled pattern by pattern, with ASCII case folding, ASCII `\d` and `\w`, and ASCII `\b`. Unicode folding is left out.
- `lower`, `upper` and `title` act on ASCII letters only; `strip` and `\s` use Python's whitespace set.
- Python's equality between `True` and `1` (and `False` and `0`) is not modelled. As dictionary keys, distinct JSON values stay distinct keys.
- WebShared.Select: the filter comparison `t.get(key) == filters[key]` is JSON value equality, so a record value `True` does not match a filter value `1` as it would in Python.
- WebApp.Applies: the same holds for the comparisons of web_app/app.py:63-70, which go through WebShared.Select.
- Dictionary iteration order is the insertion order of the source's literals.
- The pipeline call sites to methods that do not exist (`process_pdf`, `process_transcripts`, `mask_transcripts`, `parse_text_file`) are not modelled.
- Exception messages are abstracted to strings in `Failure`.
- ConversationalAi.StepItems: a dict `test_steps` is not modelled. Python lists its keys; the model fails with a message, because dictionary order is not kept. ConversationalAi.BuildConversationContext inherits this failure.
- ConversationalAi.ReadEntry: an automation or edge_case entry whose question is a list fails in the model. Python would put the first 50 items of the list into the insight.
- ConversationalAi.AskedEntry: the float `confidence_score` (0.85) is not stored, like the other floating-point values.
- PiiPatterns.PlaceholderUnmasked: proved for one placeholder token at a time. A whole masked text, with placeholders among words and whitespace, is not proved to pass a second masking unchanged. Whitespace lets the label patterns span tokens, so each pattern would need its own argument.
- TranscriptParser.ExtractConversation: the agent/customer `findall` fallback is not modelled as a separate branch, because `AgentCustomerBranchUnreachable` proves it cannot be reached.
- WebApp.FilterTranscriptsSpec: list elements are taken to be JSON objects (records), which is what the apps' callers supply.
- excel_formatter.py, debug_groq.py, test_env.py and the integration test script are not part of this model.
